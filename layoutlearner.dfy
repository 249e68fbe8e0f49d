// The first generation of the lesson loop: the application entry point builds
// a lesson from the five most frequent characters and handles keystrokes in a
// closure that keeps the lesson text, its colour map and the cursor.
module LayoutLearner {
  import opened Lesson

  /** Characters used for a lesson: the first five of the ranking. */
  const NumChars := 5

  /** Words in a lesson. */
  const WordCount := 10

  /**
   * The random draws of one generateWord call: the length roll in [0, 3),
   * the priority position in [0, length) and, for every position, the index
   * of the character drawn there (the draw at the priority position is not made).
   */
  datatype WordRolls = WordRolls(lengthRoll: nat, priorityPosition: nat, picks: seq<nat>)

  predicate ValidWordRolls(r: WordRolls, numChars: nat)
  {
    && r.lengthRoll < 3
    && r.priorityPosition < r.lengthRoll + 3
    && |r.picks| == r.lengthRoll + 3
    && forall i :: 0 <= i < |r.picks| ==> r.picks[i] < numChars
  }

  /** Draws for a whole lesson: one set of word draws per word, over five characters. */
  predicate ValidLessonRolls(rolls: seq<WordRolls>)
  {
    |rolls| == WordCount && forall k :: 0 <= k < |rolls| ==> ValidWordRolls(rolls[k], NumChars)
  }

  /** The word generateWord spells from its draws. */
  function Spelled(chars: seq<char>, priority: char, r: WordRolls): (w: string)
    requires ValidWordRolls(r, |chars|)
    ensures |w| == r.lengthRoll + 3
  {
    seq(r.lengthRoll + 3, i requires 0 <= i < r.lengthRoll + 3 =>
      if i == r.priorityPosition then priority else chars[r.picks[i]])
  }

  /**
   * generateWord: a word of 3 to 5 characters with the priority character at
   * the drawn position and a drawn character of `chars` everywhere else.
   */
  method GenerateWord(chars: seq<char>, priority: char, r: WordRolls) returns (word: string)
    requires ValidWordRolls(r, |chars|)
    ensures word == Spelled(chars, priority, r)
    ensures 3 <= |word| <= 5
    ensures word[r.priorityPosition] == priority
    ensures forall c :: c in word ==> c == priority || c in chars
  {
    var length := r.lengthRoll + 3;
    word := "";
    var i := 0;
    while i < length
      invariant 0 <= i <= length
      invariant |word| == i
      invariant forall j :: 0 <= j < i ==> word[j] == Spelled(chars, priority, r)[j]
    {
      if i == r.priorityPosition {
        word := word + [priority];
        i := i + 1;
        continue;
      }
      word := word + [chars[r.picks[i]]];
      i := i + 1;
    }
    SpelledChars(chars, priority, r);
  }

  lemma SpelledChars(chars: seq<char>, priority: char, r: WordRolls)
    requires ValidWordRolls(r, |chars|)
    ensures forall c :: c in Spelled(chars, priority, r) ==> c == priority || c in chars
  {
    var w := Spelled(chars, priority, r);
    forall c | c in w
      ensures c == priority || c in chars
    {
      var i :| 0 <= i < |w| && w[i] == c;
      if i != r.priorityPosition {
        assert chars[r.picks[i]] == c;
      }
    }
  }

  /** The words of one lesson: the first five ranked characters, the first of them as priority. */
  function LessonWords(characterPriority: seq<char>, rolls: seq<WordRolls>): (ws: seq<string>)
    requires |characterPriority| >= NumChars && ValidLessonRolls(rolls)
    ensures |ws| == WordCount
  {
    var chars := characterPriority[..NumChars];
    seq(WordCount, k requires 0 <= k < WordCount => Spelled(chars, chars[0], rolls[k]))
  }

  /**
   * newGame: ten generated words each followed by a space, and a white colour
   * map with one entry per byte of the text.
   */
  method NewGame(characterPriority: seq<char>, rolls: seq<WordRolls>) returns (words: string, colorMap: seq<Color>)
    requires |characterPriority| >= NumChars && ValidLessonRolls(rolls)
    ensures words == Joined(LessonWords(characterPriority, rolls))
    ensures 40 <= |words| <= 60
    ensures |colorMap| == |words| && AllWhite(colorMap)
  {
    var usedCharacters := characterPriority[..NumChars];
    var priorityCharacter := usedCharacters[0];
    words := "";
    var i := 0;
    while i < WordCount
      invariant 0 <= i <= WordCount
      invariant words == Joined(LessonWords(characterPriority, rolls)[..i])
    {
      var w := GenerateWord(usedCharacters, priorityCharacter, rolls[i]);
      assert LessonWords(characterPriority, rolls)[..i + 1][..i] == LessonWords(characterPriority, rolls)[..i];
      words := words + w + " ";
      i := i + 1;
    }
    assert LessonWords(characterPriority, rolls)[..i] == LessonWords(characterPriority, rolls);
    LessonLength(characterPriority, rolls);
    colorMap := WhiteColorMap(|words|);
  }

  /** A lesson text has between 40 and 60 positions: ten words of 3 to 5 characters, each with a space. */
  lemma LessonLength(characterPriority: seq<char>, rolls: seq<WordRolls>)
    requires |characterPriority| >= NumChars && ValidLessonRolls(rolls)
    ensures 40 <= |Joined(LessonWords(characterPriority, rolls))| <= 60
  {
    var ws := LessonWords(characterPriority, rolls);
    JoinedLength(ws);
    TotalLengthBounds(ws);
  }

  /** Words of 3 to 5 characters have a total length between 3 and 5 per word. */
  lemma {:induction false} TotalLengthBounds(ws: seq<string>)
    requires forall k :: 0 <= k < |ws| ==> 3 <= |ws[k]| <= 5
    ensures 3 * |ws| <= TotalLength(ws) <= 5 * |ws|
  {
    if ws != [] {
      TotalLengthBounds(ws[..|ws| - 1]);
    }
  }

  /** Every character of a lesson is a space or one of the five lesson characters. */
  lemma LessonChars(characterPriority: seq<char>, rolls: seq<WordRolls>)
    requires |characterPriority| >= NumChars && ValidLessonRolls(rolls)
    ensures forall c :: c in Joined(LessonWords(characterPriority, rolls)) ==> c == ' ' || c in characterPriority[..NumChars]
  {
    var chars := characterPriority[..NumChars];
    var ws := LessonWords(characterPriority, rolls);
    JoinedChars(ws);
    forall c | c in Joined(ws) && c != ' '
      ensures c in chars
    {
      var k :| 0 <= k < |ws| && c in ws[k];
      SpelledChars(chars, chars[0], rolls[k]);
    }
  }

  /** Every word of a lesson contains the priority character, the most frequent one. */
  lemma LessonPriority(characterPriority: seq<char>, rolls: seq<WordRolls>, k: nat)
    requires |characterPriority| >= NumChars && ValidLessonRolls(rolls) && k < WordCount
    ensures characterPriority[0] in LessonWords(characterPriority, rolls)[k]
  {
    var r := rolls[k];
    assert LessonWords(characterPriority, rolls)[k][r.priorityPosition] == characterPriority[0];
  }

  /** The state the keystroke closure captures: the ranking, the lesson text, its colours and the cursor. */
  class Session {
    var characterPriority: seq<char>
    var words: string
    var colorMap: seq<Color>
    var currentChar: int

    /** The closure's invariant: the cursor is on a position of the text and the colours cover the text. */
    predicate Valid()
      reads this
    {
      && |characterPriority| >= NumChars
      && 0 <= currentChar < |words|
      && |colorMap| == |words|
    }

    /** main after the ranking is read: the first lesson, the cursor at position 0. */
    constructor (characterPriority: seq<char>, rolls: seq<WordRolls>)
      requires |characterPriority| >= NumChars && ValidLessonRolls(rolls)
      ensures Valid()
      ensures this.characterPriority == characterPriority
      ensures words == Joined(LessonWords(characterPriority, rolls))
      ensures AllWhite(colorMap) && currentChar == 0
    {
      this.characterPriority := characterPriority;
      var w, cm := NewGame(characterPriority, rolls);
      words := w;
      colorMap := cm;
      currentChar := 0;
    }

    /**
     * The input-capture closure. Backspace whitens the current position and
     * steps back, not below 0. Any other key colours the position green when
     * its character matches the text and red otherwise, then advances; moving
     * past the last position starts a new lesson from `rolls` at position 0.
     * The closure's guard against a cursor past the text is never taken while
     * the invariant holds.
     */
    method HandleKey(e: Event, rolls: seq<WordRolls>)
      requires Valid() && ValidLessonRolls(rolls)
      modifies this`words, this`colorMap, this`currentChar
      ensures Valid()
      ensures IsBackspace(e) ==>
        && words == old(words)
        && colorMap == old(colorMap)[old(currentChar) := White]
        && currentChar == (if old(currentChar) > 0 then old(currentChar) - 1 else 0)
      ensures !IsBackspace(e) && old(currentChar) + 1 < |old(words)| ==>
        && words == old(words)
        && colorMap == old(colorMap)[old(currentChar) := if e.ch == old(words)[old(currentChar)] then Green else Red]
        && currentChar == old(currentChar) + 1
      ensures !IsBackspace(e) && old(currentChar) + 1 >= |old(words)| ==>
        && words == Joined(LessonWords(characterPriority, rolls))
        && AllWhite(colorMap)
        && currentChar == 0
    {
      if currentChar >= |words| {
        assert false;
        return;
      }

      if IsBackspace(e) {
        colorMap := colorMap[currentChar := White];
        currentChar := currentChar - 1;
        if currentChar < 0 {
          currentChar := 0;
        }
        return;
      }

      if e.ch == words[currentChar] {
        colorMap := colorMap[currentChar := Green];
      } else {
        colorMap := colorMap[currentChar := Red];
      }

      currentChar := currentChar + 1;
      if currentChar >= |words| {
        var w, cm := NewGame(characterPriority, rolls);
        words, colorMap := w, cm;
        currentChar := 0;
      }
    }
  }
}
