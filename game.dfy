// The earlier rewrite of the lesson loop: accuracy only (no timing, no
// score), the first ranked character as the priority character, and lesson
// words produced by a three-argument word generator that belongs to an older
// dictionary package and is a parameter here.
module Game {
  import opened Lesson

  /** The statistics kept for one character; the counts are floating point in this version. */
  datatype CharacterAccuracy = CharacterAccuracy(correct: real, attempts: real, accuracy: real)

  const ZeroAccuracy := CharacterAccuracy(0.0, 0.0, 0.0)

  /** The entry seeded for a character never seen before; accuracy -1 marks it unseen. */
  const UnseenAccuracy := CharacterAccuracy(0.0, 0.0, -1.0)

  /**
   * The word generator of this version: the `i`-th call with the characters,
   * the priority character and the maximum length. The index stands for the
   * random state that differs between calls.
   */
  type Generator = (nat, seq<char>, char, int) -> string

  function Get(accuracies: map<char, CharacterAccuracy>, c: char): CharacterAccuracy
  {
    if c in accuracies then accuracies[c] else ZeroAccuracy
  }

  predicate CountsValid(accuracies: map<char, CharacterAccuracy>)
  {
    forall c :: c in accuracies ==> 0.0 <= accuracies[c].correct <= accuracies[c].attempts
  }

  /** The words of one lesson: `count` generator calls (none when `count` is not positive). */
  function GeneratedWords(generate: Generator, count: int, chars: seq<char>, priority: char, maxLength: int): (ws: seq<string>)
    ensures |ws| == (if count > 0 then count else 0)
  {
    if count <= 0 then [] else GeneratedWords(generate, count - 1, chars, priority, maxLength) + [generate(count - 1, chars, priority, maxLength)]
  }

  /** The `i`-th word of a lesson is the generator's `i`-th call. */
  lemma {:induction false} GeneratedWordsAt(generate: Generator, count: int, chars: seq<char>, priority: char, maxLength: int, i: nat)
    requires i < count
    ensures GeneratedWords(generate, count, chars, priority, maxLength)[i] == generate(i, chars, priority, maxLength)
  {
    if i < count - 1 {
      GeneratedWordsAt(generate, count - 1, chars, priority, maxLength, i);
    }
  }

  /** updateAccuracy on one entry. */
  function UpdatedAccuracy(ca: CharacterAccuracy, success: bool): (r: CharacterAccuracy)
    ensures r.attempts == ca.attempts + 1.0
    ensures r.correct == ca.correct + (if success then 1.0 else 0.0)
    ensures r.attempts > 0.0 ==> r.accuracy == r.correct / r.attempts
    ensures r.attempts <= 0.0 ==> r.accuracy == 0.0
  {
    var attempts := ca.attempts + 1.0;
    var correct := if success then ca.correct + 1.0 else ca.correct;
    CharacterAccuracy(correct, attempts, if attempts > 0.0 then correct / attempts else 0.0)
  }

  /** With consistent counts, the accuracy after an attempt lies in [0, 1] and the counts stay consistent. */
  lemma UpdatedAccuracyBounds(ca: CharacterAccuracy, success: bool)
    requires 0.0 <= ca.correct <= ca.attempts
    ensures var r := UpdatedAccuracy(ca, success);
      0.0 <= r.correct <= r.attempts && 0.0 <= r.accuracy <= 1.0
  {
    var r := UpdatedAccuracy(ca, success);
    RatioInUnit(r.correct, r.attempts);
  }

  lemma RatioInUnit(x: real, y: real)
    requires 0.0 <= x <= y && y > 0.0
    ensures 0.0 <= x / y <= 1.0
  {
    DivMonotone(x, y, y);
    DivMonotone(0.0, x, y);
  }

  /** The word loop of newGame: `count` generated words, each followed by a space. */
  method LessonText(generate: Generator, count: int, chars: seq<char>, priority: char, maxLength: int)
    returns (text: string)
    ensures text == Joined(GeneratedWords(generate, count, chars, priority, maxLength))
  {
    text := "";
    var i := 0;
    while i < count
      invariant 0 <= i && (if count > 0 then i <= count else i == 0)
      invariant text == Joined(GeneratedWords(generate, i, chars, priority, maxLength))
    {
      ghost var before := GeneratedWords(generate, i, chars, priority, maxLength);
      var w := generate(i, chars, priority, maxLength);
      assert GeneratedWords(generate, i + 1, chars, priority, maxLength) == before + [w];
      assert (before + [w])[..|before|] == before;
      text := text + w + " ";
      i := i + 1;
    }
  }

  /** The game context and the graphics state its handlers write. */
  class Context {
    var words: string
    var cursor: int
    var characterPriority: seq<char>
    var currentChars: seq<char>
    var accuracies: map<char, CharacterAccuracy>
    var correct: int
    var incorrect: int
    var numChars: int
    var maxWordLength: int
    var wordCount: int
    var colorMap: seq<Color>
    var requests: seq<Handler>
    var stopped: bool

    /** The context StartGame creates: 15 characters, words of at most 5, 10 words, no statistics. */
    constructor (characterPriority: seq<char>)
      ensures this.characterPriority == characterPriority
      ensures numChars == 15 && maxWordLength == 5 && wordCount == 10 && accuracies == map[]
      ensures words == [] && cursor == 0 && correct == 0 && incorrect == 0
      ensures colorMap == [] && requests == [] && !stopped
    {
      this.characterPriority := characterPriority;
      numChars, maxWordLength, wordCount := 15, 5, 10;
      accuracies := map[];
      words, cursor, currentChars, correct, incorrect := [], 0, [], 0, 0;
      colorMap, requests, stopped := [], [], false;
    }

    function Current(): Handler
      reads this
    {
      Installed(GameHandler, requests)
    }

    predicate Playing()
      reads this
    {
      && Current() == GameHandler
      && |words| >= 2
      && 0 <= cursor <= |words| - 2
      && |colorMap| == |words|
    }

    /**
     * The state newGame leaves: the first NumChars ranked characters, the text
     * of WordCount generated words with the first of them as the priority
     * character, a white colour map as long as the text, unseen entries seeded
     * into `before`, and cursor and counters reset.
     */
    predicate LessonStarted(generate: Generator, before: map<char, CharacterAccuracy>)
      reads this
    {
      && 1 <= numChars <= |characterPriority|
      && currentChars == characterPriority[..numChars]
      && words == Joined(GeneratedWords(generate, wordCount, currentChars, currentChars[0], maxWordLength))
      && |colorMap| == |words| && AllWhite(colorMap)
      && SeededFrom(accuracies, before, currentChars, UnseenAccuracy)
      && cursor == 0 && correct == 0 && incorrect == 0
    }

    /**
     * newGame: the first NumChars ranked characters, the first of them as the
     * priority character, WordCount generated words each followed by a space,
     * a white colour map, unseen entries seeded, cursor and counters reset.
     */
    method NewGame(generate: Generator)
      requires 1 <= numChars <= |characterPriority|
      modifies this`currentChars, this`words, this`colorMap, this`accuracies
      modifies this`cursor, this`correct, this`incorrect
      ensures LessonStarted(generate, old(accuracies))
    {
      var chars := characterPriority[..numChars];
      var text := LessonText(generate, wordCount, chars, chars[0], maxWordLength);
      StartLesson(chars, text);
    }

    /** The rest of newGame once the text exists: white colour map, seeded entries, counters reset. */
    method StartLesson(chars: seq<char>, text: string)
      modifies this`currentChars, this`words, this`colorMap, this`accuracies
      modifies this`cursor, this`correct, this`incorrect
      ensures currentChars == chars && words == text
      ensures |colorMap| == |words| && AllWhite(colorMap)
      ensures SeededFrom(accuracies, old(accuracies), chars, UnseenAccuracy)
      ensures cursor == 0 && correct == 0 && incorrect == 0
    {
      var colors := WhiteColorMap(|text|);
      accuracies := SeedAccuracies(accuracies, chars, UnseenAccuracy);
      currentChars := chars;
      words := text;
      colorMap := colors;
      cursor := 0;
      correct := 0;
      incorrect := 0;
    }

    /** updateAccuracy: only the entry for `c` changes, created from the zero value if absent. */
    method UpdateAccuracy(c: char, success: bool)
      modifies this`accuracies
      ensures accuracies == old(accuracies)[c := UpdatedAccuracy(Get(old(accuracies), c), success)]
    {
      var ca := Get(accuracies, c);
      accuracies := accuracies[c := UpdatedAccuracy(ca, success)];
    }

    /**
     * gameLogic. Escape stops the application and the event is still handled.
     * Backspace whitens the current position and steps back, not below 0. Any
     * other key colours and counts the position, records the attempt and
     * advances; reaching `len(Words)-1` requests the end screen.
     */
    method GameLogic(e: Event)
      requires 0 <= cursor < |colorMap|
      requires !IsBackspace(e) ==> cursor < |words|
      modifies this`accuracies, this`colorMap, this`cursor, this`correct, this`incorrect
      modifies this`requests, this`stopped
      ensures stopped == (old(stopped) || e.key == KeyEscape)
      ensures IsBackspace(e) ==>
        && colorMap == old(colorMap)[old(cursor) := White]
        && cursor == (if old(cursor) > 0 then old(cursor) - 1 else 0)
        && accuracies == old(accuracies) && correct == old(correct) && incorrect == old(incorrect)
        && requests == old(requests)
      ensures !IsBackspace(e) ==>
        var hit := e.ch == words[old(cursor)];
        && accuracies == old(accuracies)[words[old(cursor)] := UpdatedAccuracy(Get(old(accuracies), words[old(cursor)]), hit)]
        && colorMap == old(colorMap)[old(cursor) := if hit then Blue else Red]
        && correct == old(correct) + (if hit then 1 else 0)
        && incorrect == old(incorrect) + (if hit then 0 else 1)
        && cursor == old(cursor) + 1
        && requests == old(requests) + (if cursor >= |words| - 1 then [EndScreenHandler] else [])
      ensures old(Playing()) ==> Playing() || (cursor == |words| - 1 && Current() == EndScreenHandler)
    {
      if e.key == KeyEscape {
        stopped := true;
      }

      if IsBackspace(e) {
        colorMap := colorMap[cursor := White];
        cursor := cursor - 1;
        if cursor < 0 {
          cursor := 0;
        }
        return;
      }

      var c := words[cursor];
      if e.ch == c {
        colorMap := colorMap[cursor := Blue];
        correct := correct + 1;
        UpdateAccuracy(c, true);
      } else {
        colorMap := colorMap[cursor := Red];
        incorrect := incorrect + 1;
        UpdateAccuracy(c, false);
      }

      cursor := cursor + 1;
      if cursor >= |words| - 1 {
        requests := requests + [EndScreenHandler];
      }
    }

    /** endScreenLogic: Enter starts a new lesson and requests the game handler; Escape stops. */
    method EndScreenLogic(e: Event, generate: Generator)
      requires e.key == KeyEnter ==> 1 <= numChars <= |characterPriority|
      modifies this`currentChars, this`words, this`colorMap, this`accuracies
      modifies this`cursor, this`correct, this`incorrect, this`requests, this`stopped
      ensures e.key == KeyEnter ==>
        && LessonStarted(generate, old(accuracies))
        && Current() == GameHandler && stopped == old(stopped)
        && requests == old(requests) + [GameHandler]
        && (|words| >= 2 ==> Playing())
      ensures e.key != KeyEnter ==>
        && words == old(words) && cursor == old(cursor) && accuracies == old(accuracies)
        && colorMap == old(colorMap) && requests == old(requests) && currentChars == old(currentChars)
        && correct == old(correct) && incorrect == old(incorrect)
        && stopped == (old(stopped) || e.key == KeyEscape)
    {
      if e.key == KeyEnter {
        NewGame(generate);
        requests := requests + [GameHandler];
        return;
      } else if e.key == KeyEscape {
        stopped := true;
      }
    }
  }

  /** updateAccuracy keeps consistent counts consistent in the whole map. */
  lemma UpdateKeepsCounts(accuracies: map<char, CharacterAccuracy>, c: char, success: bool)
    requires CountsValid(accuracies)
    ensures CountsValid(accuracies[c := UpdatedAccuracy(Get(accuracies, c), success)])
  {
    UpdatedAccuracyBounds(Get(accuracies, c), success);
  }
}
