// Pieces shared by the three generations of the lesson loop: the per-position
// colour map, the handler that receives the next keystroke, the lesson text
// built by appending every word followed by a space, and the seeding of
// statistics for lesson characters not seen before.
module Lesson {

  /** The colour shown for one position of the lesson text. */
  datatype Color = White | Blue | Red | Green

  /** Which input-capture function handles the next keystroke. */
  datatype Handler = GameHandler | EndScreenHandler

  /** The key of a terminal key event; `KeyRune` carries a printable character. */
  datatype Key = KeyRune | KeyBackspace | KeyBackspace2 | KeyEscape | KeyEnter

  /** A key event: its key and the character it reports. */
  datatype Event = Event(key: Key, ch: char)

  predicate IsBackspace(e: Event)
  {
    e.key == KeyBackspace || e.key == KeyBackspace2
  }

  /** The lesson text: every word followed by one space. */
  function Joined(words: seq<string>): string
  {
    if words == [] then []
    else Joined(words[..|words| - 1]) + words[|words| - 1] + [' ']
  }

  /** Sum of the word lengths. */
  function TotalLength(words: seq<string>): nat
  {
    if words == [] then 0
    else TotalLength(words[..|words| - 1]) + |words[|words| - 1]|
  }

  /** Builds the lesson text by appending `word + " "` for each word in turn. */
  method JoinWords(words: seq<string>) returns (text: string)
    ensures text == Joined(words)
    ensures |text| == TotalLength(words) + |words|
    ensures forall c :: c in text ==> c == ' ' || exists k :: 0 <= k < |words| && c in words[k]
  {
    text := "";
    var i := 0;
    while i < |words|
      invariant 0 <= i <= |words|
      invariant text == Joined(words[..i])
    {
      assert words[..i + 1][..i] == words[..i];
      text := text + words[i] + " ";
      i := i + 1;
    }
    assert words[..i] == words;
    JoinedLength(words);
    JoinedChars(words);
  }

  lemma {:induction false} JoinedLength(words: seq<string>)
    ensures |Joined(words)| == TotalLength(words) + |words|
  {
    if words != [] {
      JoinedLength(words[..|words| - 1]);
    }
  }

  /** Every character of the lesson text is a space or a character of one of the words. */
  lemma {:induction false} JoinedChars(words: seq<string>)
    ensures forall c :: c in Joined(words) ==> c == ' ' || exists k :: 0 <= k < |words| && c in words[k]
  {
    if words != [] {
      var init := words[..|words| - 1];
      JoinedChars(init);
      forall c | c in Joined(words)
        ensures c == ' ' || exists k :: 0 <= k < |words| && c in words[k]
      {
        if c in Joined(init) && c != ' ' {
          var k :| 0 <= k < |init| && c in init[k];
          assert words[k] == init[k];
        } else if c != ' ' {
          assert c in words[|words| - 1];
        }
      }
    }
  }

  predicate AllWhite(colors: seq<Color>)
  {
    forall i :: 0 <= i < |colors| ==> colors[i] == White
  }

  /** A fresh colour map for a lesson text of length `n`: every position white. */
  method WhiteColorMap(n: nat) returns (colors: seq<Color>)
    ensures |colors| == n
    ensures AllWhite(colors)
  {
    var a := new Color[n];
    var i := 0;
    while i < n
      invariant 0 <= i <= n
      invariant forall j :: 0 <= j < i ==> a[j] == White
    {
      a[i] := White;
      i := i + 1;
    }
    colors := a[..];
  }

  /** The handler that receives the next keystroke: the last one requested wins. */
  function Installed(initial: Handler, requests: seq<Handler>): Handler
  {
    if requests == [] then initial else requests[|requests| - 1]
  }

  /**
   * Installing requests in two batches is installing them in one: the handler
   * after `rs` is the starting point for `qs`.
   */
  lemma InstalledAppend(initial: Handler, rs: seq<Handler>, qs: seq<Handler>)
    ensures Installed(Installed(initial, rs), qs) == Installed(initial, rs + qs)
  {
    if qs != [] {
      assert (rs + qs)[|rs + qs| - 1] == qs[|qs| - 1];
    }
  }

  /** `seeded` is `accuracies` with the entry `unseen` added for each of `chars` that had none. */
  predicate SeededFrom<A(==)>(seeded: map<char, A>, accuracies: map<char, A>, chars: seq<char>, unseen: A)
  {
    && (forall c :: c in seeded <==> c in accuracies || c in chars)
    && (forall c :: c in accuracies ==> seeded[c] == accuracies[c])
    && (forall c :: c in seeded && c !in accuracies ==> seeded[c] == unseen)
  }

  /** The seeding loop of newGame: an `unseen` entry for each lesson character without one. */
  method SeedAccuracies<A(==)>(accuracies: map<char, A>, chars: seq<char>, unseen: A)
    returns (seeded: map<char, A>)
    ensures SeededFrom(seeded, accuracies, chars, unseen)
  {
    seeded := accuracies;
    var i := 0;
    while i < |chars|
      invariant 0 <= i <= |chars|
      invariant SeededFrom(seeded, accuracies, chars[..i], unseen)
    {
      assert chars[..i + 1] == chars[..i] + [chars[i]];
      if chars[i] !in seeded {
        seeded := seeded[chars[i] := unseen];
      }
      i := i + 1;
    }
    assert chars[..i] == chars;
  }

  /** Division by a positive real is monotone. */
  lemma DivMonotone(x: real, y: real, d: real)
    requires x <= y && d > 0.0
    ensures x / d <= y / d
  {
    assert y / d - x / d == (y - x) / d;
  }
}
