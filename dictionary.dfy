// The dictionary algorithms: ranking the characters of a word list by how
// often they occur, generating constrained pseudo-words, and sampling lesson
// words from the word list. The word list is given as its lines; a list that
// cannot be opened is `Unreadable`. Every random draw is an explicit input.
module Dictionary {

  /** The word list: its lines, or the fact that it could not be opened. */
  datatype Corpus = Unreadable | Lines(lines: seq<string>)

  /** A value, or the error of a word list that could not be opened. */
  datatype Result<T> = Ok(value: T) | IOError

  /** The character value a rune variable holds before anything is assigned. */
  const NUL: char := 0 as char

  // ---------------------------------------------------------------------------
  // Case folding, byte lengths and counting

  /** Lower-casing of one character; only ASCII letters are folded. */
  function ToLower(c: char): char
  {
    if 'A' <= c <= 'Z' then (c as int + 32) as char else c
  }

  /**
   * Lower-casing of a line: the length is kept, no upper-case ASCII letter
   * remains, every other character is left as it was, and each upper-case
   * letter becomes its lower-case partner.
   */
  function Lower(s: string): (r: string)
    ensures |r| == |s|
    ensures forall i :: 0 <= i < |r| ==> !('A' <= r[i] <= 'Z')
    ensures forall i :: 0 <= i < |s| && !('A' <= s[i] <= 'Z') ==> r[i] == s[i]
    ensures forall i :: 0 <= i < |s| && 'A' <= s[i] <= 'Z' ==> 'a' <= r[i] <= 'z' && r[i] as int - s[i] as int == 32
  {
    seq(|s|, i requires 0 <= i < |s| => ToLower(s[i]))
  }

  /** Lower-casing twice is lower-casing once. */
  lemma LowerIdempotent(s: string)
    ensures Lower(Lower(s)) == Lower(s)
  {
    var r := Lower(s);
    assert forall i :: 0 <= i < |r| ==> Lower(r)[i] == r[i];
  }

  /** The number of bytes of the UTF-8 encoding of one character. */
  function RuneLen(c: char): nat
  {
    if c as int < 0x80 then 1
    else if c as int < 0x800 then 2
    else if c as int < 0x10000 then 3
    else 4
  }

  /** The number of bytes of the UTF-8 encoding of a string, as Go's `len`. */
  function ByteLen(s: string): nat
  {
    if s == [] then 0 else ByteLen(s[..|s| - 1]) + RuneLen(s[|s| - 1])
  }

  /** How often `c` occurs in `s`. */
  function CountIn(s: string, c: char): nat
  {
    if s == [] then 0
    else CountIn(s[..|s| - 1], c) + (if s[|s| - 1] == c then 1 else 0)
  }

  /** How often `c` occurs in the lower-cased lines. */
  function Occurrences(lines: seq<string>, c: char): nat
  {
    if lines == [] then 0
    else Occurrences(lines[..|lines| - 1], c) + CountIn(Lower(lines[|lines| - 1]), c)
  }

  lemma {:induction false} CountInAppend(s: string, x: char, c: char)
    ensures CountIn(s + [x], c) == CountIn(s, c) + (if x == c then 1 else 0)
  {
    assert (s + [x])[..|s|] == s;
  }

  lemma {:induction false} CountInPositive(s: string, c: char)
    ensures CountIn(s, c) > 0 <==> c in s
  {
    if s != [] {
      CountInPositive(s[..|s| - 1], c);
      assert s == s[..|s| - 1] + [s[|s| - 1]];
    }
  }

  predicate Distinct(s: seq<char>)
  {
    forall i, j :: 0 <= i < j < |s| ==> s[i] != s[j]
  }

  /** `s` is ordered by non-increasing count; every element has a count. */
  predicate ByCount(s: seq<char>, count: map<char, nat>)
  {
    && (forall i :: 0 <= i < |s| ==> s[i] in count)
    && (forall i, j :: 0 <= i < j < |s| ==> count[s[i]] >= count[s[j]])
  }

  // ---------------------------------------------------------------------------
  // GetCharacterPriority

  /**
   * Counts every character of the lower-cased lines in a map, collects the
   * map's keys in its (arbitrary) iteration order and sorts them by
   * descending count. The order among equal counts is not specified.
   */
  method GetCharacterPriority(corpus: Corpus) returns (r: Result<seq<char>>)
    ensures corpus.Unreadable? <==> r.IOError?
    ensures corpus.Lines? ==> Distinct(r.value)
    ensures corpus.Lines? ==> forall c :: c in r.value <==> Occurrences(corpus.lines, c) > 0
    ensures corpus.Lines? ==> forall i, j :: 0 <= i < j < |r.value| ==>
      Occurrences(corpus.lines, r.value[i]) >= Occurrences(corpus.lines, r.value[j])
  {
    if corpus.Unreadable? {
      return IOError;
    }
    var lines := corpus.lines;
    var occurrences := CountCharacters(lines);

    // Collect the keys, in whatever order the map yields them.
    var characters: seq<char> := [];
    var remaining := occurrences.Keys;
    while remaining != {}
      invariant remaining <= occurrences.Keys
      invariant Distinct(characters)
      invariant forall c :: c in characters <==> c in occurrences && c !in remaining
      decreases |remaining|
    {
      var c :| c in remaining;
      characters := characters + [c];
      remaining := remaining - {c};
    }

    // Sort by descending count.
    var sorted: seq<char> := [];
    var k := 0;
    while k < |characters|
      invariant 0 <= k <= |characters|
      invariant Distinct(sorted)
      invariant ByCount(sorted, occurrences)
      invariant forall c :: c in sorted <==> c in characters[..k]
    {
      assert characters[k] !in characters[..k];
      sorted := InsertByCount(sorted, characters[k], occurrences);
      assert characters[..k + 1] == characters[..k] + [characters[k]];
      k := k + 1;
    }
    assert characters[..k] == characters;
    forall i, j | 0 <= i < j < |sorted|
      ensures Occurrences(lines, sorted[i]) >= Occurrences(lines, sorted[j])
    {
      assert occurrences[sorted[i]] >= occurrences[sorted[j]];
    }
    r := Ok(sorted);
  }

  /** The counting loop: after it, the map holds exactly the characters that occur, with their counts. */
  method CountCharacters(lines: seq<string>) returns (occurrences: map<char, nat>)
    ensures forall c :: c in occurrences <==> Occurrences(lines, c) > 0
    ensures forall c :: c in occurrences ==> occurrences[c] == Occurrences(lines, c)
  {
    occurrences := map[];
    var i := 0;
    while i < |lines|
      invariant 0 <= i <= |lines|
      invariant forall c :: c in occurrences ==> occurrences[c] == Occurrences(lines[..i], c) > 0
      invariant forall c :: c !in occurrences ==> Occurrences(lines[..i], c) == 0
    {
      var word := Lower(lines[i]);
      var j := 0;
      while j < |word|
        invariant 0 <= j <= |word|
        invariant forall c :: c in occurrences ==>
          occurrences[c] == Occurrences(lines[..i], c) + CountIn(word[..j], c) > 0
        invariant forall c :: c !in occurrences ==> Occurrences(lines[..i], c) + CountIn(word[..j], c) == 0
      {
        var ch := word[j];
        assert word[..j + 1] == word[..j] + [ch];
        CountInAppend(word[..j], ch, ch);
        forall c ensures CountIn(word[..j + 1], c) == CountIn(word[..j], c) + (if ch == c then 1 else 0) {
          CountInAppend(word[..j], ch, c);
        }
        if ch in occurrences {
          occurrences := occurrences[ch := occurrences[ch] + 1];
        } else {
          occurrences := occurrences[ch := 1];
        }
        j := j + 1;
      }
      assert word[..j] == word;
      assert lines[..i + 1][..i] == lines[..i];
      i := i + 1;
    }
    assert lines[..i] == lines;
  }

  /** Inserts `x` before the first element with a smaller count (sort.Slice on descending counts). */
  method InsertByCount(sorted: seq<char>, x: char, count: map<char, nat>) returns (r: seq<char>)
    requires ByCount(sorted, count) && Distinct(sorted)
    requires x in count && x !in sorted
    ensures ByCount(r, count) && Distinct(r)
    ensures forall c :: c in r <==> c in sorted || c == x
  {
    var j := 0;
    while j < |sorted| && count[sorted[j]] >= count[x]
      invariant 0 <= j <= |sorted|
      invariant forall i :: 0 <= i < j ==> count[sorted[i]] >= count[x]
    {
      j := j + 1;
    }
    r := sorted[..j] + [x] + sorted[j..];
    assert forall i :: 0 <= i < |r| ==> r[i] == (if i < j then sorted[i] else if i == j then x else sorted[i - 1]);
  }

  // ---------------------------------------------------------------------------
  // GenerateWord and getRandomCharacter

  /** The usage count of `c` so far; a missing map entry reads as 0. */
  function Used(used: map<char, int>, c: char): int
  {
    if c in used then used[c] else 0
  }

  /** The candidates getRandomCharacter collects, in the order of `chars`. */
  function Available(chars: seq<char>, used: map<char, int>, maxUsage: int, exclude: char): seq<char>
  {
    if chars == [] then []
    else
      var c := chars[|chars| - 1];
      Available(chars[..|chars| - 1], used, maxUsage, exclude)
        + (if c != exclude && Used(used, c) < maxUsage then [c] else [])
  }

  /** A candidate is an element of `chars` other than `exclude` used fewer than `maxUsage` times. */
  lemma {:induction false} AvailableMembers(chars: seq<char>, used: map<char, int>, maxUsage: int, exclude: char)
    ensures forall c :: c in Available(chars, used, maxUsage, exclude) <==>
      c in chars && c != exclude && Used(used, c) < maxUsage
  {
    if chars != [] {
      var init := chars[..|chars| - 1];
      AvailableMembers(init, used, maxUsage, exclude);
      assert chars == init + [chars[|chars| - 1]];
    }
  }

  /**
   * Collects the candidates and returns the one at index `pick` (the
   * `rand.Intn(len(availableChars))` draw), or ' ' when there is none.
   */
  method GetRandomCharacter(chars: seq<char>, used: map<char, int>, maxUsage: int, exclude: char, pick: nat)
    returns (c: char)
    requires pick < |Available(chars, used, maxUsage, exclude)| || Available(chars, used, maxUsage, exclude) == []
    ensures Available(chars, used, maxUsage, exclude) != [] ==> c == Available(chars, used, maxUsage, exclude)[pick]
    ensures (exists x :: x in chars && x != exclude && Used(used, x) < maxUsage) ==>
      c in chars && c != exclude && Used(used, c) < maxUsage
    ensures !(exists x :: x in chars && x != exclude && Used(used, x) < maxUsage) ==> c == ' '
  {
    var available: seq<char> := [];
    var i := 0;
    while i < |chars|
      invariant 0 <= i <= |chars|
      invariant available == Available(chars[..i], used, maxUsage, exclude)
    {
      assert chars[..i + 1][..i] == chars[..i];
      var ch := chars[i];
      if ch != exclude && Used(used, ch) < maxUsage {
        available := available + [ch];
      }
      i := i + 1;
    }
    assert chars[..i] == chars;
    AvailableMembers(chars, used, maxUsage, exclude);
    if |available| > 0 {
      c := available[pick];
    } else {
      c := ' ';
    }
  }

  /** The random draws of one GenerateWord call. */
  datatype WordRolls = WordRolls(lengthRoll: nat, priorityRoll: nat, draws: seq<nat>)

  /**
   * The draws are ones `rand.Intn` can return: the length draw is below
   * `maxLength - minLength` (rand.Intn panics unless that is positive), the
   * priority position below the length, and there is one raw draw per
   * position for getRandomCharacter, which takes it modulo the number of
   * candidates (so every candidate index is reachable).
   */
  predicate ValidRolls(rolls: WordRolls, minLength: int, maxLength: int)
  {
    && maxLength > minLength
    && rolls.lengthRoll < maxLength - minLength
    && rolls.priorityRoll < rolls.lengthRoll + minLength
    && |rolls.draws| >= rolls.lengthRoll + minLength
  }

  /** The length GenerateWord aims for: drawn from the half-open window [minLength, maxLength). */
  function WordLength(rolls: WordRolls, minLength: int, maxLength: int): (length: nat)
    requires ValidRolls(rolls, minLength, maxLength)
    ensures minLength <= length < maxLength
    ensures rolls.priorityRoll < length
  {
    rolls.lengthRoll + minLength
  }

  /**
   * Builds a word position by position: the priority character at the drawn
   * position (unless the previous random character already is it), a random
   * candidate elsewhere; a missing candidate ends the word early.
   */
  method GenerateWord(chars: seq<char>, priority: char, minLength: int, maxLength: int, rolls: WordRolls)
    returns (word: string)
    requires ValidRolls(rolls, minLength, maxLength)
    ensures |word| <= WordLength(rolls, minLength, maxLength)
    ensures forall c :: c in word ==> c == priority || (c in chars && c != ' ')
    ensures priority != NUL && |word| > rolls.priorityRoll ==> priority in word
    ensures forall c :: c != priority ==> CountIn(word, c) <= WordLength(rolls, minLength, maxLength) / 2
    ensures CountIn(word, priority) <= WordLength(rolls, minLength, maxLength) / 2 + 1
  {
    var length := WordLength(rolls, minLength, maxLength);
    var priorityPosition := rolls.priorityRoll;

    var used: map<char, int> := map[];
    var k := 0;
    while k < |chars|
      invariant 0 <= k <= |chars|
      invariant forall c :: c in used ==> used[c] == 0
    {
      used := used[chars[k] := 0];
      k := k + 1;
    }

    var previous := NUL;
    var inARow := 0;
    word := "";
    var i := 0;
    while i < length
      invariant 0 <= i <= length
      invariant |word| <= i
      invariant forall c :: Used(used, c) == CountIn(word, c)
      invariant forall c :: c in word ==> c == priority || (c in chars && c != ' ')
      invariant previous == NUL || previous in word
      invariant priority != NUL && i > priorityPosition ==> priority in word
      invariant forall c :: c != priority ==> CountIn(word, c) <= length / 2
      invariant CountIn(word, priority) <= length / 2 + (if i > priorityPosition then 1 else 0)
    {
      if i == priorityPosition && previous != priority {
        forall c ensures CountIn(word + [priority], c) == CountIn(word, c) + (if priority == c then 1 else 0) {
          CountInAppend(word, priority, c);
        }
        word := word + [priority];
        used := used[priority := Used(used, priority) + 1];
      } else {
        var exclude := if inARow == 2 then previous else NUL;
        var candidates := |Available(chars, used, length / 2, exclude)|;
        var pick := if candidates > 0 then rolls.draws[i] % candidates else 0;
        var ch := GetRandomCharacter(chars, used, length / 2, exclude, pick);
        if ch == ' ' {
          break;
        }
        forall c ensures CountIn(word + [ch], c) == CountIn(word, c) + (if ch == c then 1 else 0) {
          CountInAppend(word, ch, c);
        }
        word := word + [ch];
        used := used[ch := Used(used, ch) + 1];
        if ch == previous {
          inARow := inARow + 1;
        } else {
          inARow := 1;
        }
        previous := ch;
      }
      i := i + 1;
    }
  }

  // ---------------------------------------------------------------------------
  // GetWordsFromChars

  /** A lower-cased word the sampler keeps: byte length in [minLength, maxLength], only `chars`, contains `priority`. */
  predicate Keep(word: string, chars: seq<char>, priority: char, minLength: int, maxLength: int)
  {
    && minLength <= ByteLen(word) <= maxLength
    && (forall c :: c in word ==> c in chars)
    && priority in word
  }

  /** The kept words of the lower-cased lines, in corpus order. */
  function Matching(lines: seq<string>, chars: seq<char>, priority: char, minLength: int, maxLength: int): seq<string>
  {
    if lines == [] then []
    else
      var word := Lower(lines[|lines| - 1]);
      Matching(lines[..|lines| - 1], chars, priority, minLength, maxLength)
        + (if Keep(word, chars, priority, minLength, maxLength) then [word] else [])
  }

  lemma {:induction false} MatchingKept(lines: seq<string>, chars: seq<char>, priority: char, minLength: int, maxLength: int)
    ensures forall w :: w in Matching(lines, chars, priority, minLength, maxLength) ==>
      Keep(w, chars, priority, minLength, maxLength)
  {
    if lines != [] {
      MatchingKept(lines[..|lines| - 1], chars, priority, minLength, maxLength);
    }
  }

  /** The shape of a word the top-up generates. */
  predicate Generated(word: string, chars: seq<char>, priority: char, maxLength: int)
  {
    && |word| < maxLength
    && (forall c :: c in word ==> c == priority || (c in chars && c != ' '))
  }

  /**
   * The pool size after the top-up of a pool of `n` matching words. The
   * top-up loop compares against `4 - len(words)` while it appends, so it
   * stops half way: 0, 1, 2, 3 matches grow to 2, 3, 3, 4 words.
   */
  function PoolSize(n: nat): (size: nat)
    ensures size >= 2 && size >= n
    ensures n >= 4 ==> size == n
    ensures n < 3 ==> size < 4
  {
    if n >= 4 then n else n + (5 - n) / 2
  }

  /**
   * The draws GetWordsFromChars needs: when fewer than four words match, one
   * set of GenerateWord draws per generated word; and one `rand.Intn(len(words))`
   * draw per selected word, taken modulo the pool size when it is used, so
   * that any draw fits whichever pool the priority character yields.
   */
  predicate SamplingDraws(lines: seq<string>, chars: seq<char>, priority: char, minLength: int, maxLength: int,
                          amount: nat, fill: seq<WordRolls>, picks: seq<nat>)
  {
    var n := |Matching(lines, chars, priority, minLength, maxLength)|;
    && (n < 4 ==> |fill| >= PoolSize(n) - n && forall k :: 0 <= k < |fill| ==> ValidRolls(fill[k], minLength, maxLength))
    && |picks| == amount
  }

  /** The inner scan of one word: every character is in the set and the priority character occurs. */
  method IsCandidate(word: string, charsSet: set<char>, priority: char) returns (ok: bool)
    ensures ok <==> (forall c :: c in word ==> c in charsSet) && priority in word
  {
    var priorityFound := false;
    var invalidChar := false;
    var j := 0;
    while j < |word|
      invariant 0 <= j <= |word|
      invariant forall c :: c in word[..j] ==> c in charsSet
      invariant priorityFound <==> priority in word[..j]
    {
      if word[j] !in charsSet {
        invalidChar := true;
        break;
      }
      if word[j] == priority {
        priorityFound := true;
      }
      assert word[..j + 1] == word[..j] + [word[j]];
      j := j + 1;
    }
    if !invalidChar {
      assert word[..j] == word;
    }
    ok := !invalidChar && priorityFound;
  }

  /**
   * Keeps the matching lower-cased lines, tops a pool of fewer than four up
   * with generated words, and draws `amount` words from the pool with
   * replacement. `pool` is the pool the draws were made from.
   */
  method GetWordsFromChars(corpus: Corpus, chars: seq<char>, priority: char, minLength: int, maxLength: int,
                           amount: nat, fill: seq<WordRolls>, picks: seq<nat>)
    returns (r: Result<seq<string>>, ghost pool: seq<string>)
    requires corpus.Lines? ==> SamplingDraws(corpus.lines, chars, priority, minLength, maxLength, amount, fill, picks)
    ensures corpus.Unreadable? <==> r.IOError?
    ensures corpus.Lines? ==>
      var found := Matching(corpus.lines, chars, priority, minLength, maxLength);
      && |pool| == PoolSize(|found|)
      && pool[..|found|] == found
      && (forall k :: |found| <= k < |pool| ==> Generated(pool[k], chars, priority, maxLength))
      && |r.value| == amount
      && (forall k :: 0 <= k < amount ==> r.value[k] == pool[picks[k] % |pool|])
    ensures corpus.Lines? ==> forall w :: w in r.value ==>
      Keep(w, chars, priority, minLength, maxLength) || Generated(w, chars, priority, maxLength)
    ensures corpus.Lines? && |Matching(corpus.lines, chars, priority, minLength, maxLength)| >= 4 ==>
      forall w :: w in r.value ==> w in Matching(corpus.lines, chars, priority, minLength, maxLength)
  {
    if corpus.Unreadable? {
      return IOError, [];
    }
    var lines := corpus.lines;
    var words := KeptWords(lines, chars, priority, minLength, maxLength);
    ghost var found := words;
    ghost var n := |words|;
    words := TopUp(words, chars, priority, minLength, maxLength, fill);
    var selected := Select(words, picks, amount);
    r, pool := Ok(selected), words;

    MatchingKept(lines, chars, priority, minLength, maxLength);
    forall w | w in r.value
      ensures Keep(w, chars, priority, minLength, maxLength) || Generated(w, chars, priority, maxLength)
    {
      var m :| 0 <= m < amount && r.value[m] == w;
      if picks[m] % |pool| < n {
        assert w == found[picks[m] % |pool|];
      }
    }
  }

  /** The scan of the word list: the lower-cased lines the sampler keeps, in corpus order. */
  method KeptWords(lines: seq<string>, chars: seq<char>, priority: char, minLength: int, maxLength: int)
    returns (words: seq<string>)
    ensures words == Matching(lines, chars, priority, minLength, maxLength)
  {
    var charsSet: set<char> := {};
    var k := 0;
    while k < |chars|
      invariant 0 <= k <= |chars|
      invariant forall c :: c in charsSet <==> c in chars[..k]
    {
      assert chars[..k + 1] == chars[..k] + [chars[k]];
      charsSet := charsSet + {chars[k]};
      k := k + 1;
    }
    assert chars[..k] == chars;

    words := [];
    var i := 0;
    while i < |lines|
      invariant 0 <= i <= |lines|
      invariant words == Matching(lines[..i], chars, priority, minLength, maxLength)
    {
      assert lines[..i + 1][..i] == lines[..i];
      var word := Lower(lines[i]);
      if ByteLen(word) > maxLength || ByteLen(word) < minLength {
        i := i + 1;
        continue;
      }
      var ok := IsCandidate(word, charsSet, priority);
      if ok {
        words := words + [word];
      }
      i := i + 1;
    }
    assert lines[..i] == lines;
  }

  /**
   * The top-up of a pool of fewer than four words. The bound `4 - len(words)`
   * is re-read after every append, so the loop stops half way.
   */
  method TopUp(found: seq<string>, chars: seq<char>, priority: char, minLength: int, maxLength: int,
               fill: seq<WordRolls>) returns (words: seq<string>)
    requires |found| < 4 ==> |fill| >= PoolSize(|found|) - |found|
    requires |found| < 4 ==> forall k :: 0 <= k < |fill| ==> ValidRolls(fill[k], minLength, maxLength)
    ensures |words| == PoolSize(|found|)
    ensures words[..|found|] == found
    ensures forall j :: |found| <= j < |words| ==> Generated(words[j], chars, priority, maxLength)
  {
    words := found;
    var n := |found|;
    if |words| < 4 {
      var t := 0;
      while t < 4 - |words|
        invariant 0 <= t && 2 * t <= 5 - n
        invariant |words| == n + t
        invariant words[..n] == found
        invariant forall j :: n <= j < |words| ==> Generated(words[j], chars, priority, maxLength)
      {
        var w := GenerateWord(chars, priority, minLength, maxLength, fill[t]);
        words := words + [w];
        t := t + 1;
      }
    }
  }

  /** The selection loop: `amount` draws from the pool, with replacement. */
  method Select(pool: seq<string>, picks: seq<nat>, amount: nat) returns (selected: seq<string>)
    requires |picks| == amount && |pool| > 0
    ensures |selected| == amount
    ensures forall k :: 0 <= k < amount ==> selected[k] == pool[picks[k] % |pool|]
  {
    var a := new string[amount];
    var j := 0;
    while j < amount
      invariant 0 <= j <= amount
      invariant forall m :: 0 <= m < j ==> a[m] == pool[picks[m] % |pool|]
    {
      a[j] := pool[picks[j] % |pool|];
      j := j + 1;
    }
    selected := a[..];
  }
}
