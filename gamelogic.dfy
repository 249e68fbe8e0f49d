// The current lesson loop: per-character statistics and their composite
// score, the choice of the lesson's priority character, lesson set-up, and the
// two keystroke handlers (active lesson and end screen). The game context and
// the parts of the graphics context the handlers write (the colour map, the
// application's stop flag, the handler-change channel) are fields of one
// object; the channel is the ordered list of requested handlers, the last of
// which receives the next keystroke.
module GameLogic {
  import opened Lesson
  import Dictionary

  /** The statistics kept for one character, including its composite score. */
  datatype CharacterAccuracy = CharacterAccuracy(
    correct: int,
    attempts: int,
    accuracy: real,
    totalTime: int,
    averageTime: int,
    score: real)

  /** The zero value a missing map entry reads as. */
  const ZeroAccuracy := CharacterAccuracy(0, 0, 0.0, 0, 0, 0.0)

  /** The entry seeded for a character never seen before; score -1 marks it unseen. */
  const UnseenAccuracy := CharacterAccuracy(0, 0, 0.0, 0, 0, -1.0)

  datatype GameSettings = GameSettings(
    numChars: int,
    maxWordLength: int,
    minWordLength: int,
    wordCount: int,
    targetCPM: int,
    accuracyWeight: real,
    timeWeight: real)

  /** The settings the game starts with. */
  const DefaultSettings := GameSettings(5, 5, 3, 10, 250, 0.5, 0.5)

  /** The entry for `c`, or the zero value when there is none. */
  function Get(accuracies: map<char, CharacterAccuracy>, c: char): CharacterAccuracy
  {
    if c in accuracies then accuracies[c] else ZeroAccuracy
  }

  /** Every entry holds consistent counts. */
  predicate CountsValid(accuracies: map<char, CharacterAccuracy>)
  {
    forall c :: c in accuracies ==> 0 <= accuracies[c].correct <= accuracies[c].attempts
  }

  // ---------------------------------------------------------------------------
  // Scoring (updateAccuracy)

  /** Go's integer division, which truncates toward zero. */
  function Quot(a: int, b: int): (q: int)
    requires b != 0
    ensures a >= 0 ==> 0 <= a - q * b < (if b > 0 then b else -b)
    ensures a < 0 ==> -(if b > 0 then b else -b) < a - q * b <= 0
  {
    if a >= 0 then a / b else -((-a) / b)
  }

  /** The target time per character in milliseconds. */
  function TargetSpeedMs(targetCPM: int): int
    requires 1 <= targetCPM <= 60000
  {
    60000 / targetCPM
  }

  /**
   * The speed part of the score: the average time is clamped from below to
   * half the target time, and the result is 1 at or under that bound and falls
   * linearly, reaching 0 at the target time. It is not clamped from below.
   */
  function SpeedScore(averageTime: int, targetCPM: int): (s: real)
    requires 1 <= targetCPM <= 60000
    ensures s <= 1.0
    ensures averageTime <= TargetSpeedMs(targetCPM) / 2 ==> s == 1.0
    ensures averageTime == TargetSpeedMs(targetCPM) ==> s == 0.0
  {
    var targetSpeedMs := TargetSpeedMs(targetCPM);
    var lowerBound := targetSpeedMs / 2;
    var speed := if averageTime < lowerBound then lowerBound else averageTime;
    var excess := (speed - lowerBound) as real;
    var span := (targetSpeedMs - lowerBound) as real;
    FractionFacts(excess, span);
    1.0 - excess / span
  }

  lemma FractionFacts(x: real, d: real)
    requires x >= 0.0 && d > 0.0
    ensures x / d >= 0.0
    ensures x == 0.0 ==> x / d == 0.0
    ensures x == d ==> x / d == 1.0
  {
    DivMonotone(0.0, x, d);
  }

  /** A slower average never gives a better speed score. */
  lemma SpeedScoreAntitone(fast: int, slow: int, targetCPM: int)
    requires 1 <= targetCPM <= 60000
    requires fast <= slow
    ensures SpeedScore(slow, targetCPM) <= SpeedScore(fast, targetCPM)
  {
    var t := TargetSpeedMs(targetCPM);
    var lb := t / 2;
    var d := (t - lb) as real;
    var sf := if fast < lb then lb else fast;
    var ss := if slow < lb then lb else slow;
    var qf, qs := (sf - lb) as real / d, (ss - lb) as real / d;
    DivMonotone((sf - lb) as real, (ss - lb) as real, d);
    assert qf <= qs;
    assert SpeedScore(fast, targetCPM) == 1.0 - qf;
    assert SpeedScore(slow, targetCPM) == 1.0 - qs;
  }

  /**
   * updateAccuracy on one entry: one more attempt, one more correct answer
   * exactly on success, the accuracy as the ratio, and the score from the
   * new accuracy and the average time stored before this keystroke.
   */
  function UpdatedAccuracy(ca: CharacterAccuracy, success: bool, settings: GameSettings): (r: CharacterAccuracy)
    requires 1 <= settings.targetCPM <= 60000
    ensures r.attempts == ca.attempts + 1
    ensures r.correct == ca.correct + (if success then 1 else 0)
    ensures r.attempts > 0 ==> r.accuracy == r.correct as real / r.attempts as real
    ensures r.attempts <= 0 ==> r.accuracy == 0.0
    ensures r.totalTime == ca.totalTime && r.averageTime == ca.averageTime
    ensures r.score == r.accuracy * settings.accuracyWeight
                       + SpeedScore(ca.averageTime, settings.targetCPM) * settings.timeWeight
  {
    var attempts := ca.attempts + 1;
    var correct := if success then ca.correct + 1 else ca.correct;
    var accuracy := if attempts > 0 then correct as real / attempts as real else 0.0;
    ca.(attempts := attempts, correct := correct, accuracy := accuracy,
        score := accuracy * settings.accuracyWeight
                 + SpeedScore(ca.averageTime, settings.targetCPM) * settings.timeWeight)
  }

  /** Consistent counts stay consistent, the accuracy lies in [0, 1], and with weights summing to 1 the score is at most 1. */
  lemma UpdatedAccuracyBounds(ca: CharacterAccuracy, success: bool, settings: GameSettings)
    requires 1 <= settings.targetCPM <= 60000
    requires 0 <= ca.correct <= ca.attempts
    requires settings.accuracyWeight >= 0.0 && settings.timeWeight >= 0.0
    requires settings.accuracyWeight + settings.timeWeight == 1.0
    ensures var r := UpdatedAccuracy(ca, success, settings);
      && 0 <= r.correct <= r.attempts
      && 0.0 <= r.accuracy <= 1.0
      && r.score <= 1.0
  {
    var r := UpdatedAccuracy(ca, success, settings);
    AccuracyAtMostOne(r.correct, r.attempts);
    WeightedAtMostOne(r.accuracy, settings.accuracyWeight,
                      SpeedScore(ca.averageTime, settings.targetCPM), settings.timeWeight);
  }

  lemma AccuracyAtMostOne(correct: int, attempts: int)
    requires 0 <= correct <= attempts && attempts > 0
    ensures 0.0 <= correct as real / attempts as real <= 1.0
  {
    DivMonotone(correct as real, attempts as real, attempts as real);
    DivMonotone(0.0, correct as real, attempts as real);
  }

  lemma WeightedAtMostOne(x: real, wx: real, y: real, wy: real)
    requires x <= 1.0 && y <= 1.0 && wx >= 0.0 && wy >= 0.0 && wx + wy == 1.0
    ensures x * wx + y * wy <= 1.0
  {
    MulNonneg(1.0 - x, wx);
    MulNonneg(1.0 - y, wy);
    assert (1.0 - x) * wx + (1.0 - y) * wy == wx + wy - (x * wx + y * wy);
  }

  lemma MulNonneg(a: real, b: real)
    requires a >= 0.0 && b >= 0.0
    ensures a * b >= 0.0
  {
  }

  /** The entry after a sequence of attempts, each recorded with updateAccuracy. */
  function Replay(ca: CharacterAccuracy, outcomes: seq<bool>, settings: GameSettings): CharacterAccuracy
    requires 1 <= settings.targetCPM <= 60000
  {
    if outcomes == [] then ca
    else UpdatedAccuracy(Replay(ca, outcomes[..|outcomes| - 1], settings), outcomes[|outcomes| - 1], settings)
  }

  function Successes(outcomes: seq<bool>): nat
  {
    if outcomes == [] then 0
    else Successes(outcomes[..|outcomes| - 1]) + (if outcomes[|outcomes| - 1] then 1 else 0)
  }

  /** From a fresh entry, k successes in n attempts give accuracy exactly k/n. */
  lemma {:induction false} ReplayAccuracy(outcomes: seq<bool>, settings: GameSettings)
    requires 1 <= settings.targetCPM <= 60000
    requires outcomes != []
    ensures Replay(UnseenAccuracy, outcomes, settings).attempts == |outcomes|
    ensures Replay(UnseenAccuracy, outcomes, settings).correct == Successes(outcomes)
    ensures Replay(UnseenAccuracy, outcomes, settings).accuracy == Successes(outcomes) as real / |outcomes| as real
  {
    ReplayCounts(outcomes, settings);
  }

  lemma {:induction false} ReplayCounts(outcomes: seq<bool>, settings: GameSettings)
    requires 1 <= settings.targetCPM <= 60000
    ensures Replay(UnseenAccuracy, outcomes, settings).attempts == |outcomes|
    ensures Replay(UnseenAccuracy, outcomes, settings).correct == Successes(outcomes)
  {
    if outcomes != [] {
      ReplayCounts(outcomes[..|outcomes| - 1], settings);
    }
  }

  /**
   * The unseen sentinel is not a floor: a character typed once correctly at
   * 2400 ms, then missed, scores -8.75 with the default settings, below the -1
   * that marks an unseen character.
   */
  lemma SlowCharacterScoresBelowSentinel()
    ensures UpdatedAccuracy(CharacterAccuracy(1, 1, 1.0, 2400, 2400, 0.0), false, DefaultSettings).score == -8.75
    ensures UpdatedAccuracy(CharacterAccuracy(1, 1, 1.0, 2400, 2400, 0.0), false, DefaultSettings).score < UnseenAccuracy.score
  {
    assert TargetSpeedMs(250) == 240;
    assert SpeedScore(2400, 250) == -18.0;
  }

  // ---------------------------------------------------------------------------
  // Priority selection (getPriorityCharacter)

  /** A key the running minimum can pick: not the space, scored below 1. */
  predicate Candidate(accuracies: map<char, CharacterAccuracy>, c: char)
  {
    c in accuracies && c != ' ' && accuracies[c].score < 1.0
  }

  /** `p` is a lowest-scoring candidate, or `currentChars[0]` when there is no candidate. */
  predicate IsPriorityChoice(currentChars: seq<char>, accuracies: map<char, CharacterAccuracy>, p: char)
  {
    if exists c :: Candidate(accuracies, c) then
      Candidate(accuracies, p) && forall c :: Candidate(accuracies, c) ==> accuracies[p].score <= accuracies[c].score
    else
      |currentChars| > 0 && p == currentChars[0]
  }

  /**
   * The running minimum over the map, visited in an arbitrary order (each
   * iteration takes any key not visited yet), starting from the bound 1.0
   * and `currentChars[0]`.
   */
  method GetPriorityCharacter(currentChars: seq<char>, accuracies: map<char, CharacterAccuracy>)
    returns (priorityChar: char)
    requires |currentChars| > 0
    ensures IsPriorityChoice(currentChars, accuracies, priorityChar)
  {
    var least := 1.0;
    priorityChar := currentChars[0];
    var remaining := accuracies.Keys;
    while remaining != {}
      invariant remaining <= accuracies.Keys
      invariant forall c :: Candidate(accuracies, c) && c !in remaining ==> least <= accuracies[c].score
      invariant (least == 1.0 && priorityChar == currentChars[0])
             || (Candidate(accuracies, priorityChar) && least == accuracies[priorityChar].score)
      decreases |remaining|
    {
      var c :| c in remaining;
      remaining := remaining - {c};
      if c == ' ' {
        continue;
      }
      if accuracies[c].score < least {
        least := accuracies[c].score;
        priorityChar := c;
      }
    }
  }

  // ---------------------------------------------------------------------------
  // Lesson set-up (newGame)

  /**
   * Whatever priority character the map order yields, the draws fit the
   * sampler for that character (see Dictionary.SamplingDraws).
   */
  predicate DrawsFit(corpus: Dictionary.Corpus, currentChars: seq<char>, accuracies: map<char, CharacterAccuracy>,
                     settings: GameSettings, fill: seq<Dictionary.WordRolls>, picks: seq<nat>)
  {
    settings.wordCount >= 0 &&
    (corpus.Lines? ==> forall p :: IsPriorityChoice(currentChars, accuracies, p) ==>
      Dictionary.SamplingDraws(corpus.lines, currentChars, p,
        settings.minWordLength, settings.maxWordLength, settings.wordCount, fill, picks))
  }

  /**
   * Draws fit whichever priority character the map order yields: one pick per
   * lesson word, of any value, and two sets of word draws in the length window.
   */
  lemma DrawsFitAnyChoice(corpus: Dictionary.Corpus, currentChars: seq<char>, accuracies: map<char, CharacterAccuracy>,
                          settings: GameSettings, fill: seq<Dictionary.WordRolls>, picks: seq<nat>)
    requires settings.wordCount >= 0 && |picks| == settings.wordCount
    requires |fill| >= 2
    requires forall k :: 0 <= k < |fill| ==> Dictionary.ValidRolls(fill[k], settings.minWordLength, settings.maxWordLength)
    ensures DrawsFit(corpus, currentChars, accuracies, settings, fill, picks)
  {
  }

  /** Every lesson word is a kept corpus word or a generated one. */
  predicate LessonWords(fetched: seq<string>, currentChars: seq<char>, priority: char, settings: GameSettings)
  {
    forall w :: w in fetched ==>
      Dictionary.Keep(w, currentChars, priority, settings.minWordLength, settings.maxWordLength)
      || Dictionary.Generated(w, currentChars, priority, settings.maxWordLength)
  }

  // ---------------------------------------------------------------------------
  // The game context and its handlers

  class Game {
    var words: string
    var cursor: int
    var characterPriorities: seq<char>
    var priorityCharacter: char
    var currentChars: seq<char>
    var accuracies: map<char, CharacterAccuracy>
    var correct: int
    var incorrect: int
    var started: bool
    var startTimeCharacter: int
    var settings: GameSettings
    var colorMap: seq<Color>
    var requests: seq<Handler>
    var stopped: bool

    /** The game context as StartGame creates it, before the first lesson. */
    constructor (characterPriorities: seq<char>, accuracies: map<char, CharacterAccuracy>, settings: GameSettings)
      ensures this.characterPriorities == characterPriorities
      ensures this.accuracies == accuracies && this.settings == settings
      ensures words == [] && cursor == 0 && currentChars == [] && correct == 0 && incorrect == 0
      ensures !started && startTimeCharacter == 0 && colorMap == [] && requests == [] && !stopped
    {
      this.characterPriorities := characterPriorities;
      this.accuracies := accuracies;
      this.settings := settings;
      words, cursor, currentChars, priorityCharacter := [], 0, [], Dictionary.NUL;
      correct, incorrect, started, startTimeCharacter := 0, 0, false, 0;
      colorMap, requests, stopped := [], [], false;
    }

    /** The handler that receives the next keystroke (the game handler is installed first). */
    function Current(): Handler
      reads this
    {
      Installed(GameHandler, requests)
    }

    /** A lesson is in play: the game handler is installed and the cursor is on a typed position. */
    predicate Playing()
      reads this
    {
      && Current() == GameHandler
      && |words| >= 2
      && 0 <= cursor <= |words| - 2
      && |colorMap| == |words|
    }

    /** The settings the scoring and lesson set-up rely on. */
    predicate SettingsValid()
      reads this
    {
      1 <= settings.targetCPM <= 60000
    }

    /** updateAccuracy: writes back the updated entry for `c`, creating it from the zero value if absent. */
    method UpdateAccuracy(c: char, success: bool)
      requires SettingsValid()
      modifies this`accuracies
      ensures accuracies == old(accuracies)[c := UpdatedAccuracy(Get(old(accuracies), c), success, settings)]
    {
      var ca := Get(accuracies, c);
      accuracies := accuracies[c := UpdatedAccuracy(ca, success, settings)];
    }

    /**
     * newGame: takes the first NumChars ranked characters, picks the priority
     * character, fetches the lesson words and, when that succeeds, seeds
     * missing entries and resets the lesson. A failed fetch leaves the lesson
     * as it was and requests the end screen.
     */
    method NewGame(corpus: Dictionary.Corpus, fill: seq<Dictionary.WordRolls>, picks: seq<nat>)
      returns (ghost fetched: seq<string>, ghost pool: seq<string>)
      requires 1 <= settings.numChars <= |characterPriorities|
      requires settings.wordCount >= 0
      requires DrawsFit(corpus, characterPriorities[..settings.numChars], accuracies, settings, fill, picks)
      modifies this`currentChars, this`priorityCharacter, this`accuracies, this`words, this`colorMap
      modifies this`cursor, this`correct, this`incorrect, this`started, this`requests
      ensures currentChars == characterPriorities[..settings.numChars]
      ensures IsPriorityChoice(currentChars, old(accuracies), priorityCharacter)
      ensures corpus.Unreadable? ==>
        && words == old(words) && colorMap == old(colorMap) && accuracies == old(accuracies)
        && cursor == old(cursor) && correct == old(correct) && incorrect == old(incorrect)
        && started == old(started)
        && requests == old(requests) + [EndScreenHandler]
      ensures corpus.Lines? ==>
        && |fetched| == settings.wordCount
        && LessonWords(fetched, currentChars, priorityCharacter, settings)
        && words == Joined(fetched)
        && |colorMap| == |words| && AllWhite(colorMap)
        && SeededFrom(accuracies, old(accuracies), currentChars, UnseenAccuracy)
        && cursor == 0 && correct == 0 && incorrect == 0 && !started
        && requests == old(requests) + [GameHandler]
      ensures corpus.Lines? && |words| >= 2 ==> Playing()
      ensures corpus.Lines? ==>
        var found := Dictionary.Matching(corpus.lines, currentChars, priorityCharacter,
          settings.minWordLength, settings.maxWordLength);
        && |pool| == Dictionary.PoolSize(|found|)
        && pool[..|found|] == found
        && (forall k :: |found| <= k < |pool| ==>
              Dictionary.Generated(pool[k], currentChars, priorityCharacter, settings.maxWordLength))
        && (forall k :: 0 <= k < |fetched| ==> fetched[k] == pool[picks[k] % |pool|])
    {
      currentChars := characterPriorities[..settings.numChars];
      priorityCharacter := GetPriorityCharacter(currentChars, accuracies);
      assert corpus.Lines? ==> Dictionary.SamplingDraws(corpus.lines, currentChars, priorityCharacter,
        settings.minWordLength, settings.maxWordLength, settings.wordCount, fill, picks);

      var wordsList;
      wordsList, pool := Dictionary.GetWordsFromChars(corpus, currentChars, priorityCharacter,
        settings.minWordLength, settings.maxWordLength, settings.wordCount, fill, picks);
      if wordsList.IOError? {
        requests := requests + [EndScreenHandler];
        return [], pool;
      }
      fetched := wordsList.value;
      StartLesson(wordsList.value);
    }

    /** The success path of newGame: lesson text, white colour map, seeded entries, counters reset. */
    method StartLesson(wordsList: seq<string>)
      modifies this`accuracies, this`words, this`colorMap, this`cursor, this`correct, this`incorrect
      modifies this`started, this`requests
      ensures words == Joined(wordsList)
      ensures |colorMap| == |words| && AllWhite(colorMap)
      ensures SeededFrom(accuracies, old(accuracies), currentChars, UnseenAccuracy)
      ensures cursor == 0 && correct == 0 && incorrect == 0 && !started
      ensures requests == old(requests) + [GameHandler]
      ensures |words| >= 2 ==> Playing()
    {
      var text := JoinWords(wordsList);
      var colors := WhiteColorMap(|text|);
      accuracies := SeedAccuracies(accuracies, currentChars, UnseenAccuracy);

      words := text;
      colorMap := colors;
      cursor := 0;
      correct := 0;
      incorrect := 0;
      started := false;
      requests := requests + [GameHandler];
    }

    /** Backspace: whiten the current position and step back, not below 0. */
    method Backspace()
      requires 0 <= cursor < |colorMap|
      modifies this`colorMap, this`cursor
      ensures colorMap == old(colorMap)[old(cursor) := White]
      ensures cursor == if old(cursor) > 0 then old(cursor) - 1 else 0
    {
      colorMap := colorMap[cursor := White];
      cursor := cursor - 1;
      if cursor < 0 {
        cursor := 0;
      }
    }

    /** A non-backspace key: record the attempt and its time, colour the position and count it. */
    method RecordKeystroke(typed: char, now: int)
      requires SettingsValid() && CountsValid(accuracies)
      requires 0 <= cursor < |words| && cursor < |colorMap|
      modifies this`accuracies, this`colorMap, this`correct, this`incorrect, this`started, this`startTimeCharacter
      ensures CountsValid(accuracies)
      ensures accuracies == Recorded(old(accuracies), words[cursor], typed, old(started), now - old(startTimeCharacter), settings)
      ensures colorMap == old(colorMap)[cursor := if typed == words[cursor] then Blue else Red]
      ensures correct == old(correct) + (if typed == words[cursor] then 1 else 0)
      ensures incorrect == old(incorrect) + (if typed == words[cursor] then 0 else 1)
      ensures started == (old(started) || typed == words[cursor])
      ensures startTimeCharacter == if typed == words[cursor] && !old(started) then now else old(startTimeCharacter)
    {
      var c := words[cursor];
      if typed == c {
        UpdateAccuracy(c, true);
        if !started {
          started := true;
          startTimeCharacter := now;
        } else {
          accuracies := accuracies[c := Timed(accuracies[c], now - startTimeCharacter)];
        }
        colorMap := colorMap[cursor := Blue];
        correct := correct + 1;
      } else {
        UpdateAccuracy(c, false);
        colorMap := colorMap[cursor := Red];
        incorrect := incorrect + 1;
      }
      RecordedKeepsCounts(old(accuracies), c, typed, old(started), now - old(startTimeCharacter), settings);
    }

    /** Move to the next position; at `len(Words)-1` request the end screen, otherwise restart the character timer. */
    method Advance(now: int)
      modifies this`cursor, this`requests, this`startTimeCharacter
      ensures cursor == old(cursor) + 1
      ensures cursor >= |words| - 1 ==>
        requests == old(requests) + [EndScreenHandler] && startTimeCharacter == old(startTimeCharacter)
      ensures cursor < |words| - 1 ==> requests == old(requests) && startTimeCharacter == now
    {
      cursor := cursor + 1;
      if cursor >= |words| - 1 {
        requests := requests + [EndScreenHandler];
        return;
      }
      startTimeCharacter := now;
    }

    /**
     * gameInputHandler. Escape stops the application and the event is still
     * handled as a keystroke. Backspace whitens the current position and steps
     * back. Any other key records an attempt for the expected character and
     * advances the cursor.
     */
    method GameInputHandler(e: Event, now: int)
      requires SettingsValid() && CountsValid(accuracies)
      requires 0 <= cursor < |colorMap|
      requires !IsBackspace(e) ==> cursor < |words|
      modifies this`accuracies, this`colorMap, this`cursor, this`correct, this`incorrect
      modifies this`started, this`startTimeCharacter, this`requests, this`stopped
      ensures CountsValid(accuracies)
      ensures stopped == (old(stopped) || e.key == KeyEscape)
      ensures IsBackspace(e) ==>
        && colorMap == old(colorMap)[old(cursor) := White]
        && cursor == (if old(cursor) > 0 then old(cursor) - 1 else 0)
        && accuracies == old(accuracies) && correct == old(correct) && incorrect == old(incorrect)
        && started == old(started) && startTimeCharacter == old(startTimeCharacter)
        && requests == old(requests)
      ensures !IsBackspace(e) ==>
        && accuracies == Recorded(old(accuracies), words[old(cursor)], e.ch, old(started), now - old(startTimeCharacter), settings)
        && colorMap == old(colorMap)[old(cursor) := if e.ch == words[old(cursor)] then Blue else Red]
        && correct == old(correct) + (if e.ch == words[old(cursor)] then 1 else 0)
        && incorrect == old(incorrect) + (if e.ch == words[old(cursor)] then 0 else 1)
        && started == (old(started) || e.ch == words[old(cursor)])
        && cursor == old(cursor) + 1
        && (cursor >= |words| - 1 ==>
              && requests == old(requests) + [EndScreenHandler]
              && startTimeCharacter == (if e.ch == words[old(cursor)] && !old(started) then now else old(startTimeCharacter)))
        && (cursor < |words| - 1 ==> requests == old(requests) && startTimeCharacter == now)
      ensures old(Playing()) ==> Playing() || (cursor == |words| - 1 && Current() == EndScreenHandler)
    {
      if e.key == KeyEscape {
        stopped := true;
      }

      if IsBackspace(e) {
        Backspace();
        return;
      }

      RecordKeystroke(e.ch, now);
      Advance(now);
    }

    /**
     * endScreenInputHandler. Enter starts a new lesson and then requests the
     * game handler, which wins over the end screen a failed newGame requested.
     * Escape stops the application; any other key changes nothing.
     */
    method EndScreenInputHandler(e: Event, corpus: Dictionary.Corpus, fill: seq<Dictionary.WordRolls>, picks: seq<nat>)
      returns (ghost fetched: seq<string>, ghost pool: seq<string>)
      requires e.key == KeyEnter ==> 1 <= settings.numChars <= |characterPriorities| && settings.wordCount >= 0
      requires e.key == KeyEnter ==> DrawsFit(corpus, characterPriorities[..settings.numChars], accuracies, settings, fill, picks)
      modifies this`currentChars, this`priorityCharacter, this`accuracies, this`words, this`colorMap
      modifies this`cursor, this`correct, this`incorrect, this`started, this`requests, this`stopped
      ensures e.key == KeyEnter ==>
        && Current() == GameHandler && stopped == old(stopped)
        && currentChars == characterPriorities[..settings.numChars]
        && IsPriorityChoice(currentChars, old(accuracies), priorityCharacter)
      ensures e.key == KeyEnter && corpus.Unreadable? ==>
        && words == old(words) && colorMap == old(colorMap) && accuracies == old(accuracies)
        && cursor == old(cursor) && correct == old(correct) && incorrect == old(incorrect)
        && started == old(started)
        && requests == old(requests) + [EndScreenHandler, GameHandler]
      ensures e.key == KeyEnter && corpus.Lines? ==>
        && |fetched| == settings.wordCount
        && LessonWords(fetched, currentChars, priorityCharacter, settings)
        && words == Joined(fetched)
        && |colorMap| == |words| && AllWhite(colorMap)
        && SeededFrom(accuracies, old(accuracies), currentChars, UnseenAccuracy)
        && cursor == 0 && correct == 0 && incorrect == 0 && !started
        && requests == old(requests) + [GameHandler, GameHandler]
        && (|words| >= 2 ==> Playing())
      ensures e.key == KeyEnter && corpus.Lines? ==>
        var found := Dictionary.Matching(corpus.lines, currentChars, priorityCharacter,
          settings.minWordLength, settings.maxWordLength);
        && |pool| == Dictionary.PoolSize(|found|)
        && pool[..|found|] == found
        && (forall k :: |found| <= k < |pool| ==>
              Dictionary.Generated(pool[k], currentChars, priorityCharacter, settings.maxWordLength))
        && (forall k :: 0 <= k < |fetched| ==> fetched[k] == pool[picks[k] % |pool|])
      ensures e.key != KeyEnter ==>
        && words == old(words) && cursor == old(cursor) && accuracies == old(accuracies)
        && colorMap == old(colorMap) && requests == old(requests) && currentChars == old(currentChars)
        && priorityCharacter == old(priorityCharacter)
        && correct == old(correct) && incorrect == old(incorrect) && started == old(started)
        && stopped == (old(stopped) || e.key == KeyEscape)
    {
      fetched, pool := [], [];
      if e.key == KeyEnter {
        fetched, pool := NewGame(corpus, fill, picks);
        requests := requests + [GameHandler];
        return;
      } else if e.key == KeyEscape {
        stopped := true;
      }
    }
  }

  /** The timing update of a correct keystroke after the first: add the elapsed time and re-average. */
  function Timed(ca: CharacterAccuracy, elapsed: int): (r: CharacterAccuracy)
    requires ca.attempts > 0
    ensures r.totalTime == ca.totalTime + elapsed
    ensures r.attempts * r.averageTime <= (if r.totalTime >= 0 then r.totalTime else 0)
    ensures r.totalTime >= 0 ==> r.totalTime < (r.averageTime + 1) * r.attempts
    ensures r.(totalTime := ca.totalTime, averageTime := ca.averageTime) == ca
  {
    var total := ca.totalTime + elapsed;
    ca.(totalTime := total, averageTime := Quot(total, ca.attempts))
  }

  /**
   * The statistics after a non-backspace keystroke on expected character `c`:
   * updateAccuracy, and for a correct keystroke once the lesson has started,
   * the elapsed time added to the entry.
   */
  function Recorded(accuracies: map<char, CharacterAccuracy>, c: char, typed: char, started: bool, elapsed: int,
                    settings: GameSettings): (r: map<char, CharacterAccuracy>)
    requires 1 <= settings.targetCPM <= 60000
    requires CountsValid(accuracies)
    ensures c in r
    ensures forall x :: x != c ==> (x in r <==> x in accuracies)
    ensures forall x :: x != c && x in accuracies ==> r[x] == accuracies[x]
    ensures r[c].attempts == Get(accuracies, c).attempts + 1
    ensures r[c].correct == Get(accuracies, c).correct + (if typed == c then 1 else 0)
    ensures typed != c || !started ==> r[c].totalTime == Get(accuracies, c).totalTime
    ensures typed == c && started ==> r[c].totalTime == Get(accuracies, c).totalTime + elapsed
  {
    var hit := typed == c;
    var updated := UpdatedAccuracy(Get(accuracies, c), hit, settings);
    accuracies[c := if hit && started then Timed(updated, elapsed) else updated]
  }

  lemma RecordedKeepsCounts(accuracies: map<char, CharacterAccuracy>, c: char, typed: char, started: bool, elapsed: int,
                            settings: GameSettings)
    requires 1 <= settings.targetCPM <= 60000
    requires CountsValid(accuracies)
    ensures CountsValid(Recorded(accuracies, c, typed, started, elapsed, settings))
  {
    var r := Recorded(accuracies, c, typed, started, elapsed, settings);
    assert 0 <= r[c].correct <= r[c].attempts;
  }
}
