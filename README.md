# LayoutLearner, modelled in Dafny

LayoutLearner is a terminal typing tutor for learning a new keyboard layout.
It ranks the characters of a word list by how often they occur. It builds
lessons from the most frequent characters and favours one "priority"
character in them: generated words place it at a drawn position, and words
taken from the list must contain it. While the user types, it colours each position blue or green
(correct) or red (wrong) and keeps per-character statistics.

The repository contains three generations of the lesson loop. This project
models all three, plus the dictionary algorithms they share:

- `Dictionary` (dictionary.dfy) models `internal/dictionary`:
  - character ranking;
  - pseudo-word generation with per-character usage caps;
  - sampling lesson words from the word list, topping the pool up with generated words when too few match.
- `GameLogic` (gamelogic.dfy) models `internal/gamelogic`, the current loop:
  - the composite score (accuracy and speed);
  - the choice of the lowest-scoring character as the priority character;
  - lesson set-up;
  - the two keystroke handlers (lesson and end screen).
- `Game` (game.dfy) models `internal/game`, the earlier loop. It keeps accuracy only and always uses the most frequent character as the priority character.
- `LayoutLearner` (layoutlearner.dfy) models `cmd/LayoutLearner/main.go`, the first loop: a closure over the lesson text, its colour map and a cursor.
- `Lesson` (lesson.dfy) holds what the loops share:
  - colours, handlers and key events;
  - the lesson text as words each followed by a space;
  - the all-white colour map;
  - the seeding of statistics for characters not seen before;
  - the rule that the handler requested last receives the next keystroke.

How the model represents the program:

- **Game contexts and the closure's state.** These are Dafny classes. The handlers are methods with field-level `modifies` clauses.
- **Map entries.** An entry the source mutates through a map is a `map` field that the methods reassign.
- **The colour map.** This is a `seq<Color>`.
- **Handler changes.** The channel is the list `requests`. The goroutine installs each request in turn, so the last request wins (`Lesson.Installed`, `Lesson.InstalledAppend`).
- **Randomness.** Every `rand.Intn` result is an explicit input. It is either constrained to the range `rand.Intn` can return, or given as a raw draw that the model reduces modulo that range where it is used. Raw draws serve where the range depends on an earlier choice: the candidate count in `getRandomCharacter`, and the pool size in the word selection, which depends on the priority character the map order yields. The contracts therefore hold for every outcome of the draws.
- **Map iteration order.** Every loop that ranges over a Go map picks an arbitrary unvisited key (`:|`), so the results hold for every iteration order.
- **Clock and word list.** The clock is a parameter (`now`). The word list is a `Corpus`: either its lines, or `Unreadable` when the file cannot be opened.
- **Numbers.** `float64` values are `real`s. Go's truncating integer division is written out (`GameLogic.Quot`).

## Model

| member | source | states |
|---|---|---|
| Lesson.JoinWords | internal/gamelogic/gamelogic.go:134-137 | the text is every word followed by one space; its length is the total word length plus one per word; every character is a space or comes from a word |
| Lesson.JoinedLength | internal/gamelogic/gamelogic.go:134-137 | the lesson text has the total word length plus one space per word |
| Lesson.JoinedChars | internal/gamelogic/gamelogic.go:134-137 | every character of the lesson text is a space or a character of one of the words |
| Lesson.WhiteColorMap | internal/gamelogic/gamelogic.go:139-142 | the colour map has one entry per position of the text and every entry is white |
| Lesson.InstalledAppend | internal/gamelogic/gamelogic.go:96-103 | installing requests in two batches gives the same handler as installing them all in turn, so the goroutine's one-at-a-time installs leave the last request in effect |
| Lesson.SeedAccuracies | internal/gamelogic/gamelogic.go:144-152 | an unseen entry (score -1 in the current loop, accuracy -1 in the earlier one, internal/game/game.go:125-133) is added for each lesson character without one, and every existing entry is unchanged |
| Dictionary.Lower | internal/dictionary/dictionary.go:30 | lower-casing keeps the length; no upper-case ASCII letter remains; every other character is unchanged; each upper-case letter becomes its lower-case partner |
| Dictionary.LowerIdempotent | internal/dictionary/dictionary.go:30 | lower-casing an already lower-cased line changes nothing |
| Dictionary.CountInPositive | internal/dictionary/dictionary.go:31-38 | a character has a positive count exactly when it occurs |
| Dictionary.GetCharacterPriority | internal/dictionary/dictionary.go:18-53 | an unreadable list is an error and only that; otherwise the result lists exactly the characters that occur, each once, in non-increasing order of occurrence count |
| Dictionary.CountCharacters | internal/dictionary/dictionary.go:25-39 | the count map holds exactly the characters that occur in the lower-cased lines, each with its number of occurrences |
| Dictionary.InsertByCount | internal/dictionary/dictionary.go:48-50 | inserting a new character keeps the list free of duplicates and ordered by descending count, and adds exactly that character |
| Dictionary.AvailableMembers | internal/dictionary/dictionary.go:109-118 | a character is a candidate exactly when it is in `chars`, is not the excluded one and is below its usage cap |
| Dictionary.GetRandomCharacter | internal/dictionary/dictionary.go:108-125 | the result is the drawn candidate; when any candidate exists it is in `chars`, not excluded and under its cap; when none exists it is a space |
| Dictionary.WordLength | internal/dictionary/dictionary.go:60-61 | the drawn length lies in the half-open window [minLength, maxLength), and the priority position lies inside the word |
| Dictionary.GenerateWord | internal/dictionary/dictionary.go:59-103 | the word is at most the drawn length; it uses only `chars` (never a space) and the priority character; it contains the priority character once it reaches the priority position; no other character exceeds length/2 uses; the priority character exceeds that cap by at most one |
| Dictionary.MatchingKept | internal/dictionary/dictionary.go:145-168 | every kept corpus word has its byte length in the window, uses only `chars` and contains the priority character |
| Dictionary.IsCandidate | internal/dictionary/dictionary.go:154-165 | the scan accepts a word exactly when all its characters are in the set and the priority character occurs |
| Dictionary.PoolSize | internal/dictionary/dictionary.go:170-174 | the top-up never shrinks the pool, leaves four or more matches alone and always yields at least two words, but leaves fewer than four when fewer than three matched |
| Dictionary.KeptWords | internal/dictionary/dictionary.go:137-168 | the scan keeps exactly the lower-cased lines whose byte length is in the window, that use only `chars` and contain the priority character, in corpus order |
| Dictionary.TopUp | internal/dictionary/dictionary.go:170-174 | the pool grows to PoolSize of the matches, keeps the matches as its prefix and appends only generated words |
| Dictionary.Select | internal/dictionary/dictionary.go:176-179 | the selection has `amount` words, the k-th being the pool word at the k-th draw modulo the pool size |
| Dictionary.GetWordsFromChars | internal/dictionary/dictionary.go:130-183 | an unreadable list is an error and only that; otherwise the pool is the kept words in corpus order followed by generated words, and the result is `amount` words drawn from the pool, each a kept word or a generated one; with four or more matches every result word is a corpus match |
| GameLogic.Quot | internal/gamelogic/inputhandlers.go:39 | integer division truncates toward zero: the remainder has the sign of the dividend and is smaller than the divisor |
| GameLogic.SpeedScore | internal/gamelogic/gamelogic.go:189-196 | the speed score is at most 1, is exactly 1 at or below half the target time and 0 at the target time |
| GameLogic.SpeedScoreAntitone | internal/gamelogic/gamelogic.go:189-196 | a slower average time never gives a higher speed score |
| GameLogic.UpdatedAccuracy | internal/gamelogic/gamelogic.go:174-198 | an update adds one attempt, adds one correct exactly on success and sets the accuracy to correct/attempts, or to 0 when attempts is not positive; it leaves the timing fields alone and weighs the accuracy and the speed score of the stored average time into the score |
| GameLogic.UpdatedAccuracyBounds | internal/gamelogic/gamelogic.go:174-198 | consistent counts stay consistent, the accuracy lies in [0, 1], and with non-negative weights summing to 1 the score is at most 1 |
| GameLogic.ReplayAccuracy | internal/gamelogic/gamelogic.go:174-187 | after n updates of a fresh entry with k successes, attempts is n, correct is k and the accuracy is k/n |
| GameLogic.ReplayCounts | internal/gamelogic/gamelogic.go:174-187 | after n updates of a fresh entry, attempts counts the updates and correct counts the successes |
| GameLogic.SlowCharacterScoresBelowSentinel | internal/gamelogic/gamelogic.go:189-198 | with the default settings, a character typed once correctly with a 2400 ms average and then missed scores -8.75, below the unseen marker -1, because the speed score is not bounded below |
| GameLogic.GetPriorityCharacter | internal/gamelogic/gamelogic.go:205-221 | for every map order, the result is a lowest-scoring non-space character scored below 1, or the first lesson character when there is none |
| GameLogic.Game.constructor | internal/gamelogic/gamelogic.go:77-90 | the context starts with the given ranking, statistics and settings, no lesson, no requests |
| GameLogic.Game.UpdateAccuracy | internal/gamelogic/gamelogic.go:174-202 | only the entry for the character changes, created from the zero value when absent |
| GameLogic.Game.NewGame | internal/gamelogic/gamelogic.go:116-169 | the lesson characters are the first NumChars ranked; the priority character is a lowest-scoring choice. An unreadable list leaves the lesson untouched and requests the end screen. Otherwise: the pool is the corpus matches in order followed by generated words, up to PoolSize; the k-th lesson word is the pool word at the k-th draw modulo the pool size; the text is those words; the colour map is all white; entries are seeded; cursor and counters are reset; the game handler is requested |
| GameLogic.DrawsFitAnyChoice | internal/dictionary/dictionary.go:170-179 | one raw pick per lesson word and two sets of word draws in the length window fit the sampler for every priority character the map order can yield, so newGame's draws are not constrained by which tied character is picked |
| GameLogic.Game.StartLesson | internal/gamelogic/gamelogic.go:134-168 | the success path of newGame: text, white colour map, seeded entries, reset counters, game handler requested; the lesson is in play when the text has two positions |
| GameLogic.Game.Backspace | internal/gamelogic/inputhandlers.go:19-28 | the current position turns white and the cursor steps back, never below 0 |
| GameLogic.Game.RecordKeystroke | internal/gamelogic/inputhandlers.go:30-50 | the attempt is recorded for the expected character; the position turns blue or red and the matching counter grows; the first hit starts the timer; consistent counts stay consistent |
| GameLogic.Game.Advance | internal/gamelogic/inputhandlers.go:54-62 | the cursor moves on; at `len(Words)-1` the end screen is requested, otherwise the character timer restarts |
| GameLogic.Game.GameInputHandler | internal/gamelogic/inputhandlers.go:14-65 | Escape stops the application and the key is still processed; backspace only whitens and steps back; any other key records, colours, adds one to correct on a hit and one to incorrect on a miss, and advances; the character timer restarts unless the lesson ends; a lesson in play stays in play or ends with the end screen installed at the last position |
| GameLogic.Game.EndScreenInputHandler | internal/gamelogic/inputhandlers.go:73-86 | Enter runs newGame (the first NumChars ranked characters, a lowest-scoring priority choice) and always leaves the game handler installed; after a failed fetch the lesson state is unchanged, otherwise the new text is the words drawn from the pool of corpus matches and generated words, the k-th at the k-th draw modulo the pool size, with a white colour map, seeded entries and reset counters; Escape only stops; any other key changes nothing |
| GameLogic.Timed | internal/gamelogic/inputhandlers.go:37-41 | the elapsed time is added to the total and the average is the truncated quotient of total time by attempts; nothing else changes |
| GameLogic.Recorded | internal/gamelogic/inputhandlers.go:30-50 | only the entry of the expected character changes: one more attempt, one more correct exactly on a hit, and time added only for a hit once the lesson has started |
| GameLogic.RecordedKeepsCounts | internal/gamelogic/inputhandlers.go:30-50 | recording a keystroke keeps every entry's counts consistent |
| Game.GeneratedWords | internal/game/game.go:116-118 | a lesson has WordCount generated words, none when WordCount is not positive |
| Game.GeneratedWordsAt | internal/game/game.go:116-118 | the i-th lesson word is the generator's i-th call with the lesson characters, the priority character and the maximum length |
| Game.UpdatedAccuracy | internal/game/game.go:193-210 | an update adds one attempt, adds one correct exactly on success and sets the accuracy to correct/attempts |
| Game.UpdatedAccuracyBounds | internal/game/game.go:193-210 | consistent counts stay consistent and the accuracy lies in [0, 1] |
| Game.LessonText | internal/game/game.go:115-118 | the text is the generated words, each followed by a space |
| Game.UpdateKeepsCounts | internal/game/game.go:193-210 | an update keeps every entry's counts consistent |
| Game.Context.constructor | internal/game/game.go:65-71 | the context starts with 15 characters, words of at most 5, 10 words and no statistics |
| Game.Context.NewGame | internal/game/game.go:111-140 | the lesson characters are the first NumChars ranked and the first of them is the priority character; the text is WordCount generated words each followed by a space; the colour map is white; entries are seeded; cursor and counters are reset |
| Game.Context.StartLesson | internal/game/game.go:120-139 | the rest of newGame: the given characters and text, a white colour map as long as the text, unseen entries seeded and every other entry unchanged, cursor and counters reset |
| Game.Context.UpdateAccuracy | internal/game/game.go:193-210 | only the entry for the character changes, created from the zero value when absent |
| Game.Context.GameLogic | internal/game/game.go:147-188 | Escape stops the application and the key is still processed; backspace whitens and steps back; any other key colours blue or red, counts and records the attempt and advances, requesting the end screen at `len(Words)-1`; a lesson in play stays in play or ends with the end screen installed |
| Game.Context.EndScreenLogic | internal/game/game.go:228-241 | Enter starts a new lesson from the first NumChars ranked characters: the generated text, a white colour map, seeded entries, reset counters and the game handler installed; Escape only stops; any other key changes nothing |
| LayoutLearner.GenerateWord | cmd/LayoutLearner/main.go:106-121 | the word has 3 to 5 characters, the priority character at the drawn position and only lesson characters or the priority character elsewhere |
| LayoutLearner.SpelledChars | cmd/LayoutLearner/main.go:110-118 | every character of a generated word is the priority character or one of the lesson characters |
| LayoutLearner.NewGame | cmd/LayoutLearner/main.go:77-94 | the text is ten generated words over the first five ranked characters, each followed by a space; it is 40 to 60 positions long; the colour map is white and as long as the text |
| LayoutLearner.LessonLength | cmd/LayoutLearner/main.go:83-86 | a lesson text has between 40 and 60 positions |
| LayoutLearner.LessonChars | cmd/LayoutLearner/main.go:78-86 | every character of a lesson is a space or one of the five most frequent characters |
| LayoutLearner.LessonPriority | cmd/LayoutLearner/main.go:80-85 | every word of a lesson contains the most frequent character |
| LayoutLearner.Session.constructor | cmd/LayoutLearner/main.go:17-32 | the first lesson is built from the ranking, all white, with the cursor at 0 |
| LayoutLearner.Session.HandleKey | cmd/LayoutLearner/main.go:33-68 | backspace whitens and steps back, never below 0; any other key colours green or red and advances; passing the last position starts a new white lesson at 0; the cursor always stays on the text, so the closure's out-of-range guard is never taken |

## Left out

- Terminal I/O is not modelled: the tview application, text views, highlighting and drawing. This covers `DrawText`, `ShowEndScreen`, `ShowErrorScreen`, `drawText`, `showEndScreen` and `interpolateColor`. These only render state the model already has.
- Files are not modelled: `StartGame`, `SaveCharacterAccuracies` and `deleteSave` (JSON save file), and the reading of `resources/words.txt`. The word list is given as its lines (`Corpus`). The constructors take what `StartGame` would have read. `GameLogic.Game.constructor` also takes the game settings, which `StartGame` does not read but fixes at internal/gamelogic/gamelogic.go:81-89 (`GameLogic.DefaultSettings`); the model generalises them to any settings its contracts allow.
- Several requires exclude inputs on which the source panics. The model does not cover these runs:
  - `GameLogic.Game.NewGame`, `GameLogic.Game.EndScreenInputHandler`, `Game.Context.NewGame` and `Game.Context.EndScreenLogic` require `1 <= numChars <= len(ranking)`. The slice at internal/gamelogic/gamelogic.go:117 (internal/game/game.go:112) panics on a negative count or one above the ranking's length. `CurrentChars[0]` (gamelogic.go:207, game.go:113) panics on 0.
  - `GameLogic.Game.NewGame` and `GameLogic.Game.EndScreenInputHandler` require a non-negative `WordCount`, because `make([]string, amount)` at internal/dictionary/dictionary.go:176 panics on a negative count.
  - `LayoutLearner.NewGame`, `LayoutLearner.LessonWords` and `LayoutLearner.Session.constructor` require at least five ranked characters, because the slice at cmd/LayoutLearner/main.go:79 panics with fewer.
  - `Dictionary.ValidRolls`, and with it `Dictionary.GenerateWord` and the sampler's top-up, requires `maxLength > minLength`, because `rand.Intn(maxLength-minLength)` at internal/dictionary/dictionary.go:60 panics otherwise. It also requires a positive drawn length, because `rand.Intn(length)` at dictionary.go:61 panics when `minLength` plus the length draw is 0 or less.
- Concurrency is not modelled: the goroutine that installs input-capture functions is represented by the ordered request list.
- `Dictionary.Lower`: folds ASCII letters only. `strings.ToLower` folds all of Unicode, which would need Unicode tables.
- The lesson text is indexed by character, while the source indexes the string by byte (`Words[i]`). The two agree only for single-byte characters. The model assumes lesson characters are single-byte; the byte length is modelled only where the sampler filters words by `len`.
- `GameLogic.SpeedScore`: requires TargetCPM in 1..60000. A target of 0 makes the integer division panic. A target above 60000 gives a target time of 0 and a float division yielding Inf or NaN, which `real` cannot represent. A target from -60000 to -1 gives a negative target time and a finite but meaningless score. A target below -60000 again gives a target time of 0 and Inf or NaN. The model covers no negative target.
- `float64` rounding and `int64` overflow of the total time are not modelled: scores are exact reals and times are unbounded integers.
- `Dictionary.GenerateWord`: the doc comment promises the priority character is in the word. The model proves this only for words that reach the drawn priority position. A word cut short because no candidate is left can lack it, and so can a NUL priority character, since NUL is also the "no previous character" value.
- `Dictionary.GenerateWord`: the "no more than two in a row" rule is not stated. Placing the priority character does not update the run tracking, so the source does not guarantee it.
- `Dictionary.GetWordsFromChars`: the top-up loop re-reads `4 - len(words)` while it appends. Pools of 0, 1, 2 or 3 matches therefore grow to 2, 3, 3 or 4 words, not to 4. `Dictionary.PoolSize` states this as written.
- `GameLogic.Game.GameInputHandler`: requires consistent counts (correct between 0 and attempts) in every entry. The source does not check the saved counts. A saved entry with `Attempts` of -1 reaches 0 after `updateAccuracy`'s increment, and a correct keystroke after the lesson has started then divides by zero at internal/gamelogic/inputhandlers.go:39 and panics. Other negative counts give meaningless ratios. The model assumes the saved counts are consistent.
- `GameLogic.Game.GameInputHandler`: requires the cursor to be on the text. The source can index past the text in two cases, and the model excludes both:
  - after a failed first fetch, the text is empty;
  - after a second failed fetch from the end screen, the cursor stays at `len(Words)` while the game handler is reinstalled.
- `Game.Context.NewGame`: the three-argument `dictionary.GenerateWord` that `internal/game` calls is not part of this model. The generator is a parameter, with the call index standing for the random state.
- The old `dictionary.CharacterPriority` record used by `cmd/LayoutLearner/main.go` is not part of this model. Its `Character` field is modelled as the character itself.
- `LayoutLearner.Session.constructor`: `main` panics when the word list cannot be read. The model starts from the ranking it would have obtained.
- The `totalCharacterCount` variable of `GetCharacterPriority` is counted but never used, so it is not modelled.
- The order among characters with equal counts after `sort.Slice` is not specified by the source, and the model does not fix one.
