# TypeStrike core, in Dafny

TypeStrike is a falling-letter typing game. Letters drop from the top of the
screen. Typing a letter destroys the lowest matching one and scores points,
with a multiplier that grows with the combo. A letter that falls past the
ground costs a life. A level ends when its time runs out with lives left.

The game has two engines that follow the same rules:

- `GameFallback` in the browser (`web/src/game-fallback.ts`), with a
  five-level table.
- `Game` in Rust (`rust-game/src/game.rs`), with an eight-level table and an
  Endless fallback (`rust-game/src/levels.rs`). It also keeps per-character
  hit and error counts.

Around the game sit four pieces of bookkeeping:

- an achievement tracker;
- session statistics;
- the stored settings;
- the AI typing coach. Its gating flags, its fallback template and the
  clean-up of a model reply are deterministic.

The project is built in three layers, one module per file:

- `Levels`, `Entities` and `Tally` hold the level tables, the letters,
  particles and player, and the per-character counters.
- `Rules` states the game as functions from one game state to the next. It
  also holds the invariants the engines keep and the lemmas about them.
- `Engine.Game` is the engine as a class. Its fields are updated in place by
  methods with loops, and each method is proved to produce the state the
  `Rules` function describes.

One class serves both engines. It is parameterised by its level catalogue:
`Levels.Catalogue.Web` or `Levels.Catalogue.Native`. Where the two engines
differ, the model has both variants:

- Next level is capped at index 4 on the web and 7 natively.
- The web engine removes fallen letters by a backward scan with `splice`.
  The native one collects the indices first and removes them back to front.
- The web engine handles a key as a separate event. The native engine polls
  the keys inside a playing frame, after the ground check, so keys pressed in
  the frame that ended the game still count.
- Only the native engine keeps the `typed_letters` and `errors` maps. The
  shared state holds them for both engines, and the web engine never reads
  them.

`Achievements.AchievementManager`, `Stats.StatsManager`,
`Config.ConfigManager` and `Coach.AICoach` are classes over the same fields
as their sources. Each method is tied to a specification function, and the
properties are lemmas about those functions.

Sound is modelled as the cues (`Rules.Cue`) that each step asks the audio
layer to play.

Randomness becomes parameters:

- `Rules.Draw` is the choice of letter and column for a spawn.
- `spray` gives each burst particle its velocity and size.

Clock readings (`Date.now()`) become parameters too. So do the outcomes of
loading a model and of asking it for a reply.

Where the written description of the game and the code disagree, the model
follows the code:

- There are no word targets, no easter-egg codes, no `LevelStart` state and
  no word-input buffer. Every target is one letter worth 10 points times the
  multiplier.
- There is no 20-level catalogue. The web engine answers any index past its
  table with the last of its five levels. The native engine answers any index
  past its eight with Endless Mode, at fall speed 150 + 10n.
- After a game over, Space or R restarts the current level, not level 1.
  `startGame` does not touch `currentLevel`.
- Lives can go below zero when several letters cross in one frame. The web
  engine plays the game-over sound once per letter that crosses after lives
  reach zero.

## Model

| member | source | states |
|---|---|---|
| Levels.WebLevel | web/src/game-fallback.ts:76-126 | an index inside the five-level table gives that level; any larger index gives the last level; every web level is playable (letters, positive speed, gap and duration) |
| Levels.NativeLevel | rust-game/src/levels.rs:15-99 | every native level is playable; the id is "endless" exactly for indices from 8 on, and then the level is Endless Mode with fall speed 150 + 10n, spawn gap 1 s and no time limit; the first eight have a finite duration |
| Levels.NativeIds | rust-game/src/levels.rs:18-88 | the eight fixed levels carry the ids 1-1, 1-2, 1-3, 1-4, 1-5, 2-1, 2-2, 2-3 in that order |
| Levels.NativeHarder | rust-game/src/levels.rs:21-86 | over the fixed native levels, fall speed strictly increases and the spawn gap strictly decreases |
| Levels.NativeLettersGrow | rust-game/src/levels.rs:20-83 | each of the first seven native levels contains the letters of the one before; the last fixed level drops ';' |
| Levels.Catalogue.Count | rust-game/src/levels.rs:101-103 | the progression of each catalogue has at least one level (5 on the web, `total_levels()` = 8 natively) |
| Levels.Catalogue.Get | rust-game/src/levels.rs:15-99 | every index gets a playable level, the web or the native lookup according to the catalogue |
| Levels.Catalogue.Next | rust-game/src/game.rs:236-239 | the next index is one more, capped at the last level of the progression, and always inside it |
| Levels.NextStaysInTable | web/src/game-fallback.ts:168-171 | progression only reaches real table entries: never the web clamp, never Endless Mode |
| Entities.NewLetter | rust-game/src/entities.rs:16-26 | a new letter keeps its character, column and speed, starts at y = -50 with size 40 and is not targeted |
| Entities.FallMovesOnlyY | rust-game/src/entities.rs:28-30 | falling moves y by speed times delta and changes no other field |
| Entities.FallAdditive | rust-game/src/entities.rs:28-30 | two falls are one fall over the summed time |
| Entities.SpawnedOnScreen | rust-game/src/entities.rs:58-60 | a new letter is never off screen for a non-negative screen height |
| Entities.OffScreenStaysOff | rust-game/src/entities.rs:58-60 | a letter past the ground line (strictly below height + 50) stays past it while it falls |
| Entities.NewParticle | rust-game/src/entities.rs:76-90 | a new particle starts at the given point with the given velocity and size, life = max_life = 1, and is not dead |
| Entities.Step | rust-game/src/entities.rs:92-97 | a step moves with the old velocity, then adds 300 * delta to vy and takes delta off the life |
| Entities.StepsAge | rust-game/src/entities.rs:92-97 | after any sequence of steps the life has dropped by exactly the total elapsed time |
| Entities.NewParticleLifetime | rust-game/src/entities.rs:110-112 | a new particle is dead exactly when a total of one second or more has passed |
| Entities.NewPlayer | rust-game/src/entities.rs:124-131 | a new player has lives = max_lives = 5 |
| Tally.Bump | rust-game/src/game.rs:190 | counting a character adds it to the keys, raises its count by one (from 0 when absent) and leaves the other counts alone |
| Tally.BumpTotal | rust-game/src/game.rs:206 | counting a character raises the sum of all counts by exactly one |
| Rules.StartGameResets | web/src/game-fallback.ts:155-166 | starting gives Playing with full lives and zeroed score, combo, counters and timers, and empty letters, particles and per-character maps, whatever came before; the level is unchanged, starting is idempotent and establishes the counter invariant |
| Rules.NextLevelCapped | web/src/game-fallback.ts:168-173 | next level moves the index up by one, capped at 4 on the web and 7 natively, loads that level and starts it |
| Rules.Closest | web/src/game-fallback.ts:179-187 | a match is an index whose letter shows the typed character and has y > -1 (y grows downwards) |
| Rules.ClosestIsLowest | web/src/game-fallback.ts:182-187 | the match is the lowest matching letter and the first among equally low ones; there is none exactly when every matching letter is at y <= -1 |
| Rules.ClosestUnique | rust-game/src/game.rs:167-175 | any index with those properties is the one the scan returns |
| Rules.RemoveAt | web/src/game-fallback.ts:191 | splicing out one letter keeps the others in order and removes exactly that one |
| Rules.Burst | web/src/game-fallback.ts:200-202 | a hit sends out exactly 15 new particles from the letter's position |
| Rules.TypeLetterOutcome | web/src/game-fallback.ts:175-224 | every key adds one to the total; a hit removes the matched letter, adds one to the correct count and the combo, adds 10 * (1 + combo/10) using the new combo, counts the character as typed and adds 15 particles; a miss keeps the letters, zeroes the combo, sets the score to max(0, score - 2) and counts the character as an error |
| Rules.MilestoneCue | web/src/game-fallback.ts:207-222 | the combo-milestone sound plays exactly on a hit that brings the combo to a multiple of 10; the wrong-letter sound plays exactly on a miss |
| Rules.TypeLetterInv | rust-game/src/game.rs:163-211 | a key keeps 0 <= combo <= correct <= total, score >= 0, the hit map summing to the correct count and the error map to total - correct |
| Rules.TypeAll | rust-game/src/game.rs:156-160 | typing n keys raises the total by n and leaves lives, state and level alone |
| Rules.TypeAllInv | rust-game/src/game.rs:144-161 | any number of polled keys keeps the counter invariant |
| Rules.FiftiethHit | web/src/game-fallback.ts:193-197 | the hit that takes a combo from 49 to 50 scores 60 and plays the milestone sound |
| Rules.SpawnOne | web/src/game-fallback.ts:283-298 | a due spawn adds exactly one letter from the level at y = -50 with the level's speed, inside the 60-pixel margins, and resets the spawn timer |
| Rules.SpawnNotDue | web/src/game-fallback.ts:330-333 | before the spawn timer reaches the spawn rate nothing spawns |
| Rules.FallAll | web/src/game-fallback.ts:336-338 | every letter falls by its speed times delta, in place |
| Rules.SurvivorsMembers | web/src/game-fallback.ts:341-343 | the letters kept are exactly those not past the ground line |
| Rules.Lost | web/src/game-fallback.ts:341-345 | the letters lost plus the letters kept are all the letters |
| Rules.SurvivorsAppend | rust-game/src/game.rs:124-127 | survivors keep their original order: the survivors of a concatenation are the concatenated survivors |
| Rules.GroundCuesCount | web/src/game-fallback.ts:348-355 | one life-lost sound per lost letter; the game-over sound plays exactly when some letter crossed and lives reach zero or below |
| Rules.GroundCheckEffect | rust-game/src/game.rs:108-127 | lives drop by exactly the number of letters removed; the remaining letters are those not past the ground; a lost life zeroes the combo; GameOver is set exactly when a life was lost and lives are <= 0; the invariant is kept |
| Rules.StepAll | web/src/game-fallback.ts:360-365 | every particle takes one step |
| Rules.Alive | web/src/game-fallback.ts:366 | the particles kept are exactly those not dead |
| Rules.Wpm | web/src/game-fallback.ts:246-251 | 0 when no time has passed, otherwise (correct/5)/(time/60) rounded to the nearest whole number |
| Rules.PlayingStepEffect | rust-game/src/game.rs:91-127 | the first half of a playing frame advances the level timer by delta, loses one life per fallen letter, and changes the state only to GameOver |
| Rules.WebUpdateEffect | web/src/game-fallback.ts:322-376 | a web playing frame loses one life per fallen letter, ends in LevelComplete exactly when time is up with lives left, ends in GameOver exactly when a life was lost and lives are <= 0, and keeps the invariant |
| Rules.WebUpdateIdle | web/src/game-fallback.ts:322-323 | outside Playing a web frame changes nothing and plays nothing |
| Rules.NativeUpdatePlayingInv | rust-game/src/game.rs:90-142 | a native playing frame with n keys pressed raises the total by n and keeps the counter invariant |
| Rules.ActInv | web/src/game-fallback.ts:128-153 | every key action keeps the counter invariant |
| Rules.Initial | rust-game/src/game.rs:36-58 | a new engine is in the menu on the first level with 5 of 5 lives |
| Rules.InitialInv | rust-game/src/game.rs:43-54 | a new engine satisfies the counter invariant |
| Rules.KeysDown | rust-game/src/game.rs:146-160 | the polled characters are exactly the letter keys pressed this frame, and no more of them than there are keys |
| Rules.KeysDownInOrder | rust-game/src/game.rs:146-160 | the polled characters keep the key order: the i-th one is the key at the i-th pressed position, these positions increase, and they are exactly the positions whose key is down |
| Rules.WebRoute | web/src/game-fallback.ts:128-153 | Menu: Space or Enter starts, nothing else does; Playing: a key reaches the matcher exactly when its upper case is one of A-Z or ';'; LevelComplete: Space or Enter advances; GameOver: Space or R restarts; M returns to the menu from the end states |
| Rules.NativeRoute | rust-game/src/game.rs:69-73 | Menu: Space or Enter starts; LevelComplete: Space or Enter advances; GameOver: Space or R restarts; M returns to the menu from the end states (lines 234-253) |
| Rules.InitialConsistent | rust-game/src/game.rs:36-58 | a new engine is consistent: invariant, five lives, and the level record is the catalogue's entry for the current index |
| Rules.ActConsistent | rust-game/src/game.rs:234-253 | every key action keeps the engine consistent |
| Rules.WebKeyDownConsistent | web/src/game-fallback.ts:128-153 | every web key event keeps the engine consistent |
| Rules.WebUpdateConsistent | web/src/game-fallback.ts:322-377 | every web frame keeps the engine consistent |
| Rules.NativeFrameConsistent | rust-game/src/game.rs:60-67 | every native frame keeps the engine consistent |
| Engine.Game.constructor | rust-game/src/game.rs:36-58 | the new engine's state is the initial state of its catalogue, and it is consistent |
| Engine.Game.StartGame | web/src/game-fallback.ts:155-166 | the fields become the started state (Rules.StartGame) |
| Engine.Game.ResetPlay | rust-game/src/game.rs:76-79 | Playing, full lives, no letters, no particles, every other field unchanged |
| Engine.Game.ResetCounts | rust-game/src/game.rs:80-87 | zero score, combo, counters and timers, empty maps, every other field unchanged |
| Engine.Game.NextLevel | web/src/game-fallback.ts:168-173 | the fields become the next level's started state (Rules.NextLevel) |
| Engine.Game.FindTarget | web/src/game-fallback.ts:179-187 | the forward max-y scan finds exactly `Rules.Closest` |
| Engine.Game.HandleLetterTyped | web/src/game-fallback.ts:175-224 | the fields become `Rules.TypeLetter` of the old state and the sounds are the keystroke's cues |
| Engine.Game.ResolveKey | rust-game/src/game.rs:166-210 | after the count, the scan and then the hit or the miss |
| Engine.Game.HitLetter | web/src/game-fallback.ts:189-214 | the splice, counting, scoring and burst of a hit, with the note, hit and milestone sounds |
| Engine.Game.CountHit | rust-game/src/game.rs:180-190 | correct count and combo go up by one, the score by the multiplied points, and the hit map counts the character |
| Engine.Game.AddBurst | web/src/game-fallback.ts:200-202 | the loop appends exactly the 15 burst particles |
| Engine.Game.MissLetter | web/src/game-fallback.ts:215-223 | the fields become `Rules.Miss`, with the wrong-letter sound |
| Engine.Game.SpawnLetter | web/src/game-fallback.ts:283-298 | the fields become `Rules.SpawnLetter` (one pushed letter, none for an empty set) |
| Engine.Game.MoveLetters | web/src/game-fallback.ts:336-338 | the loop makes every letter fall, nothing else changes |
| Engine.Game.RemoveGroundedBackward | web/src/game-fallback.ts:341-357 | the backward splice loop gives `Rules.GroundCheck`, with one life-lost sound per letter and the game-over sounds |
| Engine.Game.SweepBackward | web/src/game-fallback.ts:341-345 | the loop's letters are the survivors in order and its lives are the old lives minus the letters lost |
| Engine.Game.CollectGrounded | rust-game/src/game.rs:108-122 | the collected indices are increasing and are exactly the fallen letters; lives, combo and state as the loop sets them |
| Engine.Game.RemoveBackToFront | rust-game/src/game.rs:124-127 | removing the collected indices from the back leaves exactly the survivors, in order |
| Engine.Game.RemoveGroundedCollect | rust-game/src/game.rs:107-127 | collect then remove gives `Rules.GroundCheck`, the same result as the web engine's scan |
| Engine.Game.UpdateParticles | web/src/game-fallback.ts:360-366 | the loop steps every particle and the filter drops the dead ones |
| Engine.Game.Tick | web/src/game-fallback.ts:324-333 | both timers advance, then a due spawn happens |
| Engine.Game.Finish | rust-game/src/game.rs:132-141 | particles, then the completion check |
| Engine.Game.UpdateWeb | web/src/game-fallback.ts:323-376 | a web playing frame gives `Rules.WebUpdate` and its sounds |
| Engine.Game.Update | web/src/game-fallback.ts:322-377 | a web frame gives `Rules.WebUpdate` and keeps the engine consistent |
| Engine.Game.HandleInput | rust-game/src/game.rs:144-161 | polling types exactly the pressed letter keys, one after another in key order (the order `Rules.KeysDownInOrder` states) |
| Engine.Game.PollKey | rust-game/src/game.rs:156-160 | a pressed key is typed, any other key changes nothing |
| Engine.Game.UpdatePlaying | rust-game/src/game.rs:90-142 | spawn, fall, ground, keys, particles, completion, in that order |
| Engine.Game.Frame | rust-game/src/game.rs:60-67 | a native frame gives `Rules.NativeFrame` and keeps the engine consistent |
| Engine.Game.KeyDown | web/src/game-fallback.ts:128-153 | a web key event gives `Rules.WebKeyDown` and its sounds, and keeps the engine consistent |
| Achievements.GrowsTrans | web/src/achievements.ts:180 | unlocked records staying unlocked and unchanged is transitive over runs of calls |
| Achievements.LoadContents | web/src/achievements.ts:166-175 | loading puts every default id in memory, with the stored record when there is one and a default otherwise; memory agrees with the store, and stored records are kept |
| Achievements.DefaultsLocked | web/src/achievements.ts:41-164 | every default achievement starts locked |
| Achievements.LoadFresh | web/src/achievements.ts:166-175 | loading into an empty tracker: every id known, stored record wins, no notification, ids not stored are locked |
| Achievements.OpenedContents | web/src/achievements.ts:27-38 | after `init`, every default id is known, memory agrees with the store, and what was not stored is locked |
| Achievements.Unlock | web/src/achievements.ts:178-192 | the set of ids is unchanged and a known id ends unlocked |
| Achievements.UnlockEffect | web/src/achievements.ts:178-192 | an unknown or unlocked id changes nothing; otherwise only that record becomes unlocked at `now`, the store follows and one notification goes out; a second unlock changes nothing |
| Achievements.SetProgress | web/src/achievements.ts:194-209 | the ids in memory are unchanged |
| Achievements.UpdateProgressEffect | web/src/achievements.ts:194-209 | on a locked record the progress is stored and the record unlocks exactly when a non-zero target is reached; an unknown or unlocked id changes nothing; no other record changes and the store follows |
| Achievements.AddProgress | web/src/achievements.ts:211-217 | the ids in memory are unchanged |
| Achievements.IncrementProgressEffect | web/src/achievements.ts:211-217 | progress becomes the old progress (0 if absent) plus the amount, unlocking exactly when that reaches the target; unknown or unlocked ids are untouched |
| Achievements.Apply | web/src/achievements.ts:251 | one awaited unlock or increment keeps the set of ids |
| Achievements.Run | web/src/achievements.ts:242-305 | a run of calls keeps the set of ids |
| Achievements.DailyStreak | web/src/achievements.ts:311-323 | the set of ids is unchanged |
| Achievements.ApplyEffect | web/src/achievements.ts:178-217 | one call changes only the record it names, never an unlocked one, keeps memory and store in step, and an unlock leaves its record unlocked |
| Achievements.RunAppend | web/src/achievements.ts:250-304 | running two lists of calls in turn is running their concatenation |
| Achievements.RunEffect | web/src/achievements.ts:250-304 | a run changes only the records it names, never an unlocked one, keeps memory and store in step, and unlocks every known id it unlocks |
| Achievements.SessionIds | web/src/achievements.ts:41-164 | every id the session check names is among the defaults |
| Achievements.PhasesScheduled | web/src/achievements.ts:250-297 | the session check performs the first-session unlock and every speed, accuracy, combo and level call |
| Achievements.TiersScheduled | web/src/achievements.ts:250-297 | the session check calls each tier's unlock whenever its threshold is met |
| Achievements.SessionTiers | web/src/achievements.ts:250-297 | after a session check first-session is unlocked, and so is every speed (50, 75, 100), combo (50, 100) and level (5, 10, 15, 20) tier at or below the session's value, and perfectionist at exactly 100 % accuracy; nothing is locked again |
| Achievements.SessionTouches | web/src/achievements.ts:242-305 | the session check changes only the records it names (word-wizard only when words were typed) |
| Achievements.AdvancedOnce | web/src/achievements.ts:211-217 | a locked record advanced once by a run, with no other call naming it, gains exactly the amount |
| Achievements.SessionAccuracyProgress | web/src/achievements.ts:270-272 | from 95 % accuracy, accuracy-master advances by exactly one |
| Achievements.SessionMarathonProgress | web/src/achievements.ts:300 | marathon-runner advances by exactly the letters typed |
| Achievements.EasterEggEffect | web/src/achievements.ts:307-309 | easter-egg-hunter advances by one and nothing else changes |
| Achievements.DailyStreakEffect | web/src/achievements.ts:311-323 | days is the whole number of days since the last play, rounded down; one day advances week-warrior by one, more resets it to 0, less changes nothing; only week-warrior is touched |
| Achievements.SessionRun | web/src/achievements.ts:250-304 | the session check is its six parts in source order |
| Achievements.AchievementManager.constructor | web/src/achievements.ts:23-25 | an empty map, store and notification log |
| Achievements.AchievementManager.Init | web/src/achievements.ts:27-38 | the loop loads the defaults in order, and from an empty tracker gives the opened state |
| Achievements.AchievementManager.CheckAndUnlock | web/src/achievements.ts:178-192 | answers true exactly for a known, locked id, and the state becomes `Unlock` |
| Achievements.AchievementManager.UpdateProgress | web/src/achievements.ts:194-209 | answers whether it unlocked, and the state becomes `SetProgress` |
| Achievements.AchievementManager.IncrementProgress | web/src/achievements.ts:211-217 | answers whether it unlocked, and the state becomes `AddProgress` |
| Achievements.AchievementManager.GetAll | web/src/achievements.ts:219-221 | exactly the records in memory |
| Achievements.AchievementManager.GetUnlocked | web/src/achievements.ts:223-225 | exactly the unlocked records in memory |
| Achievements.AchievementManager.GetProgress | web/src/achievements.ts:227-229 | the stored progress, or 0 for an unknown id or absent progress |
| Achievements.AchievementManager.CheckSpeed | web/src/achievements.ts:253-263 | the speed tiers from the highest reached down |
| Achievements.AchievementManager.CheckAccuracy | web/src/achievements.ts:265-272 | perfectionist at exactly 100, then accuracy-master from 95 |
| Achievements.AchievementManager.CheckCombo | web/src/achievements.ts:274-280 | the combo tiers from the highest reached down |
| Achievements.AchievementManager.CheckLevel | web/src/achievements.ts:282-297 | the level tiers from the highest reached down |
| Achievements.AchievementManager.CheckProgressive | web/src/achievements.ts:299-304 | marathon-runner by the letters typed, then word-wizard when words were typed |
| Achievements.AchievementManager.CheckSessionAchievements | web/src/achievements.ts:242-305 | the whole session check, as the run `SessionChecks` about which the lemmas above speak |
| Achievements.AchievementManager.CheckEasterEgg | web/src/achievements.ts:307-309 | advances easter-egg-hunter by one |
| Achievements.AchievementManager.CheckDailyStreak | web/src/achievements.ts:311-323 | the streak rule `DailyStreak` |
| Stats.Stamp | web/src/stats.ts:81-84 | the stored session is the entry with its timestamp |
| Stats.BestBounds | web/src/stats.ts:96 | the best score is at least every session's score and is one of them (or 0) |
| Stats.RecordEffect | web/src/stats.ts:71-102 | without a database, or under a taken timestamp, nothing changes; otherwise the session is added, the count rises by one, the best score is at least the old best and the new score, and lastPlayed is the clock |
| Stats.RecordCoherent | web/src/stats.ts:95-98 | recording keeps sessions and sessionCount equal to the number of stored sessions, bestScore their maximum and totalWpm their sum |
| Stats.EmptyCoherent | web/src/stats.ts:87-93 | a store with no overall record is coherent: the missing record counts as all zeros |
| Stats.SummaryMeans | web/src/stats.ts:62-68 | on a coherent store the summary is the session count, the best score and the mean speed |
| Stats.Insert | web/src/stats.ts:108-109 | inserting adds exactly one session |
| Stats.Newest | web/src/stats.ts:108-109 | sorting keeps the number of sessions |
| Stats.InsertMultiset | web/src/stats.ts:108-109 | inserting adds the session and keeps every other one: the result is a permutation of the list plus the session |
| Stats.InsertSorted | web/src/stats.ts:108-109 | inserting into a newest-first list keeps it newest first |
| Stats.NewestSorted | web/src/stats.ts:108-109 | the sort is newest first and a permutation of the sessions |
| Stats.SortedUnique | web/src/stats.ts:108-109 | two newest-first permutations of sessions with distinct timestamps are equal |
| Stats.AnySortIsNewest | web/src/stats.ts:108-109 | any newest-first ordering of distinct timestamps is the sort's result |
| Stats.SliceEnd | web/src/stats.ts:110 | `slice(0, limit)` ends at min(limit, n) for a non-negative limit and counts from the end for a negative one |
| Stats.RecentProperties | web/src/stats.ts:104-111 | the recent sessions are the slice's length, newest first, among the stored ones, and no session left out is newer than one returned |
| Stats.StatsManager.constructor | web/src/stats.ts:30 | no database yet |
| Stats.StatsManager.Init | web/src/stats.ts:32-49 | the database is open with the stored contents |
| Stats.StatsManager.GetStats | web/src/stats.ts:51-69 | zeros without a database or an overall record; otherwise the session count, the best score and totalWpm / sessionCount, or 0 when the count is 0 |
| Stats.StatsManager.RecordSession | web/src/stats.ts:71-102 | succeeds exactly with an open database and a new timestamp, and the store becomes `Record` |
| Stats.StatsManager.GetRecentSessions | web/src/stats.ts:104-111 | nothing without a database; otherwise at most `limit` stored sessions, newest first, and none left out is newer |
| Config.InfoTable | web/src/config.ts:22-59 | only the two 3n E-models are multimodal, and only the E4B is marked recommended |
| Config.Merge | web/src/config.ts:105 | each supplied field replaces the current one; each absent field is kept |
| Config.MergeIdempotent | web/src/config.ts:104-107 | saving the same fields twice is saving them once; an empty save changes nothing |
| Config.Migrate | web/src/config.ts:90-93 | a stored 'gemma3' becomes 'mediapipe'; every other field passes unchanged |
| Config.Persist | web/src/config.ts:106 | what is written is a full JSON record |
| Config.LoadDefaults | web/src/config.ts:84-101 | nothing stored, or text that does not parse, loads the defaults: mediapipe, gemma-3n-270m, every switch on |
| Config.LoadFields | web/src/config.ts:96 | each stored field wins over the default, each absent field keeps it, and 'gemma3' loads as mediapipe |
| Config.SaveLoad | web/src/config.ts:104-107 | a saved config loads back unchanged |
| Config.ConfigManager.constructor | web/src/config.ts:80-82 | the config is what loading the storage entry gives |
| Config.ConfigManager.SaveConfig | web/src/config.ts:104-107 | the config is merged with the given fields and written whole |
| Config.ConfigManager.GetConfig | web/src/config.ts:109-111 | a copy equal to the current config |
| Config.ConfigManager.SetAIMode | web/src/config.ts:113-115 | only the mode changes, and the stored entry loads back to the new config |
| Config.ConfigManager.GetAIMode | web/src/config.ts:117-119 | the current mode |
| Config.ConfigManager.SetGemmaModel | web/src/config.ts:121-123 | only the model changes, and the stored entry loads back to the new config |
| Config.ConfigManager.GetGemmaModel | web/src/config.ts:125-127 | the current model |
| Config.ConfigManager.GetModelInfo | web/src/config.ts:129-131 | the table entry of the current model |
| Coach.NewCoach | web/src/ai-coach.ts:28-31 | a new coach is not ready, not loading and has no engine; the model defaults to gemma-3n-e4b |
| Coach.InitSkips | web/src/ai-coach.ts:34 | `init` changes nothing when ready, loading or disabled |
| Coach.InitOutcome | web/src/ai-coach.ts:36-53 | when `init` runs it ends not loading, ready exactly when loading worked (with an engine), and keeps mode and model |
| Coach.BeginBlocks | web/src/ai-coach.ts:34-36 | while a load is running, a second `init` changes nothing |
| Coach.ChangeModelOutcome | web/src/ai-coach.ts:275-290 | outside mediapipe mode it changes nothing (and throws); otherwise the model is switched and the coach is ready exactly when the reload worked |
| Coach.SoundKept | web/src/ai-coach.ts:33-54 | a ready coach always holds an engine and is not disabled, through every step |
| Coach.NewCoachSound | web/src/ai-coach.ts:28-31 | a new coach satisfies that invariant |
| Coach.Templates | web/src/ai-coach.ts:258-264 | there are five templates |
| Coach.TemplateIndex | web/src/ai-coach.ts:267-269 | the chosen template is one of the first four |
| Coach.FallbackChoice | web/src/ai-coach.ts:257-272 | template 0 from 95 % accuracy, 1 from 90, 2 from 80, 3 below; the fifth is never used |
| Coach.TrimStart | web/src/ai-coach.ts:200 | a suffix of the text that does not start with white space |
| Coach.TrimEnd | web/src/ai-coach.ts:209 | a prefix of the text that does not end with white space |
| Coach.RunEnd | web/src/ai-coach.ts:208 | the end of a maximal run of sentence stops, or of non-stops |
| Coach.SentencesShape | web/src/ai-coach.ts:208 | every sentence found is non-empty and ends with '.', '!' or '?' |
| Coach.Pieces | web/src/ai-coach.ts:208 | there is always at least one piece (the whole text when no sentence is found) |
| Coach.FirstThree | web/src/ai-coach.ts:209 | at most the first three pieces, and at least one |
| Coach.Cut | web/src/ai-coach.ts:211 | at most the first 200 characters |
| Coach.RemoveBold | web/src/ai-coach.ts:205 | after removing every `**`, no two asterisks are adjacent |
| Coach.LimitedNoBold | web/src/ai-coach.ts:209 | joining and trimming sentences brings no `**` back |
| Coach.CleanNoBold | web/src/ai-coach.ts:199-211 | a cleaned reply never contains `**` |
| Coach.ShownEndsSentence | web/src/ai-coach.ts:207-211 | when the reply has a sentence, what is shown ends with a sentence stop |
| Coach.ShownWithoutSentence | web/src/ai-coach.ts:208-211 | without a sentence, the trimmed text is shown, or its first 200 characters when that is empty |
| Coach.FeedbackFallsBack | web/src/ai-coach.ts:152-174 | the template answers when not ready or when generation throws; a ready coach shows the cleaned MediaPipe reply or the WebLLM reply as it is |
| Coach.AICoach.constructor | web/src/ai-coach.ts:28-31 | the new coach's flags and model |
| Coach.AICoach.StartInit | web/src/ai-coach.ts:33-36 | starts exactly when not ready, not loading and not disabled, and sets loading |
| Coach.AICoach.FinishInit | web/src/ai-coach.ts:38-53 | success sets ready and clears loading; failure only clears loading and rethrows |
| Coach.AICoach.Init | web/src/ai-coach.ts:33-54 | throws exactly when it ran and the load failed; the flags become `InitState` |
| Coach.AICoach.ChangeModel | web/src/ai-coach.ts:275-290 | throws outside mediapipe mode or when the reload fails; the flags become `ChangeModelState` |
| Coach.AICoach.GetSessionFeedback | web/src/ai-coach.ts:146-175 | the template when not ready, without an engine or when generation throws; the cleaned reply (no `**`) in mediapipe mode; the raw reply in webllm mode |
| Coach.AICoach.GetModelInfo | web/src/ai-coach.ts:292-294 | the table entry of the current model |
| Coach.AICoach.GetCurrentModel | web/src/ai-coach.ts:296-298 | the current model |
| Coach.AICoach.GetMode | web/src/ai-coach.ts:300-302 | the current mode |

## Left out

- Rendering: every `draw*` method, `wrapText`, the starfield, the HUD, and the screen-shake and flash timers. They only affect presentation.
- Audio: the oscillators and note frequencies. Each step returns the cues it asks the audio layer to play instead.
- Randomness and trigonometry: the spawn character and column are a `Rules.Draw` parameter, and each burst particle's velocity and size come from a `spray` parameter. Angles, `cos` and `sin` are not modelled.
- Floating point: positions, speeds and timers are exact reals. IEEE rounding and `f32` casts are not modelled. `i32` overflow of score and counters is not modelled.
- Rules.Wpm: the rounding of `Math.round` is stated for the exact real quotient, not for IEEE doubles.
- The accuracy and feedback request made when a level completes (`requestAIFeedback`): it is asynchronous, and it guards on a flag set by an earlier call that is still running.
- The per-frame `delta` and the screen size come from the frame loop (`requestAnimationFrame`, macroquad). They are parameters.
- The frame loop and loader plumbing: `start`, `stop`, `gameLoop`, `rust-game/src/lib.rs` and `web/src/wasm-loader.ts`.
- Persistence: IndexedDB and `localStorage` are values.
  - The achievement store is a map keyed by id.
  - The statistics database is an optional overall record plus a list of sessions.
  - The settings entry is missing, malformed or parsed fields.
  - The store is assumed to open. The `openDB` upgrade callbacks are not modelled.
- Achievements.AchievementManager.GetAll: it answers a set, so the insertion order of `Array.from(map.values())` is not captured.
- Achievements.AchievementManager.GetUnlocked: like GetAll, it answers a set, so order is not captured.
- Unlock notifications: `CustomEvent` dispatch and the console line are a log of the unlocked records.
- The clock: `Date.now()` is a parameter. `recordSession` reads it twice, as the `timestamp` and `now` parameters.
- Achievements.AchievementManager.CheckSessionAchievements: the whole check takes one clock reading `now`, so every record it unlocks gets the same `unlockedAt`. The source's `checkAndUnlock` reads `Date.now()` afresh for each unlock, after the awaited writes before it.
- Achievements.AchievementManager.CheckSessionAchievements: the session summary's fields (`wpm`, `accuracy`, `level`, `combo`, `totalLetters`, `wordsTyped`) are integers, where the source takes any `number`. Fractional values, and the comparisons and progress sums they would give, are not modelled.
- Achievements.AchievementManager.CheckDailyStreak: one clock reading `now` serves both for the day count and for the `unlockedAt` of a record the streak unlocks. The source reads `Date.now()` once for the day count and again inside `checkAndUnlock`.
- Stats.StatsManager.GetRecentSessions: `limit` is an integer and its default of 10 is left to the caller. Timestamps are integers.
- Stored settings: values of the wrong type and unknown strings are not modelled. An empty string reads as missing. JSON `null`, which makes the migration throw, reads as malformed.
- `getMultimodalFeedback`, `generateFeedbackPrompt`, the internals of `initMediaPipe` and `initWebLLM`, their progress callbacks and the dynamic imports. A model load and a generation are outcomes passed in.
- Coach.AICoach.Init: the method models a load with no overlap. An `init` that arrives while a load is still running is the `StartInit`/`FinishInit` pair, with `Coach.BeginBlocks`.
- The numbers in the fallback templates (`toFixed(1)` and the accuracy) are given as already-rendered strings.
- The NaN accuracy case of `getFallbackFeedback` is not modelled, since accuracy is a real.
- Coach.Clean: like the source's `replace(/.../g)`, each tag is removed in one pass. Text such as `<end_` + `<end_of_turn>` + `of_turn>` still shows a tag after clean-up, so no "no tags remain" property is claimed.
- Glue files: the settings UI, `main.ts`, `share.ts`, `vite.config.ts` and `audio.ts`.
- Words, easter-egg codes, a word-input buffer and a 20-level catalogue: they do not exist in the engine code.
