# Whack-a-mole game session, modelled in Dafny

This project models the game logic of the browser whack-a-mole script `mole.js`.
The board has 9 tiles. Each spawn cycle puts moles and piranha plants on some tiles.
Clicking a mole scores 10 points. Clicking a plant ends the round. A countdown ends the round when it runs out.

All page globals of the script are one immutable `Session.Game` record.
Each callback of the script is a pure function on that record:

- `Session.Load` is the page load. It reads the high score from storage.
- `Session.Start` is the start button (`startGame`).
- `Session.Tick` is one firing of the countdown interval.
- `Session.SpawnCombined` is one firing of the spawn interval.
- `Session.SelectTile` is one tile click.
- `Session.EndGame` is the end of the round.
- `Session.ToggleSound` is the sound button.
- `Session.Restart` is the restart button, which reloads the page.

`Session.Accuracy` is the accuracy shown in the stats panel.

`Spawner` holds the tile selection of a spawn cycle. The level and a pattern roll fix the mole and plant counts. A rejection loop then draws each tile until it finds an unclaimed one. Random draws are explicit parameters:

- a `PatternRoll` (0..2) stands for `Math.floor(Math.random() * 3)`;
- a sequence of `Tile` rolls stands for successive values of `Math.floor(Math.random() * 9)`.

A finite sequence of rolls may run out before the rejection loops finish. `Spawner.Determined` says that the rolls suffice. `Spawner.FourSweepsSuffice` shows that four runs of rolls that each show every tile always suffice.

`Lifecycle` turns the callbacks into events. Interval scheduling is a flag, `timersLive`. Ticks and spawns only fire while the intervals are scheduled. `startGame` sets the flag and the first `endGame` clears it. The start button can only be pressed while it is shown, and starting a round hides it. `Lifecycle.Valid` is the invariant of every reachable state. The lemmas about `Lifecycle.Run` state what sequences of events can and cannot do.

Behaviours of the script that the model keeps:

- `startGame` does not clear the over flag. Only a reload does. This cannot be seen, because the start button is hidden after the first start.
- A mole hit clears the tile's picture but leaves the tile in the mole list. Clicking the same tile again before the next spawn cycle scores again (`Lifecycle.RepeatedMoleHit`).
- The spawn cycle reads the difficulty selector on every cycle. So each spawn event carries its own difficulty, which may differ from the one the round started with.
- The in-memory high score is the value read at page load. `endGame` compares against it and writes storage, but never updates it. A round can end only once per page load, so the stored value is still the maximum of the old high score and the round's score.

## Model

| member | source | states |
|---|---|---|
| Settings.DifficultySettings | mole.js:26-30 | the difficulty profiles: spawn period 1000..1400 ms, duration 35..50 s; only easy lasts 50 s and only hard spawns every 1000 ms |
| Spawner.PatternCounts | mole.js:126-135 | the mole/plant counts are (1,1) outside hard mode; in hard mode they are one of (1,2), (2,1), (2,2); at most 4 claims |
| Spawner.HardPatternsAllReachable | mole.js:129-135 | each of the three hard patterns is produced by exactly one pattern roll |
| Spawner.FirstUnused | mole.js:141-143 | the do-while loop accepts the first roll not already used; it finds none exactly when every roll is used |
| Spawner.Claim | mole.js:137-165 | successive draws claim the requested number of distinct tiles, none already used, each among the rolls, consuming a prefix of the rolls |
| Spawner.SpawnPicks | mole.js:137-165 | the two rejection loops of one cycle, sharing one used set: moles first, then plants; when the rolls suffice the lists are duplicate-free and disjoint, sized by the level and pattern, at most 4 tiles in all |
| Spawner.UnusedTileExists | mole.js:140-158 | with at most 3 tiles claimed, some tile is still free |
| Spawner.CoveringRollsFinish | mole.js:141-143 | a run of rolls that shows every tile ends a rejection loop within that run |
| Spawner.ClaimFinishes | mole.js:140-158 | one board-covering run of rolls per claim makes every claim finish, leaving later rolls unconsumed |
| Spawner.TwoClaimsFinish | mole.js:137-165 | the mole claims followed by the plant claims finish with one covering run of rolls per tile |
| Spawner.FourSweepsSuffice | mole.js:137-165 | four board-covering runs of rolls finish every spawn cycle on every level and pattern, so the rejection loops always have room |
| Session.Load | mole.js:1-23 | a page load starts with zero counters, 30 s on the clock, empty tile lists, no timers, sound on, and the stored high score (0 if none); the start button is assumed visible, as the page markup is not part of this model |
| Session.Start | mole.js:32-47 | a start resets score, hits and misses to 0, sets the countdown to 50 s (easy) or 35 s (medium, hard), schedules the timers and hides the start button, and keeps the over flag and the tile lists |
| Session.Tick | mole.js:81-88 | a tick with time left takes off exactly one second and changes nothing else; a tick at 0 on a running round sets the over flag, cancels the timers and saves the score when it beats the loaded high score, changing nothing else; at 0 on a finished round it changes nothing |
| Session.EndGame | mole.js:91-112 | the end of a round sets the over flag, cancels the timers the first time, and saves the score exactly when it beats the high score read at load; a repeated call changes nothing |
| Session.SpawnCombined | mole.js:115-166 | a spawn cycle after the round is a no-op; otherwise it replaces the mole and plant lists by disjoint, duplicate-free lists of the level's counts, and changes nothing else |
| Session.SelectTile | mole.js:168-203 | a mole click adds 10 to the score and 1 to the hits and changes nothing else, keeping the mole list; a plant click adds one miss, sets the over flag, cancels the timers and saves the score when it beats the loaded high score, changing nothing else; an empty tile, or any click after the round, changes nothing |
| Session.ToggleSound | mole.js:206-213 | the sound toggle flips the sound flag and changes nothing else |
| Session.Restart | mole.js:50-54 | a reload starts a fresh page: counters at 0, 30 s on the clock, sound on, no timers, empty tile lists, and the stored high score, now read as the high score |
| Session.Accuracy | mole.js:216-223 | accuracy is 0 without interactions, otherwise the nearest whole percentage of hits with halves rounded up, and always within 0..100 |
| Lifecycle.LoadValid | mole.js:1-13 | a page load satisfies the session invariant |
| Lifecycle.Step | mole.js:32-96 | ticks and spawn cycles do nothing while the intervals are cancelled; the start button does nothing once hidden; pressing it schedules the intervals and hides it, and it is the only way to schedule them; the intervals are cancelled only when a running round ends or the page reloads |
| Lifecycle.StepValid | mole.js:32-213 | every event keeps the invariant: score is ten times hits, at most one miss, a miss only in a finished round, no timers after the end, a board of one spawn cycle, and the stored high score as the maximum of the loaded one and the final score |
| Lifecycle.RunValid | mole.js:168-203 | after any sequence of events the score is ten times the hits and there is at most one miss |
| Lifecycle.StepKeepsOver | mole.js:91-93 | no event but a reload clears the over flag |
| Lifecycle.OverIsSticky | mole.js:91-96 | once over, the round stays over for every later sequence of events without a reload |
| Lifecycle.StepAfterOver | mole.js:91-169 | after the round is over, every event other than the sound toggle and a reload leaves the state unchanged |
| Lifecycle.RunAfterOver | mole.js:91-169 | after the round is over, a whole sequence of events without a reload changes at most the sound setting |
| Lifecycle.HighScoreMonotone | mole.js:106-109 | the stored high score never decreases, also across reloads |
| Lifecycle.EndGameRecordsHighScore | mole.js:106-109 | ending a round stores the maximum of the old high score and the round's score |
| Lifecycle.EndGameIdempotent | mole.js:91-93 | ending a round twice is the same as ending it once |
| Lifecycle.RepeatedMoleHit | mole.js:171-187 | clicking the same mole tile twice before the next spawn scores 20 and 2 hits, and the mole list is unchanged |
| Lifecycle.CountdownRuns | mole.js:81-84 | while time is left, n ticks take off exactly n seconds and change nothing else |
| Lifecycle.CountdownEnds | mole.js:81-88 | a running round with t seconds left is still running at 0 after t ticks and ends on tick t + 1, with the clock never below 0 |
| Lifecycle.AccuracyOfRound | mole.js:220 | at the end of a round accuracy is 0 without hits, 100 without a miss, and at least 50 when the round ended on a plant after some hits |
| Lifecycle.AccuracyRoundsUpToFull | mole.js:220 | 199 hits and one miss round up to 100 |
| Scenarios.SpawnFourTwo | mole.js:137-165 | a medium cycle drawing 4 then 2 puts a mole on tile 4 and a plant on tile 2 |
| Scenarios.MediumRoundEndsOnPlant | mole.js:115-203 | a medium round: 35 s, a mole hit gives score 10, the plant click ends the round with one hit, one miss and 50% accuracy |
| Scenarios.SevenOfTen | mole.js:220 | 7 hits and 3 misses give 70% |
| Scenarios.HighScoreAcrossReloads | mole.js:50-112 | a round scoring 40 stores 40; after a reload, a round scoring 30 leaves it at 40 |

## Left out

- DOM work is not modelled: building tiles, images, score and time readouts, popups, flash and shake effects and their timeouts, button visibility other than the start button, and the stats panel display (`showStats` beyond the accuracy value, `closeStats`).
- Audio is not modelled: background music, hit and game-over sounds, and the ignored rejection of `play()`. Only the `soundEnabled` flag is kept.
- Storage is a plain natural number. The script stores a string and compares it with a number.
- Real time is not modelled. `setInterval`/`clearInterval` become the `timersLive` flag. Ticks and spawn cycles are events that may be delivered in any order while the flag is set.
- Session.SpawnCombined: takes a finite prefix of the random draws and requires it to be long enough for the rejection loops. The script draws from an unbounded stream.
- Session.Accuracy: exact rational arithmetic with half-up rounding; the script rounds a floating-point quotient, which may land on the other side of an exact half.
- Tile clicks before the first start are modelled as clicks on empty tiles. The script has no tiles to click before `setBoard` runs.
