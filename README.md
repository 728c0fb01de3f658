# Mokugyo rhythm engine — a Dafny model

Mokugyo is a browser rhythm game. Notes fall towards a wooden fish in time with
a chant. The player strikes on the beat, and a hannya mask creeps closer with
every miss. This project models the engine behind it from `main.js`:

- **`Beat` (`beat.dfy`)**: the beat grid of the audio clock.
  - seconds per beat;
  - `nearestBeatTime`, with JavaScript's `Math.round` written out as
    `Floor(x + 1/2)`;
  - the target and timer delay that the note scheduler computes.
- **`Policy` (`policy.dfy`)**: the judgement-window policy and its
  configuration.
  - the difficulty mode and the miss budget of each mode;
  - the threat level and the window that shrinks with it;
  - the band of misses in which the hannya hides;
  - the tempo clamp of the settings dialog.
- **`Gimmick` (`gimmick.dfy`)**: the map from combo milestones to a named effect.
- **`Engine` (`engine.dfy`)**: the judgement engine and the session state.
  - The notes table is the JS `Map`, kept in insertion order as a
    `seq<Entry>`.
  - `handleHit`'s nearest-note scan is a loop method proved against its
    specification.
  - The hit and miss registrations, the automatic miss of a note that
    arrives unhit, spawning, removal, start, reset and settings are methods
    of a `Session` class. Its fields are the module-level variables of
    `main.js`.
- **`Options` (`options.dfy`)**: the `Option` type. `None` stands for `null`,
  `undefined` and NaN.

Modelling assumptions:

- Times are exact `real`s standing for JavaScript doubles.
- The audio clock is a parameter (`now`, `t`).
- Timer and animation callbacks are methods that the environment calls:
  - `FireSpawnTimer` when the armed spawn timer fires;
  - `OnNoteMiss` when a note's animation ends unhit;
  - `RemoveNote` after a note's fade-out.
- The mode is a closed enumeration. `ModeOf` maps a radio value to it. Every
  test of the mode in `main.js` compares with `'hard'` or `'easy'`, so any
  other value behaves exactly as Normal.

Notes on what the code does, which the model follows:

- **Window floor.** The window floor is 0.05 s (main.js:92).
- **Threat level.** The threat reaches 1 at `maxMiss - 1` misses, so it lies
  in [0, 1] (main.js:91).
- **Next spawn target.** The scheduler does not aim at the first beat after
  the clock reading. `nearestBeatTime(now + 0.001) + interval` can skip the
  coming beat (`Beat.NextBeatSkipsComingBeat`).
- **Game over and the miss budget.**
  - `onNoteMiss` is not guarded by `playing`, so the misses can exceed
    `maxMiss`.
  - Once notes spawn, `triggerDeath` can run more than once per session
    (`Engine.DeathSignalledTwice`). As written no note ever spawns (see
    Findings) and `handleHit` returns at once when not playing
    (main.js:230), so there it runs at most once.
  - `misses < maxMiss` is therefore stated only as `Session.Alive()`. Every
    miss establishes it, and a judged input keeps it. It is not a global
    invariant.
- **Spawn delay.** The note travel time (1.8 s) is longer than the distance
  to any target the scheduler picks at 60 BPM and above. The spawn timer is
  therefore always armed with zero delay (`Beat.SpawnDelayZeroFrom60Bpm`).
- **Repeated spawns for one beat.** From 60 BPM up, a re-armed timer has no
  delay, and while `now + 0.001` rounds to the same beat it aims at the same
  grid line (`Engine.RearmSameBeat`). Once the loop runs, it therefore
  spawns note after note for one beat until the clock passes the midpoint
  to the next beat (`Engine.OneBeatSpawnedTwice`).

## Model

| member | source | states |
|---|---|---|
| `Beat.Spb` | main.js:79 | seconds per beat is positive and is exactly 60 / BPM |
| `Beat.SpbBounds` | main.js:108 | within the clamped tempo range 30–240, a beat lasts between 0.25 s and 2 s |
| `Beat.Round` | main.js:84 | `Math.round` gives the integer k with x − 1/2 < k ≤ x + 1/2 (halves round up) |
| `Beat.Dist` | main.js:236 | the absolute difference of two times is non-negative and equals one of the two differences |
| `Beat.NearestBeatTime` | main.js:82-86 | the snapped time lies within half a beat of t: t − spb/2 < b ≤ t + spb/2 |
| `Beat.NearestIsOnGrid` | main.js:82-86 | the snapped time is a grid line `start + offset + k*spb` |
| `Beat.NearestIsClosest` | main.js:82-86 | no grid line is closer to t than the snapped time |
| `Beat.IndexOfGridPoint` | main.js:83-84 | the rounded index of grid line k is k |
| `Beat.NearestIdempotent` | main.js:82-86 | snapping a snapped time returns it unchanged |
| `Beat.DefaultTempoGrid` | main.js:79-86 | at 80 BPM from 0 with no offset: 1.1 s snaps to 0.75 s, 1.5 s to itself, and the first target from 0 is 0.75 s |
| `Beat.NextBeat` | main.js:162 | the next spawn target lies strictly between now + 0.001 + spb/2 and now + 0.001 + 3·spb/2 (upper bound included) |
| `Beat.NextBeatAfterNow` | main.js:162 | the next spawn target is a grid line strictly after the clock reading |
| `Beat.NextBeatSkipsComingBeat` | main.js:162 | at 80 BPM and 0.5 s the target is 1.5 s, although the grid line 0.75 s lies in between |
| `Beat.SpawnDelay` | main.js:162-164 | at the current tempo the delay is never negative, the timer fires at `NextBeat − travel` or at once if that has passed, and the delay is 0 exactly when that spawn time is not after now |
| `Beat.DelayUntil` | main.js:164 | the timer delay is never negative, and `now + delay` is the spawn time, or now if the spawn time has passed |
| `Beat.SpawnDelayZeroFrom60Bpm` | main.js:162-164 | from 60 BPM up, with the 1.8 s travel time, the spawn delay is always 0 |
| `Policy.ModeOf` | main.js:106 | a radio value selects Hard exactly for "hard", Easy exactly for "easy", and Normal for every other value |
| `Policy.MaxMissFor` | main.js:113-115 | every mode's miss budget is at least 1, and it is 1 exactly in Hard mode |
| `Policy.MaxMissTable` | main.js:113-115 | the budgets are Easy 16, Normal 6 and Hard 1, ordered Hard < Normal < Easy |
| `Policy.Threat` | main.js:91 | the threat lies in [0, 1]; it is 0 with no misses or with a budget of 1; it is 1 exactly when 1 < maxMiss ≤ misses + 1 |
| `Policy.ThreatMonotone` | main.js:91 | more misses never lower the threat |
| `Policy.BaseWindowAt` | main.js:90-93 | the unscaled window stays in [0.05, 0.15]; it is 0.15 at threat 0 and 0.05 at threat 1 |
| `Policy.Window` | main.js:89-98 | the window is positive and lies in [0.05, 0.15] (Normal), [0.03, 0.09] (Hard) or [0.07, 0.21] (Easy) |
| `Policy.WindowModeOrder` | main.js:95-97 | for the same misses, the Hard window is smaller than Normal, which is smaller than Easy |
| `Policy.WindowNonIncreasing` | main.js:89-98 | the window never widens as the misses grow |
| `Policy.WindowEnds` | main.js:90-97 | with no misses the window is 0.15 s scaled by the mode's factor (0.6 Hard, 1 Normal, 1.4 Easy); with a budget above 1 (Normal, Easy) it reaches the 0.05 s floor scaled the same way from maxMiss − 1 misses on; with a budget of 1 (Hard) it never shrinks |
| `Policy.HannyaHidden` | main.js:318 | the hannya is never hidden before the fifth miss, never once the miss budget is spent, and never under a budget of five or less |
| `Policy.HiddenBandByMode` | main.js:318 | the hannya never hides in Hard mode; in Normal it hides only at 5 misses, in Easy from 5 to 15; while hidden the budget is not yet spent |
| `Policy.ClampBpm` | main.js:108 | the tempo always ends in [30, 240]. An in-range input is taken as is. A non-zero input below the range gives 30 and one above it gives 240. NaN or 0 keeps an in-range previous tempo |
| `Gimmick.GimmickFor` | main.js:331-333 | an effect fires exactly when the combo is non-zero and a multiple of 10 |
| `Gimmick.GimmickTable` | main.js:338-379 | 10 shake, 20 big shake, 30 flash, 40 slow motion, 50 rotate, 60 ghost, 70 extra spawns, 80 blackout, 90 invert; every multiple of 10 from 100 on flashes |
| `Gimmick.TenHitsFireOnce` | main.js:332-333 | of the combos 1 to 11, only 10 fires an effect |
| `Engine.TierOf` | main.js:260-261 | a hit is PERFECT exactly when it is at most 0.04 s off, otherwise OK; never MISS |
| `Engine.NearestUnhit` | main.js:233-238 | the scan returns None exactly when every note is hit; otherwise an unhit note with no unhit note closer to t and every earlier unhit note strictly farther |
| `Engine.NearestUnique` | main.js:234-237 | the scan's choice is unique |
| `Engine.NearestTieGoesToLowestId` | main.js:234-237 | among unhit notes equally near, the one with the lowest id is chosen |
| `Engine.Find` | main.js:251 | the lookup returns the position of an entry with that id, and None exactly when no entry has it |
| `Engine.FindOwnId` | main.js:174 | with the increasing ids the counter hands out, looking up a note's id finds that note |
| `Engine.Remove` | main.js:209 | deleting an id removes exactly the entry with that id (one entry fewer) and leaves the table unchanged if the id is absent |
| `Engine.ArmedFor` | main.js:162-164 | the armed target is a grid line within half a beat of `now + 0.001`, plus the captured interval; the delay is never negative and the timer fires at the spawn time 1.8 s before the target, or at once if that has passed |
| `Engine.ArmedForCurrentTempo` | main.js:156-164 | with an unchanged tempo the armed timer aims at `NextBeat` with `SpawnDelay`, a grid line after now |
| `Engine.Session.constructor` | main.js:50-60 | the initial state has no combo, no misses, Normal mode with budget 6, play stopped, an empty table, 80 BPM and no offset |
| `Engine.Session.ApplySettings` | main.js:104-116 | the checked radio sets the mode, and the miss budget follows the mode; the tempo is clamped; the offset falls back to 0; game state is untouched |
| `Engine.Session.ScheduleNext` | main.js:158-169 | while playing, the timer is armed for the grid line nearest to `now + 0.001` (which can lie before it) plus the captured interval; once the game is over nothing is armed |
| `Engine.Session.SpawnBeatLoop` | main.js:154-171 | cancels the armed timer, captures the interval `60 / BPM`, and schedules the next spawn |
| `Engine.Session.SpawnNoteAt` | main.js:173-187 | appends one unhit note under a fresh id, the old counter plus one |
| `Engine.Session.FireSpawnTimer` | main.js:165-168 | while playing, one note is spawned for the timer's beat; then the next spawn is armed unless the game is over |
| `Engine.Session.RemoveNote` | main.js:209 | the table loses the entry with that id |
| `Engine.Session.TriggerDeath` | main.js:425-426 | play stops |
| `Engine.Session.RegisterHit` | main.js:250-267 | an absent id changes nothing. Otherwise that note alone is marked hit and the combo grows by exactly 1. The misses are unchanged. The tier follows `TierOf` and the effect is the one for the new combo |
| `Engine.Session.RegisterMiss` | main.js:269-283 | misses grow by exactly 1 and the combo drops to 0; death is signalled exactly when misses reach or exceed maxMiss, so in Hard mode the first miss is fatal and every later one signals death again |
| `Engine.Session.OnNoteMiss` | main.js:285-292 | an absent id changes nothing; otherwise the note is marked hit and exactly one miss is registered, whether or not the game is still on |
| `Engine.Session.HandleHit` | main.js:229-248 | with the game over nothing changes. Otherwise the input is a hit exactly when some unhit note lies within the current window; the hit goes to the nearest note. A miss resolves no note and counts one miss |
| `Engine.Session.ResetGame` | main.js:445-448 | the table, id counter, misses and combo are cleared, the threat is 0, play is stopped; settings and the armed timer are kept |
| `Engine.Session.StartGame` | main.js:132-151 | the table and counters are reset, the start time is recorded and play begins; from a stopped game no spawn timer is armed |
| `Engine.Session.StartGameArmed` | main.js:132-151 | the corrected start captures the interval 60 / BPM and arms the first spawn for `NextBeat`, a grid line strictly after the start |
| `Engine.FirstStartNeverSpawns` | main.js:147-159 | after Start from the initial state nothing is armed, and a tap at 0.001 s is a MISS with 1 miss and combo 0 |
| `Engine.RearmSameBeat` | main.js:160-169 | from 60 BPM up, two re-arms whose `now + 0.001` rounds to the same beat aim at the same target, both with zero delay |
| `Engine.OneBeatSpawnedTwice` | main.js:160-169 | at 80 BPM, a running loop whose timer fires at 4 ms and at 8 ms leaves two notes for the beat at 0.75 s |
| `Engine.DeathSignalledTwice` | main.js:285-292 | in Hard mode two notes arriving unhit both signal death and leave 2 misses against a budget of 1 |

## Findings

| source | as written | input that shows it | evidently intended | confidence | as-written member | corrected member |
|---|---|---|---|---|---|---|
| main.js:147-148 | `startGame` calls `spawnBeatLoop()` before `playing = true`. The loop's first `scheduleNext` returns at its `!playing` guard (main.js:159), so no spawn timer is ever armed and no note ever spawns | Start clicked from the initial page state, or after Retry, which leaves `playing` false | set `playing` before starting the loop, so that the first note is scheduled for the next beat | not executed; high | `Engine.FirstStartNeverSpawns` (through `Engine.Session.StartGame`) | `Engine.Session.StartGameArmed` |

## Left out

- DOM and CSS work is not modelled: `showJudgement`, `updateHUD`, the
  visual numbers of `updateHannya` (scale, blur, opacity), `getMokugyoCenter`,
  `easeOutCubic`, the judgement position and the game-over screen. They are
  presentation only.
- Audio is not modelled: `createAudioContextIfNeeded`, resuming the context,
  BGM playback and `playSE`. The audio clock is a parameter. An audio clock
  that is not yet available is not modelled.
- The animation frame loop of `spawnNoteAt` is not modelled. Its `!note.hit`
  test before `onNoteMiss` lies with the caller of `OnNoteMiss`. The note's
  `spawnTime` and DOM element are not kept in the table.
- Stale callbacks after a reset are not modelled: a frame callback or a
  delayed `notes.delete` from an earlier session can act on a reused id.
  Callbacks are methods the environment calls, and the model does not order
  them in time.
- The gimmick effects themselves are not modelled. This includes the
  temporary change of `NOTE_TRAVEL_SEC` by the slow-motion effect, so
  `NoteTravelSec` is fixed at 1.8 s. The extra spawner of the combo-70 effect
  is covered only in that the environment may call `SpawnNoteAt`. Clearing
  of `effectsTimeouts` is not modelled either.
- IEEE-754 doubles are not modelled: rounding error, and infinite values
  from `Number("Infinity")`.
