# Flappy-bird game core in Dafny

This project models the simulation core of a browser Flappy-Bird game. It also models the two pure pieces of its web server.

The bird falls under gravity and jumps on input. Pipes are spawned at the right edge every 100 frames. Each frame:

- every pipe is moved left;
- a pipe scores one point once the bird has passed it;
- a pipe is dropped once it has left the screen.

A run ends when the bird leaves the play field or hits a pipe.

Around the canvas, a run controller keeps the following:

- whether a run is being played, and whether it is over;
- the score and the final score;
- the session's high score.

The server writes a one-line summary of every finished `/api` request. Its error handler picks a status and a message.

The files and what they model:

- **`Config.dfy`** holds:
  - the canvas constants;
  - the three difficulty profiles;
  - the vertical position of a spawned pipe's gap, from a random draw `r` in `[0, 1)`.
- **`Birds.dfy`** holds:
  - the `Bird` class (a mutable box with a vertical velocity);
  - one physics step (`Integrate`) and `n` steps of free fall (`Fall`), with their closed form.
- **`Pipes.dfy`** holds the `Pipe` class and its collision test. Lemmas state what the test means geometrically.
- **`PipeStream.dfy`** is the obstacle stream as values. It covers:
  - one filter pass (`Moved`, `Sweep`, `KeptIndices`, `Gain`) and the spawn step (`Spawn`);
  - the invariants of the live pipe list: screen order, the profile's geometry, and gaps inside the margins;
  - the two steps of the scoring account: a spawn adds one unpassed pipe (`SpawnUnpassed`), and a pass turns exactly the points it awards from unpassed pipes into score (`SweepAccounting`).
- **`GameLoop.dfy`** is the `GameCanvas` class. Its methods update the bird and the pipe objects in place:
  - `HandleInput`;
  - `SetPlaying`, the effect that reacts to the playing flag;
  - `Tick`, one frame of the game loop.

  `Tick` is proved against the value-level stream. A ghost field `stream` holds the values of the live pipe objects, in list order. `Valid()` ties the objects to `stream` and holds the stream invariants and the scoring account `score + pipes not yet passed = pipes spawned in the run`, so every pipe scores at most once. The score is a `nat`, so it is never negative. The constructor, `HandleInput`, `SetPlaying`, `AdvancePipes` and `Tick` keep `Valid()`. The two halves of a pipe step, `SpawnPipe` and `FilterPass`, keep only the parts their contracts name: between them the list may hold a pipe still at the spawn edge.
- **`Particles.dfy`** holds the `Particle` class and its per-frame update. A closed form gives `n` updates, and a lemma gives its lifetime.
- **`UseGame.dfy`** holds the run controller (`GameSession`). The high score is the running maximum of the final scores. Score submission is a ghost event.
- **`Server.dfy`** holds:
  - the request log line: numbers written in decimal, the `/api` filter, the optional JSON body, and the cut to 80 characters;
  - the error handler's status and message fallbacks.

Coordinates, speeds and gravity are `real`, so arithmetic is exact. `Math.random()` is the parameter `r` of `Tick` (and `SpawnY`), with `0 <= r < 1`. Two things the browser supplies are not modelled:

- **Frame scheduling.** The caller calls `Tick` once per frame while a run is played, and stops when `Tick` reports the run over.
- **Input events.** They are calls to `HandleInput` between ticks.

Where the code differs from what one might expect, the model follows the code:

- **The frame counter is never reset.** It is not reset when a run ends or when play is switched off (`GameCanvas.tsx:133-140`). A tick that ends a run does not advance the counter either (`GameCanvas.tsx:319-337`). A new run's first spawn therefore happens at the first multiple of 100 at or after the frame the last run ended on. It happens at once only when that frame is itself a multiple of 100.
- **Pipes spawn on a fixed period.** The spawn test is the literal `frame % 100 == 0` (`GameCanvas.tsx:296`). The profiles' `PIPE_SPACING` is never read.
- **A pipe is kept exactly when its new `x > -52`** (`GameCanvas.tsx:314`). Scoring compares against `PIPE_WIDTH`, not the pipe's own width (`:307`).
- **Difficulty is a model parameter.** The game page mounts the canvas without a `difficulty` (`client/src/pages/GamePage.tsx:27`), so the model takes the profile as the constant `GameCanvas.difficulty`. The page also omits `onScoreChange`, which the canvas calls unconditionally (`GameCanvas.tsx:138`, `:310`); as mounted there, the read of `settings.JUMP_FORCE` (`:131`) would also fail because `settings` is undefined. The model assumes a caller that passes both props.

## Model

| member | source | states |
|---|---|---|
| Config.SettingsOf | client/src/components/game/GameCanvas.tsx:11-33 | every profile has positive gravity and pipe speed, an upward (negative) jump, and a gap that fits between the two 100-unit margins |
| Config.ProfilesOrdered | client/src/components/game/GameCanvas.tsx:11-33 | pipe speed and gravity strictly increase easy → medium → hard, gap height strictly decreases, and every jump force is negative |
| Config.SpawnY | client/src/components/game/GameCanvas.tsx:297 | for every draw `0 <= r < 1`, a new gap's top is at least 100 and the gap ends above `640 - 100` |
| Birds.FallClosedForm | client/src/components/game/GameCanvas.tsx:293-294 | gravity is added to the velocity before the position moves, so after `n` steps without input the velocity is `v0 + n·g` and the height is `y0 + n·v0 + g·n(n+1)/2` |
| Birds.FallFromRestExample | client/src/components/game/GameCanvas.tsx:293-294 | ten steps from rest at gravity 0.5 give velocity 5 and a drop of 27.5 (320 → 347.5) |
| Birds.Integrate | client/src/components/game/GameCanvas.tsx:293-294 | one physics step: gravity is added to the velocity first, and the new velocity then moves the bird; `FallClosedForm` gives `n` such steps in closed form, and `GameCanvas.Tick` ensures the bird follows exactly one |
| Birds.Bird.constructor | client/src/components/game/Bird.tsx:8-13 | a new bird stores x and y as given and is a 34 × 24 box at rest |
| Pipes.Pipe.constructor | client/src/components/game/Pipe.tsx:10-16 | a new pipe stores x, y, width and gap height as given and is not passed |
| Pipes.Pipe.CollidesWith | client/src/components/game/Pipe.tsx:60-66 | the bird's box overlaps the pipe's column with strict comparisons and reaches above the gap's top or below its bottom; what this means geometrically is stated by `NoOverlapNoCollision`, `TouchingEdgesDoNotCollide`, `InsideGapNoCollision`, `OutsideGapCollides` and `CollisionMeetsBlockingSegment` |
| Pipes.NoOverlapNoCollision | client/src/components/game/Pipe.tsx:60-66 | a bird whose box is beside the pipe's column never collides, at any height |
| Pipes.TouchingEdgesDoNotCollide | client/src/components/game/Pipe.tsx:62-63 | boxes whose edges only touch do not collide (both horizontal comparisons are strict) |
| Pipes.InsideGapNoCollision | client/src/components/game/Pipe.tsx:64 | a bird inside the gap never collides; both gap bounds are inclusive |
| Pipes.OutsideGapCollides | client/src/components/game/Pipe.tsx:62-64 | a bird over the column that sticks out above or below the gap always collides |
| Pipes.CollisionMeetsBlockingSegment | client/src/components/game/Pipe.tsx:50-66 | for a bird on the canvas, colliding is the same as the bird's box meeting the top block `[0, y)` or the bottom block `[y + gapHeight, canvasHeight)` of the pipe's column |
| PipeStream.Moved | client/src/components/game/GameCanvas.tsx:304-312 | one pipe after the loop body: moved left by the speed, and passed once its right edge is left of the bird; `PassedIsPermanent` states that a passed pipe stays passed |
| PipeStream.Survives | client/src/components/game/GameCanvas.tsx:314 | a pipe is kept exactly when its moved `x > -52`; `SweepOrder` states that the pass keeps exactly these pipes |
| PipeStream.Sweep | client/src/components/game/GameCanvas.tsx:303-315 | the filter pass on values; `SweepOrder` characterises it as a stable filter of the moved pipes, `SweepAccounting` ties it to `Gain`, `StreamStep` shows it keeps the list's invariants, and `GameCanvas.MoveAll` is proved to compute it in place |
| PipeStream.Gain | client/src/components/game/GameCanvas.tsx:307-311 | the points one pass awards: the pipes that were not passed before it and are passed after it; `SweepAccounting` and `PassedIsPermanent` bound it by the unpassed pipes, and `GameCanvas.FilterPass` adds exactly it to the score |
| PipeStream.NewPipe | client/src/components/game/GameCanvas.tsx:297-300 | the pipe a spawn creates; `SpawnAppends` states its position, width, gap, gap top and that it is not passed |
| PipeStream.Spawn | client/src/components/game/GameCanvas.tsx:296-301 | the spawn step on values; `SpawnAppends` and `SpawnUnpassed` state that it appends one new pipe exactly on frames that are multiples of 100 and changes nothing else |
| PipeStream.SweepOrder | client/src/components/game/GameCanvas.tsx:303-315 | the filter pass is a stable filter: the kept positions increase, a pipe is kept exactly when its moved `x > -52`, and each kept entry is the input pipe at that position moved left by the speed |
| PipeStream.SweepAccounting | client/src/components/game/GameCanvas.tsx:303-315 | with the bird right of the left edge, every pipe dropped by the pass is already passed, so unpassed-after plus points-awarded equals unpassed-before |
| PipeStream.PassedIsPermanent | client/src/components/game/GameCanvas.tsx:307-312 | a pass never clears `passed` on a kept pipe and never awards more points than there were unpassed pipes |
| PipeStream.SpawnAppends | client/src/components/game/GameCanvas.tsx:296-301 | a pipe is appended exactly when `frame % 100 == 0`; it is at x = 480 with width 52, the profile's gap, a gap top in `[100, 540 - gap)` and not passed; earlier pipes are unchanged |
| PipeStream.SpawnUnpassed | client/src/components/game/GameCanvas.tsx:296-301 | spawning adds one unpassed pipe exactly on a spawn frame |
| PipeStream.StreamStep | client/src/components/game/GameCanvas.tsx:296-315 | spawn followed by the filter pass keeps the live list in strict left-to-right order, with the profile's geometry, every pipe on screen and none left at the spawn edge |
| GameLoop.GameCanvas.constructor | client/src/components/game/GameCanvas.tsx:67-72 | mounting gives an empty pipe list, score and frame 0, and a fresh bird at (160, 320) at rest, and establishes the canvas invariant |
| GameLoop.GameCanvas.HandleInput | client/src/components/game/GameCanvas.tsx:116-122 | while playing, the velocity is set (not added) to the jump force, so repeated inputs do not stack; otherwise nothing changes |
| GameLoop.GameCanvas.SetPlaying | client/src/components/game/GameCanvas.tsx:89-140 | a change of the playing flag installs a fresh bird at (160, 320) at rest; switching off also empties the pipe list and zeroes the score; the frame counter is left alone |
| GameLoop.GameCanvas.MoveAll | client/src/components/game/GameCanvas.tsx:303-315 | every pipe object is moved left by the speed and marked passed once its right edge is left of the bird; the result holds, in order, exactly the objects whose moved `x > -52`; the points gained equal the pipes newly passed |
| GameLoop.GameCanvas.KeptMirrorSweep | client/src/components/game/GameCanvas.tsx:303-315 | the kept pipe objects are distinct and hold exactly the values of the value-level filter pass |
| GameLoop.GameCanvas.FilterPass | client/src/components/game/GameCanvas.tsx:303-315 | the pipe list becomes the kept objects in order, the stream becomes `Sweep` of the old one, and the score grows by exactly the newly passed pipes |
| GameLoop.GameCanvas.SpawnPipe | client/src/components/game/GameCanvas.tsx:296-301 | on a frame that is a multiple of 100 a fresh pipe is appended and the old list is its prefix; on other frames the list is unchanged |
| GameLoop.GameCanvas.AdvancePipes | client/src/components/game/GameCanvas.tsx:296-315 | spawn then filter: the stream and score follow the value-level spawn and pass, and the canvas invariant (order, geometry, each pipe scores at most once) is kept |
| GameLoop.AnyCollision | client/src/components/game/GameCanvas.tsx:322 | some pipe left after the pass collides with the bird; `GameCanvas.Tick` ensures the run is over exactly when this or one of the two height tests holds, and the `Pipes` lemmas say what each pipe's test means |
| GameLoop.GameCanvas.Tick | client/src/components/game/GameCanvas.tsx:293-337 | one frame: velocity += gravity then y += velocity; spawn and filter as above; the run is over exactly when the bird is above 0, below 640 − 112 or hits a remaining pipe; the frame counter advances only when it is not over |
| Particles.StepsClosedForm | client/src/components/game/Particle.ts:32-38 | after `n` updates the particle has drifted `n·speedX`, fallen `n·speedY0 + 0.1·n(n−1)/2`, lost `n` of its life, after at least one update its opacity is its life over 60, and colour, size and horizontal speed are unchanged |
| Particles.Lifetime | client/src/components/game/Particle.ts:36-38 | a particle made with `n` life reports itself alive on exactly its first `n − 1` updates, and while alive with at most 61 life its opacity stays in (0, 1] |
| Particles.Step | client/src/components/game/Particle.ts:32-38 | one update on values, in the source's order; `StepsClosedForm` gives `n` of them in closed form, `Lifetime` their alive results, and `Particle.Update` ensures the object's new state is exactly one step |
| Particles.Particle.constructor | client/src/components/game/Particle.ts:21-30 | every configuration field is copied and the opacity is 1 |
| Particles.Particle.Update | client/src/components/game/Particle.ts:32-38 | x moves by speedX and y by the old speedY, then speedY grows by 0.1, life drops by 1, opacity becomes the new life over 60; the result is true iff the new life is positive; colour, size and speedX are unchanged |
| UseGame.BestIsMaximum | client/src/hooks/use-game.ts:40 | the high score is non-negative, at least every final score, and either 0 or one of them |
| UseGame.BestStep | client/src/hooks/use-game.ts:40 | one more final score raises the high score to its maximum with that score, so the high score never decreases |
| UseGame.Best | client/src/hooks/use-game.ts:40 | the high score as the running maximum, from 0, of the final scores in order; `BestIsMaximum` characterises it as the maximum and `BestStep` as the one-step update `GameSession.HandleGameOver` performs |
| UseGame.GameSession.constructor | client/src/hooks/use-game.ts:6-10 | a session starts with all scores 0, not playing and not over |
| UseGame.GameSession.HandleGameOver | client/src/hooks/use-game.ts:34-44 | score and final score become the run's score, the run is over and not playing, the high score becomes the maximum with it, and the score is submitted exactly when a user is signed in |
| UseGame.GameSession.StartGame | client/src/hooks/use-game.ts:49-54 | scores become 0, not over, playing; the high score is unchanged; over and playing are never both true |
| UseGame.GameSession.RestartGame | client/src/hooks/use-game.ts:56-61 | scores become 0, not over, not playing; the high score is unchanged |
| UseGame.GameSession.SetScore | client/src/hooks/use-game.ts:6 | the displayed score is set; the session invariant is kept |
| Server.NatToString | server/index.ts:38 | a number is written as at least one decimal digit, with no leading zero unless it is 0 |
| Server.NatToStringRoundTrip | server/index.ts:38 | reading back the decimal text of a natural number gives the number |
| Server.IntToStringRoundTrip | server/index.ts:38 | the status code and the duration, negative or not, are written as a numeral that reads back to the same number |
| Server.IntToString | server/index.ts:38 | a number written in decimal with a minus sign when negative; `IntToStringRoundTrip` shows it reads back to the same number |
| Server.IsApiPath | server/index.ts:37 | the path starts with "/api"; `FormatLogLine` ensures a line is written exactly for such paths |
| Server.FullLine | server/index.ts:38-41 | the line before the cut: method, path, status and duration, then ` :: json` when the captured body is truthy; `LogLineShape` shows the written line keeps its head, and `FormatLogLine` is proved to build it |
| Server.Truncate | server/index.ts:43-45 | a line of at most 80 characters is unchanged; a longer one keeps its first 79 characters and ends in "…", exactly 80 long |
| Server.TruncateIdempotent | server/index.ts:43-45 | a shortened line is not shortened again |
| Server.FormatLogLine | server/index.ts:36-48 | a line is produced exactly for paths starting with "/api"; it is `method path status in durationms`, plus ` :: json` when the captured body is truthy, cut to 80 characters |
| Server.LogLineShape | server/index.ts:37-45 | every line written is at most 80 characters and starts with the request's method and path when they fit before the cut |
| Server.ErrorStatus | server/index.ts:61 | the status is one of `status`, `statusCode` or 500, and never 0 |
| Server.ErrorStatusIsFirstTruthy | server/index.ts:61 | the status is the first truthy value of `status || statusCode || 500` |
| Server.ErrorMessage | server/index.ts:62 | the message is the error's own message when non-empty, otherwise "Internal Server Error"; it is never empty |

## Left out

- **Drawing.** The background, clouds, tumbleweeds, dust, mountains, the ground texture, the background offsets, `Pipe.draw`, `Bird.draw` and `Particle.draw` only paint. They change none of the modelled fields.
- **Audio.** The calls into the audio manager are not modelled: `playSound`, `startBackgroundMusic` and `stopBackgroundMusic`.
- **`bird.addParticles`.** It is called at `GameCanvas.tsx:119` and `:324`, but `Bird.tsx` defines no such method, so in the code as written those calls throw. The model treats them as no-ops. It therefore does not capture that the throw at `:324` stops the game-over report from being scheduled.
- **Frame scheduling.** `requestAnimationFrame` and `cancelAnimationFrame` are left out, and so is the one-frame delay before `onGameOver`. `Tick` reports the end of the run and the caller stops calling it.
- **Callbacks to the page.** `onScoreChange` and `onGameOver` are not modelled as calls. The score they would report is the canvas's `score` field.
- **The network.** The score-submission request in `use-game.ts`, its failure and the query invalidation are left out. A submission is a ghost event recorded in `GameSession.submitted`.
- **Hook and effect plumbing.** React state batching and the effect dependency lists are not modelled. `SetPlaying` is the effect's reaction to a changed playing flag. The canvas constructor stands for mounting.
- **JavaScript values.** Several are simplified:
  - `err.status` and `err.statusCode` are absent-or-integer; NaN and non-numeric values are left out.
  - `err.message` is absent-or-string.
  - The captured response body is its JSON text plus a truthiness flag. `JSON.stringify` itself is not modelled.
- **String lengths.** `Server.Truncate` counts Unicode characters. JavaScript's `length` counts UTF-16 code units, so lines with characters outside the Basic Multilingual Plane are measured differently, and the cut can split a surrogate pair.
- **The clock.** `Date.now()` is left out. The duration is an integer parameter of `FormatLogLine`, and writing the line (`log`) is the caller's business.
- **Floating point.** All game arithmetic is exact `real` arithmetic. IEEE rounding is not modelled.
- **Other files.** `server/routes.ts`, `db/schema.ts`, the audio manager and the UI-only pages and components are not part of this model.
- **Randomness.** `Math.random()` is a parameter; no distribution is claimed.
- **Non-pipe fields of the objects.** `Bird.x`, `width` and `height`, and `Pipe.y`, `width` and `gapHeight`, are `const` in the model because the code never reassigns them after construction.
