# Flappy-bird game simulation in Dafny

This project models the simulation core of a single-screen Flappy-Bird-style browser game (`game.js`). It leaves out drawing, DOM wiring and timers. What remains is a set of pure functions over immutable data:

- **Bird kinematics.** Gravity integration with a ceiling clamp. A jump overwrites the velocity. The preview (attract-mode) bird also jumps on its own.
- **Pipes.** A top and a bottom segment are built around a gap. Gameplay pipes get a random gap position. Preview pipes get a centred one. Gameplay pipes move left at a constant speed; preview pipes loop back to the right edge.
- **Collision test.** A box-overlap check between the bird and a pipe, with a 5-unit inset.
- **Per-tick bookkeeping.** Pipe spawning is gated by time. Each tick moves every pipe, marks it passed and scores, tests collisions with an early exit, and prunes off-screen pipes. The ground and ceiling are checked.
- **Mode state machine.** Three flags (`previewMode`, `gameRunning`, `gameOver`) are changed by the jump key, the start and restart buttons, the end of a game, and the delayed return to preview.

Coordinates and velocities are exact `real`s. The source only adds, subtracts, compares, halves and multiplies by a random draw. Canvas dimensions are non-negative reals. Times are integer milliseconds.

The two outside inputs are parameters:
- `now: int` is the value `Date.now()` would return.
- Each `new Pipe` for gameplay takes its own `r: Random`, a real in `[0, 1)`.

Modules:

- `Config`: constants, `Canvas`, `Random`.
- `Pipes`: the `Pipe` datatype, its construction and motion, and gap geometry.
- `Birds`: the `Bird` datatype, its update, jump and collision test.
- `Game`: the `GameState` record, every transition, the two frame routines, and an `Event` type with `Step`/`Run`.
- `GameProperties`: properties that relate several operations:
  - the invariant every reachable state keeps;
  - the mode diagram;
  - score accounting;
  - the in-place pipe loop, proved equal to its functional description.

Behaviours of the code worth knowing:

- **Each pipe of a pair draws its own random value.** The top and bottom pipes of a pair come from two separate constructor calls (game.js:250-251). So a pair does not share one gap. `Pipes.RandomPairOpening` proves the opening is `PipeGap + (rBottom - rTop) * AvailableSpace`. `Pipes.RandomPairOpeningExact` proves it equals `PipeGap` only when the draws agree, on any canvas whose height is not exactly 350. On a canvas exactly 350 tall there is no room to randomise in, so every pair's opening is `PipeGap`. `Pipes.RandomPairCanClose` shows that on an 800-unit canvas the opening can vanish. Only preview pairs share a gap (`Pipes.PreviewPairOpening`).
- **No clamping of the gap position.** The gap position is `50 + r * (height - 350)`. The code does not clamp it into a range.
- **Scoring compares edges as the code does.** A point is scored when the pipe's trailing edge goes left of the bird's **left** edge (`bird.x`), after the pipe has moved this tick.
- **The return to preview keeps the score.** The delayed return sets `previewMode` and builds a fresh preview bird and preview pipes. It keeps the score, the gameplay pipes and `gameOver`. Only starting a new game resets them (`GameProperties.TimerKeepsGameplayState`).
- **The ceiling condition never fires.** The boundary check ends the game on the ground or above the ceiling. The ceiling half can never hold after the bird's update, because of the clamp (`Birds.UpdatedBirdOnlyHitsGround`).
- **No pruning at 30 ticks.** A pipe 60 wide at `x = 60` is at `x = 0` after 30 ticks but still on screen. It is pruned only after tick 60 (`Pipes.PipeLeavesAfterSixtyTicks`).

## Model

| member | source | states |
|---|---|---|
| `Birds.NewBird` | game.js:82-89 | A new bird is at rest at the given point, with the game's width, height and gravity |
| `Birds.SpawnBird` | game.js:218 | Every game and preview starts its bird at x = 50 and half the canvas height, at rest and not above the field |
| `Birds.Update` | game.js:95-107 | After a tick y >= 0. Without the clamp, y and velocity follow velocity + gravity. With the clamp, y = 0 and velocity = 0. The preview bird's velocity becomes JumpForce exactly when it ends below the jump line. x, size and gravity are unchanged |
| `Birds.JumpOverwritesVelocity` | game.js:109-111 | A jump sets velocity to JumpForce whatever it was. Jumping twice equals jumping once. Position, size and gravity are unchanged |
| `Birds.UpdatedBirdOnlyHitsGround` | game.js:95-102 | After any update the `y < 0` disjunct of the boundary check cannot hold, so the check reduces to the ground test |
| `Birds.FirstTickFromRest` | game.js:95-97 | From rest at y = 100, one gameplay tick gives velocity 0.2 and y = 100.2 |
| `Birds.HorizontalTestIsOverlap` | game.js:116-117 | The two horizontal comparisons of the collision test hold iff the 5-unit-inset spans of bird and pipe share a point |
| `Birds.NoCollisionApart` | game.js:113-121 | If the inset spans share no point, there is no collision |
| `Birds.CollisionIffReachesSegment` | game.js:113-121 | Collision iff the inset spans meet and the bird reaches into the segment: above the bottom edge of a top pipe, or below the top edge of a bottom pipe |
| `Birds.InsideGapHitsNeither` | game.js:113-121 | A bird whose vertical extent lies between a top pipe's height and a bottom pipe's y collides with neither |
| `Birds.PreviewGapIsSafe` | game.js:134-142 | A bird inside the centred preview opening collides with neither preview segment |
| `Pipes.Segment` | game.js:136-151 | A top segment spans from y = 0 to the gap position. A bottom segment starts PipeGap below it and ends at the canvas bottom |
| `Pipes.NewPipe` | game.js:124-155 | A gameplay pipe has width 60, is not preview and not passed. A top pipe has y = 0. A bottom pipe has y + height = canvas height |
| `Pipes.NewPreviewPipe` | game.js:134-142 | A preview pipe is marked preview and not passed, with the same top/bottom extents |
| `Pipes.Update` | game.js:175-181 | Only x changes. A gameplay pipe moves exactly PipeSpeed left. A preview pipe is set to the canvas width exactly when the move left it fully off-screen |
| `Pipes.PreviewPipes` | game.js:184-192 | Four preview pipes: top/bottom at the canvas width, then top/bottom 200 further. Each pair's heights plus PipeGap equal the canvas height |
| `Pipes.RandomPipeExtents` | game.js:131-152 | With height >= 350: a top pipe's height is in [50, height - 300], strictly below the maximum if there is spare room. A bottom pipe reaches the floor and is at least 50 tall, strictly more if there is spare room |
| `Pipes.RandomGapBounds` | game.js:144 | With a non-negative available space, the random gap position lies in [50, 50 + availableSpace], strictly below the top of that range when the space is positive |
| `Pipes.SegmentExtents` | game.js:145-151 | For a gap position in that range, the top segment's height is in [50, height - 300] and the bottom segment is at least 50 tall and reaches the floor; strictly so when the position is below the range's top |
| `Pipes.RandomPairOpening` | game.js:144-151 | A spawned pair's opening is PipeGap + (rBottom - rTop) * availableSpace |
| `Pipes.RandomPairOpeningExact` | game.js:250-251 | With availableSpace != 0, the opening equals PipeGap iff the two draws are equal |
| `Pipes.RandomPairCanClose` | game.js:144-151 | On an 800-unit canvas, draws 0.9 and 0.0 put the bottom pipe's top above the top pipe's bottom |
| `Pipes.PreviewPairOpening` | game.js:134-142 | Preview pairs satisfy top.height + PipeGap + bottom.height = canvas height, and the opening is exactly PipeGap |
| `Pipes.PreviewPipeStaysInLane` | game.js:175-181 | A preview pipe that is never fully left of the field and never beyond the second pair's start stays so after an update |
| `Pipes.GameplayPipeDrift` | game.js:175-177 | After n ticks a gameplay pipe is exactly n * PipeSpeed further left and otherwise unchanged |
| `Pipes.PipeLeavesAfterSixtyTicks` | game.js:275 | A 60-wide pipe at x = 60 is at x = 0 and still kept after 30 ticks. It is kept after 59 ticks and dropped after 60 |
| `Game.Init` | game.js:70-76 | The loaded page is in preview, not running, not over, with score 0, no pipes, centred birds and the four preview pipes |
| `Game.StartGame` | game.js:211-223 | Not preview, running, not over, score 0, no pipes, a fresh bird, spawn timer = now. Preview state is untouched |
| `Game.ResetGame` | game.js:225-228 | The restart button has the same effect on the state as starting a game |
| `Game.HandleJump` | game.js:201-209 | In preview it starts a game. When not preview and not running it changes nothing. While running only the bird changes: it becomes the jumped bird (velocity JumpForce, position, size and gravity kept) |
| `Game.EndGame` | game.js:230-235 | Not running and over; every other field (score, bird, pipes, spawn timer, canvas and all preview state) is kept |
| `Game.GameOverTimer` | game.js:237-244 | If the game is still over: preview mode with a fresh preview bird and pipes, nothing else changed. Otherwise no change |
| `Game.SpawnPipes` | game.js:247-254 | Gate closed: no change. Gate open: the old pipes are kept as a prefix, then exactly a top pipe and a bottom pipe at the canvas width, gameplay and unpassed, each the pipe built from its own random draw (rTop for the top, rBottom for the bottom). The spawn timer becomes now; nothing else changes |
| `Game.SweepPipes` | game.js:257-273 | Visited pipes are moved and maybe marked passed; later ones are untouched. The sweep stops right after the first colliding pipe, and on no hit it visits all of them. The points gained equal the count of scoring pipes among those visited |
| `Game.Survivors` | game.js:275 | Keeps exactly the on-screen pipes (x + width > 0), in their original order, with the right count |
| `Game.UpdatePipes` | game.js:256-276 | The score never drops. On a collision the game ends, nothing is pruned, the pipes are as the loop left them (visited pipes moved and marked, later ones untouched) and the points scored up to and including the colliding pipe count. Otherwise the flags are kept, score grows by the scoring count, and the pipes are the on-screen survivors of the advanced list |
| `Game.CheckBoundaries` | game.js:287-291 | Ends the game exactly when the bird's bottom is below the ground line or its top above the field; otherwise no change |
| `Game.MakePreviewBirdJump` | game.js:293-299 | More than 1000 ms after the last timed jump, the preview bird becomes the jumped bird (velocity JumpForce, same height) and the timer becomes now. Otherwise no change. Only the preview bird and its timer ever change |
| `GameProperties.PreviewJumpRateLimited` | game.js:293-299 | After a timed preview jump, any call within the next 1000 ms changes nothing |
| `Game.PreviewLoop` | game.js:301-322 | Outside preview: no change. In preview, every preview pipe is updated once; then the timed jump is applied and the preview bird takes one preview update, ending not above the field; the jump timer is the timed jump's. Gameplay state is untouched |
| `Game.GameLoop` | game.js:324-347 | When over: no change. Otherwise the bird takes one gameplay update, and the score never drops. Pipes and the spawn timer change only while running; then pipes and score are those of spawning followed by the pipe update, with the moved bird, and the spawn timer is the spawn's. A frame that does not end the game keeps it running exactly when it was running; a game that ends here is no longer running. Preview state is untouched |
| `Game.Frame` | game.js:301-347 | The frame routine in use touches only its own mode's state. The preview frame changes only preview pipes, bird and jump timer. The game frame leaves all preview state alone |
| `GameProperties.AdvanceOnlySetsPassed` | game.js:258-267 | Moving a pipe and marking it changes only x and passed. passed is never cleared. It is newly set only on bottom pipes whose trailing edge is left of the bird |
| `GameProperties.ScoringNeedsUnpassedBottom` | game.js:260-267 | Points scored in one sweep are at most the number of unpassed bottom pipes |
| `GameProperties.UpdatePipesScoreBound` | game.js:256-276 | One pipe update raises the score by between 0 and the number of previously unpassed bottom pipes |
| `GameProperties.SweepKeepsPassedRules` | game.js:257-273 | Index by index, the sweep keeps orientation and preview-ness. It never clears passed and sets it only on bottom pipes |
| `GameProperties.CountOnScreenAtMost` | game.js:275 | The pruning filter keeps at most as many pipes as it is given |
| `GameProperties.GameFrameSpawnRateLimited` | game.js:247-254 | After a running frame that spawns at time n1, the spawn timer is n1; a gameplay frame at any time up to n1 + 1800 ms does not spawn (its spawn timer stays n1) and adds no pipe |
| `GameProperties.SpawnRateLimited` | game.js:247-254 | One call spawns at most one pair. Two calls at most 1800 ms apart spawn at most one pair between them |
| `GameProperties.GameLoopEndsIffCrashOrGround` | game.js:331-344 | A running frame ends the game iff, after the move and spawn, some advanced pipe collides or the bird's bottom is below the ground line |
| `GameProperties.InitInv` | game.js:70-78 | The loaded page satisfies the reachable-state invariant |
| `GameProperties.UpdatePipesKeepsGameplayPipes` | game.js:256-276 | The pipe update never introduces a looping (preview) pipe into the gameplay list |
| `GameProperties.GameLoopInv` | game.js:324-347 | A gameplay frame keeps the invariant: the flags encode one mode, no bird is above the field, gameplay pipes do not loop, and the preview pipes stay in their lane |
| `GameProperties.PreviewLoopInv` | game.js:301-322 | A preview frame keeps the invariant |
| `GameProperties.StepInv` | game.js:60-68 | Every event (key, start click, restart click, animation frame, game-over timer) keeps the invariant |
| `GameProperties.RunInv` | game.js:60-68 | Any sequence of events from an invariant state keeps the invariant |
| `GameProperties.ReachableInv` | game.js:48-79 | Every state reachable from the loaded page satisfies the invariant |
| `GameProperties.ModeFlags` | game.js:13-17 | Under the invariant, the three flags encode exactly one of preview, running or over |
| `GameProperties.StepFollowsModeDiagram` | game.js:201-245 | Every event moves along the mode diagram. Preview never goes straight to over, and running never goes straight to preview |
| `GameProperties.JumpByMode` | game.js:201-209 | A jump in preview gives a running game with score 0, no pipes and a fresh bird. When over it changes nothing. While running it sets velocity to JumpForce |
| `GameProperties.ScoreOnlyResetsOnStart` | game.js:216 | The score goes down only on a key press, start click or restart click, and then to 0 |
| `GameProperties.RestartDisarmsTimer` | game.js:237-238 | A pending return to preview that fires before the new game ends does nothing; the timer is not cancelled |
| `GameProperties.StaleTimerReturnsEarly` | game.js:230-244 | After a restart from a finished game, if the new game has also ended when the old timer fires, that timer returns to preview at once: the timeout is never cleared and its callback tests only gameOver |
| `GameProperties.TimerKeepsGameplayState` | game.js:237-244 | The return to preview keeps the score, the gameplay pipes and the game-over flag, and enters preview |
| `GameProperties.SweepInPlace` | game.js:257-273 | The in-place indexed loop with early return gives exactly the pipes, points and hit flag of `SweepPipes` |
| `GameProperties.UpdatePipesInPlace` | game.js:256-276 | The per-tick pipe update written as an in-place loop returns exactly `UpdatePipes` |
| `GameProperties.SweepStopsAtFirstCollision` | game.js:269-272 | If pipe i is the first to collide once advanced, the sweep stops with a hit after visiting i + 1 pipes |

## Left out

- Drawing is not modelled: `draw` methods, `drawBackground`, `drawScore`, the overlay, `loadImages`. It is pure rendering.
- DOM wiring in `init` (element lookups, listeners, `style.display`, `textContent`) is not modelled. Each listener is an `Event` constructor instead.
- `requestAnimationFrame`, `cancelAnimationFrame` and `setTimeout` are not modelled.
  - Each animation frame is one `AnimationFrame` event. `Game.Frame` runs the routine that is scheduled in the source: the preview loop while `previewMode` holds, the game loop otherwise.
  - The 3000 ms callback is the `GameOverTimerFired` event, which the caller may fire at any time. Pending timers are not counted, so a stale or repeated timer is covered because firing it is always allowed.
- `Date.now()` and `Math.random()` are parameters (`now`, `Random`), not modelled sources.
- IEEE-754 rounding is not modelled. The game's numbers (0.2, the halvings, the random products) are exact reals.
- The first frame that runs synchronously is a separate event. `startGame`, the game-over callback and `init` each call their loop once directly. The model keeps only the state change and leaves that first frame to the next `AnimationFrame` event. Each direct call also starts one more animation chain. So a game-over callback that fires while preview is already running leaves two chains, and the preview then advances twice per display frame. This happens with a stale or repeated timer: a crash and a ground hit in one frame call `endGame` twice, or a game ends within 3000 ms of the previous one. The model reaches the same states, as one more `AnimationFrame` event per chain, but does not track how many chains run.
- Pause/resume, quit, sound cues and debounced key handling are not modelled: `game.js` has none of them.
- `Game.Frame`: does not track animation-frame ids. It dispatches on `previewMode`. This matches the source's guards for every reachable state, but it does not model a superseded frame firing after a transition.
