# Little Mad Trials: a verified model of the game core

Little Mad Trials is a small Bevy game. The player is a cube on a 3x3 board
and must survive a 20-second round against four lasers. The game cycles
through seven states:

- Splash, Setup, Start, Game;
- then Victory or Defeat;
- then Teardown, and back to Setup.

One resettable countdown clock drives everything that happens over time:

- the states that end on their own (Setup, Game, Teardown);
- the *phase timelines*. Each is an ordered list of (mode, duration) phases that the transition system pops once the clock passes the end of the front phase.

Each laser has two timelines. Its board timeline makes it rise into view, stay and sink. Its laser timeline makes it idle, charge and shoot. The mobile laser follows the player's column while it is idle. Any shooting laser aligned with the player kills it.

The model consists of these parts:

- **`Engine`** (`engine.dfy`): the parts of the engine the game uses:
  - an integer 2-vector;
  - the keyboard buffer;
  - a clamped once-mode timer;
  - the state resource with its single pending-request slot.
- **`Phases`** (`phases.dfy`): the timeline component and the transition system.
  - `Step` specifies one transition of one timeline.
  - `Phases.Phases.Transition` and `Phases.TransitionAll` are the in-place systems proved against it.
- **`App`** (`app.dfy`): the state cycle and the two space-key systems.
- **`Background`** (`background.dfy`): the countdown resource, its tick and transition systems, and the per-state hooks that re-arm it.
- **`Board`** (`board.dfy`): the tile set built by the startup loops, the position component and the world mapping.
- **`Player`** (`player.dfy`): the player's hooks and systems. This covers:
  - the colour draw loop, modelled with the random draws as a parameter;
  - the diagonal teardown wave;
  - movement, the start trigger and defeat.
- **`Lasers`** (`laser.dfy`): the current laser module. This covers:
  - spawning;
  - the setup, start and teardown hooks;
  - the lane-to-script selection;
  - tracking and attack.
- **`Content`** (`content.dfy`): the eight scripted tables. Lemmas show that:
  - the commented running times are the tables' running sums;
  - every shot follows a charge;
  - every board table enters, shows and exits;
  - every laser fires only while its board table shows it.

  The middle board table and its comments disagree (see "## Findings"). Each of these facts is proved for that table both as written and as corrected. The laser module installs the table as written, as the game does.
- **Older versions.** Kept because they are part of the repository:
  - `LegacyPhases` (`legacy_phases.dfy`): the older tables, proved equal to the current ones up to renaming the mode type;
  - `LegacyLasers` (`legacy_laser.dfy`): the older lasers;
  - `LegacyMovement` (`legacy_movement.dfy`): the older movement system;
  - `LegacyBackground` (`legacy_background.dfy`): the older 20.01 s countdown;
  - `LaserVisuals` (`visuals.dfy`): the older turret and ray visibility systems.
- **`Fog`** (`fog.dfy`): the fog plane's mesh conversion. It has two halves:
  - the index loop as written, with its defects exhibited;
  - a cell-by-cell index loop proved to give two triangles per grid cell.
- **`Schedule`** (`schedule.dfy`): one frame of the whole game:
  - the update systems of the current state;
  - then the pending request applied with the on-enter hooks of the new state.

`Schedule.World.Valid` is the invariant between frames:

- the clock holds its state's target;
- the board is the grid and the player stands on it;
- the fixed lasers stay in their lanes;
- the player is dead in Defeat and alive from Splash to Victory.

`Schedule.Frame` preserves this invariant, and it moves the game at most one edge along the cycle.

Durations are whole milliseconds (`nat`). Progress values are reals in [0, 1].
Positions are unbounded integers.

## Model

| member | source | states |
|---|---|---|
| Engine.Timer.Tick | src/background/mod.rs:158-160 | the once-mode clock advances by the frame's delta and stops at its length |
| Engine.State.OverwriteSet | src/player.rs:153-159 | a request replaces any earlier request of the frame and leaves the current state alone |
| Engine.State.Apply | src/lib.rs:27 | at the end of the frame a pending request becomes the current state and the slot empties |
| Phases.Progress | src/phases.rs:65-71 | progress is in [0, 1]; a zero-length or missing front phase has progress 1 |
| Phases.Step | src/phases.rs:55-71 | an empty timeline is skipped; an update fails exactly when the timeline starts after the clock; at most the front phase is popped, and only once expired; the timeline's end on the clock never moves; the new progress is elapsed over duration, capped at 1 |
| Phases.Drain | src/phases.rs:60-63 | once the clock is past a timeline's end, each update pops exactly one phase, zero-length ones included, and at the end the progress is 1 |
| Phases.ProgressMonotone | src/phases.rs:64-71 | within one phase a later clock reading never lowers the progress |
| Phases.Phases.constructor | src/phases.rs:21-27 | a new timeline holds the phases, starts at zero and has progress zero |
| Phases.Phases.Placeholder | src/laser/mod.rs:111-112 | the spawn-time timeline is a single zero-length phase of the given mode |
| Phases.Phases.Mode | src/phases.rs:29-34 | the mode is the front phase's, or the mode's default once the timeline is empty |
| Phases.Phases.Transition | src/phases.rs:55-71 | the in-place update succeeds exactly when `Step` does and leaves the timeline equal to `Step`'s result; on underflow nothing changes |
| Phases.TransitionAll | src/phases.rs:51-73 | the system over a query of distinct timelines succeeds exactly when every timeline's `Step` does, and then each timeline holds its `Step` result |
| App.Edge | src/lib.rs:41-50 | the state cycle; no state is its own successor |
| App.SevenStates | src/lib.rs:41-50 | the state type has exactly seven values |
| App.StartOnSpace | src/lib.rs:93-98 | in Splash a space press requests Setup and clears the input; otherwise nothing changes |
| App.Restart | src/lib.rs:100-105 | a space press requests Teardown and clears the input; otherwise nothing changes |
| Background.Countdown.constructor | src/background/mod.rs:143-149 | the clock starts finished, with length zero and no target |
| Background.Countdown.Reset | src/background/mod.rs:151-155 | re-arming sets the length, rewinds the clock and stores the target |
| Background.Tick | src/background/mod.rs:158-160 | the countdown system advances the clock, clamped at its length |
| Background.Transition | src/background/mod.rs:162-169 | a finished clock with a target requests that target; otherwise the request slot is untouched |
| Background.EnterSetup | src/background/mod.rs:105-107 | entering Setup arms 1.5 s toward Start |
| Background.EnterStart | src/background/mod.rs:109-111 | entering Start arms 20 s toward Victory |
| Background.EnterVictory | src/background/mod.rs:118-126 | entering Victory arms 1 s with no target |
| Background.EnterTeardown | src/background/mod.rs:128-130 | entering Teardown arms 1.5 s toward Setup |
| Background.HeldTarget | src/background/mod.rs:19-48 | the target the clock holds in each state; wherever the transition system runs, that target is a successor on the cycle |
| Background.OnEnter | src/background/mod.rs:25-40 | the plugin's on-enter hooks per state; the states without a hook leave the clock untouched |
| Background.OnUpdate | src/background/mod.rs:26-45 | the clock ticks only in Setup, Game, Victory and Teardown, and requests its target only in Setup, Game and Teardown |
| Board.GridIsTheBoard | src/board.rs:21-37 | the tiles are exactly the nine points with both coordinates in -1..1, the centre among them |
| Board.OriginOnGrid | src/player.rs:57 | the centre, where the player spawns and returns, is a tile |
| Board.Board.constructor | src/board.rs:40-43 | the default board has no tiles |
| Board.Board.Setup | src/board.rs:21-37 | the startup loops add exactly the grid to the tiles |
| Board.Position.New | src/board.rs:51-53 | the position holds the given vector |
| Board.Position.FromXy | src/board.rs:55-59 | the position holds (x, y) |
| Board.ToWorld | src/board.rs:62-67 | grid x becomes world x, grid y becomes world -z, and the height is kept |
| Board.KeyDirection | src/movement.rs:32-35 | each coordinate of the step is in -1..1 and is +1 or -1 exactly when one key of its pair is pressed without the other |
| LegacyMovement.Step | src/movement.rs:32-38 | a horizontal press cancels the vertical part, so the step is at most one tile in one direction |
| LegacyMovement.Movement | src/movement.rs:31-44 | the player moves by the step exactly when the target is a tile, so it stays on the board |
| Player.Health.constructor | src/player.rs:107-110 | the player starts alive |
| Player.Player.constructor | src/player.rs:118-125 | the player starts with colour 0 |
| Player.PlayerEntity.constructor | src/player.rs:55-61 | the player spawns hidden on the centre tile |
| Player.EnterSetup | src/player.rs:64-85 | the player returns to the centre, gets the rise timeline and is revived; it is painted in the previous round's colour; the new colour is the first draw that differs from the old one |
| Player.EnterDefeat | src/player.rs:87-95 | the model turns black and the colour index is kept |
| Player.TeardownWait | src/player.rs:97-105 | on the board the teardown wait is between 0 and 0.2 s |
| Player.TeardownWave | src/player.rs:99-101 | one tile right or one tile down waits 0.05 s longer |
| Player.EnterTeardown | src/player.rs:97-105 | the hook succeeds exactly when the wait is not negative, and then sets the wait, sink and hidden phases |
| Player.TeardownNeverPanicsOnBoard | src/player.rs:98-101 | a player on a tile never makes the teardown hook panic |
| Player.Movement | src/player.rs:127-148 | no key, no move; otherwise the player moves by the key step exactly when the target is a tile, so it stays on the board |
| Player.StartTrigger | src/player.rs:150-155 | leaving the centre requests Game |
| Player.Defeat | src/player.rs:157-161 | a dead player requests Defeat, overriding any earlier request |
| Lasers.LaserEntity.constructor | src/laser/mod.rs:84-117 | a laser spawns at its position, hidden and idle |
| Lasers.Setup | src/laser/mod.rs:45-82 | four distinct lasers: a mobile vertical one at the centre and fixed horizontal ones on rows 1, 0 and -1 |
| Lasers.SetupBoardPhases | src/laser/mod.rs:131-139 | the mobile laser rises into view; the fixed lasers stay hidden |
| Lasers.EnterSetup | src/laser/mod.rs:119-145 | the mobile laser returns to the centre; every laser gets its setup timelines; the fixed lasers stay in their lanes |
| Lasers.SetupOne | src/laser/mod.rs:127-144 | the hook's body for one laser |
| Lasers.BoardScript | src/laser/mod.rs:156-164 | a board script is chosen exactly for the mobile laser and the lasers on rows -1..1; the middle lane gets its table as written |
| Lasers.LaserScript | src/laser/mod.rs:166-174 | a laser script is chosen exactly for the mobile laser and the lasers on rows -1..1 |
| Lasers.ScriptsFireInView | src/laser/mod.rs:155-176 | every script pair the start hook can pick, the middle lane's table as written included, fires only while the board script shows the laser |
| Lasers.EnterStart | src/laser/mod.rs:147-177 | the hook completes exactly when no fixed laser is off the three rows, and then every laser holds the scripts of its lane |
| Lasers.EnterTeardown | src/laser/mod.rs:179-189 | every laser sinks for 1 s and idles |
| Lasers.Track | src/laser/mod.rs:221-225 | an idle mobile laser moves across its ray onto the player's line; every other laser stays; only the coordinate across the ray changes |
| Lasers.Movement | src/laser/mod.rs:215-228 | every laser ends where `Track` puts it; the player is not moved; the fixed lasers stay in their lanes |
| Lasers.Attack | src/laser/mod.rs:230-245 | the player is dead after the system exactly when it was dead before or some laser is shooting along its line |
| Content.MobileLaserBoardPhases | src/laser/content.rs:3-8 | the mobile laser's board table; its properties are the lemmas below |
| Content.FirstRound | src/laser/content.rs:12-21 | the first round of the mobile laser table |
| Content.SecondRound | src/laser/content.rs:22-31 | the second round of the mobile laser table |
| Content.ThirdRound | src/laser/content.rs:32-41 | the third round of the mobile laser table |
| Content.FourthRound | src/laser/content.rs:42-51 | the fourth round of the mobile laser table |
| Content.FifthRound | src/laser/content.rs:52-66 | the fifth round of the mobile laser table |
| Content.MobileLaserPhases | src/laser/content.rs:10-68 | the mobile laser table, the five rounds in order |
| Content.UpperLaserBoardPhases | src/laser/content.rs:70-81 | the upper laser's board table |
| Content.UpperLaserPhases | src/laser/content.rs:83-100 | the upper laser table |
| Content.MiddleLaserBoardPhasesAsWritten | src/laser/content.rs:102-113 | the middle laser's board table as written, second Shown phase 2.7 s |
| Content.MiddleLaserBoardPhases | src/laser/content.rs:102-113 | the middle laser's board table corrected to its comments, second Shown phase 1.7 s |
| Content.MiddleLaserPhases | src/laser/content.rs:115-130 | the middle laser table |
| Content.LowerLaserBoardPhases | src/laser/content.rs:132-143 | the lower laser's board table |
| Content.LowerLaserPhases | src/laser/content.rs:145-163 | the lower laser table |
| LegacyPhases.MovingLaserPhases | src/laser/phases.rs:3-61 | the older moving laser table |
| LegacyPhases.UpperLaserPhases | src/laser/phases.rs:63-80 | the older upper laser table |
| LegacyPhases.MiddleLaserPhases | src/laser/phases.rs:82-97 | the older middle laser table |
| LegacyPhases.LowerLaserPhases | src/laser/phases.rs:99-117 | the older lower laser table |
| Content.RunningOffsets | src/laser/content.rs:3-163 | a table's running sums are the prefix totals of its durations |
| Content.RunningTotal | src/laser/content.rs:3-163 | the last running sum is the table's total |
| Content.MobileBoardComments | src/laser/content.rs:3-8 | the mobile board table's comments are its running sums |
| Content.MobileLaserTable | src/laser/content.rs:10-68 | the mobile laser table's comments are its running sums, and every shot follows a charge |
| Content.MobileZeroPhases | src/laser/content.rs:10-68 | the only zero-length phases of the mobile table are the four Ready separators of the fifth round |
| Content.FirstRoundComments | src/laser/content.rs:12-21 | the first round's comments are its running sums |
| Content.SecondRoundComments | src/laser/content.rs:22-31 | the second round's comments are its running sums from 4.4 s |
| Content.ThirdRoundComments | src/laser/content.rs:32-41 | the third round's comments are its running sums from 9.1 s |
| Content.FourthRoundComments | src/laser/content.rs:42-51 | the fourth round's comments are its running sums from 12.8 s |
| Content.FifthRoundComments | src/laser/content.rs:52-66 | the fifth round's comments are its running sums from 16.5 s |
| Content.EarlyRoundsShape | src/laser/content.rs:12-31 | shots follow charges and no phase is empty |
| Content.MiddleRoundsShape | src/laser/content.rs:32-51 | shots follow charges and no phase is empty |
| Content.FifthRoundShape | src/laser/content.rs:52-66 | shots follow charges, and the only zero-length phases are Ready separators |
| Content.UpperBoardComments | src/laser/content.rs:70-81 | the upper board table's comments are its running sums |
| Content.UpperLaserComments | src/laser/content.rs:83-100 | the upper laser table's comments are its running sums |
| Content.MiddleBoardCommentsDisagree | src/laser/content.rs:102-113 | as written, the middle board table does not match its comments: its running sums end at 16.5 s |
| Content.MiddleBoardAsWrittenSums | src/laser/content.rs:102-113 | the running sums of the middle board table as written end at 15.5 s and 16.5 s |
| Content.MiddleBoardComments | src/laser/content.rs:102-113 | with the Shown phase of line 110 at 1.7 s, the middle board table matches its comments |
| Content.MiddleLaserComments | src/laser/content.rs:115-130 | the middle laser table's comments are its running sums |
| Content.LowerBoardComments | src/laser/content.rs:132-143 | the lower board table's comments are its running sums |
| Content.LowerLaserComments | src/laser/content.rs:145-163 | the lower laser table's comments are its running sums |
| Content.UpperLaserShape | src/laser/content.rs:83-100 | shots follow charges and no phase is empty |
| Content.MiddleLaserShape | src/laser/content.rs:115-130 | shots follow charges and no phase is empty |
| Content.LowerLaserShape | src/laser/content.rs:145-163 | shots follow charges and no phase is empty |
| Content.MobileAndUpperBoardShape | src/laser/content.rs:3-81 | every Entering phase is followed by Shown and every Shown phase by Exiting; no phase is empty |
| Content.MiddleAndLowerBoardShape | src/laser/content.rs:102-143 | for the corrected middle table and the lower table: every Entering phase is followed by Shown and every Shown phase by Exiting; no phase is empty |
| Content.MiddleAsWrittenBoardShape | src/laser/content.rs:102-113 | the middle board table as written also enters, shows and exits, with no empty phase |
| Content.Totals | src/laser/content.rs:3-163 | the laser tables last 20 s (14.5 s for the middle one); the board tables last 21 s, except the middle one: 16.5 s as written, 15.5 s as corrected |
| Content.MobileFiresInView | src/laser/content.rs:3-68 | the mobile laser charges and shoots only while it is shown |
| Content.UpperFiresInView | src/laser/content.rs:70-100 | the upper laser charges and shoots only inside its windows 4.4-8.1 s and 12.8-20 s |
| Content.MiddleFiresInView | src/laser/content.rs:102-130 | with the corrected board table, the middle laser charges and shoots only inside its windows 5.9-6.6 s and 12.8-14.5 s |
| Content.MiddleFiresInViewAsWritten | src/laser/content.rs:102-130 | with the board table as written, the middle laser charges and shoots only inside its windows 5.9-6.6 s and 12.8-15.5 s |
| Content.LowerFiresInView | src/laser/content.rs:132-163 | the lower laser charges and shoots only inside its windows 4.4-8.1 s and 13.8-20 s |
| LegacyPhases.Rename | src/laser/phases.rs:1 | the older mode type maps one to one onto the current one |
| LegacyPhases.RenameKeepsTotal | src/laser/phases.rs:3-117 | renaming the mode type keeps a table's total |
| LegacyPhases.MovingIsMobile | src/laser/phases.rs:3-61 | the older moving laser table is the current mobile laser table |
| LegacyPhases.FixedLasersRenamed | src/laser/phases.rs:63-117 | the older fixed laser tables are the current ones |
| LegacyPhases.LegacyComments | src/laser/phases.rs:3-117 | the older tables' comments are their running sums |
| LegacyPhases.LegacyTotals | src/laser/phases.rs:3-117 | the older tables last 20 s, 20 s, 14.5 s and 20 s |
| LegacyPhases.MovingZeroPhases | src/laser/phases.rs:3-61 | the only zero-length phases of the older moving table are four Ready separators |
| LaserVisuals.TurretRules | src/laser/visuals.rs:96-113 | exactly one turret model is drawn; the ray only appears over the charging turret; the charging turret appears exactly while the laser charges or shoots |
| LaserVisuals.Charge | src/laser/visuals.rs:96-103 | each laser shows the turret that matches its mode and the ray is untouched |
| LaserVisuals.Attack | src/laser/visuals.rs:105-113 | each laser shows its ray exactly while shooting and the turrets are untouched |
| LegacyBackground.Countdown.constructor | src/background.rs:9 | the older clock runs 20.01 s |
| LegacyBackground.EnterStart | src/background.rs:76-80 | entering Start rewinds the clock and keeps its length |
| LegacyBackground.Remaining | src/background.rs:112-116 | the time shown is what remains, and it is zero exactly when the clock has finished |
| LegacyBackground.Victory | src/background.rs:118-122 | a finished clock requests Victory |
| LegacyBackground.OnUpdate | src/background.rs:12-17 | only in Game: tick, show the remaining time, and on expiry request Victory |
| LegacyLasers.Setup | src/laser.rs:13-48 | two horizontal lasers, two rows above and two rows below the centre |
| LegacyLasers.LaserMovement | src/laser.rs:65-75 | every laser moves to the player's column and keeps its row |
| Fog.VertexAt | src/background/fog.rs:83-93 | vertex k of the row-major grid is at column k mod n and row k div n |
| Fog.Vertices | src/background/fog.rs:83-93 | the vertex loops give n x n vertices, vertex k at grid point (k mod n, k div n) |
| Fog.IndicesAsWritten | src/background/fog.rs:95-107 | the index loop as written builds the buffer over the first (n-1)^2 linear indices |
| Fog.AsWrittenLayout | src/background/fog.rs:97-107 | no entry exceeds count + n, and the last cell reaches it |
| Fog.AsWrittenBounds | src/background/fog.rs:95-107 | the buffer as written has 6(n-1)^2 entries, and every one is a vertex of the grid |
| Fog.AsWrittenWrapsAcrossRows | src/background/fog.rs:98-102 | for n = 3 the fifth triangle is (2, 5, 6), which is not a triangle of any grid cell |
| Fog.AsWrittenMissesCorner | src/background/fog.rs:95-107 | for n >= 3 the far corner vertex n^2 - 1 is in no triangle of the buffer as written |
| Fog.Indices | src/background/fog.rs:95-107 | the cell-by-cell loops build the cell-by-cell buffer |
| Fog.GridLayout | src/background/fog.rs:99-106 | entries 6q..6q+5 are the two triangles of cell q |
| Fog.CellTrianglesAt | src/background/fog.rs:99-106 | the two triangles pushed for a cell's top-left vertex are triangles of that cell |
| Fog.CellOfGrid | src/background/fog.rs:99-106 | cell q's two triangles are triangles of its own corners |
| Fog.VertexOfGrid | src/background/fog.rs:95-107 | every entry of the cell-by-cell buffer is a vertex |
| Fog.GridTriangles | src/background/fog.rs:95-107 | every cell gets two triangles of its own corners, and every index is a vertex |
| Fog.LastCell | src/background/fog.rs:95-107 | the last cell's far corner is the last vertex |
| Fog.GridUsesCorner | src/background/fog.rs:95-107 | the cell-by-cell buffer uses the far corner vertex |
| Fog.FromAsWritten | src/background/fog.rs:76-116 | the mesh conversion as written: the grid vertices and the buffer as written |
| Fog.From | src/background/fog.rs:76-116 | the corrected conversion: the grid vertices and two triangles per cell |
| Schedule.World.constructor | src/lib.rs:27 | the startup systems leave a valid world in Splash with four lasers |
| Schedule.LaserQuery | src/laser/mod.rs:41 | the query of the laser transition system is every laser's laser timeline, in order |
| Schedule.UpdateClock | src/laser/mod.rs:41 | the clock ticks by delta, clamped, in the states where it runs, and keeps its reading elsewhere; every laser timeline then holds its `Step` result against the new reading, and this succeeds exactly when every `Step` does; the clock can then only request a successor |
| Schedule.UpdateStart | src/player.rs:28-32 | in Start the world stays sound and any request is Game |
| Schedule.UpdateGame | src/player.rs:33-37 | in Game the world stays sound; a dead player always requests Defeat, and otherwise only Victory can be requested |
| Schedule.UpdateVictory | src/player.rs:38 | in Victory the world stays sound and any request is Teardown |
| Schedule.Update | src/lib.rs:35-37 | the update succeeds exactly when no laser timeline underflows against the clock reading after the tick; then the update systems of the current state keep the world sound and leave only requests along an edge of the cycle |
| Schedule.Enter | src/lib.rs:27 | the request becomes the state along an edge of the cycle, and the hooks of the state entered restore the invariant |
| Schedule.EnterSetup | src/player.rs:64-85 | Setup's hooks: the player is revived on the centre, and the clock aims at Start |
| Schedule.EnterStart | src/laser/mod.rs:147-177 | Start's hooks: every fixed laser is in its lane, so the start hook never panics, and the clock aims at Victory |
| Schedule.EnterDefeat | src/player.rs:87-95 | Defeat's hook: the clock keeps the round's target, and the player stays dead |
| Schedule.EnterVictory | src/laser/mod.rs:39 | Victory's hooks: the lasers sink, and the clock has no target |
| Schedule.EnterTeardown | src/player.rs:97-105 | Teardown's hooks: the player is on the board, so its wait is never negative, and the clock aims at Setup |
| Schedule.Frame | src/lib.rs:25-38 | a frame succeeds exactly when no laser timeline underflows against the clock reading after the tick; a successful frame keeps the world valid, and moves at most one edge along the cycle |

## Left out

- Meshes, materials, lights and the camera are left out. So are the screen shader and text, post-processing, the palette and the window setup. None of them changes game state.
- The audio played on entering Defeat and Victory and on leaving Teardown is left out. The Defeat and leave-Teardown hooks only play sounds.
- Floating point is left out:
  - durations are whole milliseconds;
  - `Duration::from_secs_f32` rounding is not modelled;
  - the fog's uv and position floats are replaced by their grid points.
- Integer widths are not modelled. `IVec2` is unbounded rather than `i32`, and fog indices are unbounded rather than `u32` (they stay below 65536^2 under `MaxSide`).
- `Fog.IndicesAsWritten`, `Fog.Indices`, `Fog.FromAsWritten` and `Fog.From` require at least one vertex per side. With zero vertices, `(n - 1)` underflows a `u32` in the source.
- `Phases.Phases.Reset` leaves the new `start` and `progress` arbitrary. It is called everywhere, but the reset method of the timeline is not part of this model. So a frame may find a laser timeline starting after the clock, which would panic. `Schedule.Frame` and `Schedule.Update` therefore return `ok == false` exactly in that case instead of promising success.
- `Phases.Phases.Placeholder` stands for the `Phases::new(mode)` overload the spawning code calls. That overload is not part of this model; it is read as a single zero-length phase of that mode.
- The laser mode's `Default` value is not part of this model. It is the parameter `emptyMode`.
- The board mode type, and any system that updates board timelines, are not part of this model. So board timelines are set by the hooks but never advanced.
- Randomness is a parameter. The colour generator's outcomes are `draws`. `Player.EnterSetup` requires a draw that differs from the old colour; the source's loop instead retries until one does. `Schedule.Frame` and `Schedule.Enter` pass the same requirement on even when Setup is not entered.
- Time is a parameter: the frame's delta is `delta`.
- System order:
  - Where the source leaves two systems of a state unordered, the model fixes one order.
  - The clock systems and the laser transition run first.
  - In Game, the defeat request runs after the countdown's transition, so Defeat overrides Victory.
  - On entering a state, the countdown's hook runs last.
- The state stack of the engine is reduced to the current state plus one pending request:
  - `overwrite_set` fails only when asked for the current state, and `App.Edge` shows no request along the cycle does that. So the `unwrap`s cannot panic and are not modelled.
  - Re-running state stages within one frame is not modelled.
- `single()` and `single_mut()` panics are not modelled: the world holds exactly one player. The material handle swap of the player model is the `Look` value.
- `Board.ToWorld` is not part of `Schedule.Frame`, because it only writes transforms that no game system reads.
- The older movement module's own `Board` and `Position` types are represented by the board module's.
- `LegacyBackground.OnUpdate` does not model the text written by the display system. Only the remaining time is returned, unformatted.

## Findings

| source | as written | input that shows it | evidently intended | confidence | as-written member | corrected member |
|---|---|---|---|---|---|---|
| src/laser/content.rs:110 | the second Shown phase of the middle laser's board table lasts 2.7 s | the running sums of the table: 12.8 + 2.7 = 15.5, where the comment says 14.5, and the table ends at 16.5 instead of 15.5 | 1.7 s, so that the laser sinks right after its last shot at 14.5 s, as the comments and the other three tables do | not executed | Content.MiddleLaserBoardPhasesAsWritten, shown by Content.MiddleBoardCommentsDisagree | Content.MiddleLaserBoardPhases, proved by Content.MiddleBoardComments and Content.MiddleFiresInView; Lasers.BoardScript keeps the table as written, as the game does, and Content.MiddleFiresInViewAsWritten shows the laser still fires only in view |
| src/background/fog.rs:95-107 | the index loop walks the linear vertex indices 0 .. (n-1)^2 - 1 and treats each one as the top-left corner of a cell | n = 3: the fifth triangle pushed is (2, 5, 6), which joins the right edge of row 0 to row 2; for any n >= 3 the far corner vertex n^2 - 1 is in no triangle | two triangles for each of the (n-1)^2 grid cells, whose top-left corners are r n + c for r, c < n - 1 | not executed | Fog.IndicesAsWritten and Fog.FromAsWritten, shown by Fog.AsWrittenWrapsAcrossRows and Fog.AsWrittenMissesCorner | Fog.Indices and Fog.From, proved by Fog.GridTriangles and Fog.GridUsesCorner |
