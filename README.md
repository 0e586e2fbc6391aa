# Target Practice: the game logic of `Engine`, in Dafny

Target Practice is a small OpenGL shooting game. Three rows of targets (red, blue and
purple) cross an 800 x 600 window. A yellow bonus box sits at the left edge, and the
player's cursor is a 10 x 10 white block. The player clicks targets to knock them out
of the field. A target scores a point when it is past its level's exit line, which in
practice means a target a click has thrown there. Enough points, or the G key, end the
level. The game has four levels and a game-over
screen, and from that screen the player can restart, jump to a level, or switch between
normal and hard mode.

This project models the game logic of the C++ class `Engine` in `src/engine.cpp`:

- `initShapes` lays the targets out;
- `processInput` reacts to the cursor, clicks and keys, scores, and moves between
  screens;
- `update` moves the targets and wraps them around.

Properties of the model are proved in Dafny.

## How the model is built

- `shapes.dfy` (module `Shapes`) holds the rectangles. Positions are centres and
  sizes are full widths, so edges are centre ± size/2. y grows upwards: the
  projection runs bottom to top, and the mouse y is flipped before use, so the top
  edge is y + h/2. The overlap test of the rectangle type is taken to be a closed
  axis-aligned box test.
- `targets.dfy` (module `Targets`) covers the three packing loops of `initShapes`:
  - a `GroupRule` gives each loop's size range, width budget and colour;
  - `Pack` describes the targets one loop appends, and `GenerateGroup` is the loop
    itself, proved equal to `Pack`;
  - `rand()` is an injected stream `rand: nat -> nat`, where the k-th value it returns
    is `rand(k)`, and the model carries a cursor into it.
- `levels.dfy` (module `Levels`) turns the four hand-written level blocks of the
  source into tables indexed by the level:
  - `Throw`, `PastExit` and `Reenter` give where a clicked target goes, where it
    leaves the field, and where it comes back;
  - `BonusThrow` and `BonusPastExit` do the same for the bonus box, and `Velocity`
    gives each group's speed;
  - `TargetFrame` and `BonusFrame` are one iteration of a target loop and the bonus
    block of `processInput`. `WrapStep`/`Sweep` and `Drift` are the motion loops of
    `update`.
- `frame.dfy` (module `Frame`) holds the whole state as a value:
  - `Globals` is the file-scope globals; `World` adds the members the logic touches
    and the stream cursor `drawn`;
  - `ProcessFrame` is `processInput` and `Tick` is `update`, as functions of the old
    state and an input snapshot;
  - the snapshot holds the pressed keys, the cursor, the mouse button and the time in
    whole seconds.
- `engine.dfy` (module `GameEngine`) is the imperative side:
  - methods with loops (`SweepGroup`, `DriftGroup`, `RunGroup`, `GenerateGroup`) and
    straight-line step methods, each proved equal to its function in `Frame`;
  - `class Engine`, which holds the globals, the three target vectors, the cursor
    block, the bonus box and `mousePressedLastFrame` as fields. It starts from the
    stream `rand`;
  - its methods `InitShapes`, `ProcessInput` and `Update` state the new `Model()` in
    terms of the old one.
- `properties.dfy` (module `Properties`) holds the properties of the model:
  - scoring and accuracy bookkeeping;
  - the screen state machine, including the order of the blocks within one frame: S
    on the start screen runs the level-1 block in the same frame (`StartRunsLevel1`),
    and a level that ends reaches the game-over hub in the same frame
    (`EndedLevelReachesHub`);
  - the game-over hub;
  - the motion of `update`;
  - an invariant that holds in every state the engine reaches.

The blocks of `processInput` are separate `if`s, not `else if`s (src/engine.cpp:194,
201, 292, 387, 482, 577). A level that ends in a frame reaches the game-over hub in that
same frame, and `Played`/`ProcessFrame` keep that order.

### Observations about the code

- The bonus box never changes the score. Its exit branch contains `score + 5;`, whose
  value is discarded (src/engine.cpp:226, 312, 407, 502). `BonusNeverScores` states
  this.
- In level 1, a click counts one shot (src/engine.cpp:209), and each target under the
  cursor counts one hit. So one click on a spot where two targets overlap counts two
  hits for one shot. The accuracy computed when the level ends can then exceed 100;
  `Level1AccuracyCanExceed100` exhibits a state where it is 200. Levels 2-4 count a
  shot together with each hit, so there the two counters stay equal
  (`LevelBlockBalanced`).
- The exit test of the bonus box in level 3 is `getBottom() < 600`
  (src/engine.cpp:405), where the targets use `getBottom() > 600`. The model keeps the
  code as written (`BonusPastExit`). Because the bonus box never moves on its own (its
  motion in `update` is commented out), this test only puts it back at x = -20.
- In level 4 a clicked target is thrown by -800 in x, but it retires only when its
  right edge ends below -50. A target clicked near the right edge therefore leaves the
  screen without scoring and keeps its size (`Level4ClickRetiresIff`,
  `Level4EdgeClickDoesNotScore`).
- R re-enters the level named by `currentLevel`. If that string names no level, R only
  switches to level 1 without regenerating (src/engine.cpp:625-627). `currentLevel`
  always names a level in a reachable state (`Invariant`), so this branch is never
  taken (`RestartInReachableState`).
- Motion never carries a target past an exit line. The wraps of `update` re-place a
  target that drifts off the field before it reaches the exit tests of `processInput`,
  which lie on the side a click throws towards (`SweepNeverExits`, `DriftNeverExits`).
  So only a click's throw scores, with one exception: the last blue and purple targets
  of a packing can be generated with their left edge beyond x = 900 (`PackLayout`
  bounds it only below 920 and 1020). That is past the level-2 exit line, so when
  key 2 starts level 2 from a fresh packing, such a target scores on the first frame
  without a click.
- `initShapes` recreates the cursor block and the bonus box as well as the targets
  (src/engine.cpp:97, 100). So every restart puts the bonus box back at (-20, 300) with
  size 35 x 35.

## Model

| member | source | states |
|---|---|---|
| Targets.PackEndCount | src/engine.cpp:125-133 | every target appended by a packing loop consumes exactly three values of `rand()` |
| Targets.PackDraws | src/engine.cpp:125-133 | target i takes its height from draw 3i, its width from draw 3i+1 and its y from draw 3i+2 (modulo the group's span plus its minimum, and `% 200 + 200`), and has the group's colour |
| Targets.PackLayout | src/engine.cpp:122-163 | a packing is empty exactly when the budget is already reached; the first left edge is at running width + 20; every later left edge is its predecessor's right edge + 5; the last target was added while the width was below the budget, which this target then reaches |
| Targets.PackBounds | src/engine.cpp:125-133 | every packed target has width and height in [min, min + span - 1] and y in [200, 399] |
| Targets.GroupsOfInitShapes | src/engine.cpp:122-163 | the red, blue and purple groups are non-empty, start at left edge x = 20, and have sizes in [30,60], [40,80] and [60,120], with y in [200,399] |
| Targets.GenerateGroup | src/engine.cpp:122-134 | the `push_back` loop builds exactly the packing `Pack` describes and leaves the stream 3 values per target further on |
| Levels.TargetFrame | src/engine.cpp:229-246 | one target-loop iteration: hit iff clicked while overlapping; a shot counted iff hit in levels 2-4; it scores iff the (thrown) target is past the exit line, and then becomes a white 5x5 block at the re-entry coordinate; otherwise it keeps its place and takes the hover colour iff overlapped |
| Levels.BonusFrame | src/engine.cpp:212-227 | the bonus block: a shot and a hit iff clicked while overlapping; gold iff overlapped; put back at x = -20 iff past the level's exit test after the throw; size unchanged |
| Levels.TallyOf | src/engine.cpp:229-283 | a target loop adds at most one shot, one hit and one point per target |
| Levels.Outcomes | src/engine.cpp:229-283 | a target loop has one outcome per target |
| Levels.TallyShots | src/engine.cpp:229-335 | after the first n iterations: no shots counted in level 1, as many shots as hits in levels 2-4, no shots or hits without a click |
| Levels.GroupTallyShots | src/engine.cpp:315-335 | the same for a whole target loop |
| Levels.ClickedTargetRetires | src/engine.cpp:229-245 | in levels 1-3, a target within the window that is clicked is thrown past the exit line and retires in the same frame |
| Levels.Level4ClickRetiresIff | src/engine.cpp:505-525 | in level 4, a clicked overlapping target retires iff its right edge is left of 750 |
| Levels.Level4EdgeClickDoesNotScore | src/engine.cpp:505-525 | a concrete level-4 target at the right edge is hit and thrown off screen (right edge -10) without scoring |
| Levels.WrapStep | src/engine.cpp:714-729 | one iteration of a level-1 motion loop changes only index i |
| Levels.Sweep | src/engine.cpp:714-763 | a level-1 motion loop keeps the number of targets |
| Levels.SweepUntouched | src/engine.cpp:714-729 | the first j iterations of a level-1 loop leave index j and later untouched |
| Levels.SweepFrozen | src/engine.cpp:714-729 | once iteration k is done, index k no longer changes in that loop |
| Levels.Level1WrapContinuity | src/engine.cpp:714-763 | after a level-1 loop every target keeps y, size and colour, and has moved by dx, or, if it crossed its wrap line, sits 5 right of its left neighbour (red, purple: the moved index i-1, or the last index as it was before the frame for i = 0) or 5 left of its right neighbour (blue: the unmoved index i+1, or the moved index 0 for the last index) |
| Levels.DriftRules | src/engine.cpp:779-975 | levels 2-4 keep size and colour; level 2 moves only y downward and wraps to y = 600; level 3 moves x and y by one negative step and wraps x to 790, y to 590 independently; level 4 uses the same step in both difficulties, +d in x and -d in y, and wraps x to 10, y to 590 |
| Frame.RatioBounds | src/engine.cpp:286 | `100 * shotsHit / shotsTaken` is undefined exactly when no shot was taken, lies in [0, 100] when no more shots hit than were taken, and is 100 when all hit |
| Frame.LevelNamed | src/engine.cpp:584-627 | the strings "1" to "4" name exactly the levels whose `currentLevel` value they are, and are the only strings that name a level |
| GameEngine.SweepGroup | src/engine.cpp:714-763 | the in-place level-1 loop computes the group `Sweep` describes |
| GameEngine.DriftGroup | src/engine.cpp:779-975 | a level-2, -3 or -4 loop moves every target by `Drift` and nothing else |
| GameEngine.RunGroup | src/engine.cpp:229-283 | a target loop of `processInput` leaves the group and adds the counters that `GroupRects` and `GroupTally` describe |
| GameEngine.SpawnGroups | src/engine.cpp:95-163 | `initShapes` recreates the cursor block and the bonus box and appends the three packings, drawn one after the other |
| GameEngine.EnterLevel | src/engine.cpp:201-210 | a level block records `currentLevel`; level 1 zeroes shots, hits and accuracy; a click counts (and in level 1 takes a shot) |
| GameEngine.CountBonus | src/engine.cpp:212-223 | the bonus block adds the shot and the hit it reports |
| GameEngine.CheckCompletion | src/engine.cpp:285-288 | the loop counters are added, then the level ends, with the accuracy computed, iff the threshold is passed or G is held |
| GameEngine.LevelStep | src/engine.cpp:201-289 | one level block: click edge, bonus block, the three target loops, completion |
| GameEngine.RestartStep | src/engine.cpp:586-594 | a restart clears and regenerates the groups, zeroes score, shots and clicks, and enters the level |
| GameEngine.RestartNamed | src/engine.cpp:584-627 | R restarts the level `currentLevel` names, or only switches to level 1 |
| GameEngine.SetDifficulty | src/engine.cpp:578-583 | H sets and then N clears `hardMode` |
| GameEngine.HubStep | src/engine.cpp:577-679 | the game-over block: difficulty, then R, then keys 1-4 |
| GameEngine.DigitKeys | src/engine.cpp:628-677 | keys 1, 2, 3 and 4 handled in that order |
| GameEngine.DigitStep | src/engine.cpp:628-640 | a held level key restarts into its level; otherwise nothing happens |
| GameEngine.PlayBlocks | src/engine.cpp:201-574 | the four level blocks run as separate `if`s, each seeing the screen the previous one left |
| GameEngine.BeginStep | src/engine.cpp:181-198 | the cursor block follows the flipped pointer; S on the start screen enters level 1 and starts the timer |
| GameEngine.InputStep | src/engine.cpp:167-689 | `processInput` on a state value: cursor and start, level blocks, the hub when over, label, and the saved button state |
| GameEngine.UpdateStep | src/engine.cpp:691-977 | `update` on a state value: the end-time latch, then the motion of the current level |
| GameEngine.Engine.Store | src/engine.h:53-64 | after storing, the engine's fields are exactly the given state |
| GameEngine.Engine.constructor | src/engine.cpp:40-44 | the constructed engine keeps the stream it was given and holds the globals' initial values, followed by `initShapes` |
| GameEngine.Engine.InitShapes | src/engine.cpp:95-164 | the engine's new state is `Spawned` of the old one |
| GameEngine.Engine.ProcessInput | src/engine.cpp:167-689 | the engine's new state is `ProcessFrame` of the old one |
| GameEngine.Engine.Update | src/engine.cpp:691-977 | the engine's new state is `Tick` of the old one |
| Properties.TallyCountsRetired | src/engine.cpp:239-245 | the points of a target loop are exactly the number of targets it retired |
| Properties.RetiredTargetsReenter | src/engine.cpp:229-245 | each retired target is a white 5x5 block at the re-entry coordinate; each other target keeps its size and its (possibly thrown) position |
| Properties.LevelBlockGlobals | src/engine.cpp:201-289 | a level block records the level, counts the click, ends the level exactly when the final score of the frame passes the threshold or G is held (the accuracy then computed from the final counters), and leaves the timer, the difficulty, the cursor, the stream and the group sizes alone |
| Properties.LevelScore | src/engine.cpp:239-283 | the score rises by exactly the targets retired in the three loops, so by at most the number of targets |
| Properties.BonusNeverScores | src/engine.cpp:224-227 | the position of the bonus box, and whether it is clicked, never change the score |
| Properties.Level1Counters | src/engine.cpp:203-234 | in level 1 shots taken are this frame's click plus the bonus shot, and hits are this frame's bonus and target hits, whatever the counters held before |
| Properties.SingleTargetHit | src/engine.cpp:229-235 | a clicked level-1 loop over one overlapped target counts one hit |
| Properties.Level1AccuracyCanExceed100 | src/engine.cpp:201-289 | one level-1 click over a red and a blue target that overlap, away from the bonus box and every purple target, ending the level with G, gives one shot, two hits and accuracy 200 |
| Properties.LevelBlockBalanced | src/engine.cpp:298-378 | in levels 2-4 equal shot and hit counters stay equal |
| Levels.UntouchedNoHits | src/engine.cpp:229-238 | a target loop over targets the cursor overlaps nowhere counts no shot and no hit |
| Properties.StepKept | src/engine.cpp:292-384 | one level block keeps or ends its screen, keeps the timer, the difficulty, the cursor, the stream and the group sizes, keeps balanced counters and a level name; it does nothing off its screen |
| Properties.PlayedFacts | src/engine.cpp:201-574 | the four blocks together keep the same, and do nothing off the level screens |
| Properties.StartRunsLevel1 | src/engine.cpp:193-210 | S on the start screen enters level 1 and the level-1 block runs in the same frame: it records the level and counts the click, and the frame ends in level 1 or over |
| Properties.GEndsLevel | src/engine.cpp:201-574 | with G held the block of the level on screen ends it, no later block runs, and `currentLevel` names that level |
| Properties.EndedLevelReachesHub | src/engine.cpp:570-627 | a level ended by G reaches the hub in the same frame: with R held and no level key the frame goes back into the same level with score, shots and clicks zeroed |
| Properties.RestartFacts | src/engine.cpp:586-594 | a restart packs all three groups afresh from the current stream position (non-empty, at least nine draws), recreates the cursor block and the bonus box at (-20,300) 35x35, zeroes score, shots and clicks, enters the level, and keeps accuracy, the timer, the difficulty and `currentLevel` |
| Properties.JumpFacts | src/engine.cpp:628-640 | a held key 1-4 restarts into its level; an unheld one changes nothing; neither touches accuracy, the timer, the difficulty or `currentLevel` |
| Properties.DigitsFacts | src/engine.cpp:628-677 | with keys 1-4, the highest held key decides the screen, any held key regenerates, and no held key changes nothing |
| Properties.RestartCurrentFacts | src/engine.cpp:584-627 | R goes to the level `currentLevel` names and regenerates, or with any other name only switches to level 1 |
| Properties.HubFacts | src/engine.cpp:577-679 | the hub: N wins over H; the key handled last (4, 3, 2, 1, then R) decides the screen; a regeneration resets score, shots, clicks, cursor block and bonus box; without one only the difficulty and screen change; accuracy, the timer and `currentLevel` never change |
| Properties.StartScreen | src/engine.cpp:193-198 | on the start screen the screen changes iff S is held, which sets `gameStarted` and the start time; without S only the cursor, the label and the saved button state change |
| Properties.NeverBackToStart | src/engine.cpp:193-198 | once off the start screen the game never returns, and `gameStarted` and the start time stay fixed |
| Properties.FrameEnd | src/engine.cpp:681-688 | every frame saves the button state, so the next click is exactly a release after a press, and refreshes the label from `hardMode` |
| Properties.SweepNeverExits | src/engine.cpp:714-763 | level-1 motion never changes the answer of the level-1 exit test for any target |
| Properties.DriftNeverExits | src/engine.cpp:779-975 | in levels 2-4 motion and its wrap keep a target of non-negative size short of the exit line |
| Properties.SweepKeepsShapes | src/engine.cpp:714-763 | a level-1 loop keeps every size and colour |
| Properties.TickFacts | src/engine.cpp:691-976 | `update` latches the end time only on the first frame over after the start, changes no other global, keeps the cursor, the bonus box and every size and colour, and moves nothing off the level screens |
| Properties.InitialFacts | src/engine.cpp:6-44 | the constructed engine is on the start screen with the initial globals and groups packed from the start of the stream, each beginning at x = 20, and satisfies the invariant |
| Properties.InvariantByFrame | src/engine.cpp:167-689 | `processInput` keeps the invariant: non-empty groups, `currentLevel` a level name, equal counters in levels 2-4 |
| Properties.InvariantByTick | src/engine.cpp:691-977 | `update` keeps the invariant |
| Properties.RestartInReachableState | src/engine.cpp:584-627 | in a reachable state R always regenerates the level and zeroes the score |

## Left out

- Window, shaders, fonts and rendering (`initWindow`, `initShaders`, `render`, `shouldClose`) are not modelled: they hold no game logic. The background rectangles that `initShapes` creates are drawing detail and are left out too.
- The key-polling loop and Escape are not modelled. Each frame takes an input snapshot instead: pressed keys, the cursor in window coordinates, the button state and the time.
- `glfwGetTime`, `deltaTime` and `lastFrame` are not modelled. The time is an input integer, so the float-to-int truncation of `startTime` and `endTime` is not modelled.
- `rand()` is replaced by an injected stream of naturals, so its range and its seeding are not modelled.
- Floating point is not modelled. Positions and steps are reals, with no IEEE rounding. `shotsTaken` and `shotsHit` are whole-number doubles in the source and naturals here. `accuracy` keeps the two counts it was computed from, and the 0/0 case reads as undefined (`AccuracyValue` is None) instead of NaN.
- The rectangle class (`shapes/rect.h`) is not part of this model. Edges are taken as centre ± size/2, and `isOverlapping` is assumed to be a closed axis-aligned box test that includes touching edges.
- GameEngine.Engine: the target vectors are `seq` fields that each method reassigns whole, not arrays of rectangle pointers updated in place. The loops run on `seq` values inside methods. Pointer identity between elements is not modelled: the `targets1[i] == targets1[0]` comparisons of the level-1 loops read as index comparisons, which agree because the elements are distinct `unique_ptr`s.
- The commented-out bonus-box motion in `update` is not modelled, so the bonus box moves only when it is clicked.
- The locals that no one reads in the motion loops of levels 2-4 are not modelled.
- Properties.HubFacts: after a regeneration it states only that the groups are non-empty and were drawn after the stream position on entry. The exact packing is stated for one restart by Properties.RestartFacts.
