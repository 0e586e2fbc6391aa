/** The game state and one frame of it, as values: the file-scope globals of the
    engine, the members it owns (`World`), what `processInput` does to them
    (`ProcessFrame`), and what `update` does to them (`Tick`). The class in engine.dfy
    runs the same steps in place and is proved equal to these functions. */
module Frame {
  import opened Shapes
  import opened Targets
  import opened Levels

  datatype Option<T> = None | Some(value: T)

  /** The screen state machine: start, the four levels, and game over. */
  datatype Screen = Start | Playing(level: Level) | Over

  /** The keys the game logic reads. */
  datatype Key = KeyS | KeyG | KeyH | KeyN | KeyR | Key1 | Key2 | Key3 | Key4

  /** One frame's input snapshot: pressed keys, the cursor in window coordinates
      (y downwards, as the windowing layer reports it), the left button, and the time
      in whole seconds. */
  datatype Input = Input(keys: set<Key>, cursorX: real, cursorY: real, mousePressed: bool, time: int)

  /** The value of `accuracy`: a constant the source assigns, or the percentage
      `100.0 * hit / taken` it computes, kept as the two counts it is computed from. */
  datatype Accuracy = Fixed(v: real) | Percent(hit: nat, taken: nat)

  /** The file-scope globals of the engine. */
  datatype Globals = Globals(
    screen: Screen,
    gameStarted: bool,
    startTime: int,
    endTime: int,
    clicks: int,
    hardMode: bool,
    hard: string,
    currentLevel: string,
    shotsTaken: nat,
    shotsHit: nat,
    accuracy: Accuracy,
    score: int)

  /** Everything the game logic reads and writes: the globals, the three target
      groups, the cursor block, the bonus box, the button state of the previous frame,
      and `drawn`, the number of values taken from `rand()` so far. */
  datatype World = World(
    g: Globals,
    reds: seq<Rect>,
    blues: seq<Rect>,
    purples: seq<Rect>,
    user: Rect,
    bonus: Rect,
    mousePressedLastFrame: bool,
    drawn: nat)

  /** The cursor block and the bonus box as `initShapes` creates them. */
  const InitialUser := Rect(0.0, 0.0, 10.0, 10.0, White)
  const InitialBonus := Rect(-20.0, 300.0, 35.0, 35.0, Yellow)

  /** The globals' initial values. */
  const InitialGlobals := Globals(Start, false, 0, 0, 0, false, "", "1", 0, 0, Fixed(0.0), 0)

  /** `100.0 * shotsHit / shotsTaken`, undefined when no shot was taken. */
  function Ratio(hit: nat, taken: nat): Option<real>
  {
    if taken == 0 then None else Some(100.0 * hit as real / taken as real)
  }

  /** The number an accuracy stands for; None where the source divides 0 by 0. */
  function AccuracyValue(a: Accuracy): Option<real>
  {
    match a
    case Fixed(v) => Some(v)
    case Percent(hit, taken) => Ratio(hit, taken)
  }

  /** Accuracy is a percentage whenever at most as many shots hit as were taken, and
      exactly 100 when every shot hit. */
  lemma RatioBounds(hit: nat, taken: nat)
    requires hit <= taken
    ensures Ratio(hit, taken).None? <==> taken == 0
    ensures Ratio(hit, taken).Some? ==> 0.0 <= Ratio(hit, taken).value <= 100.0
    ensures 0 < taken && hit == taken ==> Ratio(hit, taken) == Some(100.0)
  {
    if taken > 0 {
      var t := taken as real;
      var v := 100.0 * hit as real / t;
      assert v * t == 100.0 * hit as real <= 100.0 * t;
      assert (100.0 - v) * t >= 0.0;
      if hit == taken {
        assert v * t == 100.0 * t;
        assert (v - 100.0) * t == 0.0;
      }
    }
  }

  // ---------------------------------------------------------------------------
  // initShapes
  // ---------------------------------------------------------------------------

  /** The three groups are one packing each, drawn one after the other starting at
      stream position k and ending at the current position. */
  ghost predicate PackedFrom(rand: nat -> nat, w: World, k: nat)
  {
    var k1 := PackEnd(RedRule, rand, k, 0);
    var k2 := PackEnd(BlueRule, rand, k1, 0);
    && w.reds == Pack(RedRule, rand, k, 0)
    && w.blues == Pack(BlueRule, rand, k1, 0)
    && w.purples == Pack(PurpleRule, rand, k2, 0)
    && w.drawn == PackEnd(PurpleRule, rand, k2, 0)
  }

  /** `initShapes`: a new cursor block and bonus box, and three packings drawn from the
      stream and appended to the groups (which every caller has just emptied). */
  function Spawned(rand: nat -> nat, w: World): World
  {
    var k1 := PackEnd(RedRule, rand, w.drawn, 0);
    var k2 := PackEnd(BlueRule, rand, k1, 0);
    w.(reds := w.reds + Pack(RedRule, rand, w.drawn, 0),
       blues := w.blues + Pack(BlueRule, rand, k1, 0),
       purples := w.purples + Pack(PurpleRule, rand, k2, 0),
       user := InitialUser, bonus := InitialBonus,
       drawn := PackEnd(PurpleRule, rand, k2, 0))
  }

  /** The state when the engine is constructed: the globals' initial values, empty
      groups, then `initShapes`. */
  function Initial(rand: nat -> nat): World
  {
    Spawned(rand, World(InitialGlobals, [], [], [], InitialUser, InitialBonus, false, 0))
  }

  // ---------------------------------------------------------------------------
  // processInput
  // ---------------------------------------------------------------------------

  /** The release edge of the left button. */
  predicate Clicked(w: World, input: Input)
  {
    w.mousePressedLastFrame && !input.mousePressed
  }

  /** The cursor block follows the pointer (y flipped), and S on the start screen
      starts level 1 and the timer. */
  function Begin(w: World, input: Input): World
  {
    var w1 := w.(user := w.user.(x := input.cursorX, y := ScreenHeight - input.cursorY));
    if w1.g.screen == Start && KeyS in input.keys then
      w1.(g := w1.g.(screen := Playing(L1), gameStarted := true, startTime := input.time))
    else w1
  }

  /** The start of the block of level lv: it records the level, level 1 zeroes the
      shot counters and the accuracy, and a click is counted (in level 1 also as a
      shot taken). */
  function Entered(lv: Level, g: Globals, click: bool): Globals
  {
    var g0 := g.(currentLevel := LevelName(lv));
    var g1 := if lv == L1 then g0.(shotsTaken := 0, shotsHit := 0, accuracy := Fixed(0.0)) else g0;
    if click then g1.(clicks := g1.clicks + 1, shotsTaken := g1.shotsTaken + Count(lv == L1)) else g1
  }

  /** The counters after the bonus-box block: the shot and the hit it reported. */
  function BonusCounted(g: Globals, b: BonusOutcome): Globals
  {
    g.(shotsTaken := g.shotsTaken + Count(b.shot), shotsHit := g.shotsHit + Count(b.hit))
  }

  /** The end of the block: the three target loops' counters are added, then the level
      is over once the score passes its threshold or G is held; the accuracy is then
      computed from the counters. */
  function Completed(lv: Level, g: Globals, t1: Tally, t2: Tally, t3: Tally, keys: set<Key>): Globals
  {
    var g1 := g.(shotsTaken := g.shotsTaken + t1.shots + t2.shots + t3.shots,
                 shotsHit := g.shotsHit + t1.hits + t2.hits + t3.hits,
                 score := g.score + t1.scored + t2.scored + t3.scored);
    if Threshold(lv, g1.score) || KeyG in keys
    then g1.(accuracy := Percent(g1.shotsHit, g1.shotsTaken), screen := Over)
    else g1
  }

  /** The block of one level: click edge, bonus box, the three target loops, then the
      completion test. */
  function LevelBlock(lv: Level, w: World, input: Input): World
  {
    var click := Clicked(w, input);
    var b := BonusFrame(lv, w.bonus, w.user, click);
    var t1 := GroupTally(lv, Reds, w.reds, w.user, click);
    var t2 := GroupTally(lv, Blues, w.blues, w.user, click);
    var t3 := GroupTally(lv, Purples, w.purples, w.user, click);
    w.(g := Completed(lv, BonusCounted(Entered(lv, w.g, click), b), t1, t2, t3, input.keys),
       reds := GroupRects(lv, Reds, w.reds, w.user, click),
       blues := GroupRects(lv, Blues, w.blues, w.user, click),
       purples := GroupRects(lv, Purples, w.purples, w.user, click),
       bonus := b.rect)
  }

  /** A restart into level lv from the game-over screen: clear and regenerate the
      groups (with a new cursor block and bonus box), zero score, shots and clicks. */
  function Restart(rand: nat -> nat, w: World, lv: Level): World
  {
    var w1 := Spawned(rand, w.(reds := [], blues := [], purples := []));
    w1.(g := w1.g.(score := 0, shotsTaken := 0, shotsHit := 0, clicks := 0, screen := Playing(lv)))
  }

  /** H selects hard mode and N normal mode; N wins when both are held. */
  function Difficulty(g: Globals, keys: set<Key>): Globals
  {
    var g1 := if KeyH in keys then g.(hardMode := true) else g;
    if KeyN in keys then g1.(hardMode := false) else g1
  }

  /** The level a value of `currentLevel` names: "1" to "4" name levels 1 to 4, any
      other string none. This undoes `LevelName`. */
  function LevelNamed(name: string): (o: Option<Level>)
    ensures o.Some? ==> LevelName(o.value) == name
    ensures forall lv :: LevelName(lv) == name ==> o == Some(lv)
  {
    if name == "1" then Some(L1)
    else if name == "2" then Some(L2)
    else if name == "3" then Some(L3)
    else if name == "4" then Some(L4)
    else None
  }

  /** R: restart the level named by `currentLevel`; a name other than "1" to "4"
      only switches to level 1. */
  function RestartCurrent(rand: nat -> nat, w: World): World
  {
    match LevelNamed(w.g.currentLevel)
    case Some(lv) => Restart(rand, w, lv)
    case None => w.(g := w.g.(screen := Playing(L1)))
  }

  /** The game-over hub: H and N set the difficulty, R restarts the level named by
      `currentLevel`, and 1-4 jump to a level; these are handled in that order. */
  function Hub(rand: nat -> nat, w: World, keys: set<Key>): World
  {
    var w1 := w.(g := Difficulty(w.g, keys));
    var w2 := if KeyR in keys then RestartCurrent(rand, w1) else w1;
    Digits(rand, w2, keys)
  }

  /** The handlers of keys 1, 2, 3 and 4 of the game-over hub, in that order. */
  function Digits(rand: nat -> nat, w: World, keys: set<Key>): World
  {
    var w1 := JumpTo(rand, w, L1, Key1 in keys);
    var w2 := JumpTo(rand, w1, L2, Key2 in keys);
    var w3 := JumpTo(rand, w2, L3, Key3 in keys);
    JumpTo(rand, w3, L4, Key4 in keys)
  }

  /** The hub's handler of the key of level lv: a restart into lv while it is held. */
  function JumpTo(rand: nat -> nat, w: World, lv: Level, held: bool): World
  {
    if held then Restart(rand, w, lv) else w
  }

  /** The difficulty label refreshed at the end of every frame. */
  function Label(hardMode: bool): string
  {
    if hardMode then "hard" else "normal"
  }

  /** The four level blocks of `processInput`, run one after another as separate
      `if`s: a screen changed by one block is seen by every later block of the same
      frame. */
  function Played(w: World, input: Input): World
  {
    Step(L4, Step(L3, Step(L2, Step(L1, w, input), input), input), input)
  }

  /** `if (screen == level<lv>) { ... }`: the block of level lv runs only while its
      level is on screen. */
  function Step(lv: Level, w: World, input: Input): World
  {
    if w.g.screen == Playing(lv) then LevelBlock(lv, w, input) else w
  }

  /** `processInput`: follow the cursor and handle S, the level blocks, then the
      game-over hub (reached in the same frame as a level that just ended). At the end
      the difficulty label is refreshed and the button state is saved for the next
      frame's click edge. */
  function ProcessFrame(rand: nat -> nat, w: World, input: Input): World
  {
    var w1 := Played(Begin(w, input), input);
    var w2 := if w1.g.screen == Over then Hub(rand, w1, input.keys) else w1;
    w2.(g := w2.g.(hard := Label(w2.g.hardMode)), mousePressedLastFrame := input.mousePressed)
  }

  // ---------------------------------------------------------------------------
  // update
  // ---------------------------------------------------------------------------

  /** The end-time latch of `update`. */
  function Latch(g: Globals, time: int): Globals
  {
    if g.gameStarted && g.screen == Over && g.endTime == 0 then g.(endTime := time) else g
  }

  /** `update`: latch the end time on the first frame over, then move and wrap the
      three groups of the current level. */
  function Tick(w: World, time: int): World
  {
    var g := Latch(w.g, time);
    var hard := w.g.hardMode;
    if w.g.screen == Playing(L1) then
      w.(g := g,
         reds := Sweep(Reds, w.reds, Velocity(L1, Reds, hard).0, |w.reds|),
         blues := Sweep(Blues, w.blues, Velocity(L1, Blues, hard).0, |w.blues|),
         purples := Sweep(Purples, w.purples, Velocity(L1, Purples, hard).0, |w.purples|))
    else if w.g.screen.Playing? then
      var lv := w.g.screen.level;
      w.(g := g,
         reds := DriftAll(lv, w.reds, Velocity(lv, Reds, hard)),
         blues := DriftAll(lv, w.blues, Velocity(lv, Blues, hard)),
         purples := DriftAll(lv, w.purples, Velocity(lv, Purples, hard)))
    else w.(g := g)
  }
}
