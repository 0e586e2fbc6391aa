/** The `Engine` class: the globals and the three target vectors it owns, updated in
    place by `processInput` and `update`. Each vector is a `seq` field that the methods
    reassign. Each method is proved to leave the state that the functions of module
    Frame describe. */
module GameEngine {
  import opened Shapes
  import opened Targets
  import opened Levels
  import opened Frame

  /** One level-1 motion loop over a group: move each target by dx and, if it crossed
      its wrap line, re-place it next to its neighbour as that neighbour stands now. */
  method SweepGroup(s: seq<Rect>, g: Group, dx: real) returns (t: seq<Rect>)
    ensures t == Sweep(g, s, dx, |s|)
  {
    t := s;
    var i := 0;
    while i < |t|
      invariant 0 <= i <= |t| == |s|
      invariant t == Sweep(g, s, dx, i)
    {
      ghost var before := t;
      t := t[i := t[i].MoveX(dx)];
      if g != Blues {
        if t[i].x < -(t[i].w / 2.0) {
          var targetOnLeft := if i == 0 then |t| - 1 else i - 1;
          t := t[i := t[i].(x := t[targetOnLeft].x + t[targetOnLeft].w / 2.0 + t[i].w / 2.0 + 5.0)];
        }
      } else {
        if t[i].x > ScreenWidth + t[i].w / 2.0 {
          var targetOnRight := if i == |t| - 1 then 0 else i + 1;
          t := t[i := t[i].(x := t[targetOnRight].x - t[targetOnRight].w / 2.0 - t[i].w / 2.0 - 5.0)];
        }
      }
      assert t == WrapStep(g, before, i, dx);
      i := i + 1;
    }
  }

  /** One level-2, -3 or -4 motion loop over a group. */
  method DriftGroup(s: seq<Rect>, lv: Level, d: (real, real)) returns (t: seq<Rect>)
    requires lv != L1
    ensures t == DriftAll(lv, s, d)
  {
    t := s;
    var i := 0;
    while i < |t|
      invariant 0 <= i <= |t| == |s|
      invariant forall k :: 0 <= k < i ==> t[k] == Drift(lv, s[k], d)
      invariant forall k :: i <= k < |t| ==> t[k] == s[k]
    {
      t := t[i := Drift(lv, t[i], d)];
      i := i + 1;
    }
  }

  /** One target loop of a level block: every target reacts to the cursor and the
      click, and the shots, hits and points it counts are tallied. */
  method RunGroup(lv: Level, g: Group, s: seq<Rect>, user: Rect, click: bool) returns (t: seq<Rect>, tally: Tally)
    ensures t == GroupRects(lv, g, s, user, click)
    ensures tally == GroupTally(lv, g, s, user, click)
  {
    ghost var os := Outcomes(lv, g, s, user, click);
    t := s;
    tally := Tally(0, 0, 0);
    var i := 0;
    while i < |t|
      invariant 0 <= i <= |t| == |s|
      invariant forall k :: 0 <= k < i ==> t[k] == os[k].rect
      invariant forall k :: i <= k < |t| ==> t[k] == s[k]
      invariant tally == TallyOf(os, i)
    {
      var o := TargetFrame(lv, g, s[i], user, click);
      assert o == os[i];
      t := t[i := o.rect];
      tally := AddOutcome(tally, o);
      i := i + 1;
    }
  }

  /** The body of `initShapes` on a state value: the cursor block and the bonus box
      are recreated, and each packing loop appends its targets to its group. */
  method SpawnGroups(rand: nat -> nat, w: World) returns (r: World)
    ensures r == Spawned(rand, w)
  {
    var reds, k1 := GenerateGroup(RedRule, rand, w.drawn);
    var blues, k2 := GenerateGroup(BlueRule, rand, k1);
    var purples, k3 := GenerateGroup(PurpleRule, rand, k2);
    r := w.(reds := w.reds + reds, blues := w.blues + blues, purples := w.purples + purples,
            user := InitialUser, bonus := InitialBonus, drawn := k3);
  }

  /** The start of a level block: record the level, reset the level-1 counters, count
      the click. */
  method EnterLevel(lv: Level, g0: Globals, click: bool) returns (g: Globals)
    ensures g == Entered(lv, g0, click)
  {
    g := g0.(currentLevel := LevelName(lv));
    if lv == L1 {
      g := g.(shotsTaken := 0, shotsHit := 0, accuracy := Fixed(0.0));
    }
    if click {
      g := g.(clicks := g.clicks + 1);
      if lv == L1 {
        g := g.(shotsTaken := g.shotsTaken + 1);
      }
    }
  }

  /** The counters of the bonus-box block. */
  method CountBonus(g0: Globals, b: BonusOutcome) returns (g: Globals)
    ensures g == BonusCounted(g0, b)
  {
    g := g0;
    if b.shot {
      g := g.(shotsTaken := g.shotsTaken + 1);
    }
    if b.hit {
      g := g.(shotsHit := g.shotsHit + 1);
    }
  }

  /** The counters of the three target loops, then the completion test. */
  method CheckCompletion(lv: Level, g0: Globals, t1: Tally, t2: Tally, t3: Tally, keys: set<Key>) returns (g: Globals)
    ensures g == Completed(lv, g0, t1, t2, t3, keys)
  {
    g := g0.(shotsTaken := g0.shotsTaken + t1.shots + t2.shots + t3.shots,
             shotsHit := g0.shotsHit + t1.hits + t2.hits + t3.hits,
             score := g0.score + t1.scored + t2.scored + t3.scored);
    if Threshold(lv, g.score) || KeyG in keys {
      g := g.(accuracy := Percent(g.shotsHit, g.shotsTaken), screen := Over);
    }
  }

  /** The block of level lv of `processInput`. */
  method LevelStep(lv: Level, w: World, input: Input) returns (r: World)
    ensures r == LevelBlock(lv, w, input)
  {
    var click := w.mousePressedLastFrame && !input.mousePressed;
    var g := EnterLevel(lv, w.g, click);
    var b := BonusFrame(lv, w.bonus, w.user, click);
    g := CountBonus(g, b);
    var reds, t1 := RunGroup(lv, Reds, w.reds, w.user, click);
    var blues, t2 := RunGroup(lv, Blues, w.blues, w.user, click);
    var purples, t3 := RunGroup(lv, Purples, w.purples, w.user, click);
    g := CheckCompletion(lv, g, t1, t2, t3, input.keys);
    r := w.(g := g, reds := reds, blues := blues, purples := purples, bonus := b.rect);
  }

  /** One restart branch of the game-over hub: clear the three groups, `initShapes`,
      zero score, shots and clicks, and enter level lv. */
  method RestartStep(rand: nat -> nat, w: World, lv: Level) returns (r: World)
    ensures r == Restart(rand, w, lv)
  {
    r := SpawnGroups(rand, w.(reds := [], blues := [], purples := []));
    r := r.(g := r.g.(score := 0, shotsTaken := 0, shotsHit := 0, clicks := 0, screen := Playing(lv)));
  }

  /** R in the game-over hub. */
  method RestartNamed(rand: nat -> nat, w: World) returns (r: World)
    ensures r == RestartCurrent(rand, w)
  {
    if w.g.currentLevel == "1" {
      r := RestartStep(rand, w, L1);
    } else if w.g.currentLevel == "2" {
      r := RestartStep(rand, w, L2);
    } else if w.g.currentLevel == "3" {
      r := RestartStep(rand, w, L3);
    } else if w.g.currentLevel == "4" {
      r := RestartStep(rand, w, L4);
    } else {
      r := w.(g := w.g.(screen := Playing(L1)));
    }
  }

  /** The difficulty keys of the game-over hub. */
  method SetDifficulty(g0: Globals, keys: set<Key>) returns (g: Globals)
    ensures g == Difficulty(g0, keys)
  {
    g := g0;
    if KeyH in keys {
      g := g.(hardMode := true);
    }
    if KeyN in keys {
      g := g.(hardMode := false);
    }
  }

  /** The game-over block of `processInput`. */
  method HubStep(rand: nat -> nat, w: World, keys: set<Key>) returns (r: World)
    ensures r == Hub(rand, w, keys)
  {
    var g := SetDifficulty(w.g, keys);
    r := w.(g := g);
    if KeyR in keys {
      r := RestartNamed(rand, r);
    }
    r := DigitKeys(rand, r, keys);
  }

  /** The handlers of keys 1, 2, 3 and 4 of the game-over hub, in that order. */
  method DigitKeys(rand: nat -> nat, w: World, keys: set<Key>) returns (r: World)
    ensures r == Digits(rand, w, keys)
  {
    r := DigitStep(rand, w, L1, Key1 in keys);
    r := DigitStep(rand, r, L2, Key2 in keys);
    r := DigitStep(rand, r, L3, Key3 in keys);
    r := DigitStep(rand, r, L4, Key4 in keys);
  }

  /** The handler of the key of level lv in the game-over hub. */
  method DigitStep(rand: nat -> nat, w: World, lv: Level, held: bool) returns (r: World)
    ensures r == JumpTo(rand, w, lv, held)
  {
    r := w;
    if held {
      r := RestartStep(rand, r, lv);
    }
  }

  /** The four level blocks of `processInput`. */
  method PlayBlocks(w: World, input: Input) returns (r: World)
    ensures r == Played(w, input)
  {
    r := w;
    if r.g.screen == Playing(L1) {
      r := LevelStep(L1, r, input);
    }
    if r.g.screen == Playing(L2) {
      r := LevelStep(L2, r, input);
    }
    if r.g.screen == Playing(L3) {
      r := LevelStep(L3, r, input);
    }
    if r.g.screen == Playing(L4) {
      r := LevelStep(L4, r, input);
    }
  }

  /** The cursor block follows the pointer; S on the start screen starts the game. */
  method BeginStep(w: World, input: Input) returns (r: World)
    ensures r == Begin(w, input)
  {
    r := w.(user := w.user.(x := input.cursorX, y := ScreenHeight - input.cursorY));
    if r.g.screen == Start && KeyS in input.keys {
      r := r.(g := r.g.(screen := Playing(L1), gameStarted := true, startTime := input.time));
    }
  }

  /** `processInput` for one input snapshot, on a state value. */
  method InputStep(rand: nat -> nat, w: World, input: Input) returns (r: World)
    ensures r == ProcessFrame(rand, w, input)
  {
    r := BeginStep(w, input);
    r := PlayBlocks(r, input);
    if r.g.screen == Over {
      r := HubStep(rand, r, input.keys);
    }
    r := r.(g := r.g.(hard := Label(r.g.hardMode)));
    // Save the button state for the next frame's click edge
    r := r.(mousePressedLastFrame := input.mousePressed);
  }

  /** `update` for a frame at the given time, on a state value. */
  method UpdateStep(w: World, time: int) returns (r: World)
    ensures r == Tick(w, time)
  {
    r := w;
    if r.g.gameStarted && r.g.screen == Over && r.g.endTime == 0 {
      r := r.(g := r.g.(endTime := time));
    }
    var hard := r.g.hardMode;
    if r.g.screen == Playing(L1) {
      var reds := SweepGroup(r.reds, Reds, Velocity(L1, Reds, hard).0);
      var blues := SweepGroup(r.blues, Blues, Velocity(L1, Blues, hard).0);
      var purples := SweepGroup(r.purples, Purples, Velocity(L1, Purples, hard).0);
      r := r.(reds := reds, blues := blues, purples := purples);
    } else if r.g.screen.Playing? {
      var lv := r.g.screen.level;
      var reds := DriftGroup(r.reds, lv, Velocity(lv, Reds, hard));
      var blues := DriftGroup(r.blues, lv, Velocity(lv, Blues, hard));
      var purples := DriftGroup(r.purples, lv, Velocity(lv, Purples, hard));
      r := r.(reds := reds, blues := blues, purples := purples);
    }
  }

  /** The engine object: the game globals and the members `processInput` and `update`
      change. Each method computes the new state from the current one and stores it. */
  class Engine {
    /** The values `rand()` returns, in order. */
    const rand: nat -> nat

    /** The file-scope globals. */
    var globals: Globals

    var targets1: seq<Rect>
    var targets2: seq<Rect>
    var targets3: seq<Rect>
    var user: Rect
    var bonusBox: Rect
    var mousePressedLastFrame: bool
    /** How many values of `rand` have been used. */
    var drawn: nat

    /** The state as a value. */
    function Model(): World
      reads this
    {
      World(globals, targets1, targets2, targets3, user, bonusBox, mousePressedLastFrame, drawn)
    }

    /** Overwrite every field with the matching part of w. */
    method Store(w: World)
      modifies this
      ensures Model() == w
    {
      globals := w.g;
      targets1, targets2, targets3 := w.reds, w.blues, w.purples;
      user, bonusBox := w.user, w.bonus;
      mousePressedLastFrame := w.mousePressedLastFrame;
      drawn := w.drawn;
    }

    /** The engine as constructed: the globals' initial values, then `initShapes`. */
    constructor (rand: nat -> nat)
      ensures this.rand == rand
      ensures Model() == Initial(rand)
    {
      this.rand := rand;
      globals := InitialGlobals;
      targets1, targets2, targets3 := [], [], [];
      user, bonusBox := InitialUser, InitialBonus;
      mousePressedLastFrame, drawn := false, 0;
      new;
      InitShapes();
    }

    /** `initShapes`. */
    method InitShapes()
      modifies this
      ensures Model() == Spawned(rand, old(Model()))
    {
      var w := SpawnGroups(rand, Model());
      Store(w);
    }

    /** `processInput`. */
    method ProcessInput(input: Input)
      modifies this
      ensures Model() == ProcessFrame(rand, old(Model()), input)
    {
      var w := InputStep(rand, Model(), input);
      Store(w);
    }

    /** `update`. */
    method Update(time: int)
      modifies this
      ensures Model() == Tick(old(Model()), time)
    {
      var w := UpdateStep(Model(), time);
      Store(w);
    }
  }
}
