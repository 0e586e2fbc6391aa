/** Properties of one frame of the game, stated about the functions of module Frame
    (and so, through the contracts of module GameEngine, about the engine object):
    scoring and accuracy bookkeeping, the screen state machine, the game-over hub, the
    motion of `update`, and an invariant that holds in every reachable state. */
module Properties {
  import opened Shapes
  import opened Targets
  import opened Levels
  import opened Frame

  // ---------------------------------------------------------------------------
  // Target loops: points are retired targets
  // ---------------------------------------------------------------------------

  /** The indices, among the first n, of the targets that reached the exit line. */
  ghost function RetiredUpTo(os: seq<Outcome>, n: nat): set<nat>
    requires n <= |os|
  {
    set k: nat | k < n && os[k].scored
  }

  /** The targets a whole loop retired. */
  ghost function Retired(lv: Level, g: Group, s: seq<Rect>, user: Rect, click: bool): set<nat>
  {
    RetiredUpTo(Outcomes(lv, g, s, user, click), |s|)
  }

  /** The points a target loop adds are exactly the number of targets it retired. */
  lemma {:induction false} TallyCountsRetired(os: seq<Outcome>, n: nat)
    requires n <= |os|
    ensures TallyOf(os, n).scored == |RetiredUpTo(os, n)|
  {
    if n > 0 {
      TallyCountsRetired(os, n - 1);
      var before := RetiredUpTo(os, n - 1);
      assert RetiredUpTo(os, n) == before + (if os[n - 1].scored then {n - 1} else {});
      assert n - 1 !in before;
    }
  }

  /** Every retired target is a white 5x5 block at the level's re-entry coordinate;
      every other target keeps its size. */
  lemma RetiredTargetsReenter(lv: Level, g: Group, s: seq<Rect>, user: Rect, click: bool, k: nat)
    requires k < |s|
    ensures var r := GroupRects(lv, g, s, user, click)[k];
      var thrown := if click && Overlapping(s[k], user) then Throw(lv, s[k]) else s[k];
      && (k in Retired(lv, g, s, user, click) ==> r == Reenter(lv, thrown).(w := 5.0, h := 5.0, color := White))
      && (k !in Retired(lv, g, s, user, click) ==> r.w == s[k].w && r.h == s[k].h && r.x == thrown.x && r.y == thrown.y)
  {
  }

  // ---------------------------------------------------------------------------
  // One level block
  // ---------------------------------------------------------------------------

  /** The level block of level lv: it records the level's name, counts the click,
      ends the level exactly when the final score of the frame passes the threshold or
      G is held (and then computes the accuracy from the final counters), and touches
      nothing outside the counters, the groups and the bonus box. */
  lemma LevelBlockGlobals(lv: Level, w: World, input: Input)
    ensures var r := LevelBlock(lv, w, input);
      var ends := Threshold(lv, r.g.score) || KeyG in input.keys;
      && r.g.currentLevel == LevelName(lv)
      && r.g.clicks == w.g.clicks + Count(Clicked(w, input))
      && r.g.screen == (if ends then Over else w.g.screen)
      && (ends ==> AccuracyValue(r.g.accuracy) == Ratio(r.g.shotsHit, r.g.shotsTaken))
      && (!ends ==> r.g.accuracy == if lv == L1 then Fixed(0.0) else w.g.accuracy)
      && r.g.gameStarted == w.g.gameStarted && r.g.startTime == w.g.startTime
      && r.g.endTime == w.g.endTime && r.g.hardMode == w.g.hardMode && r.g.hard == w.g.hard
      && r.user == w.user && r.mousePressedLastFrame == w.mousePressedLastFrame && r.drawn == w.drawn
      && |r.reds| == |w.reds| && |r.blues| == |w.blues| && |r.purples| == |w.purples|
  {
  }

  /** The score rises by the number of targets retired in the three loops, so by at
      most the number of targets; the bonus box adds nothing. */
  lemma LevelScore(lv: Level, w: World, input: Input)
    ensures var r := LevelBlock(lv, w, input);
      var click := Clicked(w, input);
      && r.g.score == w.g.score
           + |Retired(lv, Reds, w.reds, w.user, click)|
           + |Retired(lv, Blues, w.blues, w.user, click)|
           + |Retired(lv, Purples, w.purples, w.user, click)|
      && w.g.score <= r.g.score <= w.g.score + |w.reds| + |w.blues| + |w.purples|
  {
    var click := Clicked(w, input);
    TallyCountsRetired(Outcomes(lv, Reds, w.reds, w.user, click), |w.reds|);
    TallyCountsRetired(Outcomes(lv, Blues, w.blues, w.user, click), |w.blues|);
    TallyCountsRetired(Outcomes(lv, Purples, w.purples, w.user, click), |w.purples|);
  }

  /** Where the bonus box is, and whether it is clicked, never changes the score. */
  lemma BonusNeverScores(lv: Level, w: World, input: Input, bonus: Rect)
    ensures LevelBlock(lv, w.(bonus := bonus), input).g.score == LevelBlock(lv, w, input).g.score
  {
  }

  /** In level 1 the shot counters are rebuilt every frame: a click counts one shot,
      a click on the bonus box one more, and the hits are the bonus box's and the
      targets' hits of this frame alone, whatever the counters held before. */
  lemma Level1Counters(w: World, input: Input)
    ensures var r := LevelBlock(L1, w, input);
      var click := Clicked(w, input);
      var b := BonusFrame(L1, w.bonus, w.user, click);
      && r.g.shotsTaken == Count(click) + Count(b.shot)
      && r.g.shotsHit == Count(b.hit) + GroupTally(L1, Reds, w.reds, w.user, click).hits
           + GroupTally(L1, Blues, w.blues, w.user, click).hits
           + GroupTally(L1, Purples, w.purples, w.user, click).hits
  {
    var click := Clicked(w, input);
    GroupTallyShots(L1, Reds, w.reds, w.user, click);
    GroupTallyShots(L1, Blues, w.blues, w.user, click);
    GroupTallyShots(L1, Purples, w.purples, w.user, click);
  }

  /** A level-1 target loop over a single target the cursor overlaps counts one hit
      when clicked. */
  lemma SingleTargetHit(g: Group, s: seq<Rect>, user: Rect)
    requires |s| == 1 && Overlapping(s[0], user)
    ensures GroupTally(L1, g, s, user, true).hits == 1
  {
    var os := Outcomes(L1, g, s, user, true);
    assert os[0] == TargetFrame(L1, g, s[0], user, true);
  }

  /** One level-1 click over a red and a blue target that overlap each other, away
      from the bonus box and from every purple target, counts one shot and two hits, so
      the accuracy computed when the level ends (G held, say) reads 200. */
  lemma Level1AccuracyCanExceed100(w: World, input: Input)
    requires Clicked(w, input) && KeyG in input.keys
    requires |w.reds| == 1 && |w.blues| == 1
    requires Overlapping(w.reds[0], w.user) && Overlapping(w.blues[0], w.user)
    requires forall k :: 0 <= k < |w.purples| ==> !Overlapping(w.purples[k], w.user)
    requires !Overlapping(w.bonus, w.user)
    ensures var r := LevelBlock(L1, w, input);
      && r.g.screen == Over && r.g.shotsTaken == 1 && r.g.shotsHit == 2
      && AccuracyValue(r.g.accuracy) == Some(200.0)
  {
    Level1Counters(w, input);
    LevelBlockGlobals(L1, w, input);
    SingleTargetHit(Reds, w.reds, w.user);
    SingleTargetHit(Blues, w.blues, w.user);
    UntouchedNoHits(L1, Purples, w.purples, w.user, true, |w.purples|);
  }

  /** In levels 2-4 every shot counted is a hit counted, so equal counters stay equal. */
  lemma LevelBlockBalanced(lv: Level, w: World, input: Input)
    requires lv != L1
    requires w.g.shotsHit == w.g.shotsTaken
    ensures LevelBlock(lv, w, input).g.shotsHit == LevelBlock(lv, w, input).g.shotsTaken
  {
    var click := Clicked(w, input);
    GroupTallyShots(lv, Reds, w.reds, w.user, click);
    GroupTallyShots(lv, Blues, w.blues, w.user, click);
    GroupTallyShots(lv, Purples, w.purples, w.user, click);
  }

  // ---------------------------------------------------------------------------
  // The four level blocks of a frame
  // ---------------------------------------------------------------------------

  /** Levels 2-4 show as many hits as shots. */
  predicate Balanced(w: World)
  {
    w.g.screen.Playing? && w.g.screen.level != L1 ==> w.g.shotsHit == w.g.shotsTaken
  }

  /** `currentLevel` names one of the four levels. */
  predicate NamedLevel(name: string)
  {
    LevelNamed(name).Some?
  }

  /** What a level block keeps, from state w to state r: the screen stays or the
      level ends; the timer, the difficulty, the cursor, the stream position and the
      group sizes stay; balanced counters stay balanced and `currentLevel` stays a
      level name. */
  predicate Kept(w: World, r: World)
  {
    && (r.g.screen == w.g.screen || r.g.screen == Over)
    && r.g.gameStarted == w.g.gameStarted && r.g.startTime == w.g.startTime
    && r.g.endTime == w.g.endTime && r.g.hardMode == w.g.hardMode
    && r.user == w.user && r.drawn == w.drawn
    && |r.reds| == |w.reds| && |r.blues| == |w.blues| && |r.purples| == |w.purples|
    && (Balanced(w) ==> Balanced(r))
    && (NamedLevel(w.g.currentLevel) ==> NamedLevel(r.g.currentLevel))
  }

  /** The block of one level keeps what `Kept` lists, and does nothing while another
      screen is showing. */
  lemma StepKept(lv: Level, w: World, input: Input)
    ensures Kept(w, Step(lv, w, input))
    ensures w.g.screen != Playing(lv) ==> Step(lv, w, input) == w
  {
    if w.g.screen == Playing(lv) {
      LevelBlockGlobals(lv, w, input);
      if lv != L1 && w.g.shotsHit == w.g.shotsTaken {
        LevelBlockBalanced(lv, w, input);
      }
    }
  }

  /** The level blocks of a frame leave the screen as it was or end the level, do
      nothing off the level screens, and keep everything `Kept` lists. */
  lemma PlayedFacts(w: World, input: Input)
    ensures Kept(w, Played(w, input))
    ensures !w.g.screen.Playing? ==> Played(w, input) == w
  {
    var w1 := Step(L1, w, input);
    var w2 := Step(L2, w1, input);
    var w3 := Step(L3, w2, input);
    StepKept(L1, w, input);
    StepKept(L2, w1, input);
    StepKept(L3, w2, input);
    StepKept(L4, w3, input);
  }

  /** The blocks see the screen an earlier block left. On the start screen S enters
      level 1, and the level-1 block runs in the same frame: it records the level and
      counts the frame's click, and the frame ends in level 1 or over. */
  lemma StartRunsLevel1(w: World, input: Input)
    requires w.g.screen == Start && KeyS in input.keys
    ensures var r := Played(Begin(w, input), input);
      && r.g.currentLevel == LevelName(L1)
      && r.g.clicks == w.g.clicks + Count(Clicked(w, input))
      && (r.g.screen == Playing(L1) || r.g.screen == Over)
  {
    var w1 := Begin(w, input);
    var a := Step(L1, w1, input);
    var b := Step(L2, a, input);
    var c := Step(L3, b, input);
    LevelBlockGlobals(L1, w1, input);
    StepKept(L2, a, input);
    StepKept(L3, b, input);
    StepKept(L4, c, input);
  }

  // ---------------------------------------------------------------------------
  // Restart and the game-over hub
  // ---------------------------------------------------------------------------

  /** A restart regenerates all three groups from the current stream position (each
      non-empty, so at least nine values are drawn), recreates the cursor block and the
      bonus box, zeroes score, shots and clicks, enters the level, and changes no other
      global: accuracy, the timer, the difficulty and `currentLevel` stay. */
  lemma RestartFacts(rand: nat -> nat, w: World, lv: Level)
    ensures var r := Restart(rand, w, lv);
      && r.g == w.g.(score := 0, shotsTaken := 0, shotsHit := 0, clicks := 0, screen := Playing(lv))
      && r.user == InitialUser && r.bonus == InitialBonus
      && r.bonus.x == -20.0 && r.bonus.y == 300.0 && r.bonus.w == 35.0 && r.bonus.h == 35.0
      && r.mousePressedLastFrame == w.mousePressedLastFrame
      && PackedFrom(rand, r, w.drawn)
      && r.reds != [] && r.blues != [] && r.purples != []
      && r.drawn >= w.drawn + 9
  {
    var k1 := PackEnd(RedRule, rand, w.drawn, 0);
    var k2 := PackEnd(BlueRule, rand, k1, 0);
    PackEndCount(RedRule, rand, w.drawn, 0);
    PackEndCount(BlueRule, rand, k1, 0);
    PackEndCount(PurpleRule, rand, k2, 0);
  }

  /** Whether the hub's keys regenerate the level: 1-4 always, R when `currentLevel`
      names a level. */
  predicate Resets(keys: set<Key>, name: string)
  {
    Key1 in keys || Key2 in keys || Key3 in keys || Key4 in keys || (KeyR in keys && NamedLevel(name))
  }

  /** The level R returns to: the one `currentLevel` names, level 1 otherwise. */
  function LevelOfName(name: string): Level
  {
    match LevelNamed(name)
    case Some(lv) => lv
    case None => L1
  }

  /** A state a restart has just produced: score, shots and clicks zeroed, a new
      cursor block and bonus box, and three non-empty groups generated from values of
      the stream drawn after position `from`. */
  predicate Fresh(r: World, from: nat)
  {
    && r.g.score == 0 && r.g.shotsTaken == 0 && r.g.shotsHit == 0 && r.g.clicks == 0
    && r.user == InitialUser && r.bonus == InitialBonus
    && r.reds != [] && r.blues != [] && r.purples != []
    && from + 9 <= r.drawn
  }

  /** The part of the state the key handlers of the hub never change: the
      difficulty, the accuracy, the timer, `currentLevel`, the label and the saved
      button state. */
  datatype Settled = Settled(hardMode: bool, accuracy: Accuracy, startTime: int, endTime: int,
                             gameStarted: bool, currentLevel: string, hard: string, pressed: bool)

  function SettledOf(w: World): Settled
  {
    Settled(w.g.hardMode, w.g.accuracy, w.g.startTime, w.g.endTime,
            w.g.gameStarted, w.g.currentLevel, w.g.hard, w.mousePressedLastFrame)
  }

  /** A key handler of the hub keeps the settled part, and the stream only moves
      forward. */
  predicate HubKept(w: World, r: World)
  {
    SettledOf(r) == SettledOf(w) && w.drawn <= r.drawn
  }

  /** The handler of key 1-4: held, it restarts into its level; not held, it does
      nothing. */
  lemma JumpFacts(rand: nat -> nat, w: World, lv: Level, held: bool)
    ensures var r := JumpTo(rand, w, lv, held);
      && HubKept(w, r)
      && r.g.screen == (if held then Playing(lv) else w.g.screen)
      && (held ==> Fresh(r, w.drawn))
      && (!held ==> r == w)
  {
    if held {
      RestartFacts(rand, w, lv);
    }
  }

  /** Keys 1 to 4 are handled in that order: the highest one held decides the screen,
      and with any of them held the state is fresh from a restart; with none held
      nothing changes. */
  lemma DigitsFacts(rand: nat -> nat, w: World, keys: set<Key>)
    ensures var r := Digits(rand, w, keys);
      && HubKept(w, r)
      && r.g.screen == (if Key4 in keys then Playing(L4)
                        else if Key3 in keys then Playing(L3)
                        else if Key2 in keys then Playing(L2)
                        else if Key1 in keys then Playing(L1)
                        else w.g.screen)
      && (Key1 in keys || Key2 in keys || Key3 in keys || Key4 in keys ==> Fresh(r, w.drawn))
      && (!(Key1 in keys || Key2 in keys || Key3 in keys || Key4 in keys) ==> r == w)
  {
    var w1 := JumpTo(rand, w, L1, Key1 in keys);
    var w2 := JumpTo(rand, w1, L2, Key2 in keys);
    var w3 := JumpTo(rand, w2, L3, Key3 in keys);
    JumpFacts(rand, w, L1, Key1 in keys);
    JumpFacts(rand, w1, L2, Key2 in keys);
    JumpFacts(rand, w2, L3, Key3 in keys);
    JumpFacts(rand, w3, L4, Key4 in keys);
  }

  /** R restarts the level `currentLevel` names; with a name that is no level it only
      switches to level 1. */
  lemma RestartCurrentFacts(rand: nat -> nat, w: World)
    ensures var r := RestartCurrent(rand, w);
      && HubKept(w, r)
      && r.g.screen == Playing(LevelOfName(w.g.currentLevel))
      && (NamedLevel(w.g.currentLevel) ==> Fresh(r, w.drawn))
      && (!NamedLevel(w.g.currentLevel) ==> r == w.(g := w.g.(screen := Playing(L1))))
  {
    if NamedLevel(w.g.currentLevel) {
      RestartFacts(rand, w, LevelOfName(w.g.currentLevel));
    }
  }

  /** The game-over hub. N clears hard mode and H sets it, N winning when both are
      held. The screen is decided by the key handled last: 4, then 3, 2, 1, then R;
      with none of them held the screen stays. A regeneration zeroes score, shots and
      clicks, recreates the cursor block and the bonus box and packs the groups afresh
      from a later stream position; without one only the difficulty (and, for R with a
      name that is no level, the screen) changes. Accuracy, the timer and
      `currentLevel` are never changed. */
  lemma HubFacts(rand: nat -> nat, w: World, keys: set<Key>)
    ensures var r := Hub(rand, w, keys);
      && r.g.hardMode == (KeyN !in keys && (KeyH in keys || w.g.hardMode))
      && r.g.screen == (if Key4 in keys then Playing(L4)
                        else if Key3 in keys then Playing(L3)
                        else if Key2 in keys then Playing(L2)
                        else if Key1 in keys then Playing(L1)
                        else if KeyR in keys then Playing(LevelOfName(w.g.currentLevel))
                        else w.g.screen)
      && r.g.accuracy == w.g.accuracy && r.g.startTime == w.g.startTime && r.g.endTime == w.g.endTime
      && r.g.gameStarted == w.g.gameStarted && r.g.currentLevel == w.g.currentLevel && r.g.hard == w.g.hard
      && r.mousePressedLastFrame == w.mousePressedLastFrame
      && (Resets(keys, w.g.currentLevel) ==> Fresh(r, w.drawn))
      && (!Resets(keys, w.g.currentLevel) ==>
            r == w.(g := r.g) && r.g == w.g.(hardMode := r.g.hardMode, screen := r.g.screen))
  {
    var w1 := w.(g := Difficulty(w.g, keys));
    var w2 := if KeyR in keys then RestartCurrent(rand, w1) else w1;
    RestartCurrentFacts(rand, w1);
    DigitsFacts(rand, w2, keys);
  }

  /** With G held the block of the level on screen runs and ends the level, and no
      later block of the frame runs: the frame reaches the hub with `currentLevel`
      naming that level. */
  lemma GEndsLevel(w: World, input: Input, lv: Level)
    requires w.g.screen == Playing(lv) && KeyG in input.keys
    ensures var r := Played(w, input);
      r.g.screen == Over && r.g.currentLevel == LevelName(lv)
  {
    var a := Step(L1, w, input);
    var b := Step(L2, a, input);
    var c := Step(L3, b, input);
    StepKept(L1, w, input);
    StepKept(L2, a, input);
    StepKept(L3, b, input);
    StepKept(L4, c, input);
    match lv
    case L1 => LevelBlockGlobals(L1, w, input);
    case L2 => LevelBlockGlobals(L2, a, input);
    case L3 => LevelBlockGlobals(L3, b, input);
    case L4 => LevelBlockGlobals(L4, c, input);
  }

  /** A level that ends in a frame reaches the game-over hub in that same frame: with G
      (which ends every level) and R held and no level key, the frame goes from level lv
      through the hub back into level lv, regenerated, with score, shots and clicks
      zeroed. */
  lemma EndedLevelReachesHub(rand: nat -> nat, w: World, input: Input, lv: Level)
    requires w.g.screen == Playing(lv)
    requires KeyG in input.keys && KeyR in input.keys
    requires Key1 !in input.keys && Key2 !in input.keys && Key3 !in input.keys && Key4 !in input.keys
    ensures var r := ProcessFrame(rand, w, input);
      && r.g.screen == Playing(lv) && r.g.currentLevel == LevelName(lv)
      && r.g.score == 0 && r.g.shotsTaken == 0 && r.g.shotsHit == 0 && r.g.clicks == 0
  {
    var w1 := Begin(w, input);
    var d := Played(w1, input);
    GEndsLevel(w1, input, lv);
    assert LevelNamed(LevelName(lv)) == Some(lv);
    HubFacts(rand, d, input.keys);
    var h := Hub(rand, d, input.keys);
    assert h.g.screen == Playing(lv) && h.g.score == 0;
  }

  // ---------------------------------------------------------------------------
  // processInput
  // ---------------------------------------------------------------------------

  /** On the start screen only S does anything beyond following the cursor and
      refreshing the label: it enters level 1, sets `gameStarted` and starts the timer. */
  lemma StartScreen(rand: nat -> nat, w: World, input: Input)
    requires w.g.screen == Start
    ensures var r := ProcessFrame(rand, w, input);
      && (r.g.screen != Start <==> KeyS in input.keys)
      && (KeyS in input.keys ==> r.g.gameStarted && r.g.startTime == input.time)
      && (KeyS !in input.keys ==>
            && r.g == w.g.(hard := Label(w.g.hardMode))
            && r.reds == w.reds && r.blues == w.blues && r.purples == w.purples
            && r.bonus == w.bonus && r.drawn == w.drawn)
  {
    var w1 := Begin(w, input);
    PlayedFacts(w1, input);
    var w2 := Played(w1, input);
    if w2.g.screen == Over {
      HubFacts(rand, w2, input.keys);
    }
  }

  /** Once the game has left the start screen it never returns, and neither
      `gameStarted` nor the start time changes again. */
  lemma NeverBackToStart(rand: nat -> nat, w: World, input: Input)
    requires w.g.screen != Start
    ensures var r := ProcessFrame(rand, w, input);
      r.g.screen != Start && r.g.gameStarted == w.g.gameStarted && r.g.startTime == w.g.startTime
  {
    var w1 := Begin(w, input);
    PlayedFacts(w1, input);
    var w2 := Played(w1, input);
    if w2.g.screen == Over {
      HubFacts(rand, w2, input.keys);
    }
  }

  /** Every frame ends by saving the button state, which is what the next frame's
      click edge compares against, and by refreshing the label from `hardMode`. */
  lemma FrameEnd(rand: nat -> nat, w: World, input: Input, next: Input)
    ensures var r := ProcessFrame(rand, w, input);
      && r.mousePressedLastFrame == input.mousePressed
      && r.g.hard == (if r.g.hardMode then "hard" else "normal")
      && (Clicked(r, next) <==> input.mousePressed && !next.mousePressed)
  {
  }

  // ---------------------------------------------------------------------------
  // update
  // ---------------------------------------------------------------------------

  /** Two groups whose targets have the same sizes and colours, index by index. */
  predicate SameShapes(a: seq<Rect>, b: seq<Rect>)
  {
    |a| == |b| && forall k :: 0 <= k < |a| ==> a[k].w == b[k].w && a[k].h == b[k].h && a[k].color == b[k].color
  }

  /** A level-1 loop keeps every size and colour. */
  lemma SweepKeepsShapes(g: Group, s: seq<Rect>, dx: real)
    ensures SameShapes(Sweep(g, s, dx, |s|), s)
  {
    forall k | 0 <= k < |s|
      ensures Sweep(g, s, dx, |s|)[k].w == s[k].w && Sweep(g, s, dx, |s|)[k].h == s[k].h
      ensures Sweep(g, s, dx, |s|)[k].color == s[k].color
    {
      Level1WrapContinuity(g, s, dx, k);
    }
  }

  /** Level-1 motion never changes a target's top edge, so it never changes the answer
      of the level-1 exit test: only a click's throw carries a target there. */
  lemma SweepNeverExits(g: Group, s: seq<Rect>, dx: real, k: nat)
    requires k < |s|
    ensures PastExit(L1, Sweep(g, s, dx, |s|)[k]) <==> PastExit(L1, s[k])
  {
    Level1WrapContinuity(g, s, dx, k);
  }

  /** In levels 2-4, motion and its wrap never carry a target of non-negative size that
      is short of the exit line past it: the steps point away from the exit line or
      along it, and the wrap coordinates lie inside the window. */
  lemma DriftNeverExits(lv: Level, g: Group, hard: bool, r: Rect)
    requires lv != L1
    requires 0.0 <= r.w && 0.0 <= r.h
    requires !PastExit(lv, r)
    ensures !PastExit(lv, Drift(lv, r, Velocity(lv, g, hard)))
  {
    DriftRules(lv, g, hard, r);
  }

  /** `update` latches the end time on the first frame over after the game started
      and changes no other global, no size and no colour; off the level screens it
      moves nothing. */
  lemma TickFacts(w: World, time: int)
    ensures var r := Tick(w, time);
      && r.g == w.g.(endTime := if w.g.gameStarted && w.g.screen == Over && w.g.endTime == 0 then time else w.g.endTime)
      && r.user == w.user && r.bonus == w.bonus
      && r.mousePressedLastFrame == w.mousePressedLastFrame && r.drawn == w.drawn
      && SameShapes(r.reds, w.reds) && SameShapes(r.blues, w.blues) && SameShapes(r.purples, w.purples)
      && (!w.g.screen.Playing? ==> r.reds == w.reds && r.blues == w.blues && r.purples == w.purples)
  {
    var hard := w.g.hardMode;
    if w.g.screen == Playing(L1) {
      SweepKeepsShapes(Reds, w.reds, Velocity(L1, Reds, hard).0);
      SweepKeepsShapes(Blues, w.blues, Velocity(L1, Blues, hard).0);
      SweepKeepsShapes(Purples, w.purples, Velocity(L1, Purples, hard).0);
    }
  }

  // ---------------------------------------------------------------------------
  // Reachable states
  // ---------------------------------------------------------------------------

  /** What holds in every state the engine reaches: the groups are never empty,
      `currentLevel` names a level (so the fallback of R is never taken), and levels
      2-4 show as many hits as shots. */
  predicate Invariant(w: World)
  {
    && w.reds != [] && w.blues != [] && w.purples != []
    && NamedLevel(w.g.currentLevel)
    && Balanced(w)
  }

  /** The constructed engine is on the start screen with the globals' initial values,
      and its groups are packed from the first value of the stream. */
  lemma InitialFacts(rand: nat -> nat)
    ensures var w := Initial(rand);
      && w.g == InitialGlobals && w.g.screen == Start
      && PackedFrom(rand, w, 0)
      && w.reds[0].Left() == 20.0 && w.blues[0].Left() == 20.0 && w.purples[0].Left() == 20.0
      && Invariant(w)
  {
    var k1 := PackEnd(RedRule, rand, 0, 0);
    var k2 := PackEnd(BlueRule, rand, k1, 0);
    GroupsOfInitShapes(rand, 0);
    GroupsOfInitShapes(rand, k1);
    GroupsOfInitShapes(rand, k2);
  }

  /** `processInput` keeps the invariant. */
  lemma InvariantByFrame(rand: nat -> nat, w: World, input: Input)
    requires Invariant(w)
    ensures Invariant(ProcessFrame(rand, w, input))
  {
    var w1 := Begin(w, input);
    PlayedFacts(w1, input);
    var w2 := Played(w1, input);
    if w2.g.screen == Over {
      HubFacts(rand, w2, input.keys);
    }
  }

  /** `update` keeps the invariant. */
  lemma InvariantByTick(w: World, time: int)
    requires Invariant(w)
    ensures Invariant(Tick(w, time))
  {
    TickFacts(w, time);
  }

  /** In a reachable state R always regenerates: the level it returns to is the one
      last played. */
  lemma RestartInReachableState(rand: nat -> nat, w: World, keys: set<Key>)
    requires Invariant(w)
    requires KeyR in keys
    ensures Resets(keys, w.g.currentLevel)
    ensures Hub(rand, w, keys).g.score == 0
  {
    HubFacts(rand, w, keys);
  }
}
