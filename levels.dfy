/** The per-level rules of `processInput` and `update`: how a target reacts to the
    cursor and to a click, when it leaves the field and scores, where it re-enters, and
    how each group moves and wraps every frame. The four hand-written blocks of the
    source become tables indexed by the level. */
module Levels {
  import opened Shapes

  datatype Level = L1 | L2 | L3 | L4

  /** The three target groups: `targets1` (red), `targets2` (blue), `targets3` (purple). */
  datatype Group = Reds | Blues | Purples

  /** The value `currentLevel` takes while a level is played. */
  function LevelName(lv: Level): string
  {
    match lv
    case L1 => "1"
    case L2 => "2"
    case L3 => "3"
    case L4 => "4"
  }

  function BaseColor(g: Group): Color
  {
    match g
    case Reds => BrickRed
    case Blues => DarkBlue
    case Purples => Purple
  }

  /** The colour a target takes while the cursor overlaps it. */
  function HoverColor(g: Group): Color
  {
    match g
    case Reds => Orange
    case Blues => Cyan
    case Purples => Magenta
  }

  // ---------------------------------------------------------------------------
  // Hit, retire and score (processInput)
  // ---------------------------------------------------------------------------

  /** Where a clicked target is thrown: -600 in y, +1000 in x, +700 in y, -800 in x. */
  function Throw(lv: Level, r: Rect): Rect
  {
    match lv
    case L1 => r.MoveY(-600.0)
    case L2 => r.MoveX(1000.0)
    case L3 => r.MoveY(700.0)
    case L4 => r.MoveX(-800.0)
  }

  /** The exit line of each level: top below 10, left beyond 900, bottom above 600,
      right below -50. */
  predicate PastExit(lv: Level, r: Rect)
  {
    match lv
    case L1 => r.Top() < 10.0
    case L2 => r.Left() > 900.0
    case L3 => r.Bottom() > 600.0
    case L4 => r.Right() < -50.0
  }

  /** The re-entry coordinate of a retired target: y = 590, x = -50, y = -50, x = 900. */
  function Reenter(lv: Level, r: Rect): Rect
  {
    match lv
    case L1 => r.(y := 590.0)
    case L2 => r.(x := -50.0)
    case L3 => r.(y := -50.0)
    case L4 => r.(x := 900.0)
  }

  /** What one target does in one frame of a level block: the rectangle afterwards,
      and whether it counted a shot taken, a shot hit and a point. */
  datatype Outcome = Outcome(rect: Rect, shot: bool, hit: bool, scored: bool)

  /** One iteration of a target loop of `processInput`. The colour follows the cursor;
      on a click over the target it is hit and thrown (in levels 2-4 the shot is counted
      here and the overlap is tested once more); a target past the exit line is shrunk
      to 5x5, moved to the re-entry coordinate, turned white and scores. */
  function TargetFrame(lv: Level, g: Group, r: Rect, user: Rect, click: bool): (o: Outcome)
    ensures o.hit <==> click && Overlapping(r, user)
    ensures o.shot <==> lv != L1 && o.hit
    ensures var thrown := if o.hit then Throw(lv, r) else r;
      && (o.scored <==> PastExit(lv, thrown))
      && (o.scored ==> o.rect == Reenter(lv, thrown).(w := 5.0, h := 5.0, color := White))
      && (!o.scored ==> o.rect == thrown.(color := if Overlapping(r, user) then HoverColor(g) else BaseColor(g)))
  {
    var r1 := if Overlapping(r, user) then r.(color := HoverColor(g)) else r.(color := BaseColor(g));
    var shot := Overlapping(r, user) && click && lv != L1;
    var hit := Overlapping(r, user) && click && (lv == L1 || Overlapping(r1, user));
    var r2 := if hit then Throw(lv, r1) else r1;
    var scored := PastExit(lv, r2);
    var r3 := if scored then Reenter(lv, r2.(w := 5.0, h := 5.0)).(color := White) else r2;
    Outcome(r3, shot, hit, scored)
  }

  /** Where a clicked bonus box is thrown: -600 in y, +1000 in x, +700 in y, -900 in x. */
  function BonusThrow(lv: Level, b: Rect): Rect
  {
    match lv
    case L1 => b.MoveY(-600.0)
    case L2 => b.MoveX(1000.0)
    case L3 => b.MoveY(700.0)
    case L4 => b.MoveX(-900.0)
  }

  /** The bonus box's exit test: top below 10, left beyond 900, bottom below 600 (sic),
      right below -75. */
  predicate BonusPastExit(lv: Level, b: Rect)
  {
    match lv
    case L1 => b.Top() < 10.0
    case L2 => b.Left() > 900.0
    case L3 => b.Bottom() < 600.0
    case L4 => b.Right() < -75.0
  }

  datatype BonusOutcome = BonusOutcome(rect: Rect, shot: bool, hit: bool)

  /** The bonus-box block of a level: gold while overlapped, yellow otherwise; a click
      over it counts a shot taken and, after a second overlap test, a shot hit, and
      throws it; past its exit test it is put back at x = -20 (the `score + 5` there
      discards its value, so no point is added). */
  function BonusFrame(lv: Level, b: Rect, user: Rect, click: bool): (o: BonusOutcome)
    ensures o.shot <==> click && Overlapping(b, user)
    ensures o.hit == o.shot
    ensures var thrown := if o.hit then BonusThrow(lv, b) else b;
      && o.rect.y == thrown.y && o.rect.w == b.w && o.rect.h == b.h
      && o.rect.x == (if BonusPastExit(lv, thrown) then -20.0 else thrown.x)
      && o.rect.color == (if Overlapping(b, user) then Gold else Yellow)
  {
    var b1 := if Overlapping(b, user) then b.(color := Gold) else b.(color := Yellow);
    var shot := Overlapping(b, user) && click;
    var hit := shot && Overlapping(b1, user);
    var b2 := if hit then BonusThrow(lv, b1) else b1;
    var b3 := if BonusPastExit(lv, b2) then b2.(x := -20.0) else b2;
    BonusOutcome(b3, shot, hit)
  }

  /** The counters one target loop adds. */
  datatype Tally = Tally(shots: nat, hits: nat, scored: nat)

  function Count(b: bool): nat { if b then 1 else 0 }

  /** The counters after one more target's outcome. */
  function AddOutcome(t: Tally, o: Outcome): Tally
  {
    Tally(t.shots + Count(o.shot), t.hits + Count(o.hit), t.scored + Count(o.scored))
  }

  /** The outcome of every iteration of a target loop. */
  function Outcomes(lv: Level, g: Group, s: seq<Rect>, user: Rect, click: bool): (os: seq<Outcome>)
    ensures |os| == |s|
  {
    seq(|s|, i requires 0 <= i < |s| => TargetFrame(lv, g, s[i], user, click))
  }

  /** What the first n outcomes of a target loop add to `shotsTaken`, `shotsHit` and
      `score`: at most one each per target. */
  function TallyOf(os: seq<Outcome>, n: nat): (t: Tally)
    requires n <= |os|
    ensures t.shots <= n && t.hits <= n && t.scored <= n
  {
    if n == 0 then Tally(0, 0, 0) else AddOutcome(TallyOf(os, n - 1), os[n - 1])
  }

  /** What a whole target loop adds. */
  function GroupTally(lv: Level, g: Group, s: seq<Rect>, user: Rect, click: bool): Tally
  {
    TallyOf(Outcomes(lv, g, s, user, click), |s|)
  }

  /** Shots are counted only in levels 2-4 and there exactly one per hit, and without
      a click nothing but points is counted. */
  lemma {:induction false} TallyShots(lv: Level, g: Group, s: seq<Rect>, user: Rect, click: bool, n: nat)
    requires n <= |s|
    ensures var t := TallyOf(Outcomes(lv, g, s, user, click), n);
      && (lv == L1 ==> t.shots == 0)
      && (lv != L1 ==> t.shots == t.hits)
      && (!click ==> t.shots == 0 && t.hits == 0)
  {
    if n > 0 {
      TallyShots(lv, g, s, user, click, n - 1);
    }
  }

  /** The same for a whole target loop. */
  lemma GroupTallyShots(lv: Level, g: Group, s: seq<Rect>, user: Rect, click: bool)
    ensures var t := GroupTally(lv, g, s, user, click);
      && (lv == L1 ==> t.shots == 0)
      && (lv != L1 ==> t.shots == t.hits)
      && (!click ==> t.shots == 0 && t.hits == 0)
  {
    TallyShots(lv, g, s, user, click, |s|);
  }

  /** A target loop over targets the cursor overlaps nowhere counts no shot and no hit. */
  lemma {:induction false} UntouchedNoHits(lv: Level, g: Group, s: seq<Rect>, user: Rect, click: bool, n: nat)
    requires n <= |s|
    requires forall k :: 0 <= k < |s| ==> !Overlapping(s[k], user)
    ensures var t := TallyOf(Outcomes(lv, g, s, user, click), n);
      t.shots == 0 && t.hits == 0
  {
    if n > 0 {
      UntouchedNoHits(lv, g, s, user, click, n - 1);
    }
  }

  /** The rectangles of a group after its target loop. */
  function GroupRects(lv: Level, g: Group, s: seq<Rect>, user: Rect, click: bool): seq<Rect>
  {
    seq(|s|, i requires 0 <= i < |s| => TargetFrame(lv, g, s[i], user, click).rect)
  }

  /** A target inside the field is retired in the frame it is clicked in levels 1-3:
      throwing it carries it past the exit line, so it scores that same frame. */
  lemma ClickedTargetRetires(lv: Level, g: Group, r: Rect, user: Rect)
    requires lv != L4
    requires Overlapping(r, user)
    requires 0.0 <= r.Left() && r.Right() <= ScreenWidth && 0.0 <= r.Bottom() && r.Top() <= ScreenHeight
    ensures var o := TargetFrame(lv, g, r, user, true);
      o.hit && o.scored && o.rect.w == 5.0 && o.rect.h == 5.0 && o.rect.color == White
  {
  }

  /** In level 4 a target in the field is retired when clicked only if its right edge
      is left of 750: throwing it by -800 must carry the right edge below -50. */
  lemma Level4ClickRetiresIff(g: Group, r: Rect, user: Rect)
    requires Overlapping(r, user)
    ensures TargetFrame(L4, g, r, user, true).scored <==> r.Right() < 750.0
  {
  }

  /** A level-4 target at the right of the screen that is clicked is hit and thrown
      off the left edge, yet does not score; it keeps its size and colour. */
  lemma Level4EdgeClickDoesNotScore()
    ensures var r := Rect(770.0, 300.0, 40.0, 40.0, BrickRed);
      var user := Rect(770.0, 300.0, 10.0, 10.0, White);
      var o := TargetFrame(L4, Reds, r, user, true);
      o.hit && !o.scored && o.rect.x == -30.0 && o.rect.Right() == -10.0 && o.rect.w == 40.0
  {
  }

  /** The level-completion thresholds: more than 37 in level 1, at least 34 in level 2,
      at least 37 in levels 3 and 4. */
  predicate Threshold(lv: Level, score: int)
  {
    match lv
    case L1 => score > 37
    case L2 => score >= 34
    case L3 => score >= 37
    case L4 => score >= 37
  }

  // ---------------------------------------------------------------------------
  // Motion and wraparound (update)
  // ---------------------------------------------------------------------------

  /** The per-frame step (dx, dy) of each group, normal and hard. Level 4 ignores the
      difficulty. */
  function Velocity(lv: Level, g: Group, hard: bool): (real, real)
  {
    match (lv, g)
    case (L1, Reds) => if hard then (-4.0, 0.0) else (-1.5, 0.0)
    case (L1, Blues) => if hard then (1.5, 0.0) else (3.0, 0.0)
    case (L1, Purples) => if hard then (-3.0, 0.0) else (-0.5, 0.0)
    case (L2, Reds) => if hard then (0.0, -3.0) else (0.0, -1.5)
    case (L2, Blues) => if hard then (0.0, -5.0) else (0.0, -3.0)
    case (L2, Purples) => if hard then (0.0, -4.0) else (0.0, -0.5)
    case (L3, Reds) => if hard then (-3.0, -3.0) else (-1.5, -1.5)
    case (L3, Blues) => if hard then (-4.5, -4.5) else (-3.0, -3.0)
    case (L3, Purples) => if hard then (-2.0, -2.0) else (-0.5, -0.5)
    case (L4, Reds) => (1.5, -1.5)
    case (L4, Blues) => (3.0, -3.0)
    case (L4, Purples) => (0.5, -0.5)
  }

  /** Iteration i of a level-1 loop, on the group as it stands at that moment: move the
      target by dx; a red or purple target whose centre passed -w/2 is put right of its
      left neighbour (index i - 1, the last index for i = 0), a blue target whose centre
      passed 800 + w/2 is put left of its right neighbour (index i + 1, index 0 for the
      last), with a gap of 5. */
  function WrapStep(g: Group, s: seq<Rect>, i: nat, dx: real): (t: seq<Rect>)
    requires i < |s|
    ensures |t| == |s|
    ensures forall k :: 0 <= k < |s| && k != i ==> t[k] == s[k]
  {
    var m := s[i].MoveX(dx);
    var t := s[i := m];
    if g != Blues then
      if m.x < -(m.w / 2.0) then
        var p := if i == 0 then |s| - 1 else i - 1;
        t[i := m.(x := t[p].x + t[p].w / 2.0 + m.w / 2.0 + 5.0)]
      else t
    else
      if m.x > ScreenWidth + m.w / 2.0 then
        var n := if i == |s| - 1 then 0 else i + 1;
        t[i := m.(x := t[n].x - t[n].w / 2.0 - m.w / 2.0 - 5.0)]
      else t
  }

  /** The group after the first j iterations of its level-1 loop, run in place. */
  function Sweep(g: Group, s: seq<Rect>, dx: real, j: nat): (t: seq<Rect>)
    requires j <= |s|
    ensures |t| == |s|
    decreases j
  {
    if j == 0 then s else WrapStep(g, Sweep(g, s, dx, j - 1), j - 1, dx)
  }

  /** Iterations before j have not touched index j or later. */
  lemma {:induction false} SweepUntouched(g: Group, s: seq<Rect>, dx: real, j: nat, k: nat)
    requires j <= k < |s|
    ensures Sweep(g, s, dx, j)[k] == s[k]
    decreases j
  {
    if j > 0 {
      SweepUntouched(g, s, dx, j - 1, k);
    }
  }

  /** Once iteration k is done, index k no longer changes. */
  lemma {:induction false} SweepFrozen(g: Group, s: seq<Rect>, dx: real, j: nat, j2: nat, k: nat)
    requires k < j <= j2 <= |s|
    ensures Sweep(g, s, dx, j2)[k] == Sweep(g, s, dx, j)[k]
    decreases j2
  {
    if j2 > j {
      SweepFrozen(g, s, dx, j, j2 - 1, k);
    }
  }

  /** Level-1 wrap continuity. After the whole loop, target j keeps its y, size and
      colour, and either has simply moved by dx or, if it crossed its wrap line, sits
      5 beyond its neighbour. Because the loop runs in place, a red or purple target's
      left neighbour is its already-moved final value for j > 0, and for j = 0 the last
      target as it was before the frame; a blue target's right neighbour is the
      not-yet-moved next target, and for the last index the already-moved first one. */
  lemma Level1WrapContinuity(g: Group, s: seq<Rect>, dx: real, j: nat)
    requires j < |s|
    ensures var r := Sweep(g, s, dx, |s|);
      var m := s[j].MoveX(dx);
      && r[j].y == s[j].y && r[j].w == s[j].w && r[j].h == s[j].h && r[j].color == s[j].color
      && (g != Blues ==>
            var left := if j > 0 then r[j - 1] else if |s| == 1 then m else s[|s| - 1];
            if m.x < -(m.w / 2.0) then r[j].Left() == left.Right() + 5.0 else r[j] == m)
      && (g == Blues ==>
            var right := if j < |s| - 1 then s[j + 1] else if |s| == 1 then m else r[0];
            if m.x > ScreenWidth + m.w / 2.0 then r[j].Right() == right.Left() - 5.0 else r[j] == m)
  {
    var n := |s|;
    var r := Sweep(g, s, dx, n);
    var before := Sweep(g, s, dx, j);
    SweepFrozen(g, s, dx, j + 1, n, j);
    assert r[j] == WrapStep(g, before, j, dx)[j];
    SweepUntouched(g, s, dx, j, j);
    if j > 0 {
      SweepFrozen(g, s, dx, j, n, j - 1);
    }
    if j < n - 1 {
      SweepUntouched(g, s, dx, j, j + 1);
    }
    if j == n - 1 && n > 1 {
      SweepFrozen(g, s, dx, j, n, 0);
    }
  }

  /** One iteration of a level-2, -3 or -4 loop: move by the step and wrap to a fixed
      coordinate, independently on each axis. */
  function Drift(lv: Level, r: Rect, d: (real, real)): Rect
    requires lv != L1
  {
    match lv
    case L1 => r
    case L2 =>
      var m := r.MoveY(d.1);
      if m.y < -(m.h / 2.0) then m.(y := 600.0) else m
    case L3 =>
      var m := r.MoveX(d.0).MoveY(d.1);
      var mx := if m.x < -(m.w / 2.0) then m.(x := 790.0) else m;
      if mx.y < -(mx.h / 2.0) then mx.(y := 590.0) else mx
    case L4 =>
      var m := r.MoveX(d.0).MoveY(d.1);
      var mx := if m.x > ScreenWidth + m.w / 2.0 then m.(x := 10.0) else m;
      if mx.y < -(mx.h / 2.0) then mx.(y := 590.0) else mx
  }

  /** Motion in levels 2-4. Size and colour never change. Level 2 moves only y, by a
      negative step, and wraps to y = 600. Level 3 moves x and y by the same negative
      step and wraps x to 790 and y to 590 independently. Level 4 takes the same step
      whatever the difficulty, +d in x and -d in y, and wraps x to 10 and y to 590. */
  lemma DriftRules(lv: Level, g: Group, hard: bool, r: Rect)
    requires lv != L1
    ensures var d := Velocity(lv, g, hard);
      var r2 := Drift(lv, r, d);
      && r2.w == r.w && r2.h == r.h && r2.color == r.color
      && (lv == L2 ==>
            && d.1 < 0.0 && r2.x == r.x
            && r2.y == (if r.y + d.1 < -(r.h / 2.0) then 600.0 else r.y + d.1))
      && (lv == L3 ==>
            && d.0 == d.1 < 0.0
            && r2.x == (if r.x + d.0 < -(r.w / 2.0) then 790.0 else r.x + d.0)
            && r2.y == (if r.y + d.1 < -(r.h / 2.0) then 590.0 else r.y + d.1))
      && (lv == L4 ==>
            && d == Velocity(L4, g, !hard) && d.0 == -d.1 && d.0 > 0.0
            && r2.x == (if r.x + d.0 > ScreenWidth + r.w / 2.0 then 10.0 else r.x + d.0)
            && r2.y == (if r.y + d.1 < -(r.h / 2.0) then 590.0 else r.y + d.1))
  {
  }

  /** The group after a level-2, -3 or -4 loop. */
  function DriftAll(lv: Level, s: seq<Rect>, d: (real, real)): seq<Rect>
    requires lv != L1
  {
    seq(|s|, i requires 0 <= i < |s| => Drift(lv, s[i], d))
  }
}
