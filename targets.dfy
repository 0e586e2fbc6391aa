/** Target generation (`initShapes`): three packing loops lay targets out from left to
    right, each target drawing its height, its width and its y from `rand()`, in that
    order, separated by a gap of 5, until the running width reaches the group's budget.
    `rand()` is an injected stream: `rand(k)` is the k-th value it returns. */
module Targets {
  import opened Shapes

  /** What distinguishes the three packing loops: sizes are `draw % span + min`, and
      the loop runs while the running width is below `budget`. */
  datatype GroupRule = GroupRule(min: nat, span: nat, budget: int, color: Color)

  /** Red targets: sizes 30..60, budget width + 50. */
  const RedRule := GroupRule(30, 31, 850, BrickRed)
  /** Blue targets: sizes 40..80, budget width + 100. */
  const BlueRule := GroupRule(40, 41, 900, DarkBlue)
  /** Purple targets: sizes 60..120, budget width + 200. */
  const PurpleRule := GroupRule(60, 61, 1000, Purple)

  /** The targets one packing loop appends once its running width is `total` and the
      next draw is `rand(k)`. */
  function Pack(rule: GroupRule, rand: nat -> nat, k: nat, total: int): seq<Rect>
    requires rule.span > 0
    decreases rule.budget - total
  {
    if total >= rule.budget then []
    else
      var h := rand(k) % rule.span + rule.min;
      var w := rand(k + 1) % rule.span + rule.min;
      var y := rand(k + 2) % 200 + 200;
      [Rect(total as real + w as real / 2.0 + 20.0, y as real, w as real, h as real, rule.color)]
        + Pack(rule, rand, k + 3, total + w + 5)
  }

  /** The stream position once a packing loop started at running width `total` and
      stream position k has finished. */
  function PackEnd(rule: GroupRule, rand: nat -> nat, k: nat, total: int): nat
    requires rule.span > 0
    decreases rule.budget - total
  {
    if total >= rule.budget then k
    else PackEnd(rule, rand, k + 3, total + rand(k + 1) % rule.span + rule.min + 5)
  }

  /** Every target of a packing consumes exactly three draws. */
  lemma {:induction false} PackEndCount(rule: GroupRule, rand: nat -> nat, k: nat, total: int)
    requires rule.span > 0
    ensures PackEnd(rule, rand, k, total) == k + 3 * |Pack(rule, rand, k, total)|
    decreases rule.budget - total
  {
    if total < rule.budget {
      PackEndCount(rule, rand, k + 3, total + rand(k + 1) % rule.span + rule.min + 5);
    }
  }

  /** Target i of a packing takes its height, width and y from draws k+3i, k+3i+1 and
      k+3i+2, and has the group's colour. */
  lemma {:induction false} PackDraws(rule: GroupRule, rand: nat -> nat, k: nat, total: int, i: nat)
    requires rule.span > 0
    requires i < |Pack(rule, rand, k, total)|
    ensures var t := Pack(rule, rand, k, total)[i];
      && t.h == (rand(k + 3 * i) % rule.span + rule.min) as real
      && t.w == (rand(k + 3 * i + 1) % rule.span + rule.min) as real
      && t.y == (rand(k + 3 * i + 2) % 200 + 200) as real
      && t.color == rule.color
    decreases i
  {
    if i > 0 {
      var w := rand(k + 1) % rule.span + rule.min;
      PackDraws(rule, rand, k + 3, total + w + 5, i - 1);
    }
  }

  /** The layout of a packing started at running width `total`: it is empty exactly
      when the budget is already reached; the first left edge is at total + 20; every
      later left edge is its predecessor's right edge + 5; and the last target was
      added while the running width was below the budget, which it then reached. */
  lemma {:induction false} PackLayout(rule: GroupRule, rand: nat -> nat, k: nat, total: int)
    requires rule.span > 0
    ensures var ts := Pack(rule, rand, k, total);
      && (ts == [] <==> total >= rule.budget)
      && (ts != [] ==> ts[0].Left() == total as real + 20.0)
      && (forall i :: 0 < i < |ts| ==> ts[i].Left() == ts[i - 1].Right() + 5.0)
      && (ts != [] ==> ts[|ts| - 1].Left() - 20.0 < rule.budget as real <= ts[|ts| - 1].Right() - 15.0)
    decreases rule.budget - total
  {
    var ts := Pack(rule, rand, k, total);
    if total < rule.budget {
      var w := rand(k + 1) % rule.span + rule.min;
      var rest := Pack(rule, rand, k + 3, total + w + 5);
      PackLayout(rule, rand, k + 3, total + w + 5);
      assert ts == [ts[0]] + rest;
      assert ts[0].Right() == total as real + w as real + 20.0;
      if rest != [] {
        forall i | 0 < i < |ts|
          ensures ts[i].Left() == ts[i - 1].Right() + 5.0
        {
          if i > 1 {
            assert ts[i] == rest[i - 1] && ts[i - 1] == rest[i - 2];
          }
        }
      }
    }
  }

  /** Every target of a packing has both sizes in [min, min + span - 1] and y in
      [200, 399]. */
  lemma PackBounds(rule: GroupRule, rand: nat -> nat, k: nat, total: int)
    requires rule.span > 0
    ensures var ts := Pack(rule, rand, k, total);
      forall i :: 0 <= i < |ts| ==>
        && rule.min as real <= ts[i].w <= (rule.min + rule.span - 1) as real
        && rule.min as real <= ts[i].h <= (rule.min + rule.span - 1) as real
        && 200.0 <= ts[i].y <= 399.0
  {
    var ts := Pack(rule, rand, k, total);
    forall i | 0 <= i < |ts|
      ensures rule.min as real <= ts[i].w <= (rule.min + rule.span - 1) as real
      ensures rule.min as real <= ts[i].h <= (rule.min + rule.span - 1) as real
      ensures 200.0 <= ts[i].y <= 399.0
    {
      PackDraws(rule, rand, k, total, i);
    }
  }

  /** The three groups of `initShapes`: sizes 30..60, 40..80 and 60..120, y in
      [200, 399], the first left edge at x = 20, every group non-empty. */
  lemma GroupsOfInitShapes(rand: nat -> nat, k: nat)
    ensures var reds := Pack(RedRule, rand, k, 0);
      && reds != [] && reds[0].Left() == 20.0
      && forall i :: 0 <= i < |reds| ==> 30.0 <= reds[i].w <= 60.0 && 30.0 <= reds[i].h <= 60.0 && 200.0 <= reds[i].y <= 399.0
    ensures var blues := Pack(BlueRule, rand, k, 0);
      && blues != [] && blues[0].Left() == 20.0
      && forall i :: 0 <= i < |blues| ==> 40.0 <= blues[i].w <= 80.0 && 40.0 <= blues[i].h <= 80.0 && 200.0 <= blues[i].y <= 399.0
    ensures var purples := Pack(PurpleRule, rand, k, 0);
      && purples != [] && purples[0].Left() == 20.0
      && forall i :: 0 <= i < |purples| ==> 60.0 <= purples[i].w <= 120.0 && 60.0 <= purples[i].h <= 120.0 && 200.0 <= purples[i].y <= 399.0
  {
    PackLayout(RedRule, rand, k, 0);
    PackBounds(RedRule, rand, k, 0);
    PackLayout(BlueRule, rand, k, 0);
    PackBounds(BlueRule, rand, k, 0);
    PackLayout(PurpleRule, rand, k, 0);
    PackBounds(PurpleRule, rand, k, 0);
  }

  /** One packing loop of `initShapes`: `push_back` targets while the running width is
      below the budget, drawing height, width and y for each. Returns the group and the
      position of the stream after the draws. */
  method GenerateGroup(rule: GroupRule, rand: nat -> nat, k0: nat) returns (ts: seq<Rect>, k: nat)
    requires rule.span > 0
    ensures ts == Pack(rule, rand, k0, 0)
    ensures k == PackEnd(rule, rand, k0, 0) == k0 + 3 * |ts|
  {
    var totalTargetWidth := 0;
    ts, k := [], k0;
    while totalTargetWidth < rule.budget
      invariant ts + Pack(rule, rand, k, totalTargetWidth) == Pack(rule, rand, k0, 0)
      invariant PackEnd(rule, rand, k, totalTargetWidth) == PackEnd(rule, rand, k0, 0)
      invariant k == k0 + 3 * |ts|
      decreases rule.budget - totalTargetWidth
    {
      var h := rand(k) % rule.span + rule.min;
      var w := rand(k + 1) % rule.span + rule.min;
      var y := rand(k + 2) % 200 + 200;
      var target := Rect(totalTargetWidth as real + w as real / 2.0 + 20.0, y as real, w as real, h as real, rule.color);
      ghost var rest := Pack(rule, rand, k + 3, totalTargetWidth + w + 5);
      assert Pack(rule, rand, k, totalTargetWidth) == [target] + rest;
      assert ts + ([target] + rest) == (ts + [target]) + rest;
      k := k + 3;
      ts := ts + [target];
      totalTargetWidth := totalTargetWidth + w + 5;
    }
    assert Pack(rule, rand, k, totalTargetWidth) == [];
  }
}
