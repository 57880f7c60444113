/**
  Equal-priority tiers: one greedy pass over urgencies in falling order, and
  why no other grouping within the tolerance needs fewer tiers.
 */
module Tiers {

  function Distance(a: real, b: real): real {
    if a >= b then a - b else b - a
  }

  predicate Falling(us: seq<real>) {
    forall i, j :: 0 <= i < j < |us| ==> us[i] >= us[j]
  }

  /** The tier of a position, and the urgency that anchors that tier. */
  datatype Place = Place(tier: nat, anchor: real)

  function PlaceOf(us: seq<real>, tolerance: real, i: nat): Place
    requires i < |us|
  {
    if i == 0 then Place(0, us[0])
    else
      var p := PlaceOf(us, tolerance, i - 1);
      if Distance(p.anchor, us[i]) > tolerance then Place(p.tier + 1, us[i]) else p
  }

  /** The positions at which tiers begin. */
  function Anchors(us: seq<real>, tolerance: real, n: nat): seq<nat>
    requires 0 < n <= |us|
  {
    if n == 1 then [0]
    else
      var rest := Anchors(us, tolerance, n - 1);
      if Distance(PlaceOf(us, tolerance, n - 2).anchor, us[n - 1]) > tolerance then rest + [n - 1] else rest
  }

  lemma {:induction false} AnchorsShape(us: seq<real>, tolerance: real, n: nat)
    requires Falling(us) && 0 < n <= |us|
    ensures var anchors := Anchors(us, tolerance, n);
            var p := PlaceOf(us, tolerance, n - 1);
            && |anchors| == p.tier + 1
            && (forall x :: 0 <= x < |anchors| ==> anchors[x] < n)
            && us[anchors[|anchors| - 1]] == p.anchor >= us[n - 1]
            && (forall x, y :: 0 <= x < y < |anchors| ==> us[anchors[x]] - us[anchors[y]] > tolerance)
  {
    if n > 1 {
      AnchorsShape(us, tolerance, n - 1);
      var rest := Anchors(us, tolerance, n - 1);
      var p := PlaceOf(us, tolerance, n - 2);
      assert Anchors(us, tolerance, n) == if Distance(p.anchor, us[n - 1]) > tolerance then rest + [n - 1] else rest;
      assert PlaceOf(us, tolerance, n - 1)
             == if Distance(p.anchor, us[n - 1]) > tolerance then Place(p.tier + 1, us[n - 1]) else p;
      hide Anchors, PlaceOf;
      forall x | 0 <= x < |rest| ensures us[rest[x]] - p.anchor > tolerance || x == |rest| - 1 {
      }
    }
  }

  /** Members of a tier lie within the tolerance of its anchor, hence of each other. */
  lemma {:induction false} NearAnchor(us: seq<real>, tolerance: real, i: nat, j: nat)
    requires Falling(us) && i <= j < |us| && PlaceOf(us, tolerance, i).tier == PlaceOf(us, tolerance, j).tier
    ensures PlaceOf(us, tolerance, i) == PlaceOf(us, tolerance, j)
    ensures PlaceOf(us, tolerance, i).anchor >= us[i]
    ensures i < j ==> PlaceOf(us, tolerance, j).anchor - us[j] <= tolerance
    decreases j
  {
    AnchorsShape(us, tolerance, i + 1);
    if i < j {
      TiersGrow(us, tolerance, i, j - 1);
      NearAnchor(us, tolerance, i, j - 1);
    }
  }

  lemma {:induction false} TiersGrow(us: seq<real>, tolerance: real, i: nat, j: nat)
    requires i <= j < |us|
    ensures PlaceOf(us, tolerance, i).tier <= PlaceOf(us, tolerance, j).tier
  {
    if i < j {
      TiersGrow(us, tolerance, i, j - 1);
    }
  }

  lemma TierWithinTolerance(us: seq<real>, tolerance: real, i: nat, j: nat)
    requires Falling(us) && i < j < |us| && PlaceOf(us, tolerance, i).tier == PlaceOf(us, tolerance, j).tier
    ensures Distance(us[i], us[j]) <= tolerance
  {
    NearAnchor(us, tolerance, i, j);
  }

  /** Any way of labelling the urgencies so that equal labels lie within the tolerance of each other. */
  predicate Grouping(us: seq<real>, tolerance: real, labels: seq<nat>) {
    && |labels| == |us|
    && forall i, j :: 0 <= i < j < |us| && labels[i] == labels[j] ==> Distance(us[i], us[j]) <= tolerance
  }

  function Labels(labels: seq<nat>): set<nat> {
    set i | 0 <= i < |labels| :: labels[i]
  }

  function Picked(labels: seq<nat>, positions: seq<nat>): set<nat>
    requires forall x :: 0 <= x < |positions| ==> positions[x] < |labels|
  {
    set x | 0 <= x < |positions| :: labels[positions[x]]
  }

  lemma {:induction false} DistinctLabels(labels: seq<nat>, positions: seq<nat>)
    requires forall x :: 0 <= x < |positions| ==> positions[x] < |labels|
    requires forall x, y :: 0 <= x < y < |positions| ==> labels[positions[x]] != labels[positions[y]]
    ensures |Picked(labels, positions)| == |positions|
  {
    if positions != [] {
      var n := |positions| - 1;
      var rest := positions[..n];
      assert forall x :: 0 <= x < n ==> rest[x] == positions[x];
      DistinctLabels(labels, rest);
      assert Picked(labels, positions) == Picked(labels, rest) + {labels[positions[n]]};
      assert labels[positions[n]] !in Picked(labels, rest);
    } else {
      assert Picked(labels, positions) == {};
    }
  }

  lemma {:induction false} SubsetSize(a: set<nat>, b: set<nat>)
    requires a <= b
    ensures |a| <= |b|
  {
    if a != {} {
      var x :| x in a;
      SubsetSize(a - {x}, b - {x});
    }
  }

  predicate Rising(positions: seq<nat>) {
    forall x, y :: 0 <= x < y < |positions| ==> positions[x] < positions[y]
  }

  lemma RisingExtended(positions: seq<nat>, last: nat)
    requires Rising(positions)
    requires forall x :: 0 <= x < |positions| ==> positions[x] < last
    ensures Rising(positions + [last])
  {
    var longer := positions + [last];
    forall x, y | 0 <= x < y < |longer| ensures longer[x] < longer[y] {
      assert longer[x] == positions[x];
    }
  }

  lemma {:induction false} AnchorsRise(us: seq<real>, tolerance: real, n: nat)
    requires Falling(us) && 0 < n <= |us|
    ensures Rising(Anchors(us, tolerance, n))
  {
    if n > 1 {
      var rest := Anchors(us, tolerance, n - 1);
      AnchorsRise(us, tolerance, n - 1);
      AnchorsShape(us, tolerance, n - 1);
      hide Rising;
      RisingExtended(rest, n - 1);
    }
  }

  /** The tier of every position. */
  function TiersOf(us: seq<real>, tolerance: real): seq<nat> {
    seq(|us|, i requires 0 <= i < |us| => PlaceOf(us, tolerance, i).tier)
  }

  lemma GreedyIsGrouping(us: seq<real>, tolerance: real)
    requires Falling(us)
    ensures Grouping(us, tolerance, TiersOf(us, tolerance))
  {
    forall i, j | 0 <= i < j < |us| && TiersOf(us, tolerance)[i] == TiersOf(us, tolerance)[j]
      ensures Distance(us[i], us[j]) <= tolerance
    {
      TierWithinTolerance(us, tolerance, i, j);
    }
  }

  lemma AnchorsDiffer(us: seq<real>, tolerance: real, labels: seq<nat>)
    requires Falling(us) && us != [] && Grouping(us, tolerance, labels)
    ensures var anchors := Anchors(us, tolerance, |us|);
            && (forall x :: 0 <= x < |anchors| ==> anchors[x] < |labels|)
            && (forall x, y :: 0 <= x < y < |anchors| ==> labels[anchors[x]] != labels[anchors[y]])
  {
    var anchors := Anchors(us, tolerance, |us|);
    AnchorsShape(us, tolerance, |us|);
    AnchorsRise(us, tolerance, |us|);
    hide Anchors, PlaceOf;
    forall x, y | 0 <= x < y < |anchors| ensures labels[anchors[x]] != labels[anchors[y]] {
      assert us[anchors[x]] - us[anchors[y]] > tolerance;
    }
  }

  /** No grouping within the tolerance uses fewer labels than the greedy pass uses tiers. */
  lemma GreedyIsOptimal(us: seq<real>, tolerance: real, labels: seq<nat>)
    requires Falling(us) && us != [] && Grouping(us, tolerance, labels)
    ensures PlaceOf(us, tolerance, |us| - 1).tier + 1 <= |Labels(labels)|
  {
    var anchors := Anchors(us, tolerance, |us|);
    AnchorsShape(us, tolerance, |us|);
    AnchorsDiffer(us, tolerance, labels);
    hide Anchors, PlaceOf, Grouping;
    DistinctLabels(labels, anchors);
    assert Picked(labels, anchors) <= Labels(labels);
    SubsetSize(Picked(labels, anchors), Labels(labels));
  }

  function Below(n: nat): (s: set<nat>)
    ensures |s| == n
    ensures forall k: nat :: k in s <==> k < n
  {
    if n == 0 then {} else Below(n - 1) + {n - 1}
  }

  predicate AllBelow(labels: seq<nat>, n: nat) {
    forall i :: 0 <= i < |labels| ==> labels[i] < n
  }

  lemma TiersBelow(us: seq<real>, tolerance: real)
    requires us != []
    ensures AllBelow(TiersOf(us, tolerance), PlaceOf(us, tolerance, |us| - 1).tier + 1)
  {
    hide PlaceOf;
    forall i: nat | i < |us|
      ensures PlaceOf(us, tolerance, i).tier <= PlaceOf(us, tolerance, |us| - 1).tier
    {
      TiersGrow(us, tolerance, i, |us| - 1);
    }
  }

  lemma LabelsBelow(labels: seq<nat>, n: nat)
    requires AllBelow(labels, n)
    ensures |Labels(labels)| <= n
  {
    SubsetSize(Labels(labels), Below(n));
  }

  lemma TiersUsed(us: seq<real>, tolerance: real)
    requires us != []
    ensures |Labels(TiersOf(us, tolerance))| <= PlaceOf(us, tolerance, |us| - 1).tier + 1
  {
    hide PlaceOf, TiersOf, Labels, AllBelow;
    TiersBelow(us, tolerance);
    LabelsBelow(TiersOf(us, tolerance), PlaceOf(us, tolerance, |us| - 1).tier + 1);
  }

  /** The greedy pass uses as few tiers as any grouping within the tolerance. */
  lemma GreedyIsFewest(us: seq<real>, tolerance: real, labels: seq<nat>)
    requires Falling(us) && Grouping(us, tolerance, labels)
    ensures |Labels(TiersOf(us, tolerance))| <= |Labels(labels)|
  {
    hide Labels, TiersOf, PlaceOf, Grouping;
    if us != [] {
      TiersUsed(us, tolerance);
      GreedyIsOptimal(us, tolerance, labels);
    } else {
      NoLabels(tolerance);
    }
  }

  lemma NoLabels(tolerance: real)
    ensures |Labels(TiersOf([], tolerance))| == 0
  {
    assert Labels(TiersOf([], tolerance)) == {};
  }
}
