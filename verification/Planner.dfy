/**
  From classified evidence to host changes: what each credential's item says,
  the equal-priority tiers of the healthy ones, and which items become changes.
 */
module Planner {
  import opened GuardTypes
  import opened QuotaWindows
  import opened Tiers
  import Sorting

  const MAX_PRIORITY := 999
  const MIN_PRIORITY := 1
  const DEPLETED_PRIORITY := -1
  const DEFAULT_BOOST_START := 999
  const DEFAULT_NORMAL_START := 100
  const EPSILON := 0.000000001

  datatype Credential = Credential(authIndex: string, priority: int, priorityMissing: bool, disabled: bool)

  datatype Options = Options(
    now: Time,
    boostStart: int,
    normalStart: int,
    minChange: int,
    tolerance: real,
    ignoreDisabled: bool,
    cooldowns: map<string, Time>)

  datatype QuotaState = Unknown | Healthy | ShortDepleted | WeeklyDepleted
  datatype Reason = KeepCurrent | DisabledOnHost | FreshWeeklyDepleted | FreshShortDepleted
                  | FreshBoosted | FreshRemaining | Cooldown429

  datatype Item = Item(
    credential: Credential,
    priority: int,
    disabled: bool,
    evidenceFresh: bool,
    hasEvidence: bool,
    state: QuotaState,
    boosted: bool,
    urgency: real,
    t5h: real,
    reason: Reason,
    historical: bool)

  datatype Change = Change(credential: Credential, priority: int, disabled: bool, evidenceFresh: bool, boosted: bool, reason: Reason)

  function StartPriority(given: int, fallback: int): int {
    if given <= 0 then fallback else if given > MAX_PRIORITY then MAX_PRIORITY else given
  }

  function Normal(o: Options): Options {
    o.(boostStart := StartPriority(o.boostStart, DEFAULT_BOOST_START),
       normalStart := StartPriority(o.normalStart, DEFAULT_NORMAL_START),
       minChange := if o.minChange < 0 then 0 else o.minChange)
  }

  predicate IsNormal(o: Options) {
    1 <= o.boostStart <= MAX_PRIORITY && 1 <= o.normalStart <= MAX_PRIORITY && o.minChange >= 0
  }

  // -------------------------------------------------------------------- metrics

  datatype Metrics = Metrics(urgency: real, t5h: real, boosted: bool, weeklyDepleted: bool, shortDepleted: bool)

  function Fraction(left: int): real {
    if left <= 0 then 0.0 else left as real / 100.0
  }

  function HoursUntil(reset: Option<Time>, now: Time): real {
    if reset.None? || reset.value <= now then 0.0 else (reset.value - now) as real / HOUR as real
  }

  function OrElse<T>(a: Option<T>, b: Option<T>): Option<T> {
    if a.Some? then a else b
  }

  function CompositeScore(r7d: real, t7d: real, r5h: real, t5h: real): real {
    var pacing := if r7d <= 0.0 then 0.0 else r7d / (if t7d < 0.5 then 0.5 else t7d) * 168.0;
    0.40 * pacing + 0.30 * Clamp(r7d, 0.0, 1.0) + 0.20 * Clamp(r5h, 0.0, 1.0)
    + 0.10 * (1.0 - Clamp(t5h, 0.0, 5.0) / 5.0)
  }

  function MetricsOf(q: Quota, now: Time): Metrics {
    var long := OrElse(q.longRemaining, q.remaining);
    var short := OrElse(q.shortRemaining, q.remaining);
    var r7d := if long.Some? then Fraction(long.value) else 0.0;
    var r5h := if short.Some? then Fraction(short.value) else r7d;
    var t7d := HoursUntil(OrElse(q.longResetAt, q.resetAt), now);
    var t5h := HoursUntil(OrElse(q.shortResetAt, q.resetAt), now);
    var cycle := if q.burnRate <= 0.0 then 0.15 else q.burnRate;
    var required := if r7d <= 0.0 then 0.0 else r7d / cycle * 5.0;
    var weekly := long.Some? && long.value <= 0;
    var shortOut := !weekly && q.shortRemaining.Some? && q.shortRemaining.value <= 0;
    Metrics(CompositeScore(r7d, t7d, r5h, t5h), t5h, !weekly && !shortOut && r7d > 0.0 && t7d <= required, weekly, shortOut)
  }

  // ---------------------------------------------------------------------- items

  /** The last evidence given for an auth index. */
  function LastFor(qs: seq<Quota>, authIndex: string): Option<Quota> {
    if qs == [] || authIndex == "" then None
    else if qs[|qs| - 1].authIndex == authIndex then Some(qs[|qs| - 1])
    else LastFor(qs[..|qs| - 1], authIndex)
  }

  method ByAuthIndex(qs: seq<Quota>) returns (m: map<string, Quota>)
    ensures forall a :: a in m <==> LastFor(qs, a).Some?
    ensures forall a :: a in m ==> LastFor(qs, a) == Some(m[a])
  {
    m := map[];
    for i := 0 to |qs|
      invariant forall a :: a in m <==> LastFor(qs[..i], a).Some?
      invariant forall a :: a in m ==> LastFor(qs[..i], a) == Some(m[a])
    {
      assert qs[..i + 1][..i] == qs[..i];
      if qs[i].authIndex != "" {
        m := m[qs[i].authIndex := qs[i]];
      }
    }
    assert qs[..|qs|] == qs;
  }

  function Untouched(c: Credential): Item {
    Item(c, c.priority, c.disabled, false, false, Unknown, false, 0.0, 0.0, KeepCurrent, false)
  }

  function Informed(c: Credential, q: Quota, current: bool, now: Time): Item {
    var m := MetricsOf(q, now);
    var item := Untouched(c).(evidenceFresh := current, hasEvidence := true, boosted := m.boosted, urgency := m.urgency, t5h := m.t5h);
    if m.weeklyDepleted then
      item.(priority := DEPLETED_PRIORITY, disabled := true, state := WeeklyDepleted, reason := FreshWeeklyDepleted)
    else if m.shortDepleted then
      item.(priority := DEPLETED_PRIORITY, disabled := false, state := ShortDepleted, reason := FreshShortDepleted)
    else item.(disabled := false, state := Healthy, reason := if m.boosted then FreshBoosted else FreshRemaining)
  }

  function ItemFor(c: Credential, eligible: seq<Quota>, past: seq<Quota>, o: Options): Item {
    if c.disabled && o.ignoreDisabled then Untouched(c).(reason := DisabledOnHost)
    else if LastFor(eligible, c.authIndex).Some? then Informed(c, LastFor(eligible, c.authIndex).value, true, o.now)
    else if LastFor(past, c.authIndex).Some? then Informed(c, LastFor(past, c.authIndex).value, false, o.now)
    else Untouched(c)
  }

  method PlanItems(cs: seq<Credential>, eligible: seq<Quota>, past: seq<Quota>, o: Options) returns (items: array<Item>)
    ensures fresh(items)
    ensures items.Length == |cs| && forall i :: 0 <= i < |cs| ==> items[i] == ItemFor(cs[i], eligible, past, o)
  {
    var freshMap := ByAuthIndex(eligible);
    var pastMap := ByAuthIndex(past);
    items := new Item[|cs|](_ => Untouched(Credential("", 0, false, false)));
    for i := 0 to |cs|
      invariant forall k :: 0 <= k < i ==> items[k] == ItemFor(cs[k], eligible, past, o)
    {
      var c := cs[i];
      if c.disabled && o.ignoreDisabled {
        items[i] := Untouched(c).(reason := DisabledOnHost);
      } else if c.authIndex in freshMap {
        items[i] := Informed(c, freshMap[c.authIndex], true, o.now);
      } else if c.authIndex in pastMap {
        items[i] := Informed(c, pastMap[c.authIndex], false, o.now);
      } else {
        items[i] := Untouched(c);
      }
    }
  }

  // ------------------------------------------------------- ranking the healthy

  predicate TextBefore(a: string, b: string) {
    b != [] && (a == [] || a[0] < b[0] || (a[0] == b[0] && TextBefore(a[1..], b[1..])))
  }

  /** The more urgent first, then the earlier five-hour reset, then the auth index. */
  predicate RanksBefore(a: Item, b: Item) {
    if Distance(a.urgency, b.urgency) > EPSILON then a.urgency > b.urgency
    else if Distance(a.t5h, b.t5h) > EPSILON then a.t5h < b.t5h
    else TextBefore(a.credential.authIndex, b.credential.authIndex)
  }

  predicate Cooling(item: Item, o: Options) {
    item.credential.authIndex in o.cooldowns && o.now < o.cooldowns[item.credential.authIndex]
  }

  predicate Competes(item: Item) {
    !item.disabled && item.hasEvidence && item.state == Healthy
  }

  /** Members of the boosted or the regular group. */
  predicate Ranked(item: Item, o: Options, boosted: bool) {
    Competes(item) && !Cooling(item, o) && item.boosted == boosted
  }

  function Positions(items: seq<Item>, o: Options, boosted: bool, n: nat): seq<nat>
    requires n <= |items|
  {
    if n == 0 then []
    else Positions(items, o, boosted, n - 1) + if Ranked(items[n - 1], o, boosted) then [n - 1] else []
  }

  function PositionLess(items: seq<Item>): (nat, nat) -> bool {
    (a: nat, b: nat) => a < |items| && b < |items| && RanksBefore(items[a], items[b])
  }

  /** The positions of a group in ranking order. */
  function Ranking(items: seq<Item>, o: Options, boosted: bool): seq<nat> {
    Sorting.Sorted(Positions(items, o, boosted, |items|), PositionLess(items))
  }

  predicate DistinctBelow(ps: seq<nat>, n: nat) {
    && (forall k :: 0 <= k < |ps| ==> ps[k] < n)
    && (forall j, k :: 0 <= j < k < |ps| ==> ps[j] != ps[k])
  }

  lemma {:induction false} PositionsOfRanked(items: seq<Item>, o: Options, boosted: bool, n: nat)
    requires n <= |items|
    ensures DistinctBelow(Positions(items, o, boosted, n), n)
    ensures forall i: nat :: i in Positions(items, o, boosted, n) <==> i < n && Ranked(items[i], o, boosted)
  {
    hide Ranked, DistinctBelow;
    if n == 0 {
      DistinctMore([], 0);
    } else {
      PositionsOfRanked(items, o, boosted, n - 1);
      DistinctMore(Positions(items, o, boosted, n - 1), n - 1);
    }
  }

  lemma DistinctMore(ps: seq<nat>, n: nat)
    requires ps == [] || DistinctBelow(ps, n)
    ensures DistinctBelow([], 0) && DistinctBelow(ps + [n], n + 1) && DistinctBelow(ps + [], n + 1)
    ensures forall i: nat :: (i in ps + [n] <==> i in ps || i == n) && (i in ps + [] <==> i in ps)
  {
  }

  lemma {:induction false} DistinctCounts(ps: seq<nat>, n: nat)
    requires DistinctBelow(ps, n)
    ensures forall x: nat :: multiset(ps)[x] <= 1
  {
    if ps != [] {
      var front, last := ps[..|ps| - 1], ps[|ps| - 1];
      assert ps == front + [last];
      DistinctCounts(front, n);
      assert last !in multiset(front);
      assert multiset(ps) == multiset(front) + multiset{last};
    }
  }

  lemma OnceIsDistinct(ps: seq<nat>, n: nat)
    requires forall k :: 0 <= k < |ps| ==> ps[k] < n
    requires forall x: nat :: multiset(ps)[x] <= 1
    ensures DistinctBelow(ps, n)
  {
    forall j, k | 0 <= j < k < |ps| ensures ps[j] != ps[k] {
      assert ps == ps[..k] + ps[k..];
      assert multiset(ps) == multiset(ps[..k]) + multiset(ps[k..]);
      assert ps[j] == ps[..k][j] && ps[k] == ps[k..][0];
      assert ps[j] in multiset(ps[..k]) && ps[k] in multiset(ps[k..]);
      assert multiset(ps)[ps[j]] <= 1;
    }
  }

  lemma RankingOfRanked(items: seq<Item>, o: Options, boosted: bool)
    ensures var order := Ranking(items, o, boosted);
            && DistinctBelow(order, |items|)
            && forall i: nat :: i in order <==> i < |items| && Ranked(items[i], o, boosted)
  {
    hide Ranked;
    var ps, order := Positions(items, o, boosted, |items|), Ranking(items, o, boosted);
    PositionsOfRanked(items, o, boosted, |items|);
    DistinctCounts(ps, |items|);
    Sorting.SortedElements(ps, PositionLess(items));
    Sorting.SameElements(order, ps);
    forall k | 0 <= k < |order| ensures order[k] < |items| {
      assert order[k] in ps;
    }
    OnceIsDistinct(order, |items|);
  }

  function UrgenciesAt(items: seq<Item>, order: seq<nat>): seq<real>
    requires forall k :: 0 <= k < |order| ==> order[k] < |items|
  {
    seq(|order|, k requires 0 <= k < |order| => items[order[k]].urgency)
  }

  // --------------------------------------------------------- priorities in place

  function TierPriority(start: int, tier: nat): int {
    if start - tier < MIN_PRIORITY then MIN_PRIORITY else start - tier
  }

  function GroupStart(o: Options, boosted: bool): int {
    if boosted then o.boostStart else o.normalStart
  }

  function GroupReason(boosted: bool): Reason {
    if boosted then FreshBoosted else FreshRemaining
  }

  function Cooled(item: Item): Item {
    item.(priority := DEPLETED_PRIORITY, disabled := false, reason := Cooldown429)
  }

  /** What the k-th member of a ranking becomes. */
  function Placed(before: seq<Item>, order: seq<nat>, start: int, tolerance: real, reason: Reason, k: nat): Item
    requires DistinctBelow(order, |before|) && k < |order|
  {
    before[order[k]].(priority := TierPriority(start, PlaceOf(UrgenciesAt(before, order), tolerance, k).tier),
                      disabled := false, reason := reason)
  }

  predicate Tiered(before: seq<Item>, after: seq<Item>, order: seq<nat>, start: int, tolerance: real, reason: Reason)
    requires |after| == |before|
  {
    && DistinctBelow(order, |before|)
    && forall k :: 0 <= k < |order| ==> after[order[k]] == Placed(before, order, start, tolerance, reason, k)
  }

  /** The whole effect of ranking: cooling items fall back, each group takes its tiers, the rest stay. */
  predicate Planned(before: seq<Item>, after: seq<Item>, o: Options) {
    && |after| == |before|
    && (forall i :: 0 <= i < |before| && !Competes(before[i]) ==> after[i] == before[i])
    && (forall i :: 0 <= i < |before| && Competes(before[i]) && Cooling(before[i], o) ==> after[i] == Cooled(before[i]))
    && (forall b :: Tiered(before, after, Ranking(before, o, b), GroupStart(o, b), o.tolerance, GroupReason(b)))
  }

  /** The anchor and the priority in force at a position of the ranking. */
  function Running(before: seq<Item>, order: seq<nat>, start: int, tolerance: real, k: nat): (real, int)
    requires DistinctBelow(order, |before|) && k < |order|
  {
    var p := PlaceOf(UrgenciesAt(before, order), tolerance, k);
    (p.anchor, TierPriority(start, p.tier))
  }

  lemma RunningNext(before: seq<Item>, order: seq<nat>, start: int, tolerance: real, reason: Reason, k: nat)
    requires start >= MIN_PRIORITY && DistinctBelow(order, |before|) && k < |order|
    ensures var item := before[order[k]];
            var (anchor, current) := Running(before, order, start, tolerance, if k == 0 then 0 else k - 1);
            && Running(before, order, start, tolerance, k)
               == (if k > 0 && Distance(anchor, item.urgency) > tolerance
                   then (item.urgency, if current - 1 < MIN_PRIORITY then MIN_PRIORITY else current - 1)
                   else (anchor, current))
            && Placed(before, order, start, tolerance, reason, k)
               == item.(priority := Running(before, order, start, tolerance, k).1, disabled := false, reason := reason)
  {
  }

  /** A new tier, one priority lower, when the urgency is out of tolerance of the anchor. */
  method NextTier(anchor: real, current: int, urgency: real, tolerance: real) returns (nextAnchor: real, next: int)
    requires current >= MIN_PRIORITY
    ensures Distance(anchor, urgency) <= tolerance ==> (nextAnchor, next) == (anchor, current)
    ensures Distance(anchor, urgency) > tolerance ==>
              nextAnchor == urgency && next == if current > MIN_PRIORITY then current - 1 else MIN_PRIORITY
  {
    nextAnchor, next := anchor, current;
    if Distance(anchor, urgency) > tolerance {
      next := next - 1;
      if next < MIN_PRIORITY {
        next := MIN_PRIORITY;
      }
      nextAnchor := urgency;
    }
  }

  /** The items once the first k members of a ranking have their tiers. */
  function Partly(before: seq<Item>, order: seq<nat>, start: int, tolerance: real, reason: Reason, k: nat): (items: seq<Item>)
    requires DistinctBelow(order, |before|) && k <= |order|
    ensures |items| == |before|
  {
    if k == 0 then before
    else Partly(before, order, start, tolerance, reason, k - 1)[order[k - 1] := Placed(before, order, start, tolerance, reason, k - 1)]
  }

  lemma {:induction false} PartlyAt(before: seq<Item>, order: seq<nat>, start: int, tolerance: real, reason: Reason, k: nat)
    requires DistinctBelow(order, |before|) && k <= |order|
    ensures var items := Partly(before, order, start, tolerance, reason, k);
            && (forall j :: 0 <= j < k ==> items[order[j]] == Placed(before, order, start, tolerance, reason, j))
            && (forall i: nat :: i < |before| && i !in order[..k] ==> items[i] == before[i])
  {
    hide Placed;
    if k > 0 {
      PartlyAt(before, order, start, tolerance, reason, k - 1);
      assert order[..k] == order[..k - 1] + [order[k - 1]];
    }
  }

  /** Gives one ranked group its tiers: a new one whenever the anchor is out of tolerance. */
  method AssignTiers(items: array<Item>, order: seq<nat>, start: int, tolerance: real, reason: Reason)
    requires start >= MIN_PRIORITY && DistinctBelow(order, items.Length)
    modifies items
    ensures Tiered(old(items[..]), items[..], order, start, tolerance, reason)
    ensures forall i: nat :: i < items.Length && i !in order ==> items[i] == old(items[i])
  {
    if |order| == 0 {
      return;
    }
    ghost var before := items[..];
    var current := start;
    var anchor := items[order[0]].urgency;
    RunningNext(before, order, start, tolerance, reason, 0);
    assert (anchor, current) == Running(before, order, start, tolerance, 0);
    hide Running, Placed, PlaceOf, UrgenciesAt, TierPriority, Distance;
    for k := 0 to |order|
      invariant (anchor, current) == Running(before, order, start, tolerance, if k == 0 then 0 else k - 1)
      invariant current >= MIN_PRIORITY
      invariant items[..] == Partly(before, order, start, tolerance, reason, k)
    {
      var index := order[k];
      RunningNext(before, order, start, tolerance, reason, k);
      NotYet(before, order, start, tolerance, reason, k);
      assert items[index] == items[..][index];
      if k > 0 {
        anchor, current := NextTier(anchor, current, items[index].urgency, tolerance);
      }
      items[index] := items[index].(priority := current, disabled := false, reason := reason);
    }
    PartlyAt(before, order, start, tolerance, reason, |order|);
    assert order[..|order|] == order;
    assert forall i: nat :: i < items.Length ==> items[i] == items[..][i];
  }

  lemma NotYet(before: seq<Item>, order: seq<nat>, start: int, tolerance: real, reason: Reason, k: nat)
    requires DistinctBelow(order, |before|) && k < |order|
    ensures Partly(before, order, start, tolerance, reason, k)[order[k]] == before[order[k]]
  {
    PartlyAt(before, order, start, tolerance, reason, k);
    hide Partly, Placed;
    assert order[k] !in order[..k];
  }

  /** Nothing the ranking looks at differs. */
  predicate SameKeys(a: seq<Item>, b: seq<Item>) {
    |a| == |b| && forall i :: 0 <= i < |a| ==>
      a[i].urgency == b[i].urgency && a[i].t5h == b[i].t5h && a[i].credential == b[i].credential
  }

  lemma SameRanking(a: seq<Item>, b: seq<Item>, ps: seq<nat>)
    requires SameKeys(a, b)
    ensures Sorting.Sorted(ps, PositionLess(a)) == Sorting.Sorted(ps, PositionLess(b))
  {
    Sorting.SortedAlike(ps, PositionLess(a), PositionLess(b));
  }

  lemma TieredKeepsKeys(before: seq<Item>, after: seq<Item>, order: seq<nat>, start: int, tolerance: real, reason: Reason)
    requires |after| == |before| && Tiered(before, after, order, start, tolerance, reason)
    requires forall i: nat :: i < |before| && i !in order ==> after[i] == before[i]
    ensures SameKeys(before, after)
  {
    forall i: nat | i < |before|
      ensures after[i].urgency == before[i].urgency && after[i].t5h == before[i].t5h
              && after[i].credential == before[i].credential
    {
      if i in order {
        var k :| 0 <= k < |order| && order[k] == i;
        assert after[order[k]] == Placed(before, order, start, tolerance, reason, k);
      }
    }
  }

  lemma TieredStays(before: seq<Item>, middle: seq<Item>, after: seq<Item>, order: seq<nat>,
                    start: int, tolerance: real, reason: Reason)
    requires |before| == |middle| == |after| && Tiered(before, middle, order, start, tolerance, reason)
    requires forall k :: 0 <= k < |order| ==> order[k] < |before| && after[order[k]] == middle[order[k]]
    ensures Tiered(before, after, order, start, tolerance, reason)
  {
  }

  /** The tiers depend on the keys and on the members only. */
  lemma TieredFrom(before: seq<Item>, middle: seq<Item>, after: seq<Item>, order: seq<nat>,
                   start: int, tolerance: real, reason: Reason)
    requires SameKeys(before, middle) && |after| == |before|
    requires DistinctBelow(order, |before|)
    requires forall k :: 0 <= k < |order| ==> middle[order[k]] == before[order[k]]
    requires Tiered(middle, after, order, start, tolerance, reason)
    ensures Tiered(before, after, order, start, tolerance, reason)
  {
    assert UrgenciesAt(before, order) == UrgenciesAt(middle, order);
  }

  /** Cooling items fall back at once; the others are collected by group, in order. */
  method Separate(items: array<Item>, o: Options) returns (boosted: seq<nat>, regular: seq<nat>)
    modifies items
    ensures boosted == Positions(old(items[..]), o, true, items.Length)
    ensures regular == Positions(old(items[..]), o, false, items.Length)
    ensures forall i :: 0 <= i < items.Length ==> items[i] == SetAside(old(items[i]), o)
  {
    ghost var before := items[..];
    boosted, regular := [], [];
    for i := 0 to items.Length
      invariant boosted == Positions(before, o, true, i) && regular == Positions(before, o, false, i)
      invariant forall k :: i <= k < items.Length ==> items[k] == before[k]
      invariant forall k :: 0 <= k < i ==> items[k] == SetAside(before[k], o)
    {
      var item := items[i];
      if Competes(item) {
        if Cooling(item, o) {
          items[i] := Cooled(item);
        } else if item.boosted {
          boosted := boosted + [i];
        } else {
          regular := regular + [i];
        }
      }
    }
  }

  function SetAside(item: Item, o: Options): Item {
    if Competes(item) && Cooling(item, o) then Cooled(item) else item
  }

  predicate OthersKept(before: seq<Item>, after: seq<Item>, order: seq<nat>) {
    |after| == |before| && forall i: nat :: i < |before| && i !in order ==> after[i] == before[i]
  }

  predicate Separated(before: seq<Item>, after: seq<Item>, o: Options) {
    |after| == |before| && forall i :: 0 <= i < |before| ==> after[i] == SetAside(before[i], o)
  }

  /** Once the boosted group has its tiers, only the regular group is left to rank. */
  lemma AfterBoosted(before: seq<Item>, cooled: seq<Item>, halfway: seq<Item>, o: Options)
    requires Separated(before, cooled, o)
    requires var order := Ranking(before, o, true);
             OthersKept(cooled, halfway, order) && Tiered(cooled, halfway, order, o.boostStart, o.tolerance, FreshBoosted)
    ensures SameKeys(before, halfway)
    ensures var order := Ranking(before, o, true);
            && Tiered(before, halfway, order, o.boostStart, o.tolerance, FreshBoosted)
            && forall i: nat :: i < |before| && i !in order ==> halfway[i] == SetAside(before[i], o)
  {
    var order := Ranking(before, o, true);
    RankingOfRanked(before, o, true);
    hide Ranking;
    forall k | 0 <= k < |order| ensures cooled[order[k]] == before[order[k]] {
      assert order[k] in order;
    }
    TieredFrom(before, cooled, halfway, order, o.boostStart, o.tolerance, FreshBoosted);
    TieredKeepsKeys(cooled, halfway, order, o.boostStart, o.tolerance, FreshBoosted);
  }

  lemma AfterRegular(before: seq<Item>, halfway: seq<Item>, after: seq<Item>, o: Options)
    requires SameKeys(before, halfway)
    requires var order := Ranking(before, o, true);
             && Tiered(before, halfway, order, o.boostStart, o.tolerance, FreshBoosted)
             && forall i: nat :: i < |before| && i !in order ==> halfway[i] == SetAside(before[i], o)
    requires var order := Ranking(before, o, false);
             OthersKept(halfway, after, order) && Tiered(halfway, after, order, o.normalStart, o.tolerance, FreshRemaining)
    ensures Planned(before, after, o)
  {
    var first, second := Ranking(before, o, true), Ranking(before, o, false);
    RankingOfRanked(before, o, true);
    RankingOfRanked(before, o, false);
    hide Ranking;
    forall k | 0 <= k < |second| ensures halfway[second[k]] == before[second[k]] {
      assert second[k] in second;
    }
    TieredFrom(before, halfway, after, second, o.normalStart, o.tolerance, FreshRemaining);
    forall k | 0 <= k < |first| ensures after[first[k]] == halfway[first[k]] {
      assert first[k] in first;
    }
    TieredStays(before, halfway, after, first, o.boostStart, o.tolerance, FreshBoosted);
  }

  method PlanPositive(items: array<Item>, o: Options)
    requires IsNormal(o)
    modifies items
    ensures Planned(old(items[..]), items[..], o)
  {
    ghost var before := items[..];
    var boosted, regular := Separate(items, o);
    ghost var cooled := items[..];
    RankingOfRanked(before, o, true);
    RankingOfRanked(before, o, false);
    assert SameKeys(before, cooled);
    SameRanking(before, cooled, boosted);
    var first := Sorting.Sorted(boosted, PositionLess(items[..]));
    assert first == Ranking(before, o, true);
    assert Separated(before, cooled, o);
    hide Ranking, Positions, Tiered, PositionLess, SameKeys, Separated, SetAside, Planned;
    AssignTiers(items, first, o.boostStart, o.tolerance, FreshBoosted);
    ghost var halfway := items[..];
    AfterBoosted(before, cooled, halfway, o);
    SameRanking(before, halfway, regular);
    var second := Sorting.Sorted(regular, PositionLess(items[..]));
    assert second == Ranking(before, o, false) by { RankingIs(before, o, false); }
    AssignTiers(items, second, o.normalStart, o.tolerance, FreshRemaining);
    AfterRegular(before, halfway, items[..], o);
  }

  lemma RankingIs(items: seq<Item>, o: Options, boosted: bool)
    ensures Ranking(items, o, boosted) == Sorting.Sorted(Positions(items, o, boosted, |items|), PositionLess(items))
  {
  }

  // --------------------------------------------------------- the plan as a whole

  function Marked(item: Item): Item {
    if item.evidenceFresh || !item.hasEvidence || item.reason == DisabledOnHost then item else item.(historical := true)
  }

  method MarkHistorical(items: array<Item>)
    modifies items
    ensures forall i :: 0 <= i < items.Length ==> items[i] == Marked(old(items[i]))
  {
    for i := 0 to items.Length
      invariant forall k :: 0 <= k < i ==> items[k] == Marked(old(items[k]))
      invariant forall k :: i <= k < items.Length ==> items[k] == old(items[k])
    {
      if !items[i].evidenceFresh && items[i].hasEvidence && items[i].reason != DisabledOnHost {
        items[i] := items[i].(historical := true);
      }
    }
  }

  /** Fresh items first, then the higher priority, then the enabled, then the auth index. */
  predicate ItemBefore(a: Item, b: Item) {
    if a.evidenceFresh != b.evidenceFresh then a.evidenceFresh
    else if a.priority != b.priority then a.priority > b.priority
    else if a.disabled != b.disabled then !a.disabled
    else TextBefore(a.credential.authIndex, b.credential.authIndex)
  }

  predicate NeedsChange(item: Item, o: Options) {
    && item.evidenceFresh
    && (item.credential.priorityMissing
        || ((item.priority != item.credential.priority || item.disabled != item.credential.disabled)
            && (item.disabled != item.credential.disabled
                || (if item.priority == DEPLETED_PRIORITY && item.disabled
                    then item.credential.priority != DEPLETED_PRIORITY || !item.credential.disabled
                    else Gap(item.priority, item.credential.priority) >= o.minChange))))
  }

  function Gap(a: int, b: int): nat {
    if a < b then b - a else a - b
  }

  function ChangeOf(item: Item): Change {
    Change(item.credential, item.priority, item.disabled, item.evidenceFresh, item.boosted, item.reason)
  }

  function ChangesOf(items: seq<Item>, o: Options): seq<Change> {
    if items == [] then []
    else
      var n := |items| - 1;
      ChangesOf(items[..n], o) + if NeedsChange(items[n], o) then [ChangeOf(items[n])] else []
  }

  method Changes(items: seq<Item>, o: Options) returns (changes: seq<Change>)
    ensures changes == ChangesOf(items, o)
  {
    changes := [];
    for i := 0 to |items|
      invariant changes == ChangesOf(items[..i], o)
    {
      assert items[..i + 1][..i] == items[..i];
      if NeedsChange(items[i], o) {
        changes := changes + [ChangeOf(items[i])];
      }
    }
    assert items[..|items|] == items;
  }

  function ItemsFor(cs: seq<Credential>, eligible: seq<Quota>, past: seq<Quota>, o: Options): seq<Item> {
    seq(|cs|, i requires 0 <= i < |cs| => ItemFor(cs[i], eligible, past, o))
  }

  function MarkedAll(items: seq<Item>): seq<Item> {
    seq(|items|, i requires 0 <= i < |items| => Marked(items[i]))
  }

  ghost predicate IsPlan(cs: seq<Credential>, eligible: seq<Quota>, past: seq<Quota>, o: Options,
                         items: seq<Item>, changes: seq<Change>) {
    && changes == ChangesOf(items, o)
    && exists ranked: seq<Item> ::
         && Planned(ItemsFor(cs, eligible, past, o), ranked, o)
         && items == Sorting.Sorted(MarkedAll(ranked), ItemBefore)
  }

  method PlanWithEvidence(cs: seq<Credential>, eligible: seq<Quota>, past: seq<Quota>, given: Options)
    returns (items: seq<Item>, changes: seq<Change>)
    requires given.now != 0
    ensures IsPlan(cs, eligible, past, Normal(given), items, changes)
  {
    var o := Normal(given);
    var working := PlanItems(cs, eligible, past, o);
    assert working[..] == ItemsFor(cs, eligible, past, o);
    PlanPositive(working, o);
    ghost var ranked := working[..];
    MarkHistorical(working);
    assert working[..] == MarkedAll(ranked);
    items := Sorting.Sorted(working[..], ItemBefore);
    changes := Changes(items, o);
  }
}
