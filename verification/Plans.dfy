/**
  A whole plan, from credentials and classified evidence to the changes sent to
  the host, and what it guarantees.
 */
module Plans {
  import opened GuardTypes
  import opened QuotaWindows
  import opened Classification
  import opened Tiers
  import opened Planner
  import opened Urgency
  import Sorting

  /** Options within their ranges are used as given, start values otherwise replaced or cut down, and negative gaps ignored. */
  lemma OptionsInRangeStay(o: Options)
    ensures var n := Normal(o);
            && IsNormal(n) && (IsNormal(o) ==> n == o)
            && (o.boostStart <= 0 ==> n.boostStart == 999) && (o.boostStart > 999 ==> n.boostStart == 999)
            && (o.normalStart <= 0 ==> n.normalStart == 100) && (o.normalStart > 999 ==> n.normalStart == 999)
            && (o.minChange < 0 ==> n.minChange == 0)
            && n == o.(boostStart := n.boostStart, normalStart := n.normalStart, minChange := n.minChange)
  {
  }

  // ------------------------------------------------- when urgency rules the order

  /** The comparison places these two against their urgencies. */
  predicate Swapped(a: Item, b: Item) {
    if RanksBefore(a, b) then a.urgency < b.urgency else a.urgency > b.urgency
  }

  /** No two members of the group are swapped. */
  ghost predicate Agreed(items: seq<Item>, o: Options, boosted: bool) {
    forall a, b :: a in items && b in items && Ranked(a, o, boosted) && Ranked(b, o, boosted) ==> !Swapped(a, b)
  }

  /** Urgencies that are equal, or too far apart for the comparison to call them equal, are never swapped. */
  lemma ApartIsAgreed(items: seq<Item>, o: Options, boosted: bool)
    requires forall a, b :: a in items && b in items && Ranked(a, o, boosted) && Ranked(b, o, boosted) ==>
               a.urgency == b.urgency || Distance(a.urgency, b.urgency) > EPSILON
    ensures Agreed(items, o, boosted)
  {
    forall a, b | a in items && b in items && Ranked(a, o, boosted) && Ranked(b, o, boosted)
      ensures !Swapped(a, b)
    {
      assert a.urgency == b.urgency || Distance(a.urgency, b.urgency) > EPSILON;
    }
  }

  function UrgencyAt(items: seq<Item>, i: nat): real {
    if i < |items| then items[i].urgency else 0.0
  }

  lemma RankingFalls(items: seq<Item>, o: Options, boosted: bool)
    requires Agreed(items, o, boosted)
    ensures var order := Ranking(items, o, boosted);
            && (forall k :: 0 <= k < |order| ==> order[k] < |items|)
            && Falling(UrgenciesAt(items, order))
  {
    var ps, order := Positions(items, o, boosted, |items|), Ranking(items, o, boosted);
    var le := (a: nat, b: nat) => UrgencyAt(items, a) >= UrgencyAt(items, b);
    PositionsOfRanked(items, o, boosted, |items|);
    RankingOfRanked(items, o, boosted);
    forall a, b | a in ps && b in ps
      ensures if PositionLess(items)(a, b) then le(a, b) else le(b, a)
    {
      assert items[a] in items && items[b] in items;
      assert !Swapped(items[a], items[b]);
    }
    Sorting.SortedOrdered(ps, PositionLess(items), le);
    var us := UrgenciesAt(items, order);
    forall i, j | 0 <= i < j < |us| ensures us[i] >= us[j] {
      assert le(order[i], order[j]);
    }
  }

  ghost predicate FromPool(items: seq<Item>, pool: set<Item>) {
    forall x :: x in items ==> x in pool
  }

  ghost predicate FallsHoweverArranged(pool: set<Item>, o: Options, boosted: bool) {
    forall items: seq<Item> :: FromPool(items, pool) ==>
      var order := Ranking(items, o, boosted);
      && (forall k :: 0 <= k < |order| ==> order[k] < |items|)
      && Falling(UrgenciesAt(items, order))
  }

  lemma RankingOfTwo(a: Item, b: Item, o: Options, boosted: bool)
    requires Ranked(a, o, boosted) && Ranked(b, o, boosted)
    ensures Ranking([a, b], o, boosted) == if RanksBefore(b, a) then [1, 0] else [0, 1]
  {
    var items := [a, b];
    assert Positions(items, o, boosted, 0) == [];
    assert Positions(items, o, boosted, 1) == [0];
    assert Positions(items, o, boosted, 2) == [0, 1];
    hide Positions, Ranked, RanksBefore;
    var first: nat, second: nat := 0, 1;
    Sorting.SortedPair(first, second, PositionLess(items));
  }

  /** Whatever the credentials' order, urgencies fall along the ranking exactly when no two are swapped. */
  lemma RankingFallsWhen(pool: set<Item>, o: Options, boosted: bool)
    requires forall x :: x in pool ==> Ranked(x, o, boosted)
    ensures FallsHoweverArranged(pool, o, boosted) <==> forall a, b :: a in pool && b in pool ==> !Swapped(a, b)
  {
    if forall a, b :: a in pool && b in pool ==> !Swapped(a, b) {
      forall items: seq<Item> | FromPool(items, pool)
        ensures var order := Ranking(items, o, boosted);
                && (forall k :: 0 <= k < |order| ==> order[k] < |items|)
                && Falling(UrgenciesAt(items, order))
      {
        RankingFalls(items, o, boosted);
      }
    } else {
      var a, b :| a in pool && b in pool && Swapped(a, b);
      var items := [b, a];
      RankingOfTwo(b, a, o, boosted);
      assert FromPool(items, pool);
      var order := Ranking(items, o, boosted);
      var us := UrgenciesAt(items, order);
      assert us[0] < us[1];
    }
  }

  /** Quota evidence with nothing used, by its weekly and five-hour resets. */
  function Untapped(authIndex: string, weeklyReset: Time, shortReset: Time): Quota {
    Quota(true, authIndex, Gemini, 1, Some(shortReset), Some(100), Some(shortReset), Some(100), Some(weeklyReset), Some(100), 0.0)
  }

  lemma UntappedMetrics(authIndex: string, weeklyReset: Time, shortReset: Time)
    requires weeklyReset - 1 >= 50 * HOUR && 1 < shortReset <= 1 + 5 * HOUR
    ensures var m := MetricsOf(Untapped(authIndex, weeklyReset, shortReset), 1);
            && !m.weeklyDepleted && !m.shortDepleted && !m.boosted
            && m.t5h == (shortReset - 1) as real / HOUR as real
            && m.urgency == 0.40 * (1.0 / ((weeklyReset - 1) as real / HOUR as real) * 168.0) + 0.30 + 0.20
                            + 0.10 * (1.0 - m.t5h / 5.0)
  {
  }

  /**
    Evidence that ranks a hair's breadth upside down: the first credential's
    weekly quota expires 270 microseconds sooner, which makes it the more
    urgent, but its five-hour window resets 36 microseconds later.
   */
  lemma HairsBreadthInverts(o: Options)
    requires o.cooldowns == map[] && o.now == 1
    ensures var eager := Informed(Credential("a", 0, false, false),
                                  Untapped("a", 1 + 100 * HOUR, 1 + HOUR + 36_000), true, 1);
            var early := Informed(Credential("b", 0, false, false),
                                  Untapped("b", 1 + 100 * HOUR + 270_000, 1 + HOUR), true, 1);
            && Ranked(eager, o, false) && Ranked(early, o, false)
            && eager.urgency > early.urgency
            && !Agreed([eager, early], o, false)
            && Ranking([eager, early], o, false) == [1, 0]
  {
    var eager := Informed(Credential("a", 0, false, false), Untapped("a", 1 + 100 * HOUR, 1 + HOUR + 36_000), true, 1);
    var early := Informed(Credential("b", 0, false, false), Untapped("b", 1 + 100 * HOUR + 270_000, 1 + HOUR), true, 1);
    HairsBreadthRanks();
    hide Informed, RanksBefore, Ranking;
    RankingOfTwo(eager, early, o, false);
    assert eager in [eager, early] && early in [eager, early];
    assert Swapped(eager, early);
  }

  lemma HairsBreadthRanks()
    ensures var eager := Informed(Credential("a", 0, false, false),
                                  Untapped("a", 1 + 100 * HOUR, 1 + HOUR + 36_000), true, 1);
            var early := Informed(Credential("b", 0, false, false),
                                  Untapped("b", 1 + 100 * HOUR + 270_000, 1 + HOUR), true, 1);
            && Competes(eager) && !eager.boosted && Competes(early) && !early.boosted
            && eager.urgency > early.urgency && !RanksBefore(eager, early) && RanksBefore(early, eager)
  {
    UntappedMetrics("a", 1 + 100 * HOUR, 1 + HOUR + 36_000);
    UntappedMetrics("b", 1 + 100 * HOUR + 270_000, 1 + HOUR);
    hide MetricsOf, Untapped, TextBefore;
  }

  // ------------------------------------------------------------------ priorities

  lemma {:induction false} NearOwnAnchor(us: seq<real>, tolerance: real, i: nat)
    requires i < |us| && tolerance >= 0.0
    ensures Distance(PlaceOf(us, tolerance, i).anchor, us[i]) <= tolerance
  {
  }

  lemma {:induction false} SameUrgencySameTier(us: seq<real>, tolerance: real, i: nat, j: nat)
    requires Falling(us) && i <= j < |us| && us[i] == us[j] && tolerance >= 0.0
    ensures PlaceOf(us, tolerance, i) == PlaceOf(us, tolerance, j)
    decreases j
  {
    if i < j {
      assert us[i] >= us[j - 1] >= us[j];
      SameUrgencySameTier(us, tolerance, i, j - 1);
      NearOwnAnchor(us, tolerance, j - 1);
    }
  }

  /** Where a member of a group stands in its ranking, and what it becomes. */
  lemma Standing(before: seq<Item>, after: seq<Item>, o: Options, boosted: bool, i: nat) returns (k: nat)
    requires Planned(before, after, o) && i < |before| && Ranked(before[i], o, boosted)
    ensures var order := Ranking(before, o, boosted);
            && DistinctBelow(order, |before|)
            && k < |order| && order[k] == i
            && after[i] == Placed(before, order, GroupStart(o, boosted), o.tolerance, GroupReason(boosted), k)
  {
    var order := Ranking(before, o, boosted);
    RankingOfRanked(before, o, boosted);
    assert i in order;
    k :| 0 <= k < |order| && order[k] == i;
    assert Tiered(before, after, order, GroupStart(o, boosted), o.tolerance, GroupReason(boosted));
  }

  /**
    Within a group: priorities lie between the minimum and the start value and
    never rise as urgency falls; equal urgencies share a priority; two
    credentials that share one above the minimum are within the tolerance.
   */
  lemma PrioritiesFollowUrgency(before: seq<Item>, after: seq<Item>, o: Options, boosted: bool, i: nat, j: nat)
    requires IsNormal(o) && Planned(before, after, o) && Agreed(before, o, boosted)
    requires i < |before| && Ranked(before[i], o, boosted)
    requires j < |before| && Ranked(before[j], o, boosted)
    ensures MIN_PRIORITY <= after[i].priority <= GroupStart(o, boosted)
    ensures before[i].urgency > before[j].urgency ==> after[i].priority >= after[j].priority
    ensures i != j && after[i].priority == after[j].priority > MIN_PRIORITY ==>
              Distance(before[i].urgency, before[j].urgency) <= o.tolerance
    ensures o.tolerance >= 0.0 && before[i].urgency == before[j].urgency ==> after[i].priority == after[j].priority
  {
    var order := Ranking(before, o, boosted);
    var us := UrgenciesAt(before, order);
    var a := Standing(before, after, o, boosted, i);
    var b := Standing(before, after, o, boosted, j);
    RankingFalls(before, o, boosted);
    hide Ranking, Planned, Agreed;
    assert us[a] == before[i].urgency && us[b] == before[j].urgency;
    if a < b {
      TiersGrow(us, o.tolerance, a, b);
    } else {
      TiersGrow(us, o.tolerance, b, a);
    }
    if PlaceOf(us, o.tolerance, a).tier == PlaceOf(us, o.tolerance, b).tier {
      if a < b {
        TierWithinTolerance(us, o.tolerance, a, b);
      } else if b < a {
        TierWithinTolerance(us, o.tolerance, b, a);
      }
    }
    if o.tolerance >= 0.0 && us[a] == us[b] {
      SameUrgencySameTier(us, o.tolerance, if a < b then a else b, if a < b then b else a);
    }
  }

  lemma {:induction false} TierReached(us: seq<real>, tolerance: real, i: nat, tier: nat) returns (k: nat)
    requires i < |us| && tier <= PlaceOf(us, tolerance, i).tier
    ensures k <= i && PlaceOf(us, tolerance, k).tier == tier
  {
    k := i;
    if PlaceOf(us, tolerance, i).tier != tier {
      k := TierReached(us, tolerance, i - 1, tier);
    }
  }

  /** Where a priority is given, so is every one above it, up to the start value of the group. */
  lemma PrioritiesLeaveNoGap(before: seq<Item>, after: seq<Item>, o: Options, boosted: bool, i: nat, p: int) returns (j: nat)
    requires IsNormal(o) && Planned(before, after, o) && i < |before| && Ranked(before[i], o, boosted)
    requires after[i].priority <= p <= if boosted then o.boostStart else o.normalStart
    ensures j < |before| && Ranked(before[j], o, boosted) && after[j].priority == p
  {
    var start := GroupStart(o, boosted);
    var order := Ranking(before, o, boosted);
    var us := UrgenciesAt(before, order);
    var k := Standing(before, after, o, boosted, i);
    RankingOfRanked(before, o, boosted);
    hide Ranking, Planned, PlaceOf, Ranked;
    var m := TierReached(us, o.tolerance, k, start - p);
    j := order[m];
    assert order[m] in order;
    var m' := Standing(before, after, o, boosted, j);
  }

  function PrioritiesOf(before: seq<Item>, after: seq<Item>, o: Options, boosted: bool): set<int>
    requires |after| == |before|
  {
    set i | 0 <= i < |before| && Ranked(before[i], o, boosted) :: after[i].priority
  }

  function LabelsOf(before: seq<Item>, labels: seq<nat>, o: Options, boosted: bool): set<nat>
    requires |labels| == |before|
  {
    set i | 0 <= i < |before| && Ranked(before[i], o, boosted) :: labels[i]
  }

  predicate SharesWithinTolerance(before: seq<Item>, labels: seq<nat>, o: Options, boosted: bool) {
    && |labels| == |before|
    && forall i, j :: 0 <= i < |before| && 0 <= j < |before| && i != j
                      && Ranked(before[i], o, boosted) && Ranked(before[j], o, boosted) && labels[i] == labels[j] ==>
         Distance(before[i].urgency, before[j].urgency) <= o.tolerance
  }

  /** No way of sharing priorities within the tolerance distinguishes fewer levels than the planner does. */
  lemma FewestPriorities(before: seq<Item>, after: seq<Item>, o: Options, boosted: bool, labels: seq<nat>)
    requires Planned(before, after, o) && Agreed(before, o, boosted)
    requires SharesWithinTolerance(before, labels, o, boosted)
    ensures |PrioritiesOf(before, after, o, boosted)| <= |LabelsOf(before, labels, o, boosted)|
  {
    var order := Ranking(before, o, boosted);
    RankingOfRanked(before, o, boosted);
    RankingFalls(before, o, boosted);
    var us := UrgenciesAt(before, order);
    LabelsAlong(before, o, boosted, labels);
    PrioritiesFromTiers(before, after, o, boosted);
    hide Planned, Agreed, Ranking, Ranked, SharesWithinTolerance, Falling, Grouping, Labels, TiersOf, LabelsOf, PrioritiesOf;
    var along := Along(labels, order);
    GreedyIsFewest(us, o.tolerance, along);
    SubsetSize(Labels(along), LabelsOf(before, labels, o, boosted));
  }

  /** A labelling of the items, read along their ranking. */
  function Along(labels: seq<nat>, order: seq<nat>): seq<nat>
    requires forall k :: 0 <= k < |order| ==> order[k] < |labels|
  {
    seq(|order|, k requires 0 <= k < |order| => labels[order[k]])
  }

  lemma LabelsAlong(before: seq<Item>, o: Options, boosted: bool, labels: seq<nat>)
    requires SharesWithinTolerance(before, labels, o, boosted)
    ensures var order := Ranking(before, o, boosted);
            && DistinctBelow(order, |before|) && |labels| == |before|
            && Grouping(UrgenciesAt(before, order), o.tolerance, Along(labels, order))
            && Labels(Along(labels, order)) <= LabelsOf(before, labels, o, boosted)
  {
    var order := Ranking(before, o, boosted);
    RankingOfRanked(before, o, boosted);
    hide Ranking, Ranked;
    forall k | 0 <= k < |order| ensures order[k] < |before| && Ranked(before[order[k]], o, boosted) {
      assert order[k] in order;
    }
  }

  /** The priorities of a group are the images of its tiers. */
  lemma PrioritiesFromTiers(before: seq<Item>, after: seq<Item>, o: Options, boosted: bool)
    requires Planned(before, after, o)
    ensures var order := Ranking(before, o, boosted);
            && DistinctBelow(order, |before|)
            && |PrioritiesOf(before, after, o, boosted)| <= |Labels(TiersOf(UrgenciesAt(before, order), o.tolerance))|
  {
    var order := Ranking(before, o, boosted);
    RankingOfRanked(before, o, boosted);
    var us := UrgenciesAt(before, order);
    var priority := (t: nat) => TierPriority(GroupStart(o, boosted), t);
    hide Ranking, Planned, Ranked, PlaceOf;
    forall p | p in PrioritiesOf(before, after, o, boosted)
      ensures exists t :: t in Labels(TiersOf(us, o.tolerance)) && p == priority(t)
    {
      var i: nat :| i < |before| && Ranked(before[i], o, boosted) && after[i].priority == p;
      var k := Standing(before, after, o, boosted, i);
      assert TiersOf(us, o.tolerance)[k] in Labels(TiersOf(us, o.tolerance));
    }
    Sorting.ImageSize(Labels(TiersOf(us, o.tolerance)), PrioritiesOf(before, after, o, boosted), priority);
  }

  // -------------------------------------------------------------- a whole plan

  /** What ranking leaves of an item, whichever way it went. */
  lemma RankedCases(before: seq<Item>, after: seq<Item>, o: Options, i: nat)
    requires IsNormal(o) && Planned(before, after, o) && i < |before|
    ensures var b, a := before[i], after[i];
            && a.credential == b.credential && a.evidenceFresh == b.evidenceFresh && a.hasEvidence == b.hasEvidence
            && a.boosted == b.boosted && a.historical == b.historical
            && (!Competes(b) ==> a == b)
            && (Competes(b) && Cooling(b, o) ==> a.priority == DEPLETED_PRIORITY && !a.disabled && a.reason == Cooldown429)
            && (Competes(b) && !Cooling(b, o) ==>
                  MIN_PRIORITY <= a.priority <= GroupStart(o, b.boosted) && !a.disabled && a.reason == GroupReason(b.boosted))
  {
    if Competes(before[i]) && !Cooling(before[i], o) {
      var k := Standing(before, after, o, before[i].boosted, i);
    }
  }

  function CredentialsOf(items: seq<Item>): seq<Credential> {
    seq(|items|, i requires 0 <= i < |items| => items[i].credential)
  }

  lemma {:induction false} InsertedCredentials(s: seq<Item>, x: Item)
    ensures multiset(CredentialsOf(Sorting.Inserted(s, x, ItemBefore))) == multiset(CredentialsOf(s)) + multiset{x.credential}
  {
    if s == [] || !ItemBefore(x, s[|s| - 1]) {
      assert CredentialsOf(s + [x]) == CredentialsOf(s) + [x.credential];
    } else {
      var front, last := s[..|s| - 1], s[|s| - 1];
      InsertedCredentials(front, x);
      var rest := Sorting.Inserted(front, x, ItemBefore);
      assert CredentialsOf(rest + [last]) == CredentialsOf(rest) + [last.credential];
      assert CredentialsOf(s) == CredentialsOf(front) + [last.credential];
    }
  }

  lemma {:induction false} SortedCredentials(s: seq<Item>)
    ensures multiset(CredentialsOf(Sorting.Sorted(s, ItemBefore))) == multiset(CredentialsOf(s))
  {
    if s != [] {
      var front, last := s[..|s| - 1], s[|s| - 1];
      SortedCredentials(front);
      InsertedCredentials(Sorting.Sorted(front, ItemBefore), last);
      assert CredentialsOf(s) == CredentialsOf(front) + [last.credential];
    } else {
      assert Sorting.Sorted(s, ItemBefore) == [];
    }
  }

  /** Fresh before the rest, then by falling priority, then enabled before disabled. */
  predicate InPlanOrder(a: Item, b: Item) {
    && (a.evidenceFresh || !b.evidenceFresh)
    && (a.evidenceFresh == b.evidenceFresh ==> a.priority >= b.priority)
    && (a.evidenceFresh == b.evidenceFresh && a.priority == b.priority ==> !a.disabled || b.disabled)
  }

  /** The plan lists every credential exactly as often as it was given, in the promised order. */
  lemma PlanListsEveryone(cs: seq<Credential>, eligible: seq<Quota>, past: seq<Quota>, o: Options,
                          items: seq<Item>, changes: seq<Change>)
    requires IsNormal(o) && IsPlan(cs, eligible, past, o, items, changes)
    ensures multiset(CredentialsOf(items)) == multiset(cs)
    ensures forall i, j :: 0 <= i < j < |items| ==> InPlanOrder(items[i], items[j])
  {
    var before := ItemsFor(cs, eligible, past, o);
    var ranked: seq<Item> :| Planned(before, ranked, o) && items == Sorting.Sorted(MarkedAll(ranked), ItemBefore);
    assert |ranked| == |cs|;
    hide Planned, ItemFor, ItemBefore, ItemsFor, InPlanOrder, LastFor, MetricsOf, Accounted;
    forall i: nat | i < |cs| ensures ranked[i].credential == cs[i] {
      RankedItem(cs, eligible, past, o, ranked, i);
    }
    assert CredentialsOf(MarkedAll(ranked)) == cs;
    SortedCredentials(MarkedAll(ranked));
    SortedInPlanOrder(MarkedAll(ranked));
  }

  lemma SortedInPlanOrder(s: seq<Item>)
    ensures var items := Sorting.Sorted(s, ItemBefore);
            forall i, j :: 0 <= i < j < |items| ==> InPlanOrder(items[i], items[j])
  {
    var le := (a: Item, b: Item) => InPlanOrder(a, b);
    Sorting.SortedOrdered(s, ItemBefore, le);
    var items := Sorting.Sorted(s, ItemBefore);
    forall i, j | 0 <= i < j < |items| ensures InPlanOrder(items[i], items[j]) {
      assert le(items[i], items[j]);
    }
  }

  /** The credential hit a 429 whose cooldown is still running. */
  predicate Rests(c: Credential, o: Options) {
    c.authIndex in o.cooldowns && o.now < o.cooldowns[c.authIndex]
  }

  /** A target, and a reason for it, that its evidence accounts for. */
  predicate Accounted(item: Item, q: Quota, o: Options) {
    && q.authIndex == item.credential.authIndex
    && item.boosted == Hurried(q, o.now)
    && (item.disabled <==> WeeklyGone(q))
    && (item.priority == -1 <==> WeeklyGone(q) || ShortGone(q) || Rests(item.credential, o))
    && (item.priority != -1 ==> 1 <= item.priority <= if Hurried(q, o.now) then o.boostStart else o.normalStart)
    && item.reason == (if WeeklyGone(q) then FreshWeeklyDepleted
                       else if ShortGone(q) then FreshShortDepleted
                       else if Rests(item.credential, o) then Cooldown429
                       else if Hurried(q, o.now) then FreshBoosted
                       else FreshRemaining)
  }

  /** What is found for an index is the last evidence given for it. */
  lemma {:induction false} LastForIsThere(qs: seq<Quota>, authIndex: string)
    ensures LastFor(qs, authIndex).Some? <==> authIndex != "" && exists q :: q in qs && q.authIndex == authIndex
    ensures LastFor(qs, authIndex).Some? ==>
              exists k :: 0 <= k < |qs| && qs[k] == LastFor(qs, authIndex).value && qs[k].authIndex == authIndex
                          && forall j :: k < j < |qs| ==> qs[j].authIndex != authIndex
  {
    if qs != [] {
      LastForIsThere(qs[..|qs| - 1], authIndex);
      assert qs == qs[..|qs| - 1] + [qs[|qs| - 1]];
      if authIndex != "" && qs[|qs| - 1].authIndex != authIndex && LastFor(qs[..|qs| - 1], authIndex).Some? {
        var front := qs[..|qs| - 1];
        var k :| 0 <= k < |front| && front[k] == LastFor(front, authIndex).value && front[k].authIndex == authIndex
                 && forall j :: k < j < |front| ==> front[j].authIndex != authIndex;
        assert qs[k] == front[k] && forall j :: k < j < |front| ==> qs[j] == front[j];
      }
    }
  }

  /** What a credential's target rests on: its fresh evidence, otherwise its history; nothing if it is disabled and to be ignored. */
  function BasisOf(c: Credential, eligible: seq<Quota>, past: seq<Quota>, o: Options): Option<Quota> {
    if c.disabled && o.ignoreDisabled then None
    else if LastFor(eligible, c.authIndex).Some? then LastFor(eligible, c.authIndex)
    else LastFor(past, c.authIndex)
  }

  /** An item keeps what the host has, or is accounted for by its evidence. */
  predicate Founded(item: Item, eligible: seq<Quota>, past: seq<Quota>, o: Options) {
    && (item.evidenceFresh <==> !(item.credential.disabled && o.ignoreDisabled)
                                && LastFor(eligible, item.credential.authIndex).Some?)
    && match BasisOf(item.credential, eligible, past, o)
       case None =>
         && item.priority == item.credential.priority && item.disabled == item.credential.disabled
         && item.reason == (if item.credential.disabled && o.ignoreDisabled then DisabledOnHost else KeepCurrent)
       case Some(q) => Accounted(item, q, o)
  }

  /** A reason is marked as historical exactly when it rests on history. */
  predicate MarkedRightly(item: Item, eligible: seq<Quota>, past: seq<Quota>, o: Options) {
    item.historical <==> !item.evidenceFresh && BasisOf(item.credential, eligible, past, o).Some?
  }

  lemma InformedItem(c: Credential, q: Quota, current: bool, now: Time)
    ensures var item := Informed(c, q, current, now);
            && item.credential == c && item.evidenceFresh == current && item.hasEvidence && !item.historical
            && item.boosted == Hurried(q, now)
            && (Competes(item) <==> !WeeklyGone(q) && !ShortGone(q))
            && (!Competes(item) ==>
                  && item.priority == DEPLETED_PRIORITY && (item.disabled <==> WeeklyGone(q))
                  && item.reason == if WeeklyGone(q) then FreshWeeklyDepleted else FreshShortDepleted)
  {
    MetricsMean(q, now);
    GoneIsNotHurried(q, now);
    hide MetricsOf, Hurried, WeeklyGone, ShortGone;
  }

  lemma PlannedIsAccounted(c: Credential, q: Quota, current: bool, o: Options, ranked: Item)
    requires IsNormal(o) && q.authIndex == c.authIndex
    requires var item := Informed(c, q, current, o.now);
             && ranked.credential == c && ranked.boosted == item.boosted
             && (!Competes(item) ==> ranked == item)
             && (Competes(item) && Cooling(item, o) ==> ranked.priority == DEPLETED_PRIORITY && !ranked.disabled && ranked.reason == Cooldown429)
             && (Competes(item) && !Cooling(item, o) ==>
                   && MIN_PRIORITY <= ranked.priority <= GroupStart(o, item.boosted) && !ranked.disabled
                   && ranked.reason == GroupReason(item.boosted))
    ensures Accounted(ranked, q, o) && ranked.reason != DisabledOnHost
  {
    InformedItem(c, q, current, o.now);
    GoneIsNotHurried(q, o.now);
    hide Informed, Competes, Hurried, WeeklyGone, ShortGone;
  }

  lemma GoneIsNotHurried(q: Quota, now: Time)
    ensures WeeklyGone(q) || ShortGone(q) ==> !Hurried(q, now)
  {
  }

  lemma RankedItem(cs: seq<Credential>, eligible: seq<Quota>, past: seq<Quota>, o: Options, ranked: seq<Item>, i: nat)
    requires IsNormal(o) && Planned(ItemsFor(cs, eligible, past, o), ranked, o) && i < |cs|
    ensures ranked[i].credential == cs[i] && Founded(ranked[i], eligible, past, o)
    ensures MarkedRightly(Marked(ranked[i]), eligible, past, o)
  {
    var before := ItemsFor(cs, eligible, past, o);
    assert before[i] == ItemFor(cs[i], eligible, past, o);
    RankedCases(before, ranked, o, i);
    LastForIsThere(eligible, cs[i].authIndex);
    LastForIsThere(past, cs[i].authIndex);
    hide LastFor, Informed, Planned, Cooling, Accounted;
    if BasisOf(cs[i], eligible, past, o).Some? {
      var q, current := BasisOf(cs[i], eligible, past, o).value, LastFor(eligible, cs[i].authIndex).Some?;
      InformedItem(cs[i], q, current, o.now);
      PlannedIsAccounted(cs[i], q, current, o, ranked[i]);
    }
  }

  /** Every item of a plan comes from one credential, and rests on its last fresh evidence, on its history, or on nothing new. */
  lemma PlannedItem(cs: seq<Credential>, eligible: seq<Quota>, past: seq<Quota>, o: Options,
                    items: seq<Item>, changes: seq<Change>, item: Item)
    requires IsNormal(o) && IsPlan(cs, eligible, past, o, items, changes) && item in items
    ensures item.credential in cs && Founded(item, eligible, past, o) && MarkedRightly(item, eligible, past, o)
    ensures item.evidenceFresh ==>
              && !(item.credential.disabled && o.ignoreDisabled)
              && LastFor(eligible, item.credential.authIndex).Some?
              && Accounted(item, LastFor(eligible, item.credential.authIndex).value, o)
  {
    var before := ItemsFor(cs, eligible, past, o);
    var ranked: seq<Item> :| Planned(before, ranked, o) && items == Sorting.Sorted(MarkedAll(ranked), ItemBefore);
    assert |ranked| == |cs|;
    hide Planned, ItemBefore, ItemFor, LastFor, ItemsFor, Accounted, IsPlan, MarkedAll, Marked;
    var i := MarkedSource(ranked, item);
    RankedItem(cs, eligible, past, o, ranked, i);
    MarkChangesNothing(ranked[i], o);
  }

  lemma MarkedSource(ranked: seq<Item>, item: Item) returns (i: nat)
    requires item in Sorting.Sorted(MarkedAll(ranked), ItemBefore)
    ensures i < |ranked| && item == Marked(ranked[i])
  {
    hide ItemBefore;
    Sorting.SortedElements(MarkedAll(ranked), ItemBefore);
    Sorting.SameElements(Sorting.Sorted(MarkedAll(ranked), ItemBefore), MarkedAll(ranked));
    assert item in MarkedAll(ranked);
    i :| 0 <= i < |ranked| && item == Marked(ranked[i]);
  }

  lemma MarkChangesNothing(item: Item, o: Options)
    ensures Marked(item).credential == item.credential && Marked(item).evidenceFresh == item.evidenceFresh
    ensures Marked(item).priority == item.priority && Marked(item).disabled == item.disabled && Marked(item).reason == item.reason
    ensures forall q :: Accounted(Marked(item), q, o) == Accounted(item, q, o)
  {
    hide Hurried, WeeklyGone, ShortGone, Rests;
  }

  lemma {:induction false} ChangesAreItems(items: seq<Item>, o: Options)
    ensures forall c :: c in ChangesOf(items, o) <==> exists item :: item in items && NeedsChange(item, o) && c == ChangeOf(item)
  {
    if items != [] {
      var n := |items| - 1;
      ChangesAreItems(items[..n], o);
      assert items == items[..n] + [items[n]];
    }
  }

  /**
    The host's fields for a credential are out of date: its priority is
    missing, it is enabled when the weekly quota is gone or disabled when it
    is not, or its priority is off by enough to matter. A depleted credential
    must be parked exactly.
   */
  predicate Outdated(c: Credential, target: int, weeklyDepleted: bool, minChange: int) {
    || c.priorityMissing
    || c.disabled != weeklyDepleted
    || (c.priority != target && (weeklyDepleted || Gap(target, c.priority) >= minChange))
  }

  /** The change asks for what the item says. */
  predicate Carries(c: Change, item: Item) {
    && c.credential == item.credential && c.priority == item.priority && c.disabled == item.disabled
    && c.evidenceFresh == item.evidenceFresh && c.boosted == item.boosted && c.reason == item.reason
  }

  /** A fresh item is among the changes exactly when the host is out of date about what its evidence asks for. */
  lemma NothingFreshIsForgotten(cs: seq<Credential>, eligible: seq<Quota>, past: seq<Quota>, o: Options,
                                items: seq<Item>, changes: seq<Change>, item: Item)
    requires IsNormal(o) && IsPlan(cs, eligible, past, o, items, changes) && item in items && item.evidenceFresh
    ensures LastFor(eligible, item.credential.authIndex).Some?
    ensures var gone := WeeklyGone(LastFor(eligible, item.credential.authIndex).value);
            (exists c :: c in changes && Carries(c, item)) <==> Outdated(item.credential, item.priority, gone, o.minChange)
  {
    PlannedItem(cs, eligible, past, o, items, changes, item);
    hide LastFor, Hurried, WeeklyGone, ShortGone;
    var gone := WeeklyGone(LastFor(eligible, item.credential.authIndex).value);
    ChangesAreItems(items, o);
    hide IsPlan;
    assert NeedsChange(item, o) <==> Outdated(item.credential, item.priority, gone, o.minChange);
    if other :| other in items && NeedsChange(other, o) && ChangeOf(item) == ChangeOf(other) {
      assert NeedsChange(item, o);
    }
    assert Carries(ChangeOf(item), item);
    forall c | Carries(c, item) ensures c == ChangeOf(item) {
    }
  }

  /** The same evidence, whatever burn rates have been filled in. */
  predicate SameButRate(a: seq<Quota>, b: seq<Quota>) {
    |a| == |b| && forall k :: 0 <= k < |a| ==> a[k] == b[k].(burnRate := a[k].burnRate)
  }

  /**
    With any burn rates filled in after classification: a change is never made
    without a qualifying probe of this round, never to an ignored disabled
    credential, only where the host is out of date, and always to the target
    that this probe, with the filled-in rate, accounts for.
   */
  lemma ChangesNeedProbes(input: Input, eligible: seq<Quota>, cs: seq<Credential>, past: seq<Quota>, o: Options,
                          items: seq<Item>, changes: seq<Change>, c: Change)
    requires SameButRate(eligible, Eligible(input, |input.probes|))
    requires IsNormal(o) && IsPlan(cs, eligible, past, o, items, changes) && c in changes
    ensures c.credential in cs && c.evidenceFresh && !(c.credential.disabled && o.ignoreDisabled)
    ensures LastFor(eligible, c.credential.authIndex).Some?
    ensures var q := LastFor(eligible, c.credential.authIndex).value;
            && q.authIndex == c.credential.authIndex
            && (exists i :: 0 <= i < |input.probes| && Drives(input, input.probes[i])
                            && q == QuotaOf(input.probes[i].result).(burnRate := q.burnRate))
            && Outdated(c.credential, c.priority, WeeklyGone(q), o.minChange)
            && exists item :: item in items && Carries(c, item) && Accounted(item, q, o)
  {
    ChangesAreItems(items, o);
    var item :| item in items && NeedsChange(item, o) && c == ChangeOf(item);
    PlannedItem(cs, eligible, past, o, items, changes, item);
    NothingFreshIsForgotten(cs, eligible, past, o, items, changes, item);
    hide WeeklyGone, LastFor, IsPlan, Eligible, Drives, Outdated, NeedsChange;
    LastForIsThere(eligible, c.credential.authIndex);
    ProbeBehind(input, eligible, LastFor(eligible, c.credential.authIndex).value);
  }

  lemma ProbeBehind(input: Input, eligible: seq<Quota>, q: Quota)
    requires SameButRate(eligible, Eligible(input, |input.probes|)) && q in eligible
    ensures exists i :: 0 <= i < |input.probes| && Drives(input, input.probes[i])
                        && q == QuotaOf(input.probes[i].result).(burnRate := q.burnRate)
  {
    var positions := EligibleIsFilter(input, |input.probes|);
    var k :| 0 <= k < |eligible| && eligible[k] == q;
    assert positions[k] in positions;
  }
}
