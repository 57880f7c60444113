/**
  Between classification and planning the learned burn rates are filled in;
  what that leaves of the classification, and what it means for the plan.
 */
module Enrichment {
  import opened GuardTypes
  import opened QuotaWindows
  import opened Classification
  import opened Planner
  import opened Urgency
  import opened Plans
  import Estimator

  type Rates = map<Key, Estimator.History>

  function WithRate(rates: Rates, q: Quota): Quota {
    q.(burnRate := Estimator.LearnedRate(rates, Key(q.authIndex, q.group)))
  }

  function Enriched(rates: Rates, qs: seq<Quota>): seq<Quota> {
    seq(|qs|, k requires 0 <= k < |qs| => WithRate(rates, qs[k]))
  }

  function EnrichedObservation(rates: Rates, o: Observation): Observation {
    if o.kind == Fresh && o.evidence.Some? then
      o.(evidence := Some(o.evidence.value.(burnRate := Estimator.LearnedRate(rates, Key(o.authIndex, o.group)))))
    else o
  }

  function EnrichedObservations(rates: Rates, os: seq<Observation>): seq<Observation> {
    seq(|os|, k requires 0 <= k < |os| => EnrichedObservation(rates, os[k]))
  }

  /** Both loops, over the eligible evidence and over the observations, in place. */
  method EnrichFresh(store: Estimator.QuotaStore, eligible: array<Quota>, observations: array<Observation>)
    modifies eligible, observations
    ensures eligible[..] == Enriched(store.entries, old(eligible[..]))
    ensures observations[..] == EnrichedObservations(store.entries, old(observations[..]))
  {
    for i := 0 to eligible.Length
      invariant forall k :: 0 <= k < i ==> eligible[k] == WithRate(store.entries, old(eligible[k]))
      invariant forall k :: i <= k < eligible.Length ==> eligible[k] == old(eligible[k])
      invariant observations[..] == old(observations[..])
    {
      var rate := store.GetCycleBurnRate(Key(eligible[i].authIndex, eligible[i].group));
      eligible[i] := eligible[i].(burnRate := rate);
    }
    for i := 0 to observations.Length
      invariant eligible[..] == Enriched(store.entries, old(eligible[..]))
      invariant forall k :: 0 <= k < i ==> observations[k] == EnrichedObservation(store.entries, old(observations[k]))
      invariant forall k :: i <= k < observations.Length ==> observations[k] == old(observations[k])
    {
      var o := observations[i];
      if o.kind == Fresh && o.evidence.Some? {
        var rate := store.GetCycleBurnRate(Key(o.authIndex, o.group));
        observations[i] := o.(evidence := Some(o.evidence.value.(burnRate := rate)));
      }
    }
  }

  lemma EnrichedIsSameButRate(rates: Rates, qs: seq<Quota>)
    ensures SameButRate(Enriched(rates, qs), qs)
  {
  }

  /** Filling in the rates changes nothing but the rate of fresh evidence. */
  lemma OnlyRatesAreFilledIn(rates: Rates, os: seq<Observation>, k: nat)
    requires k < |os|
    ensures var before, after := os[k], EnrichedObservations(rates, os)[k];
            && |EnrichedObservations(rates, os)| == |os|
            && if before.kind != Fresh || before.evidence.None? then after == before
               else after == before.(evidence := Some(before.evidence.value.(burnRate := RateOf(rates, before.authIndex, before.group))))
  {
  }

  // ------------------------------------- the two sides of a result stay in step

  predicate NamesItsEvidence(o: Observation) {
    o.kind == Fresh && o.evidence.Some? ==> o.evidence.value.authIndex == o.authIndex && o.evidence.value.group == o.group
  }

  lemma {:induction false} FreshNamesItsEvidence(input: Input, n: nat)
    requires n <= |input.probes|
    ensures forall o :: o in Observed(input, n) ==> NamesItsEvidence(o)
  {
    if n == 0 {
      OnlyHistory(input, |input.past|);
    } else {
      FreshNamesItsEvidence(input, n - 1);
      WithoutElements(Observed(input, n - 1), input.probes[n - 1].result.authIndex, Historical);
    }
  }

  lemma EnrichedMore(rates: Rates, qs: seq<Quota>, q: Quota)
    ensures Enriched(rates, qs + [q]) == Enriched(rates, qs) + [WithRate(rates, q)]
  {
    hide WithRate;
  }

  lemma EnrichedObservationsMore(rates: Rates, os: seq<Observation>, o: Observation)
    ensures EnrichedObservations(rates, os + [o]) == EnrichedObservations(rates, os) + [EnrichedObservation(rates, o)]
  {
    hide EnrichedObservation;
  }

  lemma NothingCarried(rates: Rates)
    ensures Carried(EnrichedObservations(rates, []), Fresh) == [] == Enriched(rates, Carried([], Fresh))
  {
  }

  lemma {:induction false} EnrichedCarries(rates: Rates, os: seq<Observation>)
    requires forall o :: o in os ==> NamesItsEvidence(o)
    ensures Carried(EnrichedObservations(rates, os), Fresh) == Enriched(rates, Carried(os, Fresh))
  {
    hide Carried, Enriched, EnrichedObservations;
    if os == [] {
      NothingCarried(rates);
    } else {
      var front, last := os[..|os| - 1], os[|os| - 1];
      assert os == front + [last] && last in os && NamesItsEvidence(last);
      CarriedMore(front, last, Fresh);
      EnrichedCarries(rates, front);
      EnrichedObservationsMore(rates, front, last);
      CarriedMore(EnrichedObservations(rates, front), EnrichedObservation(rates, last), Fresh);
      if last.kind == Fresh && last.evidence.Some? {
        EnrichedMore(rates, Carried(front, Fresh), last.evidence.value);
      } else {
        assert Carried(front, Fresh) + [] == Carried(front, Fresh);
        assert Carried(EnrichedObservations(rates, front), Fresh) + [] == Carried(EnrichedObservations(rates, front), Fresh);
      }
    }
  }

  /** After the rates are filled in the fresh observations still carry exactly the eligible evidence. */
  lemma EnrichedFreshIsEligible(input: Input, rates: Rates)
    ensures Carried(EnrichedObservations(rates, Observations(input)), Fresh)
            == Enriched(rates, Eligible(input, |input.probes|))
  {
    FreshIsEligible(input);
    FreshNamesItsEvidence(input, |input.probes|);
    LingeringFailed(input, |input.past|);
    forall o | o in Observations(input) ensures NamesItsEvidence(o) {
      assert o in Observed(input, |input.probes|) || o in Lingering(input, |input.past|);
    }
    EnrichedCarries(rates, Observations(input));
  }

  // ------------------------------------------------------------------- the plan

  predicate RatesBounded(rates: Rates) {
    forall k :: k in rates ==> Estimator.RateBounded(rates[k])
  }

  /** Every probe recorded in the store keeps its rates within the bounds. */
  lemma MarkKeepsRatesBounded(rates: Rates, k: Key, p: Estimator.Probe, requested: int)
    requires RatesBounded(rates)
    ensures var h := if k in rates then rates[k] else Estimator.EMPTY;
            RatesBounded(rates[k := Estimator.Marked(h, p, requested)])
  {
    Estimator.MarkedIsBounded(if k in rates then rates[k] else Estimator.EMPTY, p, requested);
    hide Estimator.Marked;
  }

  lemma {:induction false} LastOfEnriched(rates: Rates, qs: seq<Quota>, authIndex: string)
    ensures LastFor(Enriched(rates, qs), authIndex)
            == match LastFor(qs, authIndex) { case Some(q) => Some(WithRate(rates, q)) case None => None }
  {
    if qs != [] {
      var front := qs[..|qs| - 1];
      LastOfEnriched(rates, front, authIndex);
      assert Enriched(rates, qs)[..|qs| - 1] == Enriched(rates, front);
    }
  }

  /** The rate learned for a credential and group, or the cold-start rate. */
  function RateOf(rates: Rates, authIndex: string, g: Group): real {
    var k := Key(authIndex, g);
    if k in rates && rates[k].rate > 0.0 then rates[k].rate else 0.15
  }

  /**
    The plan of a round, from the probes through the learned rates: every
    change goes to a credential with a qualifying probe, where the host is out
    of date, to the target which that probe and the credential's learned rate,
    itself within its bounds, account for.
   */
  lemma RoundPlanIsAccounted(input: Input, rates: Rates, cs: seq<Credential>, past: seq<Quota>, o: Options,
                             items: seq<Item>, changes: seq<Change>, c: Change)
    requires IsNormal(o) && IsPlan(cs, Enriched(rates, Eligible(input, |input.probes|)), past, o, items, changes)
    requires c in changes
    ensures exists i :: 0 <= i < |input.probes| && Drives(input, input.probes[i])
                        && input.probes[i].result.authIndex == c.credential.authIndex
                        && var q := QuotaOf(input.probes[i].result).(burnRate := RateOf(rates, c.credential.authIndex, input.group));
                        && Outdated(c.credential, c.priority, WeeklyGone(q), o.minChange)
                        && exists item :: item in items && Carries(c, item) && Accounted(item, q, o)
    ensures RatesBounded(rates) ==> 0.08 <= RateOf(rates, c.credential.authIndex, input.group) <= 0.30
  {
    hide IsPlan, WeeklyGone, Accounted, Outdated, LastFor, Eligible, Drives, Enriched, Carries, RateOf, RatesBounded;
    RateIsBounded(rates, c.credential.authIndex, input.group);
    var plain := Eligible(input, |input.probes|);
    EnrichedIsSameButRate(rates, plain);
    ChangesNeedProbes(input, Enriched(rates, plain), cs, past, o, items, changes, c);
    LastOfEnriched(rates, plain, c.credential.authIndex);
    var q := LastFor(Enriched(rates, plain), c.credential.authIndex).value;
    var i :| 0 <= i < |input.probes| && Drives(input, input.probes[i])
             && q == QuotaOf(input.probes[i].result).(burnRate := q.burnRate);
    RateFilledIn(input, rates, input.probes[i], q, LastFor(plain, c.credential.authIndex).value);
  }

  lemma RateIsBounded(rates: Rates, authIndex: string, g: Group)
    ensures RatesBounded(rates) ==> 0.08 <= RateOf(rates, authIndex, g) <= 0.30
  {
  }

  lemma RateFilledIn(input: Input, rates: Rates, p: RoundProbe, q: Quota, plain: Quota)
    requires Drives(input, p) && q == WithRate(rates, plain) && q == QuotaOf(p.result).(burnRate := q.burnRate)
    ensures q.authIndex == p.result.authIndex
    ensures q == QuotaOf(p.result).(burnRate := RateOf(rates, q.authIndex, input.group))
  {
  }
}
