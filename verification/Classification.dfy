/**
  The fresh-evidence boundary: which probe results of a scheduling round may
  drive host changes, and which observations are only diagnostic.
 */
module Classification {
  import opened GuardTypes
  import opened QuotaWindows

  datatype Kind = Fresh | Historical | Failed | Invalid | WrongGroup

  datatype Observation = Observation(authIndex: string, group: Group, kind: Kind, observedAt: Time, evidence: Option<Quota>)

  datatype RoundProbe = RoundProbe(roundID: string, result: Probe)

  /** A stored observation; an empty index or group is taken from its evidence. */
  datatype Past = Past(authIndex: string, group: Option<Group>, evidence: Quota, failed: bool, failureAt: Time)

  datatype Input = Input(roundID: string, group: Group, known: seq<string>, probes: seq<RoundProbe>, past: seq<Past>)

  predicate Complete(p: Probe, g: Group) {
    p.antigravity && p.group == g && p.authIndex != "" && p.observedAt != 0 && p.resetAt.Some? && p.remaining.Some?
  }

  /** A ready, complete probe of a known credential, of this round and this group. */
  predicate Qualifies(input: Input, p: RoundProbe) {
    && p.result.authIndex != ""
    && p.result.authIndex in input.known
    && p.result.group == input.group
    && p.roundID == input.roundID
    && p.result.ready
    && Complete(p.result, input.group)
  }

  predicate ValidQuota(q: Quota, g: Group) {
    q.antigravity && q.authIndex != "" && q.group == g && q.observedAt != 0 && q.resetAt.Some? && q.remaining.Some?
  }

  function PastIndex(h: Past): string {
    if h.authIndex == "" then h.evidence.authIndex else h.authIndex
  }

  function PastGroup(h: Past): Group {
    if h.group.None? then h.evidence.group else h.group.value
  }

  predicate PastConcerns(input: Input, h: Past) {
    PastIndex(h) != "" && PastGroup(h) == input.group && PastIndex(h) in input.known
  }

  // ---------------------------------------------------------------- eligibility

  /** The qualifying probes, in the order they arrived. */
  function Eligible(input: Input, n: nat): seq<Quota>
    requires n <= |input.probes|
  {
    if n == 0 then []
    else
      var rest := Eligible(input, n - 1);
      if Qualifies(input, input.probes[n - 1]) then rest + [QuotaOf(input.probes[n - 1].result)] else rest
  }

  /** A probe of this very round and group that reports a known credential's quota and reset. */
  predicate Drives(input: Input, p: RoundProbe) {
    var r := p.result;
    && p.roundID == input.roundID && r.group == input.group && r.authIndex in input.known && r.authIndex != ""
    && r.ready && r.antigravity && r.observedAt > 0 && r.resetAt != None && r.remaining != None
  }

  /** The quota is what the probe reported, with no burn rate yet. */
  predicate Reports(q: Quota, p: Probe) {
    && q.antigravity == p.antigravity && q.authIndex == p.authIndex && q.group == p.group && q.observedAt == p.observedAt
    && q.resetAt == p.resetAt && q.remaining == p.remaining
    && q.shortResetAt == p.shortResetAt && q.shortRemaining == p.shortRemaining
    && q.longResetAt == p.longResetAt && q.longRemaining == p.longRemaining && q.burnRate == 0.0
  }

  ghost predicate PicksOut(input: Input, n: nat, positions: seq<nat>, out: seq<Quota>)
    requires n <= |input.probes|
  {
    && |positions| == |out|
    && (forall k :: 0 <= k < |positions| ==> positions[k] < n)
    && (forall j, k :: 0 <= j < k < |positions| ==> positions[j] < positions[k])
    && (forall i: nat :: i < n ==> (Drives(input, input.probes[i]) <==> i in positions))
    && (forall k :: 0 <= k < |positions| ==> Reports(out[k], input.probes[positions[k]].result))
  }

  /** Exactly the qualifying probes, each once, in their order, and nothing else. */
  lemma {:induction false} EligibleIsFilter(input: Input, n: nat) returns (positions: seq<nat>)
    requires n <= |input.probes|
    ensures PicksOut(input, n, positions, Eligible(input, n))
  {
    hide Qualifies, PicksOut;
    positions := [];
    if n == 0 {
      PicksNothing(input);
    } else {
      var rest := EligibleIsFilter(input, n - 1);
      positions := rest + if Qualifies(input, input.probes[n - 1]) then [n - 1] else [];
      PicksOneMore(input, n - 1, rest, Eligible(input, n - 1));
    }
  }

  lemma PicksNothing(input: Input)
    ensures PicksOut(input, 0, [], [])
  {
  }

  lemma PicksOneMore(input: Input, n: nat, positions: seq<nat>, out: seq<Quota>)
    requires n < |input.probes| && PicksOut(input, n, positions, out)
    ensures if Qualifies(input, input.probes[n])
            then PicksOut(input, n + 1, positions + [n], out + [QuotaOf(input.probes[n].result)])
            else PicksOut(input, n + 1, positions + [], out)
  {
    assert Qualifies(input, input.probes[n]) <==> Drives(input, input.probes[n]);
    assert Reports(QuotaOf(input.probes[n].result), input.probes[n].result);
    hide Qualifies, Drives, Reports;
    var more := positions + [n];
    assert positions + [] == positions;
    forall i: nat ensures i in more <==> i in positions || i == n {
    }
  }

  // --------------------------------------------------------------- observations

  function Without(os: seq<Observation>, authIndex: string, kind: Kind): seq<Observation> {
    if os == [] then []
    else
      var rest := Without(os[..|os| - 1], authIndex, kind);
      var o := os[|os| - 1];
      if o.authIndex == authIndex && o.kind == kind then rest else rest + [o]
  }

  method RemoveObservations(os: seq<Observation>, authIndex: string, kind: Kind) returns (filtered: seq<Observation>)
    ensures filtered == Without(os, authIndex, kind)
  {
    filtered := [];
    for i := 0 to |os|
      invariant filtered == Without(os[..i], authIndex, kind)
    {
      assert os[..i + 1][..i] == os[..i];
      if !(os[i].authIndex == authIndex && os[i].kind == kind) {
        filtered := filtered + [os[i]];
      }
    }
    assert os[..|os|] == os;
  }

  function Remembered(q: Quota, kind: Kind): Observation {
    Observation(q.authIndex, q.group, kind, q.observedAt, Some(q))
  }

  function Unusable(p: Probe): Observation {
    Observation(p.authIndex, p.group, if p.ready then Invalid else Failed, p.observedAt, None)
  }

  function Recalled(input: Input, n: nat): seq<Observation>
    requires n <= |input.past|
  {
    if n == 0 then []
    else
      var h := input.past[n - 1];
      Recalled(input, n - 1)
      + if PastConcerns(input, h) && ValidQuota(h.evidence, input.group) then
          [Observation(h.evidence.authIndex, input.group, Historical, h.evidence.observedAt, Some(h.evidence))]
        else []
  }

  predicate Noticed(input: Input, p: RoundProbe) {
    p.result.authIndex != "" && p.result.authIndex in input.known
  }

  function Noted(input: Input, os: seq<Observation>, p: RoundProbe): seq<Observation> {
    var r := p.result;
    if !Noticed(input, p) then os
    else if r.group != input.group then os + [Observation(r.authIndex, r.group, WrongGroup, r.observedAt, None)]
    else if p.roundID != input.roundID then
      os + [if r.ready && Complete(r, input.group) then Remembered(QuotaOf(r), Historical) else Unusable(r)]
    else if r.ready && Complete(r, input.group) then
      Without(os, r.authIndex, Historical) + [Remembered(QuotaOf(r), Fresh)]
    else os + [Unusable(r)]
  }

  function Observed(input: Input, n: nat): seq<Observation>
    requires n <= |input.probes|
  {
    if n == 0 then Recalled(input, |input.past|) else Noted(input, Observed(input, n - 1), input.probes[n - 1])
  }

  predicate ProbedNow(input: Input, authIndex: string, n: nat)
    requires n <= |input.probes|
  {
    exists i :: 0 <= i < n && Noticed(input, input.probes[i]) && input.probes[i].result.authIndex == authIndex
  }

  function Lingering(input: Input, n: nat): seq<Observation>
    requires n <= |input.past|
  {
    if n == 0 then []
    else
      var h := input.past[n - 1];
      Lingering(input, n - 1)
      + if h.failed && PastConcerns(input, h) && !ProbedNow(input, PastIndex(h), |input.probes|) then
          [Observation(PastIndex(h), PastGroup(h), Failed, h.failureAt, None)]
        else []
  }

  function Observations(input: Input): seq<Observation> {
    Observed(input, |input.probes|) + Lingering(input, |input.past|)
  }

  /** Notes one probe, and hands its quota on if it is eligible. */
  method NoteProbe(input: Input, os: seq<Observation>, p: RoundProbe) returns (noted: seq<Observation>, quota: Option<Quota>)
    ensures noted == Noted(input, os, p)
    ensures quota == if Qualifies(input, p) then Some(QuotaOf(p.result)) else None
  {
    noted, quota := os, None;
    if !Noticed(input, p) {
      return;
    }
    if p.result.group != input.group {
      noted := noted + [Observation(p.result.authIndex, p.result.group, WrongGroup, p.result.observedAt, None)];
    } else if p.roundID != input.roundID {
      if p.result.ready && Complete(p.result, input.group) {
        noted := noted + [Remembered(QuotaOf(p.result), Historical)];
      } else {
        noted := noted + [Unusable(p.result)];
      }
    } else if p.result.ready && Complete(p.result, input.group) {
      noted := RemoveObservations(noted, p.result.authIndex, Historical);
      quota := Some(QuotaOf(p.result));
      noted := noted + [Remembered(QuotaOf(p.result), Fresh)];
    } else {
      noted := noted + [Unusable(p.result)];
    }
  }

  method Classify(input: Input) returns (eligible: seq<Quota>, observations: seq<Observation>)
    ensures eligible == Eligible(input, |input.probes|)
    ensures observations == Observations(input)
  {
    hide Recalled, Lingering, Noted, Qualifies, Noticed;
    observations := RecallPast(input);
    eligible := [];
    var current: set<string> := {};
    assert forall a :: !ProbedNow(input, a, 0);
    hide ProbedNow;
    for i := 0 to |input.probes|
      invariant eligible == Eligible(input, i)
      invariant observations == Observed(input, i)
      invariant forall a :: a in current <==> ProbedNow(input, a, i)
    {
      forall a ensures ProbedNow(input, a, i + 1)
                       <==> ProbedNow(input, a, i)
                            || (Noticed(input, input.probes[i]) && input.probes[i].result.authIndex == a) {
        ProbedOneMore(input, i, a);
      }
      if Noticed(input, input.probes[i]) {
        current := current + {input.probes[i].result.authIndex};
      }
      var quota;
      observations, quota := NoteProbe(input, observations, input.probes[i]);
      if quota.Some? {
        eligible := eligible + [quota.value];
      }
    }
    var lingering := PastFailures(input, current);
    observations := observations + lingering;
  }

  /** Stored observations that are still valid open the list. */
  method RecallPast(input: Input) returns (observations: seq<Observation>)
    ensures observations == Recalled(input, |input.past|)
  {
    hide PastConcerns, ValidQuota;
    observations := [];
    for i := 0 to |input.past|
      invariant observations == Recalled(input, i)
    {
      var h := input.past[i];
      if PastConcerns(input, h) && ValidQuota(h.evidence, input.group) {
        observations := observations
                        + [Observation(h.evidence.authIndex, input.group, Historical, h.evidence.observedAt, Some(h.evidence))];
      }
    }
  }

  /** Stored failures close it, for credentials without a probe of their own. */
  method PastFailures(input: Input, current: set<string>) returns (observations: seq<Observation>)
    requires forall a :: a in current <==> ProbedNow(input, a, |input.probes|)
    ensures observations == Lingering(input, |input.past|)
  {
    hide PastConcerns, ProbedNow;
    observations := [];
    for i := 0 to |input.past|
      invariant observations == Lingering(input, i)
    {
      var h := input.past[i];
      if h.failed && PastConcerns(input, h) && PastIndex(h) !in current {
        observations := observations + [Observation(PastIndex(h), PastGroup(h), Failed, h.failureAt, None)];
      }
    }
  }

  lemma ProbedOneMore(input: Input, n: nat, authIndex: string)
    requires n < |input.probes|
    ensures ProbedNow(input, authIndex, n + 1)
            <==> ProbedNow(input, authIndex, n)
                 || (Noticed(input, input.probes[n]) && input.probes[n].result.authIndex == authIndex)
  {
  }

  // ---------------------------------------------------- what the kinds promise

  /** The evidence carried by the observations of one kind. */
  function Carried(os: seq<Observation>, kind: Kind): seq<Quota> {
    if os == [] then []
    else
      var o := os[|os| - 1];
      Carried(os[..|os| - 1], kind) + if o.kind == kind && o.evidence.Some? then [o.evidence.value] else []
  }

  /** The historical evidence handed to the planner. */
  method HistoricalEvidence(os: seq<Observation>) returns (historical: seq<Quota>)
    ensures historical == Carried(os, Historical)
  {
    historical := [];
    for i := 0 to |os|
      invariant historical == Carried(os[..i], Historical)
    {
      assert os[..i + 1][..i] == os[..i];
      if os[i].kind == Historical && os[i].evidence.Some? {
        historical := historical + [os[i].evidence.value];
      }
    }
    assert os[..|os|] == os;
  }

  lemma CarriedMore(os: seq<Observation>, o: Observation, kind: Kind)
    ensures Carried(os + [o], kind)
            == Carried(os, kind) + if o.kind == kind && o.evidence.Some? then [o.evidence.value] else []
  {
    assert (os + [o])[..|os|] == os;
  }

  lemma {:induction false} WithoutKeepsOthers(os: seq<Observation>, authIndex: string, kind: Kind, other: Kind)
    requires other != kind
    ensures Carried(Without(os, authIndex, kind), other) == Carried(os, other)
  {
    if os != [] {
      var front := os[..|os| - 1];
      WithoutKeepsOthers(front, authIndex, kind, other);
      CarriedMore(Without(front, authIndex, kind), os[|os| - 1], other);
    }
  }

  lemma {:induction false} RecalledIsHistory(input: Input, n: nat)
    requires n <= |input.past|
    ensures Carried(Recalled(input, n), Fresh) == []
  {
    if n > 0 {
      RecalledIsHistory(input, n - 1);
      var h := input.past[n - 1];
      CarriedMore(Recalled(input, n - 1),
                  Observation(h.evidence.authIndex, input.group, Historical, h.evidence.observedAt, Some(h.evidence)), Fresh);
      assert Recalled(input, n - 1) + [] == Recalled(input, n - 1);
    }
  }

  lemma {:induction false} FreshInStep(input: Input, n: nat)
    requires n <= |input.probes|
    ensures Carried(Observed(input, n), Fresh) == Eligible(input, n)
  {
    hide Noted, Carried;
    if n == 0 {
      RecalledIsHistory(input, |input.past|);
    } else {
      FreshInStep(input, n - 1);
      FreshNoted(input, Observed(input, n - 1), input.probes[n - 1]);
    }
  }

  lemma FreshNoted(input: Input, os: seq<Observation>, p: RoundProbe)
    ensures Carried(Noted(input, os, p), Fresh)
            == Carried(os, Fresh) + if Qualifies(input, p) then [QuotaOf(p.result)] else []
  {
    hide Carried, Without;
    var r := p.result;
    CarriedMore(os, Observation(r.authIndex, r.group, WrongGroup, r.observedAt, None), Fresh);
    CarriedMore(os, Remembered(QuotaOf(r), Historical), Fresh);
    CarriedMore(os, Unusable(r), Fresh);
    WithoutKeepsOthers(os, r.authIndex, Historical, Fresh);
    CarriedMore(Without(os, r.authIndex, Historical), Remembered(QuotaOf(r), Fresh), Fresh);
  }

  lemma {:induction false} LingeringCarriesNothing(input: Input, os: seq<Observation>, n: nat, kind: Kind)
    requires n <= |input.past|
    ensures Carried(os + Lingering(input, n), kind) == Carried(os, kind)
  {
    hide Carried, PastConcerns, ProbedNow;
    if n == 0 {
      assert os + [] == os;
    } else {
      LingeringCarriesNothing(input, os, n - 1, kind);
      var h := input.past[n - 1];
      var o := Observation(PastIndex(h), PastGroup(h), Failed, h.failureAt, None);
      CarriedMore(os + Lingering(input, n - 1), o, kind);
      assert os + (Lingering(input, n - 1) + [o]) == (os + Lingering(input, n - 1)) + [o];
      assert os + (Lingering(input, n - 1) + []) == os + Lingering(input, n - 1);
    }
  }

  /** The fresh observations carry the eligible evidence and no other. */
  lemma FreshIsEligible(input: Input)
    ensures Carried(Observations(input), Fresh) == Eligible(input, |input.probes|)
  {
    FreshInStep(input, |input.probes|);
    LingeringCarriesNothing(input, Observed(input, |input.probes|), |input.past|, Fresh);
  }

  predicate SomeOf(os: seq<Observation>, authIndex: string, kind: Kind) {
    exists o :: o in os && o.authIndex == authIndex && o.kind == kind
  }

  lemma {:induction false} WithoutElements(os: seq<Observation>, authIndex: string, kind: Kind)
    ensures forall o :: o in Without(os, authIndex, kind) <==> o in os && !(o.authIndex == authIndex && o.kind == kind)
  {
    if os != [] {
      WithoutElements(os[..|os| - 1], authIndex, kind);
      assert os == os[..|os| - 1] + [os[|os| - 1]];
    }
  }

  lemma {:induction false} OnlyHistory(input: Input, n: nat)
    requires n <= |input.past|
    ensures forall o :: o in Recalled(input, n) ==> o.kind == Historical
  {
    if n > 0 {
      OnlyHistory(input, n - 1);
    }
  }

  lemma {:induction false} LingeringFailed(input: Input, n: nat)
    requires n <= |input.past|
    ensures forall o :: o in Lingering(input, n) ==> o.kind == Failed
  {
    if n > 0 {
      LingeringFailed(input, n - 1);
    }
  }

  predicate QualifiesFor(input: Input, i: int, authIndex: string) {
    0 <= i < |input.probes| && Qualifies(input, input.probes[i]) && input.probes[i].result.authIndex == authIndex
  }

  /** A usable probe of this credential left over from another round. */
  predicate StaleFor(input: Input, j: int, authIndex: string) {
    && 0 <= j < |input.probes|
    && Noticed(input, input.probes[j]) && input.probes[j].result.authIndex == authIndex
    && input.probes[j].roundID != input.roundID
    && input.probes[j].result.ready && Complete(input.probes[j].result, input.group)
  }

  /** Position i holds the last qualifying probe of this credential among the first n. */
  predicate LastQualifying(input: Input, n: nat, authIndex: string, i: int) {
    0 <= i < n && QualifiesFor(input, i, authIndex) && forall m :: i < m < n ==> !QualifiesFor(input, m, authIndex)
  }

  ghost predicate StaleAfterFresh(input: Input, n: nat, authIndex: string) {
    exists i, j :: LastQualifying(input, n, authIndex, i) && i < j < n && StaleFor(input, j, authIndex)
  }

  /** What one more probe does to the kinds noted for a credential. */
  lemma NotedKinds(input: Input, os: seq<Observation>, n: nat, authIndex: string)
    requires n < |input.probes|
    ensures var after := Noted(input, os, input.probes[n]);
            && (SomeOf(after, authIndex, Fresh) <==> SomeOf(os, authIndex, Fresh) || QualifiesFor(input, n, authIndex))
            && (SomeOf(after, authIndex, Historical) <==>
                  !QualifiesFor(input, n, authIndex) && (SomeOf(os, authIndex, Historical) || StaleFor(input, n, authIndex)))
  {
    var p := input.probes[n];
    var after := Noted(input, os, p);
    WithoutElements(os, p.result.authIndex, Historical);
    hide Without;
    if QualifiesFor(input, n, authIndex) || StaleFor(input, n, authIndex) {
      assert after[|after| - 1] in after;
    }
    forall o | o in os && !(o.authIndex == p.result.authIndex && o.kind == Historical) ensures o in after {
    }
    forall o | o in os && !Qualifies(input, p) ensures o in after {
    }
  }

  lemma {:induction false} KindsOf(input: Input, n: nat, authIndex: string)
    requires n <= |input.probes|
    ensures SomeOf(Observed(input, n), authIndex, Fresh) <==> exists i :: LastQualifying(input, n, authIndex, i)
    ensures SomeOf(Observed(input, n), authIndex, Fresh) ==>
              (SomeOf(Observed(input, n), authIndex, Historical) <==> StaleAfterFresh(input, n, authIndex))
  {
    hide Noted, QualifiesFor, StaleFor, SomeOf;
    if n == 0 {
      NothingFresh(input, authIndex);
    } else {
      var front := n - 1;
      KindsOf(input, front, authIndex);
      NotedKinds(input, Observed(input, front), front, authIndex);
      if QualifiesFor(input, front, authIndex) {
        assert LastQualifying(input, n, authIndex, front);
      } else {
        forall i ensures LastQualifying(input, n, authIndex, i) <==> LastQualifying(input, front, authIndex, i) {
        }
        if i :| LastQualifying(input, front, authIndex, i) {
          assert LastQualifying(input, n, authIndex, i);
        }
      }
    }
  }

  lemma NothingFresh(input: Input, authIndex: string)
    ensures !SomeOf(Observed(input, 0), authIndex, Fresh)
  {
    OnlyHistory(input, |input.past|);
  }

  /**
    A credential is both fresh and historical exactly when a usable probe of
    another round follows its last qualifying one; never within one round.
   */
  lemma FreshAndHistoricalWhen(input: Input, authIndex: string)
    ensures SomeOf(Observations(input), authIndex, Fresh) && SomeOf(Observations(input), authIndex, Historical)
            <==> StaleAfterFresh(input, |input.probes|, authIndex)
    ensures (forall p :: p in input.probes ==> p.roundID == input.roundID) ==>
              !(SomeOf(Observations(input), authIndex, Fresh) && SomeOf(Observations(input), authIndex, Historical))
  {
    KindsOf(input, |input.probes|, authIndex);
    LingeringFailed(input, |input.past|);
    var os := Observed(input, |input.probes|);
    assert forall o :: o in Observations(input) <==> o in os || o in Lingering(input, |input.past|);
    forall kind | kind == Fresh || kind == Historical
      ensures SomeOf(Observations(input), authIndex, kind) <==> SomeOf(os, authIndex, kind)
    {
    }
    hide Observed, Lingering, Observations;
    if i, j :| LastQualifying(input, |input.probes|, authIndex, i) && i < j < |input.probes| && StaleFor(input, j, authIndex) {
      assert input.probes[j] in input.probes;
    }
  }

  // --------------------------------------------------------- every observation

  /** What one probe of a known credential is noted as. */
  function NoteOf(input: Input, p: RoundProbe): Option<Observation> {
    var r := p.result;
    var usable := r.ready && r.antigravity && r.observedAt > 0 && r.resetAt != None && r.remaining != None;
    if r.authIndex == "" || r.authIndex !in input.known then None
    else if r.group != input.group then Some(Observation(r.authIndex, r.group, WrongGroup, r.observedAt, None))
    else if !usable then Some(Observation(r.authIndex, r.group, if r.ready then Invalid else Failed, r.observedAt, None))
    else Some(Observation(r.authIndex, r.group, if p.roundID == input.roundID then Fresh else Historical, r.observedAt, Some(QuotaOf(r))))
  }

  /** A stored observation of a known credential of this group. */
  predicate Belongs(input: Input, h: Past, authIndex: string) {
    && authIndex == (if h.authIndex != "" then h.authIndex else h.evidence.authIndex)
    && authIndex != "" && authIndex in input.known
    && input.group == (if h.group.Some? then h.group.value else h.evidence.group)
  }

  /** What a stored observation is recalled as, if its evidence is whole. */
  ghost predicate Recalls(input: Input, h: Past, o: Observation) {
    && (exists a :: Belongs(input, h, a))
    && h.evidence.antigravity && h.evidence.authIndex != "" && h.evidence.group == input.group && h.evidence.observedAt > 0
    && h.evidence.resetAt != None && h.evidence.remaining != None
    && o == Observation(h.evidence.authIndex, input.group, Historical, h.evidence.observedAt, Some(h.evidence))
  }

  /** History of a credential gives way to a probe that drives this round. */
  ghost predicate Superseded(input: Input, from: int, n: nat, o: Observation)
    requires n <= |input.probes|
  {
    o.kind == Historical && exists j :: 0 <= j < n && j > from && Drives(input, input.probes[j]) && input.probes[j].result.authIndex == o.authIndex
  }

  /** A stored failure of a credential that no probe, of any group or round, reported on. */
  ghost predicate StillFailing(input: Input, h: Past, o: Observation) {
    && h.failed && Belongs(input, h, o.authIndex)
    && o == Observation(o.authIndex, input.group, Failed, h.failureAt, None)
    && forall i :: 0 <= i < |input.probes| ==> input.probes[i].result.authIndex != o.authIndex
  }

  ghost predicate NotedAt(input: Input, n: nat, o: Observation, i: int)
    requires n <= |input.probes|
  {
    0 <= i < n && NoteOf(input, input.probes[i]) == Some(o) && !Superseded(input, i, n, o)
  }

  ghost predicate RecalledFrom(input: Input, o: Observation, h: Past) {
    h in input.past && Recalls(input, h, o)
  }

  ghost predicate ObservedBy(input: Input, n: nat, o: Observation)
    requires n <= |input.probes|
  {
    || (exists i :: NotedAt(input, n, o, i))
    || (!Superseded(input, -1, n, o) && exists h :: RecalledFrom(input, o, h))
  }

  lemma {:induction false} RecalledElements(input: Input, n: nat, o: Observation)
    requires n <= |input.past|
    ensures o in Recalled(input, n) <==> exists h :: h in input.past[..n] && Recalls(input, h, o)
  {
    hide Recalls, PastConcerns, ValidQuota;
    if n > 0 {
      RecalledElements(input, n - 1, o);
      assert input.past[..n] == input.past[..n - 1] + [input.past[n - 1]];
      RecallsWhen(input, input.past[n - 1], o);
    }
  }

  lemma RecallsWhen(input: Input, h: Past, o: Observation)
    ensures Recalls(input, h, o)
            <==> && PastConcerns(input, h) && ValidQuota(h.evidence, input.group)
                 && o == Observation(h.evidence.authIndex, input.group, Historical, h.evidence.observedAt, Some(h.evidence))
  {
    if PastConcerns(input, h) {
      assert Belongs(input, h, PastIndex(h));
    }
  }

  /** The n-th probe drives the round and so ends the history that o is. */
  predicate EndsHistory(input: Input, n: nat, o: Observation)
    requires n < |input.probes|
  {
    o.kind == Historical && Drives(input, input.probes[n]) && input.probes[n].result.authIndex == o.authIndex
  }

  lemma NotedElements(input: Input, os: seq<Observation>, n: nat, o: Observation)
    requires n < |input.probes|
    ensures o in Noted(input, os, input.probes[n])
            <==> NoteOf(input, input.probes[n]) == Some(o) || (o in os && !EndsHistory(input, n, o))
  {
    WithoutElements(os, input.probes[n].result.authIndex, Historical);
    hide Without;
  }

  lemma SupersededMore(input: Input, from: int, n: nat, o: Observation)
    requires n < |input.probes| && from < n
    ensures Superseded(input, from, n + 1, o) <==> Superseded(input, from, n, o) || EndsHistory(input, n, o)
  {
    hide Drives;
  }

  lemma NotedAtMore(input: Input, n: nat, o: Observation, i: int)
    requires n < |input.probes|
    ensures NotedAt(input, n + 1, o, i)
            <==> (i == n && NoteOf(input, input.probes[n]) == Some(o)) || (NotedAt(input, n, o, i) && !EndsHistory(input, n, o))
  {
    hide Drives, NoteOf, EndsHistory;
    if i < n {
      SupersededMore(input, i, n, o);
    }
  }

  lemma ObservedMore(input: Input, n: nat, o: Observation)
    requires n < |input.probes|
    ensures ObservedBy(input, n + 1, o)
            <==> NoteOf(input, input.probes[n]) == Some(o) || (ObservedBy(input, n, o) && !EndsHistory(input, n, o))
  {
    hide NoteOf, RecalledFrom, NotedAt, Superseded, EndsHistory;
    SupersededMore(input, -1, n, o);
    var m := n + 1;
    forall i: int
      ensures NotedAt(input, m, o, i)
              <==> (i == n && NoteOf(input, input.probes[n]) == Some(o)) || (NotedAt(input, n, o, i) && !EndsHistory(input, n, o))
    {
      NotedAtMore(input, n, o, i);
    }
    if NoteOf(input, input.probes[n]) == Some(o) {
      NotedAtMore(input, n, o, n);
      assert NotedAt(input, m, o, n);
    }
  }

  lemma {:induction false} ObservedElements(input: Input, n: nat, o: Observation)
    requires n <= |input.probes|
    ensures o in Observed(input, n) <==> ObservedBy(input, n, o)
  {
    if n == 0 {
      RecalledElements(input, |input.past|, o);
      assert input.past[..|input.past|] == input.past;
      hide Recalls;
      forall h ensures RecalledFrom(input, o, h) <==> h in input.past && Recalls(input, h, o) {
      }
    } else {
      ObservedElements(input, n - 1, o);
      NotedElements(input, Observed(input, n - 1), n - 1, o);
      ObservedMore(input, n - 1, o);
      hide ObservedBy, Noted, NoteOf, EndsHistory;
    }
  }

  lemma {:induction false} LingeringElements(input: Input, n: nat, o: Observation)
    requires n <= |input.past|
    ensures o in Lingering(input, n) <==> exists h :: h in input.past[..n] && StillFailing(input, h, o)
  {
    if n > 0 {
      LingeringElements(input, n - 1, o);
      var h := input.past[n - 1];
      assert input.past[..n] == input.past[..n - 1] + [h];
      FailsWhen(input, h, o);
      hide StillFailing, PastConcerns, ProbedNow;
    }
  }

  lemma FailsWhen(input: Input, h: Past, o: Observation)
    ensures StillFailing(input, h, o)
            <==> && h.failed && PastConcerns(input, h) && !ProbedNow(input, PastIndex(h), |input.probes|)
                 && o == Observation(PastIndex(h), PastGroup(h), Failed, h.failureAt, None)
  {
  }

  /**
    Every observation, and what it stands for: each probe of a known
    credential by its own kind; stored evidence that is still whole; both
    forms of history only as long as no later probe drives the round; and
    stored failures of credentials that no probe reported on.
   */
  lemma ObservationsAre(input: Input, o: Observation)
    ensures o in Observations(input)
            <==> ObservedBy(input, |input.probes|, o) || exists h :: h in input.past && StillFailing(input, h, o)
  {
    ObservedElements(input, |input.probes|, o);
    LingeringElements(input, |input.past|, o);
    assert input.past[..|input.past|] == input.past;
    hide ObservedBy, StillFailing, Observed, Lingering;
  }
}
