/**
  A breaker opened by trusted evidence of exhaustion stays out of reach until
  its recovery time, whatever usage is observed and whatever is picked.
 */
module HardCooldowns {
  import opened GuardTypes
  import opened Breaker
  import opened EngineSpec
  import opened EngineRuns
  import opened Leases
  import opened Transitions

  predicate HardOpen(s: EngineState, k: Key) {
    k in s.entries && s.entries[k].state == Open && IsHard(s.entries[k].reason)
  }

  /**
    A step before `deadline` that is neither a manual half-open of this
    breaker nor a change of its identity, nor evidence that its quota is empty
    or, if an empty quota is what opened it, that some is left again.
   */
  predicate Quiet(s: EngineState, step: Step, k: Key, deadline: Time)
    requires k in s.entries
  {
    match step
    case Use(_, at) => at < deadline
    case Pick(_, at) => at < deadline
    case Probe(ev, at) =>
      Proves(s, ev, at, k) ==> if ev.remaining > 0.0 then s.entries[k].reason != QuotaZero else ev.resetAt <= at
    case Manual(index, g, _) => Key(index, g) != k
    case _ => KeepsIdentity(s, step, k)
  }

  predicate StillHard(before: Entry, after: Entry) {
    && after.state == Open && IsHard(after.reason)
    && after.recoverAt >= before.recoverAt
    && (before.reason == QuotaZero ==> after.reason == QuotaZero)
  }

  lemma QuietStep(s: EngineState, step: Step, k: Key, deadline: Time)
    requires Sound(s) && HardOpen(s, k) && deadline <= s.entries[k].recoverAt
    requires Quiet(s, step, k, deadline)
    ensures k in Next(s, step).entries && StillHard(s.entries[k], Next(s, step).entries[k])
  {
    hide Next, RosterSound, EntriesSound, KeepsIdentity, Opens, Proves, Lends;
    if !step.Use? {
      QuietIsNotOpening(s, step, k, deadline);
    }
    match step
    case Use(u, at) => QuietUse(s, u, at, k);
    case Pick(r, at) =>
      NotYetLent(s, step, k);
      OpenStep(s, step, k);
    case _ => OpenStep(s, step, k);
  }

  lemma QuietIsNotOpening(s: EngineState, step: Step, k: Key, deadline: Time)
    requires Sound(s) && HardOpen(s, k) && Quiet(s, step, k, deadline) && !step.Use?
    ensures !Opens(s, step, k) && !Requested(s, step, k)
    ensures KeepsIdentity(s, step, k) && (!step.Pick? ==> !Lends(s, step, k))
    ensures step.Probe? && Proves(s, step.evidence, step.at, k) && step.evidence.remaining > 0.0 ==> s.entries[k].reason != QuotaZero
  {
    hide RosterSound, EntriesSound, Proves;
  }

  lemma NotYetLent(s: EngineState, step: Step, k: Key)
    requires Sound(s) && HardOpen(s, k) && step.Pick? && step.at < s.entries[k].recoverAt
    ensures !Lends(s, step, k)
  {
    if Lends(s, step, k) {
      SelectedLease(s, step.request, step.request.group.value, step.at);
    }
  }

  lemma QuietUse(s: EngineState, u: Usage, at: Instant, k: Key)
    requires Sound(s) && HardOpen(s, k) && at < s.entries[k].recoverAt
    ensures k in Next(s, Use(u, at)).entries && StillHard(s.entries[k], Next(s, Use(u, at)).entries[k])
  {
    hide UsageTarget, RosterSound;
  }

  ghost predicate QuietRun(s: EngineState, steps: seq<Step>, k: Key, deadline: Time)
    requires ValidConfig(s.config)
  {
    forall i :: 0 <= i < |steps| ==> k in Before(s, steps, i).entries && Quiet(Before(s, steps, i), steps[i], k, deadline)
  }

  lemma QuietStepAt(s: EngineState, steps: seq<Step>, m: nat, k: Key, deadline: Time)
    requires Sound(s) && m < |steps| && QuietRun(s, steps, k, deadline)
    requires HardOpen(Before(s, steps, m), k) && deadline <= Before(s, steps, m).entries[k].recoverAt
    ensures k in Before(s, steps, m + 1).entries
    ensures StillHard(Before(s, steps, m).entries[k], Before(s, steps, m + 1).entries[k])
  {
    RunKeepsSound(s, steps[..m]);
    BeforeNext(s, steps, m);
    QuietStep(Before(s, steps, m), steps[m], k, deadline);
  }

  lemma {:induction false} HardStaysHard(s: EngineState, steps: seq<Step>, k: Key, m: nat)
    requires Sound(s) && HardOpen(s, k) && QuietRun(s, steps, k, s.entries[k].recoverAt) && m <= |steps|
    ensures k in Before(s, steps, m).entries && StillHard(s.entries[k], Before(s, steps, m).entries[k])
  {
    if m == 0 {
      assert steps[..0] == [];
    } else {
      hide Run;
      HardStaysHard(s, steps, k, m - 1);
      QuietStepAt(s, steps, m - 1, k, s.entries[k].recoverAt);
    }
  }

  /**
    Until its recovery time a hard breaker is never selectable: over any quiet
    run, which may hold probes that find quota left over an explicit 429, its recovery time does not move earlier, quota_zero keeps its reason,
    and every candidate that resolves to it is rejected as cooling.
   */
  lemma HardCooldownHolds(s: EngineState, steps: seq<Step>, k: Key, r: PickRequest, now: Instant, c: Candidate)
    requires Sound(s) && HardOpen(s, k) && QuietRun(s, steps, k, s.entries[k].recoverAt)
    requires now < s.entries[k].recoverAt && CandidateIsAntigravity(r, c)
    requires Lookup(Run(s, steps), c.authIndex, c.authID, k.group) == Some(k)
    ensures StillHard(s.entries[k], Run(s, steps).entries[k])
    ensures Judge(Run(s, steps), r, k.group, now, c) == Rejected(Cooling, Run(s, steps).entries[k].recoverAt)
  {
    HardStaysHard(s, steps, k, |steps|);
    assert steps[..|steps|] == steps;
  }
}
