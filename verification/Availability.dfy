/**
  The other side of the cooldowns: what a closed breaker survives, how long
  its credential is served, and that no cooling breaker locks it out for good.
 */
module Availability {
  import opened GuardTypes
  import opened Breaker
  import opened EngineSpec
  import opened EngineRuns
  import opened Leases
  import opened Transitions

  predicate ClosedAt(s: EngineState, k: Key) {
    k in s.entries && s.entries[k].state == Closed
  }

  /** What takes a closed breaker away: what opens it, or another owner. */
  predicate Lost(s: EngineState, step: Step, k: Key)
    requires k in s.entries
  {
    Opens(s, step, k) || !KeepsIdentity(s, step, k)
  }

  predicate StillClosed(before: Entry, after: Entry) {
    after.state == Closed && after.lastQuotaEvidenceAt >= before.lastQuotaEvidenceAt
  }

  lemma EvidenceAges(s: EngineState, step: Step, k: Key)
    requires Sound(s) && ClosedAt(s, k) && KeepsIdentity(s, step, k)
    ensures k in Next(s, step).entries && Next(s, step).entries[k].lastQuotaEvidenceAt >= s.entries[k].lastQuotaEvidenceAt
  {
    hide RosterNext, RegisterNext, EvidenceNext, UsageNext, PickNext, RosterSound, EntrySound;
    match step
    case Roster(_, _) => RosterOutcome(s, step, k);
    case Register(_, _) => RosterOutcome(s, step, k);
    case Probe(ev, at) => ProbeAges(s, ev, at, k);
    case Use(u, at) =>
      UsageStores(s, u, at, k);
      UseAges(s.config, s.entries[k], u, at);
    case Pick(r, at) => PickSparesLive(s, r, at, k);
    case _ => hide KeepsIdentity;
  }

  lemma ProbeAges(s: EngineState, ev: Evidence, at: Instant, k: Key)
    requires EntriesSound(s) && k in s.entries
    ensures var n := EvidenceNext(s, ev, at); k in n.entries && n.entries[k].lastQuotaEvidenceAt >= s.entries[k].lastQuotaEvidenceAt
  {
    EvidenceStores(s, ev, at, k);
    assert EntrySound(s.entries[k]);
    hide EvidenceNext, EntriesSound;
  }

  lemma UseAges(c: Config, e: Entry, u: Usage, at: Instant)
    requires ValidConfig(c)
    ensures WithUsage(c, e, u, at).lastQuotaEvidenceAt == e.lastQuotaEvidenceAt
  {
  }

  /** A step leaves a closed breaker closed exactly when it is none of those. */
  lemma ClosedStep(s: EngineState, step: Step, k: Key)
    requires Sound(s) && ClosedAt(s, k)
    ensures ClosedAt(Next(s, step), k) <==> !Lost(s, step, k)
    ensures !Lost(s, step, k) ==> StillClosed(s.entries[k], Next(s, step).entries[k])
  {
    StateAfter(s, step, k);
    hide Next, Opens, KeepsIdentity, RosterSound, EntriesSound;
    if KeepsIdentity(s, step, k) {
      EvidenceAges(s, step, k);
      NotLent(s, step, k);
    }
  }

  /** A closed breaker has no lease to lend. */
  lemma NotLent(s: EngineState, step: Step, k: Key)
    requires Sound(s) && ClosedAt(s, k)
    ensures !Lends(s, step, k) && !Requested(s, step, k)
  {
    if Lends(s, step, k) {
      SelectedLease(s, step.request, step.request.group.value, step.at);
    }
  }

  ghost predicate NeverLost(s: EngineState, steps: seq<Step>, k: Key)
    requires ValidConfig(s.config)
  {
    forall i :: 0 <= i < |steps| ==> k in Before(s, steps, i).entries && !Lost(Before(s, steps, i), steps[i], k)
  }

  lemma {:induction false} StaysClosed(s: EngineState, steps: seq<Step>, k: Key, m: nat)
    requires Sound(s) && ClosedAt(s, k) && NeverLost(s, steps, k) && m <= |steps|
    ensures ClosedAt(Before(s, steps, m), k) && StillClosed(s.entries[k], Before(s, steps, m).entries[k])
  {
    hide Run, Next, Lost;
    if m == 0 {
      assert steps[..0] == [];
      NothingHappened(s);
    } else {
      StaysClosed(s, steps, k, m - 1);
      RunKeepsSound(s, steps[..m - 1]);
      BeforeNext(s, steps, m - 1);
      ClosedStep(Before(s, steps, m - 1), steps[m - 1], k);
    }
  }

  lemma NothingHappened(s: EngineState)
    requires ValidConfig(s.config)
    ensures Run(s, []) == s
  {
  }

  /**
    Over any run without such a step a closed breaker stays closed, its quota
    evidence never gets older, and a candidate that resolves to it is
    available, without a lease, exactly as long as that evidence is fresh.
   */
  lemma ServedUntilStale(s: EngineState, steps: seq<Step>, k: Key, r: PickRequest, now: Instant, c: Candidate)
    requires Sound(s) && ClosedAt(s, k) && NeverLost(s, steps, k) && CandidateIsAntigravity(r, c)
    requires Lookup(Run(s, steps), c.authIndex, c.authID, k.group) == Some(k)
    ensures var n := Run(s, steps);
            && ClosedAt(n, k) && n.entries[k].lastQuotaEvidenceAt >= s.entries[k].lastQuotaEvidenceAt
            && var at := n.entries[k].lastQuotaEvidenceAt;
            && var verdict := Judge(n, r, k.group, now, c);
            if at > 0 && at - MINUTE <= now <= at + n.config.evidenceMaxAge
            then verdict == Available(Choice(Normalized(c, n.entries[k]), None))
            else verdict == Rejected(Stale, 0)
  {
    hide Run, CandidateIsAntigravity, Lookup, Lost;
    StaysClosed(s, steps, k, |steps|);
    assert steps[..|steps|] == steps;
  }

  /** Until when a cooling breaker keeps its credential out: nothing if it awaits a manual probe. */
  function HeldUntil(e: Entry): Time {
    if e.state == Open then e.recoverAt else e.halfOpenLeaseUntil
  }

  /**
    No lockout: in a reachable state a cooling breaker holds its credential
    back exactly until a time of its own, and lends it a lease from then on.
   */
  lemma CoolingEndsInTime(s: EngineState, r: PickRequest, now: Instant, c: Candidate, k: Key)
    requires Sound(s) && CandidateIsAntigravity(r, c) && Lookup(s, c.authIndex, c.authID, k.group) == Some(k)
    requires k in s.entries && IsCooling(s.entries[k])
    ensures Judge(s, r, k.group, now, c) == if now >= HeldUntil(s.entries[k])
                                            then Available(Choice(Normalized(c, s.entries[k]), Some(k)))
                                            else Rejected(Cooling, HeldUntil(s.entries[k]))
  {
    hide CandidateIsAntigravity, Lookup, RosterSound;
    assert EntrySound(s.entries[k]);
  }
}
