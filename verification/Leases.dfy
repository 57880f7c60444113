/**
  The half-open lease: what ends one, and that two grants on the same breaker
  are never both live.
 */
module Leases {
  import opened GuardTypes
  import opened Breaker
  import opened EngineSpec
  import opened EngineRuns

  predicate Holds(s: EngineState, k: Key, start: Time, until: Time) {
    && k in s.entries
    && s.entries[k].state == HalfOpen
    && s.entries[k].halfOpenStartedAt == start > 0
    && s.entries[k].halfOpenLeaseUntil == until
  }

  /** The breaker on which a step grants a half-open lease. */
  function Granted(s: EngineState, step: Step): Option<Key>
    requires ValidConfig(s.config)
  {
    if step.Pick? && step.request.mode == Enforce && LoopGroup(step.request).Some? then
      match Selected(s, step.request, step.request.group.value, step.at)
      case Some(choice) => choice.lease
      case None => None
    else None
  }

  predicate KeepsIdentity(s: EngineState, step: Step, k: Key)
    requires k in s.entries
  {
    var e := s.entries[k];
    match step
    case Roster(ids, _) =>
      NormalizeRoster(ids).Some? ==>
        exists id :: id in NormalizeRoster(ids).value && id.authIndex == k.authIndex && id.authID == e.authID && id.fingerprint == e.fingerprint
    case Register(id, _) =>
      !RegisterRefused(s, id) && id.authIndex == k.authIndex ==>
        id.authID == e.authID && NormalizeIdentity(id).value.fingerprint == e.fingerprint
    case _ => true
  }

  /** What ends a lease: a 429 its fence lets through, the success of its own holder, fresh evidence, a roster change. */
  predicate Ends(s: EngineState, step: Step, k: Key)
    requires k in s.entries
  {
    var e := s.entries[k];
    match step
    case Use(u, at) =>
      && UsageTarget(s, u) == Some(k) && at >= e.lastEvidenceAt
      && (if u.failed then u.tooManyRequests && (e.requestID == "" || u.requestID == e.requestID)
          else e.requestID != "" && u.requestID == e.requestID && at >= e.halfOpenStartedAt)
    case Probe(ev, at) =>
      && Key(ev.authIndex, ev.group) == k && ValidEvidence(ev) && Concerns(e, ev) && at >= e.lastEvidenceAt
      && (if ev.remaining <= 0.0 then ev.resetAt > at else e.reason == QuotaZero || e.reason == ManualProbe)
    case _ => !KeepsIdentity(s, step, k)
  }

  predicate OnClock(step: Step) {
    step.Pick? || step.Manual?
  }

  predicate KeptOrReset(s: EngineState, n: EngineState, k: Key, keeps: bool)
    requires k in s.entries
  {
    if keeps then
      k in n.entries && n.entries[k] == s.entries[k].(provider := n.entries[k].provider, priority := n.entries[k].priority)
    else k in n.entries ==> n.entries[k].state == Uninitialized
  }

  lemma ReplaceOutcome(s: EngineState, items: seq<Identity>, k: Key)
    requires RosterSound(s) && ProperRoster(items) && k in s.entries
    ensures var e := s.entries[k];
            KeptOrReset(s, s.(entries := RosterEntries(s.entries, items)), k,
                        exists id :: id in items && id.authIndex == k.authIndex && id.authID == e.authID && id.fingerprint == e.fingerprint)
  {
    var e := s.entries[k];
    var entries := RosterEntries(s.entries, items);
    if k in entries {
      var i := RosterEntrySource(s.entries, items, k);
      RosterEntryOf(s.entries, items, i, k.group);
      assert items[i] in items;
      assert forall id :: id in items && id.authIndex == k.authIndex ==> id == items[i];
    } else if id :| id in items && id.authIndex == k.authIndex {
      var i :| 0 <= i < |items| && items[i] == id;
      RosterEntryOf(s.entries, items, i, k.group);
    }
  }

  /** A roster or registration keeps the breaker of a kept identity, priority and provider aside, and resets any other. */
  lemma RosterOutcome(s: EngineState, step: Step, k: Key)
    requires Sound(s) && k in s.entries && (step.Roster? || step.Register?)
    ensures KeptOrReset(s, Next(s, step), k, KeepsIdentity(s, step, k))
  {
    hide RosterNext, RegisterNext, KeptOrReset, EntriesSound, RosterSound;
    match step
    case Roster(ids, at) => ReplacementOutcome(s, ids, at, k);
    case Register(id, at) => RegistrationOutcome(s, id, at, k);
  }

  lemma ReplacementOutcome(s: EngineState, ids: seq<Identity>, at: Instant, k: Key)
    requires Sound(s) && k in s.entries
    ensures KeptOrReset(s, RosterNext(s, ids, at), k, KeepsIdentity(s, Roster(ids, at), k))
  {
    hide NormalizeRoster, RosterEntries, RosterSound, EntriesSound, ProperRoster;
    if NormalizeRoster(ids).Some? {
      NormalizedIsProper(ids);
      ReplaceOutcome(s, NormalizeRoster(ids).value, k);
      assert RosterNext(s, ids, at).entries == RosterEntries(s.entries, NormalizeRoster(ids).value);
    }
  }

  lemma RegistrationOutcome(s: EngineState, id: Identity, at: Instant, k: Key)
    requires Sound(s) && k in s.entries
    ensures KeptOrReset(s, RegisterNext(s, id, at), k, KeepsIdentity(s, Register(id, at), k))
  {
    if !RegisterRefused(s, id) {
      RegisteredAt(s, NormalizeIdentity(id).value, k);
      hide WithIdentity, WithoutIndex, RosterSound, EntriesSound;
      assert RegisterNext(s, id, at).entries == WithIdentity(s.entries, s.entries, NormalizeIdentity(id).value);
    }
  }

  lemma PickSparesLive(s: EngineState, r: PickRequest, at: Instant, k: Key)
    requires Sound(s) && k in s.entries && !Probeable(s.entries[k], at)
    ensures var n := PickNext(s, r, at); k in n.entries && n.entries[k] == s.entries[k]
  {
    if LoopGroup(r).Some? && Selected(s, r, r.group.value, at).Some? {
      SelectedLease(s, r, r.group.value, at);
    }
  }

  /** A step before the lease's end leaves the lease in place exactly when it is not one of those that end it. */
  lemma LeaseStep(s: EngineState, step: Step, k: Key, start: Time, until: Time)
    requires Sound(s) && Holds(s, k, start, until)
    requires OnClock(step) ==> step.at < until
    ensures Holds(Next(s, step), k, start, until) <==> !Ends(s, step, k)
  {
    hide RosterNext, RegisterNext, EvidenceNext, UsageNext, PickNext, RosterSound;
    assert EntrySound(s.entries[k]);
    match step
    case Roster(_, _) => RosterOutcome(s, step, k);
    case Register(_, _) => RosterOutcome(s, step, k);
    case Probe(ev, at) => LeaseUnderProbe(s, ev, at, k, start, until);
    case ProbeError =>
    case Use(u, at) => LeaseUnderUse(s, u, at, k, start, until);
    case Pick(r, at) => PickSparesLive(s, r, at, k);
    case Manual(index, g, at) =>
    case Restart(_) =>
  }

  lemma LeaseUnderProbe(s: EngineState, ev: Evidence, at: Instant, k: Key, start: Time, until: Time)
    requires EntriesSound(s) && Holds(s, k, start, until)
    ensures Holds(EvidenceNext(s, ev, at), k, start, until) <==> !Ends(s, Probe(ev, at), k)
  {
    assert EntrySound(s.entries[k]);
  }

  lemma LeaseUnderUse(s: EngineState, u: Usage, at: Instant, k: Key, start: Time, until: Time)
    requires ValidConfig(s.config) && EntriesSound(s) && Holds(s, k, start, until)
    ensures Holds(UsageNext(s, u, at), k, start, until) <==> !Ends(s, Use(u, at), k)
  {
    hide UsageTarget;
    assert EntrySound(s.entries[k]);
  }

  lemma GrantHolds(s: EngineState, step: Step, k: Key)
    requires Sound(s) && Granted(s, step) == Some(k)
    ensures k in s.entries && Probeable(s.entries[k], step.at)
    ensures Holds(Next(s, step), k, step.at, step.at + s.config.halfOpenLease)
  {
    SelectedLease(s, step.request, step.request.group.value, step.at);
  }

  predicate ClockNeverGoesBack(steps: seq<Step>) {
    forall a, b :: 0 <= a < b < |steps| && OnClock(steps[a]) && OnClock(steps[b]) ==> steps[a].at <= steps[b].at
  }

  /** Step m finds the lease in place and ends it. */
  ghost predicate EndedAt(s: EngineState, steps: seq<Step>, m: nat, k: Key, start: Time, until: Time)
    requires ValidConfig(s.config) && m < |steps|
  {
    Holds(Before(s, steps, m), k, start, until) && Ends(Before(s, steps, m), steps[m], k)
  }

  /** A lease granted at step i runs for the lease length configured at that step. */
  function LeaseEnd(s: EngineState, steps: seq<Step>, i: nat): Time
    requires ValidConfig(s.config) && i < |steps| && OnClock(steps[i])
  {
    steps[i].at + Before(s, steps, i).config.halfOpenLease
  }

  lemma LeaseStarts(s: EngineState, steps: seq<Step>, i: nat, k: Key)
    requires Sound(s) && i < |steps| && Granted(Before(s, steps, i), steps[i]) == Some(k)
    ensures Holds(Before(s, steps, i + 1), k, steps[i].at, LeaseEnd(s, steps, i))
  {
    RunKeepsSound(s, steps[..i]);
    BeforeNext(s, steps, i);
    GrantHolds(Before(s, steps, i), steps[i], k);
  }

  lemma LeaseContinues(s: EngineState, steps: seq<Step>, m: nat, k: Key, start: Time, until: Time)
    requires Sound(s) && m < |steps| && Holds(Before(s, steps, m), k, start, until)
    requires OnClock(steps[m]) ==> steps[m].at < until
    ensures Holds(Before(s, steps, m + 1), k, start, until) || EndedAt(s, steps, m, k, start, until)
  {
    RunKeepsSound(s, steps[..m]);
    BeforeNext(s, steps, m);
    LeaseStep(Before(s, steps, m), steps[m], k, start, until);
  }

  predicate Overrun(steps: seq<Step>, x: int, until: Time) {
    0 <= x < |steps| && OnClock(steps[x]) && steps[x].at >= until
  }

  lemma {:induction false} LeasePersists(s: EngineState, steps: seq<Step>, i: nat, m: nat, k: Key)
    requires Sound(s) && i < m <= |steps| && Granted(Before(s, steps, i), steps[i]) == Some(k)
    ensures var start, until := steps[i].at, LeaseEnd(s, steps, i);
            || Holds(Before(s, steps, m), k, start, until)
            || (exists x :: i < x < m && EndedAt(s, steps, x, k, start, until))
            || (exists x :: i < x < m && Overrun(steps, x, until))
    decreases m
  {
    hide Run;
    var start, until := steps[i].at, LeaseEnd(s, steps, i);
    if m == i + 1 {
      LeaseStarts(s, steps, i, k);
    } else {
      LeasePersists(s, steps, i, m - 1, k);
      if Holds(Before(s, steps, m - 1), k, start, until) && !Overrun(steps, m - 1, until) {
        LeaseContinues(s, steps, m - 1, k, start, until);
      }
    }
  }

  /**
    On any run whose scheduler clock does not go back, a second lease on the
    same breaker is granted only once the first has expired, or after a step
    that ended it.
   */
  lemma NoTwoLiveLeases(s: EngineState, steps: seq<Step>, i: nat, j: nat, k: Key)
    requires Sound(s) && ClockNeverGoesBack(steps) && i < j < |steps|
    requires Granted(Before(s, steps, i), steps[i]) == Some(k)
    requires Granted(Before(s, steps, j), steps[j]) == Some(k)
    ensures var start, until := steps[i].at, LeaseEnd(s, steps, i);
            || steps[j].at >= until
            || exists m :: i < m < j && EndedAt(s, steps, m, k, start, until)
  {
    LeasePersists(s, steps, i, j, k);
    RunKeepsSound(s, steps[..j]);
    GrantHolds(Before(s, steps, j), steps[j], k);
  }
}
