/**
  Which step takes a breaker to which state: one table over all operations and
  all states, stated by what the step observes and not by the functions that
  move an entry.
 */
module Transitions {
  import opened GuardTypes
  import opened Breaker
  import opened EngineSpec
  import opened EngineRuns
  import opened Leases

  /** A usage record of this breaker's credential and group, not older than what is known, and let through by a live lease. */
  predicate Meets(s: EngineState, u: Usage, at: Instant, k: Key)
    requires k in s.entries
  {
    var e := s.entries[k];
    && u.antigravity && u.group == Some(k.group) && Lookup(s, u.authIndex, u.authID, k.group) == Some(k)
    && at >= e.lastEvidenceAt
    && (e.state == HalfOpen && e.requestID != "" ==> u.requestID == e.requestID)
  }

  /** Well-formed quota evidence for this breaker and its owner, not older than what is known. */
  predicate Proves(s: EngineState, ev: Evidence, at: Instant, k: Key)
    requires k in s.entries
  {
    var e := s.entries[k];
    && k == Key(ev.authIndex, ev.group) && ev.authIndex != "" && 0.0 <= ev.remaining <= 100.0
    && (ev.authID == "" || ev.authID == e.authID) && (ev.fingerprint == "" || ev.fingerprint == e.fingerprint)
    && at >= e.lastEvidenceAt
  }

  /** The length of the chain of 429s that one more would make. */
  function ChainWith(window: int, e: Entry, at: Instant): int {
    if e.lastFailureAt == 0 || at - e.lastFailureAt > window then 1 else e.failureCount + 1
  }

  /** Exhaustion, a full chain of 429s or any 429 while cooling, an empty quota still to reset. */
  predicate Opens(s: EngineState, step: Step, k: Key)
    requires k in s.entries
  {
    var e := s.entries[k];
    match step
    case Use(u, at) =>
      && Meets(s, u, at, k) && u.failed && u.tooManyRequests
      && (u.exhausted || e.state == Open || e.state == HalfOpen || ChainWith(s.config.window, e, at) >= s.config.threshold)
    case Probe(ev, at) => Proves(s, ev, at, k) && ev.remaining == 0.0 && ev.resetAt > at
    case _ => false
  }

  /** The lease holder's success; quota left, where nothing is known yet or the quota or an operator was the reason. */
  predicate Recovers(s: EngineState, step: Step, k: Key)
    requires k in s.entries
  {
    var e := s.entries[k];
    match step
    case Use(u, at) =>
      && Meets(s, u, at, k) && !u.failed
      && e.state == HalfOpen && e.requestID != "" && 0 < e.halfOpenStartedAt <= at
    case Probe(ev, at) =>
      && Proves(s, ev, at, k) && ev.remaining > 0.0
      && (e.state == Uninitialized || e.reason == QuotaZero || e.reason == ManualProbe)
    case _ => false
  }

  /** An operator asks for a probe of a breaker that is open, or whose lease has run out. */
  predicate Requested(s: EngineState, step: Step, k: Key)
    requires k in s.entries
  {
    var e := s.entries[k];
    && step.Manual? && k == Key(step.authIndex, step.manualGroup) && step.authIndex != ""
    && (e.state == Open || (e.state == HalfOpen && 0 < e.halfOpenLeaseUntil <= step.at))
  }

  predicate Lends(s: EngineState, step: Step, k: Key)
    requires ValidConfig(s.config)
  {
    Granted(s, step) == Some(k)
  }

  function Destination(s: EngineState, step: Step, k: Key): BreakerState
    requires k in s.entries && ValidConfig(s.config)
  {
    if !KeepsIdentity(s, step, k) then Uninitialized
    else if Opens(s, step, k) then Open
    else if Recovers(s, step, k) then Closed
    else if Lends(s, step, k) || Requested(s, step, k) then HalfOpen
    else s.entries[k].state
  }

  /** One piece of evidence on one entry. */
  lemma EvidenceMoves(e: Entry, ev: Evidence, at: Instant)
    requires EntrySound(e) && ev.remaining >= 0.0
    ensures var n := WithEvidence(e, ev, at);
            var accepted := (ev.authID == "" || ev.authID == e.authID) && (ev.fingerprint == "" || ev.fingerprint == e.fingerprint)
                            && at >= e.lastEvidenceAt;
            n.state ==
              if accepted && ev.remaining == 0.0 && ev.resetAt > at then Open
              else if accepted && ev.remaining > 0.0
                      && (e.state == Uninitialized || e.reason == QuotaZero || e.reason == ManualProbe) then Closed
              else e.state
  {
  }

  lemma EvidenceStores(s: EngineState, ev: Evidence, at: Instant, k: Key)
    requires k in s.entries
    ensures var n := EvidenceNext(s, ev, at);
            && k in n.entries
            && n.entries[k] == if k == Key(ev.authIndex, ev.group) && ValidEvidence(ev) then WithEvidence(s.entries[k], ev, at) else s.entries[k]
  {
    hide WithEvidence;
  }

  lemma ProbeMoves(s: EngineState, ev: Evidence, at: Instant, k: Key)
    requires Sound(s) && k in s.entries
    ensures var n := EvidenceNext(s, ev, at);
            k in n.entries && n.entries[k].state == Destination(s, Probe(ev, at), k)
  {
    hide RosterSound, EntrySound, WithEvidence, EvidenceNext, Selected, LoopGroup;
    assert EntrySound(s.entries[k]);
    EvidenceStores(s, ev, at, k);
    if k == Key(ev.authIndex, ev.group) && ValidEvidence(ev) {
      EvidenceMoves(s.entries[k], ev, at);
    }
  }

  /** One usage record on one entry. */
  lemma UsageMoves(c: Config, e: Entry, u: Usage, at: Instant)
    requires ValidConfig(c) && EntrySound(e)
    ensures var n := WithUsage(c, e, u, at);
            var accepted := at >= e.lastEvidenceAt && (e.state == HalfOpen && e.requestID != "" ==> u.requestID == e.requestID);
            n.state ==
              if accepted && u.failed && u.tooManyRequests
                 && (u.exhausted || e.state == Open || e.state == HalfOpen || ChainWith(c.window, e, at) >= c.threshold) then Open
              else if accepted && !u.failed && e.state == HalfOpen && e.requestID != "" && 0 < e.halfOpenStartedAt <= at then Closed
              else e.state
  {
  }

  lemma TargetOf(s: EngineState, u: Usage, k: Key)
    ensures UsageTarget(s, u) == Some(k)
            <==> u.antigravity && u.group == Some(k.group) && Lookup(s, u.authIndex, u.authID, k.group) == Some(k)
  {
  }

  lemma UsageStores(s: EngineState, u: Usage, at: Instant, k: Key)
    requires ValidConfig(s.config) && k in s.entries
    ensures var n := UsageNext(s, u, at);
            && k in n.entries
            && n.entries[k] == if UsageTarget(s, u) == Some(k) then WithUsage(s.config, s.entries[k], u, at) else s.entries[k]
  {
    hide WithUsage, UsageTarget;
  }

  lemma UseMoves(s: EngineState, u: Usage, at: Instant, k: Key)
    requires Sound(s) && k in s.entries
    ensures var n := UsageNext(s, u, at);
            k in n.entries && n.entries[k].state == Destination(s, Use(u, at), k)
  {
    hide RosterSound, EntrySound, WithUsage, UsageTarget, Lookup, UsageNext, Selected, LoopGroup;
    assert EntrySound(s.entries[k]);
    UsageStores(s, u, at, k);
    TargetOf(s, u, k);
    UsageMoves(s.config, s.entries[k], u, at);
  }

  lemma PickMoves(s: EngineState, r: PickRequest, at: Instant, k: Key)
    requires Sound(s) && k in s.entries
    ensures var n := PickNext(s, r, at);
            k in n.entries && n.entries[k].state == Destination(s, Pick(r, at), k)
  {
    hide RosterSound, EntriesSound, Selected;
    if Granted(s, Pick(r, at)).Some? {
      SelectedLease(s, r, r.group.value, at);
    }
  }

  lemma ManualMoves(s: EngineState, index: string, g: Group, at: Instant, k: Key)
    requires Sound(s) && k in s.entries
    ensures var n := ManualNext(s, index, g, at);
            k in n.entries && n.entries[k].state == Destination(s, Manual(index, g, at), k)
  {
    hide RosterSound, EntriesSound, Selected, LoopGroup, KeepsIdentity;
    assert KeepsIdentity(s, Manual(index, g, at), k) by { OthersKeepIdentity(s, Manual(index, g, at), k); }
  }

  lemma OthersKeepIdentity(s: EngineState, step: Step, k: Key)
    requires k in s.entries && !step.Roster? && !step.Register?
    ensures KeepsIdentity(s, step, k)
  {
  }

  /**
    What one step makes of the state of a breaker, whatever the step and
    whatever the state. A credential that loses its index loses its breaker
    or finds a new one there.
   */
  lemma StateAfter(s: EngineState, step: Step, k: Key)
    requires Sound(s) && k in s.entries
    ensures k in Next(s, step).entries ==> Next(s, step).entries[k].state == Destination(s, step, k)
    ensures KeepsIdentity(s, step, k) ==> k in Next(s, step).entries
  {
    hide RosterNext, RegisterNext, EvidenceNext, UsageNext, PickNext, ManualNext, RosterSound, EntriesSound, EntrySound;
    match step
    case Roster(_, _) => RosterOutcome(s, step, k);
    case Register(_, _) => RosterOutcome(s, step, k);
    case Probe(ev, at) => ProbeMoves(s, ev, at, k);
    case ProbeError =>
    case Use(u, at) => UseMoves(s, u, at, k);
    case Pick(r, at) => PickMoves(s, r, at, k);
    case Manual(index, g, at) => ManualMoves(s, index, g, at, k);
    case Restart(_) =>
  }

  // ------------------------------------------------------------- what is left alone

  predicate SameCooldown(a: Entry, b: Entry) {
    a.state == b.state && a.reason == b.reason && a.openedAt == b.openedAt && a.recoverAt == b.recoverAt && a.resetAt == b.resetAt
  }

  /**
    An open breaker leaves that state only for a lease, at an operator's
    request, with its credential, or for quota left over if an empty quota had
    opened it. Other evidence with quota left, and every other step that does
    not open it anew, leaves the whole cooldown as it is.
   */
  lemma OpenStep(s: EngineState, step: Step, k: Key)
    requires Sound(s) && k in s.entries && s.entries[k].state == Open
    ensures var n := Next(s, step);
            var restored := step.Probe? && Proves(s, step.evidence, step.at, k) && step.evidence.remaining > 0.0
                            && s.entries[k].reason == QuotaZero;
            && (k in n.entries && n.entries[k].state == Open
                <==> KeepsIdentity(s, step, k) && !Lends(s, step, k) && !Requested(s, step, k) && !restored)
            && (k in n.entries && n.entries[k].state == Open && !Opens(s, step, k) ==> SameCooldown(s.entries[k], n.entries[k]))
  {
    hide Next, Opens, Recovers, Lends, Requested, KeepsIdentity, Proves, SameCooldown, RosterSound, EntriesSound;
    StateAfter(s, step, k);
    SpecialSteps(s, step, k);
    if !Opens(s, step, k) {
      CooldownStays(s, step, k);
    }
  }

  /** Which of the ways out an open breaker can take. */
  lemma SpecialSteps(s: EngineState, step: Step, k: Key)
    requires Sound(s) && k in s.entries && s.entries[k].state == Open
    ensures Opens(s, step, k) ==> KeepsIdentity(s, step, k) && !Lends(s, step, k) && !Requested(s, step, k) && !Recovers(s, step, k)
    ensures Recovers(s, step, k) <==> step.Probe? && Proves(s, step.evidence, step.at, k) && step.evidence.remaining > 0.0
                                      && s.entries[k].reason == QuotaZero
    ensures Lends(s, step, k) || Requested(s, step, k) || Recovers(s, step, k) ==> KeepsIdentity(s, step, k)
  {
    assert EntrySound(s.entries[k]);
    hide RosterSound, EntriesSound, Meets, Proves, Selected, LoopGroup;
  }

  lemma CooldownStays(s: EngineState, step: Step, k: Key)
    requires Sound(s) && k in s.entries && s.entries[k].state == Open && !Opens(s, step, k)
    ensures k in Next(s, step).entries && Next(s, step).entries[k].state == Open ==> SameCooldown(s.entries[k], Next(s, step).entries[k])
  {
    hide RosterNext, RegisterNext, EvidenceNext, UsageNext, PickNext, RosterSound, EntriesSound, EntrySound, KeepsIdentity, Opens;
    match step
    case Roster(_, _) => RosterOutcome(s, step, k);
    case Register(_, _) => RosterOutcome(s, step, k);
    case Probe(ev, at) => ProbeKeepsCooldown(s, ev, at, k);
    case Use(u, at) => UseKeepsCooldown(s, u, at, k);
    case Pick(r, at) =>
      PickKeepsCooldown(s, r, at, k);
      if Lends(s, step, k) {
        LentIsNotOpen(s, r, at, k);
      }
    case _ =>
  }

  lemma LentIsNotOpen(s: EngineState, r: PickRequest, at: Instant, k: Key)
    requires Sound(s) && k in s.entries && Lends(s, Pick(r, at), k)
    ensures Next(s, Pick(r, at)).entries[k].state == HalfOpen
  {
    hide Next, RosterSound, EntriesSound;
    StateAfter(s, Pick(r, at), k);
  }

  lemma ProbeKeepsCooldown(s: EngineState, ev: Evidence, at: Instant, k: Key)
    requires EntriesSound(s) && k in s.entries && s.entries[k].state == Open
    ensures var n := EvidenceNext(s, ev, at);
            && k in n.entries
            && (n.entries[k].state == Open && !Opens(s, Probe(ev, at), k) ==> SameCooldown(s.entries[k], n.entries[k]))
  {
    EvidenceStores(s, ev, at, k);
    assert EntrySound(s.entries[k]);
    hide EntriesSound, EvidenceNext;
  }

  lemma UseKeepsCooldown(s: EngineState, u: Usage, at: Instant, k: Key)
    requires ValidConfig(s.config) && k in s.entries && s.entries[k].state == Open
    ensures k in UsageNext(s, u, at).entries
    ensures !Opens(s, Use(u, at), k) ==> SameCooldown(s.entries[k], UsageNext(s, u, at).entries[k])
  {
    hide Lookup;
    TargetOf(s, u, k);
  }

  lemma PickKeepsCooldown(s: EngineState, r: PickRequest, at: Instant, k: Key)
    requires ValidConfig(s.config) && k in s.entries
    ensures k in PickNext(s, r, at).entries
    ensures !Lends(s, Pick(r, at), k) ==> PickNext(s, r, at).entries[k] == s.entries[k]
  {
    hide Selected, LoopGroup;
  }
}
