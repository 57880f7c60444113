/**
  How long each observation keeps a credential out: from what a usage record or
  a probe says to when picks hold the credential back and when they lend it,
  again without the functions that move an entry.
 */
module Cooldowns {
  import opened GuardTypes
  import opened Breaker
  import opened EngineSpec
  import opened EngineRuns
  import opened Leases
  import opened Answers
  import opened Availability
  import opened Transitions

  /** Every Antigravity candidate that resolves to k is held back until a time and lent the half-open lease from then on. */
  ghost predicate HeldBack(s: EngineState, k: Key, until: Time) {
    forall r, now: Instant, c ::
      CandidateIsAntigravity(r, c) && Lookup(s, c.authIndex, c.authID, k.group) == Some(k) ==>
        var verdict := Judge(s, r, k.group, now, c);
        if now < until then verdict == Rejected(Cooling, until)
        else verdict.Available? && verdict.choice.lease == Some(k)
  }

  lemma OpenIsHeldBack(s: EngineState, k: Key)
    requires Sound(s) && k in s.entries && s.entries[k].state == Open
    ensures HeldBack(s, k, s.entries[k].recoverAt)
  {
    hide Judge, CandidateIsAntigravity, Lookup, RosterSound, EntriesSound;
    forall r, now: Instant, c | CandidateIsAntigravity(r, c) && Lookup(s, c.authIndex, c.authID, k.group) == Some(k)
      ensures var verdict := Judge(s, r, k.group, now, c);
              if now < s.entries[k].recoverAt then verdict == Rejected(Cooling, s.entries[k].recoverAt)
              else verdict.Available? && verdict.choice.lease == Some(k)
    {
      CoolingEndsInTime(s, r, now, c, k);
    }
  }

  predicate Hard(e: Entry, at: Time) {
    e.state == Open && at < e.recoverAt && (e.reason == QuotaZero || e.reason == Explicit429)
  }

  function Latest(a: Time, b: Time): Time {
    if a < b then b else a
  }

  /** One explicit exhaustion on one entry. */
  lemma ExplicitEntry(c: Config, e: Entry, u: Usage, at: Instant)
    requires ValidConfig(c) && u.failed && u.tooManyRequests && u.exhausted && at >= e.lastEvidenceAt
    requires e.state == HalfOpen && e.requestID != "" ==> u.requestID == e.requestID
    ensures var n := WithUsage(c, e, u, at);
            var stated := if u.reset.Some? && u.reset.value > at then u.reset.value else at + c.maxCooldown;
            && n.recoverAt == n.resetAt == (if Hard(e, at) then Latest(e.recoverAt, stated) else stated)
            && n.state == Open && n.openedAt == n.lastEvidenceAt == n.lastFailureAt == at
            && n.reason == (if Hard(e, at) && e.reason == QuotaZero then QuotaZero else Explicit429)
            && n.failureCount == e.failureCount + 1 && n.source == "usage_429"
            && n.lastQuotaEvidenceAt == e.lastQuotaEvidenceAt && n.remaining == e.remaining
  {
  }

  /**
    An exhaustion that names its reset keeps the credential out until then; one
    that does not, for the maximal cooldown; a hard cooldown still running is
    never cut short, and an empty quota remains the reason.
   */
  lemma ExplicitHolds(s: EngineState, u: Usage, at: Instant, k: Key)
    requires Sound(s) && k in s.entries && Meets(s, u, at, k) && u.failed && u.tooManyRequests && u.exhausted
    ensures var e, n := s.entries[k], Next(s, Use(u, at));
            var stated := if u.reset.Some? && u.reset.value > at then u.reset.value else at + s.config.maxCooldown;
            var until := if Hard(e, at) then Latest(e.recoverAt, stated) else stated;
            && k in n.entries && n.entries[k].state == Open
            && n.entries[k].recoverAt == n.entries[k].resetAt == until
            && n.entries[k].openedAt == n.entries[k].lastEvidenceAt == n.entries[k].lastFailureAt == at
            && n.entries[k].reason == (if Hard(e, at) && e.reason == QuotaZero then QuotaZero else Explicit429)
            && HeldBack(n, k, until)
  {
    hide WithUsage, Lookup, RosterSound, EntriesSound, HeldBack;
    TargetOf(s, u, k);
    ExplicitEntry(s.config, s.entries[k], u, at);
    StepKeepsSound(s, Use(u, at));
    OpenIsHeldBack(Next(s, Use(u, at)), k);
  }

  /** One generic 429 on one entry. */
  lemma GenericEntry(c: Config, e: Entry, u: Usage, at: Instant)
    requires ValidConfig(c) && EntrySound(e) && u.failed && u.tooManyRequests && !u.exhausted && at >= e.lastEvidenceAt
    requires e.state == HalfOpen && e.requestID != "" ==> u.requestID == e.requestID
    ensures var n := WithUsage(c, e, u, at);
            var chain := ChainWith(c.window, e, at);
            var stated := if u.reset.Some? then u.reset.value else 0;
            var again := e.state == Open || e.state == HalfOpen;
            && n.failureCount == chain && n.source == "usage_429" && n.lastFailureAt == n.lastEvidenceAt == at
            && n.lastQuotaEvidenceAt == e.lastQuotaEvidenceAt && n.remaining == e.remaining
            && if Hard(e, at) || !(again || chain >= c.threshold) then SameCooldown(e, n)
               else && n.state == Open && n.reason == Generic429 && n.openedAt == at && n.resetAt == stated
                    && n.recoverAt == Latest(stated, at + (if again || chain > c.threshold then c.maxCooldown else c.initialCooldown))
  {
  }

  /**
    A generic 429 never replaces a hard cooldown still running. Otherwise the
    one that completes the chain keeps the credential out for the initial
    cooldown, one on a cooling breaker for the maximal one, or until the reset
    it names if that is later.
   */
  lemma GenericHolds(s: EngineState, u: Usage, at: Instant, k: Key)
    requires Sound(s) && AllTuned(s) && k in s.entries && Meets(s, u, at, k) && u.failed && u.tooManyRequests && !u.exhausted
    ensures var e, n := s.entries[k], Next(s, Use(u, at));
            var again := e.state == Open || e.state == HalfOpen;
            var stated := if u.reset.Some? then u.reset.value else 0;
            var until := if Hard(e, at) then e.recoverAt
                         else Latest(stated, at + (if again then s.config.maxCooldown else s.config.initialCooldown));
            && k in n.entries && n.entries[k].lastFailureAt == n.entries[k].lastEvidenceAt == at
            && n.entries[k].failureCount == ChainWith(s.config.window, e, at)
            && if again || ChainWith(s.config.window, e, at) >= s.config.threshold
               then && n.entries[k].state == Open && n.entries[k].recoverAt == until && HeldBack(n, k, until)
                    && (if Hard(e, at) then SameCooldown(e, n.entries[k]) else n.entries[k].reason == Generic429)
               else SameCooldown(e, n.entries[k])
  {
    hide WithUsage, UsageNext, Lookup, RosterSound, EntrySound, HeldBack, SameCooldown;
    assert EntrySound(s.entries[k]) && Tuned(s.config, s.entries[k]);
    TargetOf(s, u, k);
    UsageStores(s, u, at, k);
    GenericEntry(s.config, s.entries[k], u, at);
    StepKeepsSound(s, Use(u, at));
    hide EntriesSound, AllTuned;
    var n := Next(s, Use(u, at));
    if n.entries[k].state == Open {
      OpenIsHeldBack(n, k);
    }
    SameCooldownState(s.entries[k], n.entries[k]);
    ChainIsTuned(s.config, s.entries[k], at);
  }

  lemma SameCooldownState(a: Entry, b: Entry)
    ensures SameCooldown(a, b) ==> a.state == b.state && a.recoverAt == b.recoverAt
  {
  }

  lemma ChainIsTuned(c: Config, e: Entry, at: Instant)
    requires Tuned(c, e) && ValidConfig(c)
    ensures e.state != Open && e.state != HalfOpen ==> ChainWith(c.window, e, at) <= c.threshold
  {
  }

  /** One piece of evidence on one entry. */
  lemma EvidenceEntry(e: Entry, ev: Evidence, at: Instant)
    requires (ev.authID == "" || ev.authID == e.authID) && (ev.fingerprint == "" || ev.fingerprint == e.fingerprint)
    requires at >= e.lastEvidenceAt && EntrySound(e)
    ensures var n := WithEvidence(e, ev, at);
            && n.remaining == Some(ev.remaining) && n.lastEvidenceAt == n.lastQuotaEvidenceAt == at
            && n.source == (if ev.source == "" then "quota_probe" else ev.source)
            && (ev.remaining <= 0.0 && ev.resetAt > at ==>
                  n.state == Open && n.reason == QuotaZero && n.openedAt == at && n.recoverAt == n.resetAt == ev.resetAt)
            && (e.state == Closed || (ev.remaining <= 0.0 && ev.resetAt > at) ==>
                  n.failureCount == e.failureCount && n.lastFailureAt == e.lastFailureAt)
  {
  }

  /** Evidence of an empty quota still to reset keeps the credential out until that reset. */
  lemma EmptyQuotaHolds(s: EngineState, ev: Evidence, at: Instant, k: Key)
    requires Sound(s) && k in s.entries && Proves(s, ev, at, k) && ev.remaining == 0.0 && ev.resetAt > at
    ensures var n := Next(s, Probe(ev, at));
            && k in n.entries && n.entries[k].state == Open && n.entries[k].reason == QuotaZero
            && n.entries[k].openedAt == at && n.entries[k].recoverAt == n.entries[k].resetAt == ev.resetAt
            && n.entries[k].remaining == Some(ev.remaining) && n.entries[k].lastEvidenceAt == n.entries[k].lastQuotaEvidenceAt == at
            && n.entries[k].failureCount == s.entries[k].failureCount && n.entries[k].lastFailureAt == s.entries[k].lastFailureAt
            && HeldBack(n, k, ev.resetAt)
  {
    hide WithEvidence, RosterSound, EntrySound, HeldBack;
    assert EntrySound(s.entries[k]);
    EvidenceEntry(s.entries[k], ev, at);
    StepKeepsSound(s, Probe(ev, at));
    OpenIsHeldBack(Next(s, Probe(ev, at)), k);
  }

  /** Every Antigravity candidate that resolves to k is served without a lease while its evidence is young enough, and never afterwards. */
  ghost predicate ServedFrom(s: EngineState, k: Key, evidenceAt: Time) {
    forall r, now: Instant, c ::
      CandidateIsAntigravity(r, c) && Lookup(s, c.authIndex, c.authID, k.group) == Some(k) ==>
        var verdict := Judge(s, r, k.group, now, c);
        if evidenceAt > 0 && evidenceAt - MINUTE <= now <= evidenceAt + s.config.evidenceMaxAge
        then verdict.Available? && verdict.choice.lease == None
        else verdict == Rejected(Stale, 0)
  }

  lemma ClosedIsServed(s: EngineState, k: Key)
    requires ValidConfig(s.config) && k in s.entries && s.entries[k].state == Closed
    ensures ServedFrom(s, k, s.entries[k].lastQuotaEvidenceAt)
  {
    hide CandidateIsAntigravity, Lookup;
  }

  /**
    Accepted evidence is recorded with its time, so it serves a breaker that it
    leaves or makes closed from a minute before it until it is too old.
   */
  lemma EvidenceServes(s: EngineState, ev: Evidence, at: Instant, k: Key)
    requires Sound(s) && k in s.entries && Proves(s, ev, at, k)
    requires ev.remaining > 0.0 || ev.resetAt <= at
    ensures var e, n := s.entries[k], Next(s, Probe(ev, at));
            && k in n.entries && n.entries[k].remaining == Some(ev.remaining)
            && n.entries[k].lastEvidenceAt == n.entries[k].lastQuotaEvidenceAt == at
            && (e.state == Closed ==> n.entries[k].failureCount == e.failureCount && n.entries[k].lastFailureAt == e.lastFailureAt)
            && (e.state == Closed
                || (ev.remaining > 0.0 && (e.state == Uninitialized || e.reason == QuotaZero || e.reason == ManualProbe)) ==>
                  n.entries[k].state == Closed && ServedFrom(n, k, at))
  {
    StateAfter(s, Probe(ev, at), k);
    hide WithEvidence, RosterSound, EntrySound, ServedFrom;
    assert EntrySound(s.entries[k]);
    EvidenceEntry(s.entries[k], ev, at);
    if Next(s, Probe(ev, at)).entries[k].state == Closed {
      ClosedIsServed(Next(s, Probe(ev, at)), k);
    }
  }

  /**
    The lease holder's success closes the breaker and forgets its failures, and
    its credential is served again as long as the last quota evidence is young.
   */
  lemma SuccessServes(s: EngineState, u: Usage, at: Instant, k: Key)
    requires Sound(s) && k in s.entries && Meets(s, u, at, k) && !u.failed
    requires s.entries[k].state == HalfOpen && s.entries[k].requestID != "" && 0 < s.entries[k].halfOpenStartedAt <= at
    ensures var n := Next(s, Use(u, at));
            && k in n.entries && n.entries[k].state == Closed && n.entries[k].failureCount == 0
            && n.entries[k].remaining == s.entries[k].remaining && n.entries[k].source == "usage_success"
            && n.entries[k].lastEvidenceAt == at && n.entries[k].lastQuotaEvidenceAt == s.entries[k].lastQuotaEvidenceAt
            && ServedFrom(n, k, s.entries[k].lastQuotaEvidenceAt)
  {
    hide Lookup, RosterSound, EntriesSound, ServedFrom;
    TargetOf(s, u, k);
    ClosedIsServed(Next(s, Use(u, at)), k);
  }

  /** A success that ends no lease only ends the chain of 429s of a closed breaker. */
  lemma SuccessEndsChain(s: EngineState, u: Usage, at: Instant, k: Key)
    requires Sound(s) && k in s.entries && Meets(s, u, at, k) && !u.failed && s.entries[k].state != HalfOpen
    ensures var e, n := s.entries[k], Next(s, Use(u, at));
            k in n.entries && n.entries[k] == if e.state == Closed then e.(failureCount := 0, lastFailureAt := 0) else e
  {
    hide Lookup, RosterSound, EntrySound;
    assert EntrySound(s.entries[k]);
    TargetOf(s, u, k);
    LateEnough(s.entries[k], at);
  }

  lemma LateEnough(e: Entry, at: Instant)
    requires EntrySound(e) && at >= e.lastEvidenceAt
    ensures at >= e.lastFailureAt
  {
  }

  /** Failures other than 429s, and records that are late, fenced off or about others, leave a breaker alone. */
  lemma OtherUsageIsIgnored(s: EngineState, u: Usage, at: Instant, k: Key)
    requires Sound(s) && k in s.entries && (!Meets(s, u, at, k) || (u.failed && !u.tooManyRequests))
    ensures k in Next(s, Use(u, at)).entries && Next(s, Use(u, at)).entries[k] == s.entries[k]
  {
    hide Lookup, RosterSound, EntriesSound;
    TargetOf(s, u, k);
    UsageStores(s, u, at, k);
    hide UsageNext;
  }

  /** Evidence that is malformed, late or about another credential leaves a breaker alone. */
  lemma OtherEvidenceIsIgnored(s: EngineState, ev: Evidence, at: Instant, k: Key)
    requires Sound(s) && k in s.entries && !Proves(s, ev, at, k)
    ensures k in Next(s, Probe(ev, at)).entries && Next(s, Probe(ev, at)).entries[k] == s.entries[k]
  {
    hide RosterSound, EntriesSound;
    EvidenceStores(s, ev, at, k);
    hide EvidenceNext;
  }

  /** A lease leaves everything else about the breaker as it is. */
  predicate SameButLease(a: Entry, b: Entry) {
    && a.reason == b.reason && a.openedAt == b.openedAt && a.recoverAt == b.recoverAt && a.resetAt == b.resetAt
    && a.failureCount == b.failureCount && a.lastFailureAt == b.lastFailureAt && a.source == b.source
    && a.lastEvidenceAt == b.lastEvidenceAt && a.lastQuotaEvidenceAt == b.lastQuotaEvidenceAt && a.remaining == b.remaining
  }

  /** A lease held now keeps everyone else out until it ends, and is lent again from then on. */
  lemma LeaseHoldsBack(s: EngineState, step: Step, k: Key)
    requires Sound(s) && Granted(s, step) == Some(k)
    ensures var n := Next(s, step);
            && k in s.entries && k in n.entries && SameButLease(s.entries[k], n.entries[k])
            && n.entries[k].requestID == step.request.requestID
            && HeldBack(n, k, step.at + s.config.halfOpenLease)
  {
    hide RosterSound, EntriesSound;
    StepKeepsSound(s, step);
    GrantHolds(s, step, k);
    var n := Next(s, step);
    LeaseIsNamed(s, step, k);
    hide Next, Judge, CandidateIsAntigravity, Lookup, Granted;
    forall r, now: Instant, c | CandidateIsAntigravity(r, c) && Lookup(n, c.authIndex, c.authID, k.group) == Some(k)
      ensures var verdict := Judge(n, r, k.group, now, c);
              var until := step.at + s.config.halfOpenLease;
              if now < until then verdict == Rejected(Cooling, until) else verdict.Available? && verdict.choice.lease == Some(k)
    {
      CoolingEndsInTime(n, r, now, c, k);
    }
  }

  lemma LeaseIsNamed(s: EngineState, step: Step, k: Key)
    requires ValidConfig(s.config) && Granted(s, step) == Some(k) && k in s.entries
    ensures k in Next(s, step).entries && Next(s, step).entries[k].requestID == step.request.requestID
    ensures SameButLease(s.entries[k], Next(s, step).entries[k])
  {
    hide Selected;
  }

  // --------------------------------------------------------------- an operator's request

  /** An operator's request is granted exactly for a breaker that is open or whose lease has run out. */
  lemma RequestIsGranted(s: EngineState, index: string, g: Group, at: Instant)
    requires Sound(s)
    ensures ManualRefusal(s, index, g, at).None? <==> Key(index, g) in s.entries && Requested(s, Manual(index, g, at), Key(index, g))
    ensures ManualRefusal(s, index, g, at).None? ==> IsPending(s, Next(s, Manual(index, g, at)), Key(index, g))
  {
    hide RosterSound, EntriesSound, IsPending, Next;
    NoIndexNoEntry(s, index, g);
    if ManualRefusal(s, index, g, at).None? {
      GrantLeavesPending(s, index, g, at);
    }
  }

  lemma GrantLeavesPending(s: EngineState, index: string, g: Group, at: Instant)
    requires ValidConfig(s.config) && ManualRefusal(s, index, g, at).None?
    ensures IsPending(s, Next(s, Manual(index, g, at)), Key(index, g))
  {
    hide HeldBack;
    PendingIsLent(Next(s, Manual(index, g, at)), Key(index, g));
  }

  /** Only this breaker changed, and it awaits a probe: the next pick that serves its credential takes the lease. */
  ghost predicate IsPending(s: EngineState, n: EngineState, k: Key) {
    && k in s.entries && n.entries.Keys == s.entries.Keys
    && (forall o :: o in s.entries && o != k ==> n.entries[o] == s.entries[o])
    && n.entries[k].state == HalfOpen && n.entries[k].reason == ManualProbe && n.entries[k].requestID == ""
    && SameButLease(s.entries[k].(reason := ManualProbe), n.entries[k])
    && HeldBack(n, k, 0)
  }

  /** A refused request changes nothing, and says why. */
  lemma RequestIsRefused(s: EngineState, index: string, g: Group, at: Instant)
    requires Sound(s) && ManualRefusal(s, index, g, at).Some?
    ensures Next(s, Manual(index, g, at)) == s
    ensures var k, why := Key(index, g), ManualRefusal(s, index, g, at).value;
            if k !in s.entries then why == InvalidIdentity
            else if s.entries[k].state != HalfOpen then s.entries[k].state != Open && why == NotOpen
            else why == if s.entries[k].halfOpenLeaseUntil == 0 then ProbePending else LeaseActive
  {
    NoIndexNoEntry(s, index, g);
    hide RosterSound, EntriesSound;
  }

  lemma NoIndexNoEntry(s: EngineState, index: string, g: Group)
    requires RosterSound(s)
    ensures Key(index, g) in s.entries ==> index != ""
  {
    if Key(index, g) in s.entries {
      assert EntryPlaced(s.entries, s.authByID, Key(index, g));
    }
  }

  lemma PendingIsLent(s: EngineState, k: Key)
    requires ValidConfig(s.config) && k in s.entries && s.entries[k].state == HalfOpen && s.entries[k].halfOpenLeaseUntil == 0
    ensures HeldBack(s, k, 0)
  {
    hide CandidateIsAntigravity, Lookup;
  }

  /** After that, the next enforcing pick that serves the credential lends it the lease, whenever it comes. */
  lemma RequestIsLent(s: EngineState, index: string, g: Group, at: Instant, r: PickRequest, now: Instant)
    requires Sound(s) && Key(index, g) in s.entries && Requested(s, Manual(index, g, at), Key(index, g))
    requires r.mode == Enforce && Reaches(r, g)
    ensures var k, n := Key(index, g), Next(s, Manual(index, g, at));
            Granted(n, Pick(r, now)) == Some(k)
            <==> match InTurn(n, r, g, now)
                 case None => false
                 case Some(c) => !IsForeign(r, c) && Lookup(n, c.authIndex, c.authID, g) == Some(k)
  {
    hide RosterSound, EntriesSound, Judge, InTurn, Reaches, IsForeign, Lookup, Granted, HeldBack, ManualRefusal, ManualNext, Requested;
    var k, n := Key(index, g), Next(s, Manual(index, g, at));
    StepKeepsSound(s, Manual(index, g, at));
    RequestIsGranted(s, index, g, at);
    LeaseGoesToTheAnswer(n, r, g, now, k);
  }
}
