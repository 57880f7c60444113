/**
  The transitions of a single breaker as functions of its entry, the invariant
  of every reachable entry, and the meaning of the generic 429 threshold.
 */
module Breaker {
  import opened GuardTypes

  // ---------------------------------------------------------------- transitions

  function Opened(e: Entry, reason: Reason, at: Time, recoverAt: Time, resetAt: Time): Entry {
    e.(state := Open, reason := reason, openedAt := at, recoverAt := recoverAt, resetAt := resetAt,
       halfOpenStartedAt := 0, halfOpenLeaseUntil := 0, requestID := "")
  }

  function Shut(e: Entry): Entry {
    e.(state := Closed, reason := NoReason, openedAt := 0, recoverAt := 0, resetAt := 0,
       failureCount := 0, lastFailureAt := 0,
       halfOpenStartedAt := 0, halfOpenLeaseUntil := 0, requestID := "")
  }

  predicate IsHard(r: Reason) {
    r == QuotaZero || r == Explicit429
  }

  /** A hard breaker that has not reached its recovery time. */
  predicate HardActive(e: Entry, at: Time) {
    e.state == Open && at < e.recoverAt && IsHard(e.reason)
  }

  predicate IsCooling(e: Entry) {
    e.state == Open || e.state == HalfOpen
  }

  function Later(a: Time, b: Time): Time {
    if b > a then b else a
  }

  /** The failure counter after a generic 429: a gap longer than the window starts a new count. */
  function CountedFailure(c: Config, e: Entry, at: Instant): Entry {
    var restart := e.lastFailureAt == 0 || at - e.lastFailureAt > c.window || at < e.lastFailureAt;
    e.(failureCount := if restart then 1 else e.failureCount + 1,
       lastFailureAt := at, lastEvidenceAt := at, source := "usage_429")
  }

  function GenericFailure(c: Config, e: Entry, at: Instant, reset: Option<Time>): Entry
    requires ValidConfig(c)
  {
    var n := CountedFailure(c, e, at);
    if HardActive(e, at) then n
    else if n.failureCount < c.threshold && !IsCooling(e) then n
    else
      var cooldown := if IsCooling(e) || n.failureCount > c.threshold then c.maxCooldown else c.initialCooldown;
      var resetAt := match reset case Some(r) => r case None => 0;
      Opened(n, Generic429, at, Later(at + cooldown, resetAt), resetAt)
  }

  function ExplicitFailure(c: Config, e: Entry, at: Instant, reset: Option<Time>): Entry
    requires ValidConfig(c)
  {
    var stated := if reset.Some? && reset.value > at then reset.value else at + c.maxCooldown;
    var recoverAt := if HardActive(e, at) then Later(stated, e.recoverAt) else stated;
    var reason := if HardActive(e, at) then e.reason else Explicit429;
    Opened(e, reason, at, recoverAt, recoverAt)
    .(failureCount := e.failureCount + 1, lastFailureAt := at, lastEvidenceAt := at, source := "usage_429")
  }

  /** A live half-open lease with a named holder only listens to that holder. */
  predicate FencedOff(e: Entry, requestID: string) {
    e.state == HalfOpen && e.requestID != "" && requestID != e.requestID
  }

  predicate Accepts(e: Entry, requestID: string, at: Instant) {
    at >= e.lastEvidenceAt && !FencedOff(e, requestID)
  }

  predicate FinishesProbe(e: Entry, requestID: string, at: Instant) {
    e.state == HalfOpen && e.halfOpenStartedAt != 0 && at >= e.halfOpenStartedAt
    && e.requestID != "" && requestID == e.requestID
  }

  function SuccessfulUse(e: Entry, requestID: string, at: Instant): Entry {
    if FinishesProbe(e, requestID, at) then
      Shut(e).(lastEvidenceAt := at, source := "usage_success")
    else if e.state == Closed && at >= e.lastFailureAt then
      e.(failureCount := 0, lastFailureAt := 0)
    else e
  }

  function WithUsage(c: Config, e: Entry, u: Usage, at: Instant): Entry
    requires ValidConfig(c)
  {
    if !Accepts(e, u.requestID, at) then e
    else if !u.failed then SuccessfulUse(e, u.requestID, at)
    else if !u.tooManyRequests then e
    else if u.exhausted then ExplicitFailure(c, e, at, u.reset)
    else GenericFailure(c, e, at, u.reset)
  }

  predicate Concerns(e: Entry, ev: Evidence) {
    && (ev.authID != "" ==> e.authID == ev.authID)
    && (ev.fingerprint != "" ==> e.fingerprint == ev.fingerprint)
  }

  predicate ValidEvidence(ev: Evidence) {
    ev.authIndex != "" && 0.0 <= ev.remaining <= 100.0
  }

  function SourceName(source: string): string {
    if source == "" then "quota_probe" else source
  }

  function WithEvidence(e: Entry, ev: Evidence, at: Instant): Entry {
    if !Concerns(e, ev) || at < e.lastEvidenceAt then e
    else
      var n := e.(remaining := Some(ev.remaining), lastEvidenceAt := at, lastQuotaEvidenceAt := at,
                  source := SourceName(ev.source));
      if ev.remaining <= 0.0 && ev.resetAt > at then Opened(n, QuotaZero, at, ev.resetAt, ev.resetAt)
      else if ev.remaining > 0.0 && (e.state == Uninitialized || e.reason == QuotaZero || e.reason == ManualProbe) then Shut(n)
      else n
  }

  function Leased(c: Config, e: Entry, now: Instant, requestID: string): Entry
    requires ValidConfig(c)
  {
    e.(state := HalfOpen, halfOpenStartedAt := now, halfOpenLeaseUntil := now + c.halfOpenLease, requestID := requestID)
  }

  function Pending(e: Entry): Entry {
    e.(state := HalfOpen, reason := ManualProbe, halfOpenStartedAt := 0, halfOpenLeaseUntil := 0, requestID := "")
  }

  function NewEntry(id: Identity, g: Group): Entry {
    Entry(id.authID, id.authIndex, id.fingerprint, id.provider, id.priority, g,
          Uninitialized, NoReason, 0, 0, 0, 0, 0, 0, 0, "", 0, 0, None, "")
  }

  /** What a save and a load keep of an entry. */
  function Erased(e: Entry): Entry {
    e.(requestID := "")
  }

  predicate EvidenceFresh(e: Entry, now: Time, maxAge: int) {
    maxAge > 0 && e.lastQuotaEvidenceAt != 0
    && now - e.lastQuotaEvidenceAt <= maxAge && e.lastQuotaEvidenceAt <= now + MINUTE
  }

  // ------------------------------------------------------------------ invariant

  predicate NoLease(e: Entry) {
    e.halfOpenStartedAt == 0 && e.halfOpenLeaseUntil == 0 && e.requestID == ""
  }

  /** What holds of every reachable entry, under whatever configurations it came about. */
  predicate EntrySound(e: Entry) {
    && e.openedAt <= e.lastEvidenceAt
    && e.lastFailureAt <= e.lastEvidenceAt
    && e.lastQuotaEvidenceAt <= e.lastEvidenceAt
    && e.failureCount >= 0
    && (e.failureCount == 0 <==> e.lastFailureAt == 0)
    && (e.remaining.Some? ==> 0.0 <= e.remaining.value <= 100.0)
    && match e.state
       case Uninitialized => Quiescent(e)
       case Closed => Quiescent(e)
       case Open =>
         e.reason != NoReason && e.reason != ManualProbe && 0 < e.openedAt < e.recoverAt && NoLease(e)
       case HalfOpen =>
         && e.reason != NoReason
         && 0 < e.openedAt < e.recoverAt
         && (|| (e.reason == ManualProbe && NoLease(e))
             || (0 < e.halfOpenStartedAt < e.halfOpenLeaseUntil))
  }

  predicate Quiescent(e: Entry) {
    && e.reason == NoReason && e.openedAt == 0 && e.recoverAt == 0 && e.resetAt == 0 && NoLease(e)
  }

  /** What the current threshold and lease length add, as long as no reload changed them. */
  predicate Tuned(c: Config, e: Entry) {
    && (!IsCooling(e) ==> e.failureCount < c.threshold)
    && (e.state == HalfOpen && !NoLease(e) ==> e.halfOpenLeaseUntil == e.halfOpenStartedAt + c.halfOpenLease)
  }

  predicate SameIdentity(a: Entry, b: Entry) {
    a.authID == b.authID && a.authIndex == b.authIndex && a.fingerprint == b.fingerprint
    && a.provider == b.provider && a.priority == b.priority
  }

  lemma EvidenceKeepsSound(c: Config, e: Entry, ev: Evidence, at: Instant)
    requires ValidConfig(c) && EntrySound(e) && ValidEvidence(ev)
    ensures EntrySound(WithEvidence(e, ev, at))
    ensures Tuned(c, e) ==> Tuned(c, WithEvidence(e, ev, at))
    ensures SameIdentity(e, WithEvidence(e, ev, at)) && WithEvidence(e, ev, at).group == e.group
  {
  }

  lemma GenericKeepsSound(c: Config, e: Entry, at: Instant, reset: Option<Time>)
    requires ValidConfig(c) && EntrySound(e) && at >= e.lastEvidenceAt
    ensures EntrySound(GenericFailure(c, e, at, reset))
    ensures Tuned(c, e) ==> Tuned(c, GenericFailure(c, e, at, reset))
    ensures SameIdentity(e, GenericFailure(c, e, at, reset)) && GenericFailure(c, e, at, reset).group == e.group
  {
  }

  lemma ExplicitKeepsSound(c: Config, e: Entry, at: Instant, reset: Option<Time>)
    requires ValidConfig(c) && EntrySound(e) && at >= e.lastEvidenceAt
    ensures EntrySound(ExplicitFailure(c, e, at, reset))
    ensures Tuned(c, ExplicitFailure(c, e, at, reset))
    ensures SameIdentity(e, ExplicitFailure(c, e, at, reset)) && ExplicitFailure(c, e, at, reset).group == e.group
  {
  }

  lemma SuccessKeepsSound(c: Config, e: Entry, requestID: string, at: Instant)
    requires ValidConfig(c) && EntrySound(e) && at >= e.lastEvidenceAt
    ensures EntrySound(SuccessfulUse(e, requestID, at))
    ensures Tuned(c, e) ==> Tuned(c, SuccessfulUse(e, requestID, at))
    ensures SameIdentity(e, SuccessfulUse(e, requestID, at)) && SuccessfulUse(e, requestID, at).group == e.group
  {
  }

  lemma UsageKeepsSound(c: Config, e: Entry, u: Usage, at: Instant)
    requires ValidConfig(c) && EntrySound(e)
    ensures EntrySound(WithUsage(c, e, u, at))
    ensures Tuned(c, e) ==> Tuned(c, WithUsage(c, e, u, at))
    ensures SameIdentity(e, WithUsage(c, e, u, at)) && WithUsage(c, e, u, at).group == e.group
  {
    hide EntrySound, Tuned, GenericFailure, ExplicitFailure, SuccessfulUse;
    if Accepts(e, u.requestID, at) {
      SuccessKeepsSound(c, e, u.requestID, at);
      GenericKeepsSound(c, e, at, u.reset);
      ExplicitKeepsSound(c, e, at, u.reset);
    }
  }

  // ------------------------------------------------------- the generic threshold

  /** The same step without the two tests that no reachable entry can satisfy. */
  function LeanGenericFailure(c: Config, e: Entry, at: Instant, reset: Option<Time>): Entry
    requires ValidConfig(c)
  {
    var restart := e.lastFailureAt == 0 || at - e.lastFailureAt > c.window;
    var n := e.(failureCount := if restart then 1 else e.failureCount + 1,
                lastFailureAt := at, lastEvidenceAt := at, source := "usage_429");
    if HardActive(e, at) || (!IsCooling(e) && n.failureCount < c.threshold) then n
    else
      var resetAt := match reset case Some(r) => r case None => 0;
      Opened(n, Generic429, at, Later(at + (if IsCooling(e) then c.maxCooldown else c.initialCooldown), resetAt), resetAt)
  }

  /**
    In a reachable entry neither `FailureCount > Threshold` nor an observation
    before the last failure ever decides anything: an opening from a
    non-cooling state uses the initial cooldown, a reopening the maximal one.
   */
  lemma DeadTests(c: Config, e: Entry, at: Instant, reset: Option<Time>)
    requires ValidConfig(c) && EntrySound(e) && Tuned(c, e) && at >= e.lastEvidenceAt
    ensures GenericFailure(c, e, at, reset) == LeanGenericFailure(c, e, at, reset)
  {
  }

  /**
    For an entry of any origin, such as one loaded under a lower threshold,
    the test of the count decides exactly when the count exceeds the threshold
    and the two cooldowns lead to different recovery times.
   */
  lemma CountDecidesWhen(c: Config, e: Entry, at: Instant, reset: Option<Time>)
    requires ValidConfig(c) && !IsCooling(e) && at >= e.lastFailureAt
    ensures var resetAt := if reset.Some? then reset.value else 0;
            GenericFailure(c, e, at, reset) == LeanGenericFailure(c, e, at, reset)
            <==> (CountedFailure(c, e, at).failureCount <= c.threshold
                  || Later(at + c.initialCooldown, resetAt) == Later(at + c.maxCooldown, resetAt))
  {
    var n := CountedFailure(c, e, at);
    var resetAt := if reset.Some? then reset.value else 0;
    if n.failureCount > c.threshold {
      assert GenericFailure(c, e, at, reset) == Opened(n, Generic429, at, Later(at + c.maxCooldown, resetAt), resetAt);
      assert LeanGenericFailure(c, e, at, reset) == Opened(n, Generic429, at, Later(at + c.initialCooldown, resetAt), resetAt);
    }
  }

  datatype Event = Fail(at: Instant, reset: Option<Time>) | Success(at: Instant)

  function Absorb(c: Config, e: Entry, ev: Event): Entry
    requires ValidConfig(c)
  {
    match ev
    case Fail(at, reset) => WithUsage(c, e, Usage("", true, Some(e.group), "", "", true, true, false, reset, at), at)
    case Success(at) => WithUsage(c, e, Usage("", true, Some(e.group), "", "", false, false, false, None, at), at)
  }

  function AbsorbAll(c: Config, e: Entry, events: seq<Event>): Entry
    requires ValidConfig(c)
    decreases |events|
  {
    if events == [] then e else Absorb(c, AbsorbAll(c, e, events[..|events| - 1]), events[|events| - 1])
  }

  ghost predicate AllAccepted(c: Config, e: Entry, events: seq<Event>)
    requires ValidConfig(c)
  {
    forall i :: 0 <= i < |events| ==> events[i].at >= AbsorbAll(c, e, events[..i]).lastEvidenceAt
  }

  /** Events i..k are failures, each within the window of the one before. */
  predicate Linked(c: Config, events: seq<Event>, i: nat, k: nat)
    requires i <= k < |events|
  {
    && (forall j :: i <= j <= k ==> events[j].Fail?)
    && (forall j :: i < j <= k ==> events[j].at - events[j - 1].at <= c.window)
  }

  /**
    Event k is the last of `m` failures that follow each other without a
    success and within the window; the first of them may lie before the run.
   */
  predicate ChainOf(c: Config, e: Entry, events: seq<Event>, k: nat, m: nat)
    requires k < |events| && m > 0
  {
    if m <= k + 1 then Linked(c, events, k + 1 - m, k)
    else
      && Linked(c, events, 0, k)
      && e.failureCount >= m - (k + 1)
      && events[0].at - e.lastFailureAt <= c.window
  }

  lemma AbsorbPrefix(c: Config, e: Entry, events: seq<Event>, n: nat)
    requires ValidConfig(c) && n < |events|
    ensures AbsorbAll(c, e, events[..n + 1]) == Absorb(c, AbsorbAll(c, e, events[..n]), events[n])
  {
    assert events[..n + 1][..n] == events[..n];
  }

  lemma ExtendChain(c: Config, e: Entry, events: seq<Event>, n: nat, m: nat)
    requires 0 < n < |events| && m > 1
    ensures ChainOf(c, e, events, n, m)
            <==> events[n].Fail? && events[n].at - events[n - 1].at <= c.window && ChainOf(c, e, events, n - 1, m - 1)
  {
  }

  /** While the breaker stays closed its counter is the length of the longest chain ending at the last event. */
  lemma {:induction false} CounterIsChain(c: Config, e: Entry, events: seq<Event>, n: nat, m: nat)
    requires ValidConfig(c) && EntrySound(e) && e.state == Closed
    requires AllAccepted(c, e, events) && n < |events| && m > 0
    requires forall k :: 0 <= k <= n ==> !ChainOf(c, e, events, k, c.threshold)
    ensures var s := AbsorbAll(c, e, events[..n + 1]);
            && s.state == Closed && EntrySound(s)
            && (events[n].Fail? ==> s.lastFailureAt == events[n].at)
            && (events[n].Success? ==> s.lastFailureAt == 0)
            && (s.failureCount >= m <==> ChainOf(c, e, events, n, m))
    decreases n, 2
  {
    AbsorbPrefix(c, e, events, n);
    var prev := AbsorbAll(c, e, events[..n]);
    assert events[..0] == [];
    BeforeEvent(c, e, events, n);
    assert !ChainOf(c, e, events, n, c.threshold);
    if events[n].Fail? {
      NextCount(c, e, events, n, c.threshold);
      NextCount(c, e, events, n, m);
    }
  }

  /** The state on which event n acts is still closed and sound. */
  lemma {:induction false} BeforeEvent(c: Config, e: Entry, events: seq<Event>, n: nat)
    requires ValidConfig(c) && EntrySound(e) && e.state == Closed
    requires AllAccepted(c, e, events) && n < |events|
    requires forall k :: 0 <= k < n ==> !ChainOf(c, e, events, k, c.threshold)
    ensures var prev := AbsorbAll(c, e, events[..n]);
            && prev.state == Closed && EntrySound(prev) && events[n].at >= prev.lastEvidenceAt
    decreases n, 0
  {
    if n == 0 {
      assert events[..0] == [];
    } else {
      CounterIsChain(c, e, events, n - 1, 1);
    }
  }

  /** One more failure extends the chain exactly when it falls within the window. */
  lemma {:induction false} NextCount(c: Config, e: Entry, events: seq<Event>, n: nat, m: nat)
    requires ValidConfig(c) && EntrySound(e) && e.state == Closed
    requires AllAccepted(c, e, events) && n < |events| && m > 0
    requires forall k :: 0 <= k < n ==> !ChainOf(c, e, events, k, c.threshold)
    requires events[n].Fail?
    ensures CountedFailure(c, AbsorbAll(c, e, events[..n]), events[n].at).failureCount >= m
            <==> ChainOf(c, e, events, n, m)
    decreases n, 1
  {
    hide Absorb, AllAccepted, GenericFailure, WithUsage;
    var prev := AbsorbAll(c, e, events[..n]);
    BeforeEvent(c, e, events, n);
    if n == 0 {
      assert events[..0] == [];
    } else if m > 1 {
      CounterIsChain(c, e, events, n - 1, m - 1);
      CounterIsChain(c, e, events, n - 1, 1);
      ExtendChain(c, e, events, n, m);
    }
  }

  /**
    From a closed breaker, over any accepted generic 429s and successes: the
    breaker is closed as long as no chain of `Threshold` failures has
    completed, and the failure completing the first one opens it for the
    initial cooldown (or to the reset the response names, if later). Only an
    entry loaded with a count already at the threshold can open, at the very
    first failure, for the maximal cooldown.
   */
  lemma OpensExactlyAtThreshold(c: Config, e: Entry, events: seq<Event>, n: nat)
    requires ValidConfig(c) && EntrySound(e) && e.state == Closed
    requires AllAccepted(c, e, events) && n < |events|
    requires forall k :: 0 <= k < n ==> !ChainOf(c, e, events, k, c.threshold)
    ensures var s := AbsorbAll(c, e, events[..n + 1]);
            var preloaded := n == 0 && CountedFailure(c, e, events[n].at).failureCount > c.threshold;
            if ChainOf(c, e, events, n, c.threshold) then
              && s.state == Open && s.reason == Generic429 && s.openedAt == events[n].at
              && s.recoverAt == Later(events[n].at + (if preloaded then c.maxCooldown else c.initialCooldown),
                                      if events[n].reset.Some? then events[n].reset.value else 0)
            else s.state == Closed
    ensures Tuned(c, e) ==> !(n == 0 && CountedFailure(c, e, events[n].at).failureCount > c.threshold)
  {
    hide AllAccepted, Absorb, ChainOf, CountedFailure, EntrySound, Tuned;
    var prev := AbsorbAll(c, e, events[..n]);
    assert events[..0] == [] && AbsorbAll(c, e, []) == e;
    hide AbsorbAll;
    AbsorbPrefix(c, e, events, n);
    BeforeEvent(c, e, events, n);
    if Tuned(c, e) {
      TunedCount(c, e, events[n].at);
    }
    if ChainOf(c, e, events, n, c.threshold) {
      ChainEnds(c, e, events, n);
      NextCount(c, e, events, n, c.threshold);
      if n > 0 {
        CounterIsChain(c, e, events, n - 1, c.threshold);
      }
      FailureOpens(c, prev, events[n]);
    } else {
      CounterIsChain(c, e, events, n, 1);
    }
  }

  lemma TunedCount(c: Config, e: Entry, at: Instant)
    requires ValidConfig(c) && Tuned(c, e) && e.state == Closed
    ensures CountedFailure(c, e, at).failureCount <= c.threshold
  {
  }

  lemma ChainEnds(c: Config, e: Entry, events: seq<Event>, n: nat)
    requires ValidConfig(c) && n < |events| && ChainOf(c, e, events, n, c.threshold)
    ensures events[n].Fail?
  {
  }

  /** The failure that reaches the threshold opens a closed breaker. */
  lemma FailureOpens(c: Config, prev: Entry, ev: Event)
    requires ValidConfig(c) && EntrySound(prev) && prev.state == Closed && ev.Fail? && ev.at >= prev.lastEvidenceAt
    requires CountedFailure(c, prev, ev.at).failureCount >= c.threshold
    ensures var s := Absorb(c, prev, ev);
            && s.state == Open && s.reason == Generic429 && s.openedAt == ev.at
            && s.recoverAt == Later(ev.at + (if CountedFailure(c, prev, ev.at).failureCount > c.threshold
                                             then c.maxCooldown else c.initialCooldown),
                                    if ev.reset.Some? then ev.reset.value else 0)
    ensures prev.failureCount < c.threshold ==> CountedFailure(c, prev, ev.at).failureCount <= c.threshold
  {
  }
}
