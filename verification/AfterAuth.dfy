/**
  The check made after a credential has been chosen, on a snapshot of all
  breakers of the group, and why it never contradicts the pick before it.
 */
module AfterAuth {
  import opened GuardTypes
  import opened Breaker
  import opened EngineSpec
  import opened EngineRuns
  import opened StateFile
  import opened Leases
  import opened Answers
  import Picks

  datatype BlockStatus = Pass | Block(code: ErrorCode, retryAfter: int)

  /** Closed or uninitialized breakers without fresh evidence are not looked at. */
  predicate Seen(e: Entry, g: Group, now: Instant, maxAge: int) {
    e.group == g && ((e.state == Closed || e.state == Uninitialized) ==> EvidenceFresh(e, now, maxAge))
  }

  predicate Trusted(e: Entry, g: Group, now: Instant, maxAge: int) {
    Seen(e, g, now, maxAge) && e.state == Closed
  }

  predicate LiveLease(e: Entry, g: Group, now: Instant) {
    e.group == g && e.state == HalfOpen && e.halfOpenLeaseUntil > now
  }

  ghost predicate AnySeen(es: seq<Entry>, g: Group, now: Instant, maxAge: int) {
    exists e :: e in es && Seen(e, g, now, maxAge)
  }

  ghost predicate AnyRaw(es: seq<Entry>, g: Group, now: Instant, maxAge: int) {
    exists e :: e in es && Seen(e, g, now, maxAge) && e.state == Uninitialized
  }

  ghost predicate AnyLive(es: seq<Entry>, g: Group, now: Instant) {
    exists e :: e in es && LiveLease(e, g, now)
  }

  ghost predicate AnyTrusted(es: seq<Entry>, g: Group, now: Instant, maxAge: int) {
    exists e :: e in es && Trusted(e, g, now, maxAge)
  }

  lemma OneMore(es: seq<Entry>, n: nat, g: Group, now: Instant, maxAge: int)
    requires n < |es|
    ensures var e := es[n];
            && (AnySeen(es[..n + 1], g, now, maxAge) <==> AnySeen(es[..n], g, now, maxAge) || Seen(e, g, now, maxAge))
            && (AnyRaw(es[..n + 1], g, now, maxAge) <==> AnyRaw(es[..n], g, now, maxAge) || (Seen(e, g, now, maxAge) && e.state == Uninitialized))
            && (AnyLive(es[..n + 1], g, now) <==> AnyLive(es[..n], g, now) || LiveLease(e, g, now))
            && (AnyTrusted(es[..n + 1], g, now, maxAge) <==> AnyTrusted(es[..n], g, now, maxAge) || Trusted(e, g, now, maxAge))
  {
    assert es[..n + 1] == es[..n] + [es[n]];
    assert forall x :: x in es[..n + 1] <==> x in es[..n] || x == es[n];
    hide Seen, LiveLease;
  }

  /** Any trusted closed breaker or live lease lets the group through; otherwise it waits or fails closed. */
  ghost function Status(es: seq<Entry>, earliest: Time, now: Instant, g: Group, policy: Policy, maxAge: int): BlockStatus {
    if AnyTrusted(es, g, now, maxAge) || AnyLive(es, g, now) then Pass
    else if AnyRaw(es, g, now, maxAge) || !AnySeen(es, g, now, maxAge) then
      (if policy == FailClosed then Block(AuthUninitialized, 0) else Pass)
    else Block(ModelCooldown, RetryAfter(now, earliest))
  }

  /** The counting loop over a snapshot, which returns early at the first trusted closed breaker. */
  method EvaluateGroup(es: seq<Entry>, earliest: Time, now: Instant, g: Group, policy: Policy, maxAge: int)
    returns (status: BlockStatus)
    ensures status == Status(es, earliest, now, g, policy, maxAge)
  {
    var seen, unknown, cooling := 0, 0, 0;
    var halfOpenReady := false;
    for i := 0 to |es|
      invariant !AnyTrusted(es[..i], g, now, maxAge)
      invariant halfOpenReady <==> AnyLive(es[..i], g, now)
      invariant 0 <= unknown && 0 <= cooling && seen == unknown + cooling
      invariant seen > 0 <==> AnySeen(es[..i], g, now, maxAge)
      invariant unknown > 0 <==> AnyRaw(es[..i], g, now, maxAge)
    {
      var e := es[i];
      OneMore(es, i, g, now, maxAge);
      if e.group != g {
        continue;
      }
      if (e.state == Closed || e.state == Uninitialized) && !EvidenceFresh(e, now, maxAge) {
        continue;
      }
      seen := seen + 1;
      match e.state {
        case Closed =>
          assert Trusted(e, g, now, maxAge) && e in es;
          return Pass;
        case Uninitialized =>
          unknown := unknown + 1;
        case HalfOpen =>
          if e.halfOpenLeaseUntil > now {
            halfOpenReady := true;
          }
          cooling := cooling + 1;
        case Open =>
          cooling := cooling + 1;
      }
    }
    assert es[..|es|] == es;
    if halfOpenReady {
      return Pass;
    }
    if seen == 0 || unknown > 0 {
      return if policy == FailClosed then Block(AuthUninitialized, 0) else Pass;
    }
    if cooling != seen {
      return Pass;
    }
    status := Block(ModelCooldown, RetryAfter(now, earliest));
  }

  /** The snapshot shows the group a breaker that lets the request through. */
  ghost predicate ShowsWayThrough(s: EngineState, g: Group, now: Instant) {
    exists k :: k in s.entries && (Trusted(s.entries[k], g, now, s.config.evidenceMaxAge) || LiveLease(s.entries[k], g, now))
  }

  lemma ListedWayThrough(s: EngineState, es: seq<Entry>, g: Group, now: Instant)
    requires Lists(es, s.entries) && ShowsWayThrough(s, g, now)
    ensures AnyTrusted(es, g, now, s.config.evidenceMaxAge) || AnyLive(es, g, now)
  {
    var k :| k in s.entries && (Trusted(s.entries[k], g, now, s.config.evidenceMaxAge) || LiveLease(s.entries[k], g, now));
    assert s.entries[k] in es;
  }

  /**
    If an enforcing pick under a fail-closed policy hands out an Antigravity
    credential, the check on any snapshot of the resulting state passes at
    that instant; if the pick granted a lease, it keeps passing until the
    lease ends as long as nothing else happens.
   */
  lemma PickIsHonoured(s: EngineState, r: PickRequest, g: Group, now: Instant, es: seq<Entry>, later: Instant)
    requires Sound(s) && r.mode == Enforce && Reaches(r, g) && !FailsOpen(r.authPolicy, s.config.unknownAuth)
    requires InTurn(s, r, g, now).Some? && !IsForeign(r, InTurn(s, r, g, now).value)
    requires Lists(es, PickNext(s, r, now).entries)
    requires later == now || (Granted(s, Pick(r, now)).Some? && now <= later < now + s.config.halfOpenLease)
    ensures forall policy, earliest: Time :: Status(es, earliest, later, g, policy, s.config.evidenceMaxAge) == Pass
  {
    hide PickNext, Lists, RosterSound, EntriesSound, Judge, Selected, InTurn, Reaches, RouteIncludesAntigravity, IsForeign;
    ReachesTheLoop(r, g);
    SelectedInTurn(s, r, g, now);
    var c := InTurn(s, r, g, now).value;
    ForeignIsNotAntigravity(r, c);
    PickLeavesWay(s, r, now, c, later);
    ListedWayThrough(PickNext(s, r, now), es, g, later);
  }

  lemma PickLeavesWay(s: EngineState, r: PickRequest, now: Instant, c: Candidate, later: Instant)
    requires Sound(s) && r.mode == Enforce && LoopGroup(r).Some? && AuthPolicy(s, r) == FailClosed
    requires CandidateIsAntigravity(r, c)
    requires Selected(s, r, r.group.value, now).Some?
    requires Judge(s, r, r.group.value, now, c) == Available(Selected(s, r, r.group.value, now).value)
    requires later == now || (Selected(s, r, r.group.value, now).value.lease.Some? && now <= later < now + s.config.halfOpenLease)
    ensures PickNext(s, r, now).config == s.config
    ensures ShowsWayThrough(PickNext(s, r, now), r.group.value, later)
  {
    var g := r.group.value;
    var k := Lookup(s, c.authIndex, c.authID, g);
    CandidateServed(s, r, now, c);
    SelectedLease(s, r, g, now);
    hide Selected, LoopGroup, AuthPolicy, CandidateIsAntigravity, EntriesSound, Lookup, EvidenceFresh, Judge;
    assert EntryPlaced(s.entries, s.authByID, k.value);
    var n := PickNext(s, r, now);
    assert Trusted(n.entries[k.value], g, later, n.config.evidenceMaxAge) || LiveLease(n.entries[k.value], g, later);
  }

  /** Under a fail-closed policy a candidate is only served by a breaker of its own: closed and fresh, or lending its lease. */
  lemma CandidateServed(s: EngineState, r: PickRequest, now: Instant, c: Candidate)
    requires r.group.Some? && AuthPolicy(s, r) == FailClosed && CandidateIsAntigravity(r, c)
    requires Judge(s, r, r.group.value, now, c).Available?
    ensures var k := Lookup(s, c.authIndex, c.authID, r.group.value);
            && k.Some? && k.value in s.entries && k.value.group == r.group.value
            && var lease := Judge(s, r, r.group.value, now, c).choice.lease;
            if lease.Some? then lease == k
            else s.entries[k.value].state == Closed && EvidenceFresh(s.entries[k.value], now, s.config.evidenceMaxAge)
  {
    hide CandidateIsAntigravity, EvidenceFresh;
  }

  /**
    Over any run after the grant, and at any time before the lease's end, the
    check on a snapshot passes, unless some step of the run ended the lease.
   */
  lemma LeaseIsHonoured(s: EngineState, steps: seq<Step>, i: nat, m: nat, k: Key, es: seq<Entry>, later: Instant)
    requires Sound(s) && i < m <= |steps| && Granted(Before(s, steps, i), steps[i]) == Some(k)
    requires forall x :: i < x < m && OnClock(steps[x]) ==> steps[x].at <= later
    requires later < LeaseEnd(s, steps, i)
    requires Lists(es, Before(s, steps, m).entries)
    ensures || (exists x :: i < x < m && EndedAt(s, steps, x, k, steps[i].at, LeaseEnd(s, steps, i)))
            || (forall policy, earliest: Time, maxAge :: Status(es, earliest, later, k.group, policy, maxAge) == Pass)
  {
    var n := Before(s, steps, m);
    var until := LeaseEnd(s, steps, i);
    LeasePersists(s, steps, i, m, k);
    RunKeepsSound(s, steps[..m]);
    hide Run, EntrySound, Ends;
    if Holds(n, k, steps[i].at, until) {
      assert EntryPlaced(n.entries, n.authByID, k);
      assert n.entries[k] in es && LiveLease(n.entries[k], k.group, later);
    } else {
      assert forall x :: i < x < m ==> !Overrun(steps, x, until);
    }
  }

  // ------------------------------------------------- when it blocks, and for how long

  predicate Young(e: Entry, now: Time, maxAge: int) {
    maxAge > 0 && e.lastQuotaEvidenceAt > 0 && e.lastQuotaEvidenceAt - MINUTE <= now <= e.lastQuotaEvidenceAt + maxAge
  }

  /** Some credential of the group is closed on young evidence, or holds a lease. */
  ghost predicate SomeWay(s: EngineState, g: Group, now: Time, maxAge: int) {
    exists k :: k in s.entries && k.group == g
                && ((s.entries[k].state == Closed && Young(s.entries[k], now, maxAge))
                    || (s.entries[k].state == HalfOpen && s.entries[k].halfOpenLeaseUntil > now))
  }

  /** Some breaker with young evidence was never opened or closed. */
  ghost predicate SomeUntold(s: EngineState, g: Group, now: Time, maxAge: int) {
    exists k :: k in s.entries && k.group == g && s.entries[k].state == Uninitialized && Young(s.entries[k], now, maxAge)
  }

  ghost predicate SomeCooling(s: EngineState, g: Group) {
    exists k :: k in s.entries && k.group == g && IsCooling(s.entries[k])
  }

  /** A time at which a cooling breaker of the group lets a probe through; none if it awaits one already. */
  ghost predicate FreesAt(s: EngineState, g: Group, at: Time) {
    exists k :: k in s.entries && k.group == g
                && ((s.entries[k].state == Open && s.entries[k].recoverAt == at > 0)
                    || (s.entries[k].state == HalfOpen && s.entries[k].halfOpenLeaseUntil == at > 0))
  }

  /** The least whole number of seconds to the first of those times; nothing if that is past or there is none. */
  ghost predicate IsWait(s: EngineState, g: Group, now: Time, wait: int) {
    && wait >= 0 && wait % SECOND == 0
    && (wait == 0 ==> (exists at: Time :: at <= now && FreesAt(s, g, at)) || !(exists at: Time :: FreesAt(s, g, at)))
    && (wait > 0 ==> && (forall at: Time :: FreesAt(s, g, at) ==> now + wait - SECOND < at)
                     && (exists at: Time :: FreesAt(s, g, at) && now < at <= now + wait))
  }

  /** A listing of a sound state shows each breaker under its own group. */
  lemma ListedInGroup(s: EngineState, es: seq<Entry>)
    requires RosterSound(s) && Lists(es, s.entries)
    ensures forall e :: e in es ==> exists k :: k in s.entries && s.entries[k] == e && k.group == e.group
    ensures forall k :: k in s.entries ==> s.entries[k] in es && s.entries[k].group == k.group
  {
    forall e | e in es ensures exists k :: k in s.entries && s.entries[k] == e && k.group == e.group {
      var k :| k in s.entries && s.entries[k] == e;
      assert EntryPlaced(s.entries, s.authByID, k);
    }
    forall k | k in s.entries ensures s.entries[k] in es && s.entries[k].group == k.group {
      assert EntryPlaced(s.entries, s.authByID, k);
    }
  }

  lemma SeenInState(s: EngineState, es: seq<Entry>, g: Group, now: Instant, maxAge: int)
    requires Sound(s) && Lists(es, s.entries)
    ensures AnyTrusted(es, g, now, maxAge) || AnyLive(es, g, now) <==> SomeWay(s, g, now, maxAge)
    ensures AnyRaw(es, g, now, maxAge) <==> SomeUntold(s, g, now, maxAge)
    ensures AnySeen(es, g, now, maxAge)
            <==> SomeCooling(s, g) || SomeUntold(s, g, now, maxAge)
                 || (exists k :: k in s.entries && k.group == g && s.entries[k].state == Closed && Young(s.entries[k], now, maxAge))
  {
    hide RosterSound, EntriesSound, Lists, EvidenceFresh, Young;
    ListedInGroup(s, es);
    forall k | k in s.entries ensures EvidenceFresh(s.entries[k], now, maxAge) == Young(s.entries[k], now, maxAge) {
      FreshIsYoung(s.entries[k], now, maxAge);
    }
  }

  lemma FreshIsYoung(e: Entry, now: Time, maxAge: int)
    ensures EvidenceFresh(e, now, maxAge) == Young(e, now, maxAge)
  {
  }

  lemma {:induction false} EarliestBounds(es: seq<Entry>, g: Group)
    ensures var first := EarliestRecover(es, g);
            && (first != 0 ==> exists e :: e in es && Boundary(e, g) == first)
            && (forall e :: e in es && Boundary(e, g) != 0 ==> 0 < first <= Boundary(e, g))
  {
    hide Boundary;
    if es != [] {
      var n := |es| - 1;
      EarliestBounds(es[..n], g);
      assert es == es[..n] + [es[n]];
      var prior := EarliestRecover(es[..n], g);
      if prior != 0 {
        var e :| e in es[..n] && Boundary(e, g) == prior;
        assert e in es;
      }
    }
  }

  lemma EarliestInState(s: EngineState, es: seq<Entry>, g: Group)
    requires Sound(s) && Lists(es, s.entries)
    ensures var first := EarliestRecover(es, g);
            && (first != 0 ==> FreesAt(s, g, first))
            && (forall at: Time :: FreesAt(s, g, at) ==> 0 < first <= at)
  {
    hide RosterSound, EntriesSound, Lists, EarliestRecover;
    ListedInGroup(s, es);
    EarliestBounds(es, g);
    var first := EarliestRecover(es, g);
    if first != 0 {
      var e :| e in es && Boundary(e, g) == first;
      var k :| k in s.entries && s.entries[k] == e && k.group == e.group;
      FreedAt(s, g, k);
    }
    forall at: Time | FreesAt(s, g, at) ensures 0 < first <= at {
      var k := FreeingKey(s, g, at);
      assert s.entries[k] in es && Boundary(s.entries[k], g) == at;
    }
  }

  lemma FreedAt(s: EngineState, g: Group, k: Key)
    requires k in s.entries && s.entries[k].group == k.group && Boundary(s.entries[k], g) != 0
    ensures FreesAt(s, g, Boundary(s.entries[k], g))
  {
  }

  lemma FreeingKey(s: EngineState, g: Group, at: Time) returns (k: Key)
    requires FreesAt(s, g, at)
    ensures k in s.entries && k.group == g && at > 0 && (s.entries[k].group == g ==> Boundary(s.entries[k], g) == at)
  {
    k :| k in s.entries && k.group == g
         && ((s.entries[k].state == Open && s.entries[k].recoverAt == at > 0)
             || (s.entries[k].state == HalfOpen && s.entries[k].halfOpenLeaseUntil == at > 0));
  }

  lemma WaitToFirst(s: EngineState, g: Group, now: Instant, first: Time)
    requires first != 0 ==> FreesAt(s, g, first)
    requires forall at: Time :: FreesAt(s, g, at) ==> 0 < first <= at
    ensures IsWait(s, g, now, RetryAfter(now, first))
  {
    hide FreesAt;
    if first > now {
      Picks.WholeSeconds(now, first);
    }
  }

  /**
    On any snapshot of a reachable state the group passes when some credential
    is closed on young evidence or holds a lease. Otherwise it is refused as
    uninitialized, without a wait, if nothing is known of it or some breaker
    is yet undecided, unless the policy fails open; and as cooling, for the
    least whole seconds to the first boundary, if all that is known is cooling.
   */
  lemma BlocksExactlyWhen(s: EngineState, es: seq<Entry>, g: Group, now: Instant, policy: Policy, maxAge: int)
    requires Sound(s) && Lists(es, s.entries)
    ensures var status := Status(es, EarliestRecover(es, g), now, g, policy, maxAge);
            var unknown := SomeUntold(s, g, now, maxAge) || !SomeCooling(s, g);
            if SomeWay(s, g, now, maxAge) || (unknown && policy == FailOpen) then status == Pass
            else if unknown then status == Block(AuthUninitialized, 0)
            else status.Block? && status.code == ModelCooldown && IsWait(s, g, now, status.retryAfter)
  {
    hide RosterSound, EntriesSound, IsWait, FreesAt, AnySeen, AnyRaw, AnyTrusted, AnyLive, RetryAfter, EarliestRecover, SomeUntold, SomeCooling, Lists;
    SeenInState(s, es, g, now, maxAge);
    EarliestInState(s, es, g);
    WaitToFirst(s, g, now, EarliestRecover(es, g));
  }
}
