/**
  What a scheduler pick reports: every candidate is accounted for, the error
  code says why nothing is eligible, and the retry hint is exact.
 */
module Picks {
  import opened GuardTypes
  import opened Breaker
  import opened EngineSpec
  import opened EngineRuns

  /** Each candidate is either eligible or excluded. */
  lemma {:induction false} EveryCandidateCounted(s: EngineState, r: PickRequest, g: Group, now: Instant, cs: seq<Candidate>)
    ensures var t := Survey(s, r, g, now, cs);
            && |t.available| + t.excluded == |cs|
            && t.cooling + t.missing + t.unready <= t.excluded
            && (t.missing > 0 ==> exists c :: c in cs && Judge(s, r, g, now, c) == Rejected(Missing, 0))
            && (t.cooling > 0 ==> exists c :: c in cs && Judge(s, r, g, now, c).Rejected? && Judge(s, r, g, now, c).cause == Cooling)
  {
    hide Judge;
    if cs != [] {
      var n := |cs| - 1;
      EveryCandidateCounted(s, r, g, now, cs[..n]);
      MissingHasNoBoundary(s, r, g, now, cs[n]);
      assert cs == cs[..n] + [cs[n]];
      var t := Survey(s, r, g, now, cs[..n]);
      if t.missing > 0 {
        var c :| c in cs[..n] && Judge(s, r, g, now, c) == Rejected(Missing, 0);
        assert c in cs;
      }
      if t.cooling > 0 {
        var c :| c in cs[..n] && Judge(s, r, g, now, c).Rejected? && Judge(s, r, g, now, c).cause == Cooling;
        assert c in cs;
      }
    }
  }

  /** Some candidate is judged this way. */
  ghost predicate SomeRejected(s: EngineState, r: PickRequest, g: Group, now: Instant, cs: seq<Candidate>, cause: Cause) {
    exists c :: c in cs && Judge(s, r, g, now, c).Rejected? && Judge(s, r, g, now, c).cause == cause
  }

  ghost predicate SomeAvailable(s: EngineState, r: PickRequest, g: Group, now: Instant, cs: seq<Candidate>) {
    exists c :: c in cs && Judge(s, r, g, now, c).Available?
  }

  lemma OneMoreRejected(s: EngineState, r: PickRequest, g: Group, now: Instant, cs: seq<Candidate>, c: Candidate, cause: Cause)
    ensures SomeRejected(s, r, g, now, cs + [c], cause)
            <==> SomeRejected(s, r, g, now, cs, cause) || (Judge(s, r, g, now, c).Rejected? && Judge(s, r, g, now, c).cause == cause)
  {
    hide Judge;
    assert forall x :: x in cs + [c] <==> x in cs || x == c;
  }

  lemma OneMoreAvailable(s: EngineState, r: PickRequest, g: Group, now: Instant, cs: seq<Candidate>, c: Candidate)
    ensures SomeAvailable(s, r, g, now, cs + [c]) <==> SomeAvailable(s, r, g, now, cs) || Judge(s, r, g, now, c).Available?
  {
    hide Judge;
    assert forall x :: x in cs + [c] <==> x in cs || x == c;
  }

  /** A count is positive exactly when some candidate gives that reason. */
  lemma {:induction false} CountsHaveReasons(s: EngineState, r: PickRequest, g: Group, now: Instant, cs: seq<Candidate>)
    ensures var t := Survey(s, r, g, now, cs);
            && (t.available != [] <==> SomeAvailable(s, r, g, now, cs))
            && (t.cooling > 0 <==> SomeRejected(s, r, g, now, cs, Cooling))
            && (t.missing > 0 <==> SomeRejected(s, r, g, now, cs, Missing))
            && (t.unready > 0 <==> SomeRejected(s, r, g, now, cs, Unready))
  {
    hide Judge, SomeRejected, SomeAvailable;
    if cs == [] {
      NoReasons(s, r, g, now);
    } else {
      var n := |cs| - 1;
      CountsHaveReasons(s, r, g, now, cs[..n]);
      assert cs == cs[..n] + [cs[n]];
      OneMoreAvailable(s, r, g, now, cs[..n], cs[n]);
      OneMoreRejected(s, r, g, now, cs[..n], cs[n], Cooling);
      OneMoreRejected(s, r, g, now, cs[..n], cs[n], Missing);
      OneMoreRejected(s, r, g, now, cs[..n], cs[n], Unready);
    }
  }

  lemma NoReasons(s: EngineState, r: PickRequest, g: Group, now: Instant)
    ensures !SomeAvailable(s, r, g, now, []) && forall cause :: !SomeRejected(s, r, g, now, [], cause)
  {
  }

  /**
    When each answer is given, exactly: a selection when some candidate is
    available; otherwise unknown credentials outweigh uninitialized ones, both
    outweigh cooling ones, and what is left are candidates with stale evidence
    or none at all. All-cooling is the model cooldown and no other answer.
   */
  lemma AnswersMeanWhatTheySay(s: EngineState, r: PickRequest, g: Group, now: Instant)
    ensures var o := KnownOutcome(s, r, g, now);
            var served := SomeAvailable(s, r, g, now, r.candidates);
            var missing := SomeRejected(s, r, g, now, r.candidates, Missing);
            var unready := SomeRejected(s, r, g, now, r.candidates, Unready);
            var cooling := SomeRejected(s, r, g, now, r.candidates, Cooling);
            && (o.error == NoError <==> served)
            && (o.error == AuthUnknown <==> !served && missing)
            && (o.error == AuthUninitialized <==> !served && !missing && unready)
            && (o.error == ModelCooldown <==> !served && !missing && !unready && cooling)
            && (o.error == NoEligibleAuth <==> !served && !missing && !unready && !cooling)
            && (o.allCooling <==> o.error == ModelCooldown)
            && (!served ==> o.excluded == |r.candidates| && o.selectedAuthIndex == "" && o.selectedAuthID == "")
  {
    hide Judge, Survey, SomeRejected, SomeAvailable, RetryAfter;
    CountsHaveReasons(s, r, g, now, r.candidates);
    EveryCandidateCounted(s, r, g, now, r.candidates);
  }

  lemma MissingHasNoBoundary(s: EngineState, r: PickRequest, g: Group, now: Instant, c: Candidate)
    ensures Judge(s, r, g, now, c).Rejected? && Judge(s, r, g, now, c).cause == Missing ==> Judge(s, r, g, now, c).boundary == 0
  {
  }

  // ---------------------------------------------------------------- retry hint

  predicate CoolsUntil(s: EngineState, r: PickRequest, g: Group, now: Instant, c: Candidate, boundary: Time) {
    boundary != 0 && Judge(s, r, g, now, c) == Rejected(Cooling, boundary)
  }

  /** The survey's `earliest` is the least boundary at which some cooling candidate stops cooling. */
  lemma {:induction false} EarliestIsLeast(s: EngineState, r: PickRequest, g: Group, now: Instant, cs: seq<Candidate>)
    ensures var first := Survey(s, r, g, now, cs).earliest;
            && (first != 0 ==> exists c :: c in cs && CoolsUntil(s, r, g, now, c, first))
            && (forall c, b: Time :: c in cs && CoolsUntil(s, r, g, now, c, b) ==> 0 < first <= b)
  {
    if cs != [] {
      var n := |cs| - 1;
      EarliestIsLeast(s, r, g, now, cs[..n]);
      assert cs == cs[..n] + [cs[n]];
      var prior := Survey(s, r, g, now, cs[..n]).earliest;
      var first := Survey(s, r, g, now, cs).earliest;
      assert Judge(s, r, g, now, cs[n]).Rejected? && Judge(s, r, g, now, cs[n]).boundary != 0 ==>
               CoolsUntil(s, r, g, now, cs[n], Judge(s, r, g, now, cs[n]).boundary);
      if prior != 0 {
        var c :| c in cs[..n] && CoolsUntil(s, r, g, now, c, prior);
        assert c in cs;
      }
      forall c, b: Time | c in cs && CoolsUntil(s, r, g, now, c, b) ensures 0 < first <= b {
        if c in cs[..n] {
          assert 0 < prior <= b;
        }
      }
    }
  }

  lemma CoolingEnds(s: EngineState, r: PickRequest, g: Group, now: Instant, c: Candidate, boundary: Time, later: Instant)
    requires CoolsUntil(s, r, g, now, c, boundary)
    ensures boundary > now
    ensures later >= boundary ==> Judge(s, r, g, later, c).Available?
  {
  }

  lemma WholeSeconds(now: Time, boundary: Time)
    requires boundary > now
    ensures var wait := RetryAfter(now, boundary);
            wait > 0 && wait % SECOND == 0 && now + wait - SECOND < boundary <= now + wait
  {
  }

  /**
    When nothing is eligible and the answer carries a wait, the wait is the
    least whole number of seconds reaching the first cooling boundary, and the
    same pick on the same entries after that wait selects a candidate.
   */
  lemma RetryAfterIsExact(s: EngineState, r: PickRequest, g: Group, now: Instant)
    requires Eligible(s, r, g, now) == [] && KnownOutcome(s, r, g, now).retryAfter > 0
    ensures var wait := KnownOutcome(s, r, g, now).retryAfter;
            && wait % SECOND == 0
            && (exists c, b: Time :: c in r.candidates && CoolsUntil(s, r, g, now, c, b) && now + wait - SECOND < b <= now + wait)
            && (forall c, b: Time :: c in r.candidates && CoolsUntil(s, r, g, now, c, b) ==> now + wait - SECOND < b)
            && Selected(s, r, g, now + wait).Some?
  {
    hide Survey, Judge, JudgeEntry, Selected, CoolsUntil, Eligible;
    var first := Survey(s, r, g, now, r.candidates).earliest;
    assert KnownOutcome(s, r, g, now).retryAfter == RetryAfter(now, first) by { WaitOfSurvey(s, r, g, now); }
    EarliestIsLeast(s, r, g, now, r.candidates);
    WholeSeconds(now, first);
    hide KnownOutcome, RetryAfter;
    var c :| c in r.candidates && CoolsUntil(s, r, g, now, c, first);
    WaitingHelps(s, r, g, now, c, first, now + RetryAfter(now, first));
  }

  lemma WaitOfSurvey(s: EngineState, r: PickRequest, g: Group, now: Instant)
    requires Eligible(s, r, g, now) == []
    ensures KnownOutcome(s, r, g, now).retryAfter == RetryAfter(now, Survey(s, r, g, now, r.candidates).earliest)
  {
    hide Survey, RetryAfter;
  }

  lemma WaitingHelps(s: EngineState, r: PickRequest, g: Group, now: Instant, c: Candidate, boundary: Time, later: Instant)
    requires c in r.candidates && CoolsUntil(s, r, g, now, c, boundary) && later >= boundary
    ensures Selected(s, r, g, later).Some?
  {
    CoolingEnds(s, r, g, now, c, boundary, later);
    SurveyMembers(s, r, g, later, r.candidates);
    assert Judge(s, r, g, later, c).choice in Eligible(s, r, g, later);
  }

  /** In a reachable state an all-cooling answer always carries a wait. */
  lemma AllCoolingHasWait(s: EngineState, r: PickRequest, g: Group, now: Instant)
    requires Sound(s) && KnownOutcome(s, r, g, now).allCooling
    ensures KnownOutcome(s, r, g, now).retryAfter > 0
  {
    var t := Survey(s, r, g, now, r.candidates);
    EveryCandidateCounted(s, r, g, now, r.candidates);
    EarliestIsLeast(s, r, g, now, r.candidates);
    var c :| c in r.candidates && Judge(s, r, g, now, c).Rejected? && Judge(s, r, g, now, c).cause == Cooling;
    var k := Lookup(s, c.authIndex, c.authID, g).value;
    assert EntrySound(s.entries[k]);
    var b := Judge(s, r, g, now, c).boundary;
    assert CoolsUntil(s, r, g, now, c, b);
    CoolingEnds(s, r, g, now, c, b, now);
    CoolingBoundaryAhead(s, r, g, now, t.earliest);
    WholeSeconds(now, t.earliest);
  }

  lemma CoolingBoundaryAhead(s: EngineState, r: PickRequest, g: Group, now: Instant, boundary: Time)
    requires exists c :: CoolsUntil(s, r, g, now, c, boundary)
    ensures boundary > now
  {
    var c :| CoolsUntil(s, r, g, now, c, boundary);
    CoolingEnds(s, r, g, now, c, boundary, now);
  }
}
