/**
  Whom a pick hands out: which candidates it may serve, which names it
  answers, and that the cursor serves every eligible candidate in turn.
 */
module Answers {
  import opened GuardTypes
  import opened Breaker
  import opened EngineSpec
  import opened EngineRuns
  import opened Leases
  import Picks

  // ------------------------------------------------------------------- who may be served

  /** Not an Antigravity credential: another provider is named, or none is and the route is not unambiguous. */
  predicate IsForeign(r: PickRequest, c: Candidate) {
    c.provider == Foreign || c.provider == Blank
    || (c.provider == Omitted && (r.provider != Antigravity || Foreign in r.providers))
  }

  predicate FailsOpen(asked: Option<Policy>, configured: Option<Policy>) {
    (if asked.Some? then asked else configured) == Some(FailOpen)
  }

  /**
    Candidates that no cooling or closed breaker speaks for: those of other
    providers are always served, unknown credentials only under a fail-open
    policy, and uninitialized ones only with fresh evidence besides.
   */
  lemma UnguardedAreServedWhen(s: EngineState, r: PickRequest, g: Group, now: Instant, c: Candidate)
    requires Sound(s)
    ensures var verdict := Judge(s, r, g, now, c);
            var open := FailsOpen(r.authPolicy, s.config.unknownAuth);
            && (IsForeign(r, c) ==> verdict.Available? && verdict.choice.lease.None?)
            && (!IsForeign(r, c) ==>
                  match Lookup(s, c.authIndex, c.authID, g)
                  case None => if open then verdict.Available? else verdict == Rejected(Missing, 0)
                  case Some(k) =>
                    var at := s.entries[k].lastQuotaEvidenceAt;
                    s.entries[k].state == Uninitialized ==>
                      if !(at > 0 && at - MINUTE <= now <= at + s.config.evidenceMaxAge) then verdict == Rejected(Stale, 0)
                      else if open then verdict.Available? else verdict == Rejected(Unready, 0))
  {
    hide RosterSound, EntriesSound, Lookup;
    ForeignIsNotAntigravity(r, c);
    if Lookup(s, c.authIndex, c.authID, g).Some? {
      LookupFound(s, c.authIndex, c.authID, g);
    }
  }

  lemma ForeignIsNotAntigravity(r: PickRequest, c: Candidate)
    ensures IsForeign(r, c) <==> !CandidateIsAntigravity(r, c)
  {
  }

  // ---------------------------------------------------------------- the answer

  /** The request concerns Antigravity and a group that is enforced. */
  predicate Reaches(r: PickRequest, g: Group) {
    && (|| r.provider == Antigravity || Antigravity in r.providers
        || exists c :: c in r.candidates && c.provider == Antigravity)
    && r.group == Some(g) && (r.enforcedGroups == [] || g in r.enforcedGroups)
  }

  lemma ReachesTheLoop(r: PickRequest, g: Group)
    ensures Reaches(r, g) <==> LoopGroup(r) == Some(g)
  {
  }

  /** The candidates a pick may serve, in the order given. */
  function Served(s: EngineState, r: PickRequest, g: Group, now: Instant, cs: seq<Candidate>): seq<Candidate> {
    if cs == [] then []
    else
      var n := |cs| - 1;
      Served(s, r, g, now, cs[..n]) + if Judge(s, r, g, now, cs[n]).Available? then [cs[n]] else []
  }

  /** The candidate whose turn it is. */
  function InTurn(s: EngineState, r: PickRequest, g: Group, now: Instant): Option<Candidate> {
    var served := Served(s, r, g, now, r.candidates);
    if served == [] then None else Some(served[Cursor(s, g) % |served|])
  }

  datatype Names = Names(authID: string, authIndex: string)

  /** How a candidate is called: as its breaker's credential if it has one, otherwise as it calls itself. */
  function NamesOf(s: EngineState, r: PickRequest, g: Group, c: Candidate): Names {
    var k := Lookup(s, c.authIndex, c.authID, g);
    if !IsForeign(r, c) && k.Some? && k.value in s.entries then Names(s.entries[k.value].authID, s.entries[k.value].authIndex)
    else Names(c.authID, c.authIndex)
  }

  function Answered(o: PickResult): Names {
    Names(o.selectedAuthID, o.selectedAuthIndex)
  }

  lemma {:induction false} ServedIsEligible(s: EngineState, r: PickRequest, g: Group, now: Instant, cs: seq<Candidate>)
    ensures var served, eligible := Served(s, r, g, now, cs), Survey(s, r, g, now, cs).available;
            && |served| == |eligible|
            && forall i :: 0 <= i < |served| ==> served[i] in cs && Judge(s, r, g, now, served[i]) == Available(eligible[i])
  {
    hide Judge;
    if cs != [] {
      ServedIsEligible(s, r, g, now, cs[..|cs| - 1]);
      assert cs == cs[..|cs| - 1] + [cs[|cs| - 1]];
    }
  }

  /** An available candidate is named as its own breaker's credential. */
  lemma ChoiceNames(s: EngineState, r: PickRequest, g: Group, now: Instant, c: Candidate)
    requires Sound(s) && Judge(s, r, g, now, c).Available?
    ensures var choice := Judge(s, r, g, now, c).choice;
            && Names(choice.candidate.authID, choice.candidate.authIndex) == NamesOf(s, r, g, c)
            && forall k :: choice.lease == Some(k) <==>
                 !IsForeign(r, c) && Lookup(s, c.authIndex, c.authID, g) == Some(k) && k in s.entries && IsCooling(s.entries[k])
  {
    ForeignIsNotAntigravity(r, c);
    hide IsForeign, CandidateIsAntigravity, EvidenceFresh, EntrySound;
    var found := Lookup(s, c.authIndex, c.authID, g);
    if found.Some? {
      LookupFound(s, c.authIndex, c.authID, g);
      assert EntryPlaced(s.entries, s.authByID, found.value);
    }
  }

  lemma SelectedInTurn(s: EngineState, r: PickRequest, g: Group, now: Instant)
    ensures match InTurn(s, r, g, now)
            case None => Selected(s, r, g, now).None?
            case Some(c) => c in r.candidates && Selected(s, r, g, now).Some? && Judge(s, r, g, now, c) == Available(Selected(s, r, g, now).value)
  {
    hide Judge;
    ServedIsEligible(s, r, g, now, r.candidates);
  }

  /**
    A request that reaches the selection of a group is answered with the names
    of the candidate whose turn it is, or with none if nobody may be served.
   */
  lemma AnswersInTurn(s: EngineState, r: PickRequest, g: Group, now: Instant)
    requires Sound(s) && Reaches(r, g)
    ensures var o := PickOutcome(s, r, now);
            && o.group == Some(g) && (o.handled <==> r.mode == Enforce) && (o.observeOnly <==> r.mode == Observe)
            && o.excluded + |Served(s, r, g, now, r.candidates)| == |r.candidates|
            && match InTurn(s, r, g, now)
               case None => Answered(o) == Names("", "") && o.error != NoError
               case Some(c) => Answered(o) == NamesOf(s, r, g, c) && o.error == NoError && o.retryAfter == 0 && !o.allCooling
  {
    hide RosterSound, EntriesSound, Judge, Selected, Survey, InTurn, Reaches, RouteIncludesAntigravity;
    ReachesTheLoop(r, g);
    SelectedInTurn(s, r, g, now);
    ServedIsEligible(s, r, g, now, r.candidates);
    Picks.EveryCandidateCounted(s, r, g, now, r.candidates);
    if InTurn(s, r, g, now).Some? {
      ChoiceNames(s, r, g, now, InTurn(s, r, g, now).value);
    }
  }

  /**
    A lease is granted exactly when an enforcing pick serves a credential whose
    breaker is cooling, and the answer names that very credential.
   */
  lemma LeaseGoesToTheAnswer(s: EngineState, r: PickRequest, g: Group, now: Instant, k: Key)
    requires Sound(s) && Reaches(r, g)
    ensures Granted(s, Pick(r, now)) == Some(k)
            <==> && r.mode == Enforce && InTurn(s, r, g, now).Some?
                 && var c := InTurn(s, r, g, now).value;
                    !IsForeign(r, c) && Lookup(s, c.authIndex, c.authID, g) == Some(k) && k in s.entries && IsCooling(s.entries[k])
    ensures Granted(s, Pick(r, now)) == Some(k) ==>
              var o := PickOutcome(s, r, now);
              Lookup(s, o.selectedAuthIndex, o.selectedAuthID, g) == Some(k)
  {
    hide RosterSound, EntriesSound, Judge, Selected, Survey, InTurn, Reaches, RouteIncludesAntigravity, IsForeign, Lookup, PickOutcome;
    ReachesTheLoop(r, g);
    SelectedInTurn(s, r, g, now);
    AnswersInTurn(s, r, g, now);
    if InTurn(s, r, g, now).Some? {
      ChoiceNames(s, r, g, now, InTurn(s, r, g, now).value);
      var c := InTurn(s, r, g, now).value;
      if !IsForeign(r, c) && Lookup(s, c.authIndex, c.authID, g) == Some(k) && k in s.entries {
        OwnNamesResolve(s, c, g, k);
      }
    }
  }

  lemma OwnNamesResolve(s: EngineState, c: Candidate, g: Group, k: Key)
    requires Sound(s) && k in s.entries && Lookup(s, c.authIndex, c.authID, g) == Some(k)
    ensures Lookup(s, s.entries[k].authIndex, s.entries[k].authID, g) == Some(k)
  {
    assert EntryPlaced(s.entries, s.authByID, k);
  }

  // --------------------------------------------------------------- round robin

  /** An enforcing pick that reaches the selection of `g`. */
  predicate Turn(step: Step, g: Group) {
    step.Pick? && step.request.mode == Enforce && Reaches(step.request, g)
  }

  function Turns(steps: seq<Step>, g: Group): nat {
    if steps == [] then 0 else Turns(steps[..|steps| - 1], g) + (if Turn(steps[|steps| - 1], g) then 1 else 0)
  }

  /** Those who may be served go by these names. */
  predicate Offers(s: EngineState, r: PickRequest, g: Group, now: Instant, names: seq<Names>) {
    var served := Served(s, r, g, now, r.candidates);
    |served| == |names| && forall i :: 0 <= i < |names| ==> NamesOf(s, r, g, served[i]) == names[i]
  }

  /** Every turn of the run may serve the same credentials, in the same order. */
  ghost predicate Steady(s: EngineState, steps: seq<Step>, g: Group, names: seq<Names>)
    requires ValidConfig(s.config)
  {
    && names != []
    && (forall i :: 0 <= i < |steps| ==> !steps[i].Restart?)
    && (forall i :: 0 <= i < |steps| && Turn(steps[i], g) ==> Offers(Before(s, steps, i), steps[i].request, g, steps[i].at, names))
  }

  /** What the turns of a run are answered, one after the other. */
  function Handed(s: EngineState, steps: seq<Step>, g: Group): seq<Names>
    requires ValidConfig(s.config)
  {
    if steps == [] then []
    else
      var n := |steps| - 1;
      Handed(s, steps[..n], g)
      + if Turn(steps[n], g) then [Answered(PickOutcome(Before(s, steps, n), steps[n].request, steps[n].at))] else []
  }

  lemma CursorStep(s: EngineState, step: Step, g: Group)
    requires ValidConfig(s.config) && !step.Restart?
    requires Turn(step, g) ==> InTurn(s, step.request, g, step.at).Some?
    ensures Cursor(Next(s, step), g) == Cursor(s, g) + if Turn(step, g) then 1 else 0
  {
    hide RosterNext, RegisterNext, EvidenceNext, UsageNext, InTurn, Reaches, Selected;
    match step
    case Pick(r, at) =>
      ReachesTheLoop(r, g);
      SelectedInTurn(s, r, g, at);
    case Roster(ids, at) => RosterKeepsCursors(s, ids, at);
    case Register(id, at) => RegisterKeepsCursors(s, id, at);
    case Probe(ev, at) => ProbeKeepsCursors(s, ev, at);
    case Use(u, at) => UseKeepsCursors(s, u, at);
    case _ =>
  }

  lemma RosterKeepsCursors(s: EngineState, ids: seq<Identity>, at: Instant)
    ensures RosterNext(s, ids, at).cursors == s.cursors
  {
    hide NormalizeRoster, RosterEntries, RosterIDs;
  }

  lemma RegisterKeepsCursors(s: EngineState, id: Identity, at: Instant)
    ensures RegisterNext(s, id, at).cursors == s.cursors
  {
    hide NormalizeIdentity, WithIdentity, WithoutIndex;
  }

  lemma ProbeKeepsCursors(s: EngineState, ev: Evidence, at: Instant)
    ensures EvidenceNext(s, ev, at).cursors == s.cursors
  {
    hide WithEvidence;
  }

  lemma UseKeepsCursors(s: EngineState, u: Usage, at: Instant)
    requires ValidConfig(s.config)
    ensures UsageNext(s, u, at).cursors == s.cursors
  {
    hide WithUsage, UsageTarget;
  }

  /** One more step of a steady run. */
  lemma SteadyPrefix(s: EngineState, steps: seq<Step>, g: Group, names: seq<Names>)
    requires ValidConfig(s.config) && Steady(s, steps, g, names) && steps != []
    ensures Steady(s, steps[..|steps| - 1], g, names)
  {
    hide Run, Reaches, Offers;
    var n := |steps| - 1;
    forall i | 0 <= i < n && Turn(steps[i], g) ensures Offers(Before(s, steps[..n], i), steps[i].request, g, steps[i].at, names) {
      assert steps[..n][..i] == steps[..i];
    }
  }

  /** A turn that may serve these names moves the cursor, and is answered with the name the cursor points at. */
  lemma TurnTaken(s: EngineState, step: Step, g: Group, names: seq<Names>)
    requires Sound(s) && names != [] && Turn(step, g) && Offers(s, step.request, g, step.at, names)
    ensures Answered(PickOutcome(s, step.request, step.at)) == names[Cursor(s, g) % |names|]
    ensures Cursor(Next(s, step), g) == Cursor(s, g) + 1
  {
    AnswersInTurn(s, step.request, g, step.at);
    CursorStep(s, step, g);
    hide Reaches, Sound, PickOutcome, Next, NamesOf;
  }

  /** The turns of a steady run go round the names, starting where the cursor points. */
  lemma {:induction false} TurnsGoRound(s: EngineState, steps: seq<Step>, g: Group, names: seq<Names>)
    requires Sound(s) && Steady(s, steps, g, names)
    ensures |Handed(s, steps, g)| == Turns(steps, g)
    ensures Cursor(Run(s, steps), g) == Cursor(s, g) + Turns(steps, g)
    ensures forall j :: 0 <= j < Turns(steps, g) ==> Handed(s, steps, g)[j] == names[(Cursor(s, g) + j) % |names|]
  {
    hide RosterSound, EntriesSound, Reaches, Next, Offers, PickOutcome;
    if steps != [] {
      var n := |steps| - 1;
      SteadyPrefix(s, steps, g, names);
      TurnsGoRound(s, steps[..n], g, names);
      RunKeepsSound(s, steps[..n]);
      if Turn(steps[n], g) {
        TurnTaken(Before(s, steps, n), steps[n], g, names);
      } else {
        CursorStep(Before(s, steps, n), steps[n], g);
      }
    }
  }

  lemma Residue(q: nat, n: nat, p: nat)
    requires p < n
    ensures (q * n + p) % n == p
  {
    var x := q * n + p;
    var d := q - x / n;
    assert d * n == x % n - p;
    assert d >= 1 ==> d * n >= n;
    assert d <= -1 ==> d * n + n <= 0;
  }

  lemma SlotInCycle(start: nat, n: nat, turn: nat)
    requires turn < n
    ensures var rem := start % n; (start + turn) % n == if rem + turn < n then rem + turn else rem + turn - n
  {
    var q, rem := start / n, start % n;
    assert start == q * n + rem;
    if rem + turn < n {
      assert start + turn == q * n + (rem + turn);
      Residue(q, n, rem + turn);
    } else {
      assert (q + 1) * n == q * n + n;
      assert start + turn == (q + 1) * n + (rem + turn - n);
      Residue(q + 1, n, rem + turn - n);
    }
  }

  /** Once round from any start is a rotation. */
  lemma OnceRound(names: seq<Names>, handed: seq<Names>, start: nat)
    requires |handed| == |names| > 0
    requires forall j :: 0 <= j < |names| ==> handed[j] == names[(start + j) % |names|]
    ensures multiset(handed) == multiset(names)
  {
    var n, rem := |names|, start % |names|;
    forall j: nat | j < n ensures handed[j] == (names[rem..] + names[..rem])[j] {
      SlotInCycle(start, n, j);
    }
    assert handed == names[rem..] + names[..rem];
    assert names == names[..rem] + names[rem..];
  }

  /**
    While the same credentials may be served, as many consecutive turns as
    there are of them hand out each exactly as often as it is offered,
    whatever other steps come between.
   */
  lemma RoundRobin(s: EngineState, steps: seq<Step>, g: Group, names: seq<Names>)
    requires Sound(s) && Steady(s, steps, g, names) && Turns(steps, g) == |names|
    ensures multiset(Handed(s, steps, g)) == multiset(names)
  {
    hide Run, RosterSound, EntriesSound, Turns, Handed;
    TurnsGoRound(s, steps, g, names);
    OnceRound(names, Handed(s, steps, g), Cursor(s, g));
  }

  // --------------------------------------------------------------- unknown models

  function ForeignAmong(r: PickRequest, cs: seq<Candidate>): nat {
    if cs == [] then 0 else ForeignAmong(r, cs[..|cs| - 1]) + if IsForeign(r, cs[|cs| - 1]) then 1 else 0
  }

  /** Candidate i, this one, is the first that is not an Antigravity credential. */
  predicate FirstForeign(r: PickRequest, cs: seq<Candidate>, i: int, c: Candidate) {
    0 <= i < |cs| && cs[i] == c && IsForeign(r, c) && forall j :: 0 <= j < i ==> !IsForeign(r, cs[j])
  }

  lemma {:induction false} ForeignOnes(r: PickRequest, cs: seq<Candidate>)
    ensures var foreign := ForeignOnly(r, cs);
            && |foreign| == ForeignAmong(r, cs)
            && (foreign == [] <==> forall c :: c in cs ==> !IsForeign(r, c))
            && (foreign != [] ==> exists i :: FirstForeign(r, cs, i, foreign[0]))
  {
    hide IsForeign, CandidateIsAntigravity, FirstForeign;
    if cs != [] {
      var n := |cs| - 1;
      ForeignOnes(r, cs[..n]);
      ForeignIsNotAntigravity(r, cs[n]);
      assert cs == cs[..n] + [cs[n]];
      if ForeignOnly(r, cs[..n]) != [] {
        var c := ForeignOnly(r, cs[..n])[0];
        var i :| FirstForeign(r, cs[..n], i, c);
        StillFirst(r, cs, i, c);
        assert ForeignOnly(r, cs)[0] == c;
      } else if IsForeign(r, cs[n]) {
        NowFirst(r, cs);
        assert ForeignOnly(r, cs) == [cs[n]];
      }
    }
  }

  lemma StillFirst(r: PickRequest, cs: seq<Candidate>, i: int, c: Candidate)
    requires cs != [] && FirstForeign(r, cs[..|cs| - 1], i, c)
    ensures FirstForeign(r, cs, i, c)
  {
    hide IsForeign;
    assert forall j :: 0 <= j < |cs| - 1 ==> cs[..|cs| - 1][j] == cs[j];
  }

  lemma NowFirst(r: PickRequest, cs: seq<Candidate>)
    requires cs != [] && IsForeign(r, cs[|cs| - 1]) && forall c :: c in cs[..|cs| - 1] ==> !IsForeign(r, c)
    ensures FirstForeign(r, cs, |cs| - 1, cs[|cs| - 1])
  {
    hide IsForeign;
    forall j | 0 <= j < |cs| - 1 ensures !IsForeign(r, cs[j]) {
      assert cs[j] in cs[..|cs| - 1];
    }
  }

  /**
    A model of no known group: no Antigravity credential is ever named and no
    state changes. Failing closed, the first foreign candidate is served if
    there is one, and the request is refused otherwise; failing open leaves
    the request alone.
   */
  lemma UnknownModelServesForeign(s: EngineState, r: PickRequest, now: Instant)
    requires ValidConfig(s.config) && r.group.None?
    requires r.provider == Antigravity || Antigravity in r.providers || exists c :: c in r.candidates && c.provider == Antigravity
    ensures var o := PickOutcome(s, r, now);
            && Next(s, Pick(r, now)) == s && o.group == None && !o.allCooling && o.retryAfter == 0
            && (o.observeOnly <==> r.mode == Observe)
            && if FailsOpen(r.modelPolicy, s.config.unknownModel)
               then Answered(o) == Names("", "") && o.error == QuotaGroupUnknown && !o.handled && o.excluded == 0
               else && (o.handled <==> r.mode == Enforce)
                    && o.excluded + ForeignAmong(r, r.candidates) == |r.candidates|
                    && (o.error == NoError || o.error == QuotaGroupUnknown)
                    && (o.error == QuotaGroupUnknown <==> forall c :: c in r.candidates ==> !IsForeign(r, c))
                    && (o.error == QuotaGroupUnknown ==> Answered(o) == Names("", ""))
                    && (o.error == NoError ==>
                          exists i, c :: FirstForeign(r, r.candidates, i, c) && Answered(o) == Names(c.authID, c.authIndex))
  {
    hide ForeignOnly, IsForeign, FirstForeign;
    ForeignOnes(r, r.candidates);
  }

  /** Requests that do not concern Antigravity, or a group that is not enforced, are left alone. */
  lemma OthersAreLeftAlone(s: EngineState, r: PickRequest, now: Instant)
    requires ValidConfig(s.config)
    requires if r.group.Some? then !Reaches(r, r.group.value)
             else r.provider != Antigravity && Antigravity !in r.providers && forall c :: c in r.candidates ==> c.provider != Antigravity
    ensures var o := PickOutcome(s, r, now);
            && Next(s, Pick(r, now)) == s && !o.handled && Answered(o) == Names("", "") && o.error == NoError && o.retryAfter == 0
  {
  }
}
