/**
  The two model groups never influence each other: what a run leaves of a
  group is what its own steps leave, and picks that only observe leave nothing.
 */
module GroupIsolation {
  import opened GuardTypes
  import opened Breaker
  import opened EngineSpec
  import opened EngineRuns

  /** All that the breakers and picks of one group depend on. */
  datatype View = View(config: Config, entries: map<Key, Entry>, cursor: nat, authByID: map<string, string>)

  function Project(s: EngineState, g: Group): View {
    View(s.config, map k | k in s.entries && k.group == g :: s.entries[k], Cursor(s, g), s.authByID)
  }

  /** Roster steps and reloads touch both groups; everything else names one, and an observing pick none. */
  predicate Touches(step: Step, g: Group) {
    match step
    case Roster(_, _) => true
    case Register(_, _) => true
    case Restart(_) => true
    case ProbeError => false
    case Probe(ev, _) => ev.group == g
    case Use(u, _) => u.antigravity && u.group == Some(g)
    case Pick(r, _) => r.mode == Enforce && LoopGroup(r) == Some(g)
    case Manual(_, group, _) => group == g
  }

  function Only(steps: seq<Step>, g: Group): seq<Step> {
    if steps == [] then []
    else
      var rest := Only(steps[..|steps| - 1], g);
      if Touches(steps[|steps| - 1], g) then rest + [steps[|steps| - 1]] else rest
  }

  lemma UntouchedStep(s: EngineState, step: Step, g: Group)
    requires ValidConfig(s.config) && !Touches(step, g)
    ensures Project(Next(s, step), g) == Project(s, g)
  {
    hide UsageNext, EvidenceNext, ManualNext, PickNext, RosterNext, RegisterNext, Project, Alike;
    match step
    case Probe(ev, at) => ProbeElsewhere(s, ev, at, g);
    case Use(u, at) => UseElsewhere(s, u, at, g);
    case Pick(r, at) => PickElsewhere(s, r, at, g);
    case Manual(index, other, at) => ManualElsewhere(s, index, other, at, g);
    case _ =>
  }

  /** Storing one entry of the other group leaves this one alone. */
  lemma CommitElsewhere(s: EngineState, k: Key, e: Entry, at: Time, g: Group)
    requires k in s.entries && k.group != g
    ensures Project(Commit(s, k, e, at), g) == Project(s, g)
  {
    assert Project(Commit(s, k, e, at), g).entries == Project(s, g).entries;
  }

  lemma ProbeElsewhere(s: EngineState, ev: Evidence, at: Instant, g: Group)
    requires ev.group != g
    ensures Project(EvidenceNext(s, ev, at), g) == Project(s, g)
  {
    hide WithEvidence, Project, Commit;
    var k := Key(ev.authIndex, ev.group);
    if k in s.entries {
      CommitElsewhere(s, k, WithEvidence(s.entries[k], ev, at), at, g);
    }
  }

  lemma UseElsewhere(s: EngineState, u: Usage, at: Instant, g: Group)
    requires ValidConfig(s.config) && !(u.antigravity && u.group == Some(g))
    ensures Project(UsageNext(s, u, at), g) == Project(s, g)
  {
    hide WithUsage, Project, Commit;
    if UsageTarget(s, u).Some? {
      var k := UsageTarget(s, u).value;
      CommitElsewhere(s, k, WithUsage(s.config, s.entries[k], u, at), at, g);
    }
  }

  lemma ManualElsewhere(s: EngineState, authIndex: string, other: Group, at: Instant, g: Group)
    requires other != g
    ensures Project(ManualNext(s, authIndex, other, at), g) == Project(s, g)
  {
    hide Pending;
    assert Project(ManualNext(s, authIndex, other, at), g).entries == Project(s, g).entries;
  }

  lemma PickElsewhere(s: EngineState, r: PickRequest, at: Instant, g: Group)
    requires ValidConfig(s.config) && !(r.mode == Enforce && LoopGroup(r) == Some(g))
    ensures Project(PickNext(s, r, at), g) == Project(s, g)
  {
    hide Survey, Judge, JudgeEntry, Leased, RouteIncludesAntigravity, Probeable;
    if LoopGroup(r).Some? && r.mode == Enforce && Selected(s, r, r.group.value, at).Some? {
      SelectedLease(s, r, r.group.value, at);
      hide Selected;
      assert Project(PickNext(s, r, at), g).entries == Project(s, g).entries;
    }
  }

  ghost predicate Alike(a: EngineState, b: EngineState, g: Group) {
    && a.config == b.config
    && a.authByID == b.authByID
    && Cursor(a, g) == Cursor(b, g)
    && forall k: Key :: k.group == g ==> (k in a.entries <==> k in b.entries) && (k in a.entries ==> a.entries[k] == b.entries[k])
  }

  lemma AlikeIsProjection(a: EngineState, b: EngineState, g: Group)
    ensures Alike(a, b, g) <==> Project(a, g) == Project(b, g)
  {
    if Project(a, g) == Project(b, g) {
      forall k: Key | k.group == g
        ensures (k in a.entries <==> k in b.entries) && (k in a.entries ==> a.entries[k] == b.entries[k])
      {
        assert k in Project(a, g).entries <==> k in a.entries;
        assert k in Project(b, g).entries <==> k in b.entries;
      }
    }
    if Alike(a, b, g) {
      assert Project(a, g).entries == Project(b, g).entries;
    }
  }

  lemma LookupAlike(a: EngineState, b: EngineState, g: Group, authIndex: string, authID: string)
    requires Alike(a, b, g)
    ensures Lookup(a, authIndex, authID, g) == Lookup(b, authIndex, authID, g)
  {
  }

  lemma {:induction false} SurveyAlike(a: EngineState, b: EngineState, r: PickRequest, g: Group, now: Instant, cs: seq<Candidate>)
    requires Alike(a, b, g)
    ensures Survey(a, r, g, now, cs) == Survey(b, r, g, now, cs)
  {
    if cs != [] {
      var c := cs[|cs| - 1];
      SurveyAlike(a, b, r, g, now, cs[..|cs| - 1]);
      LookupAlike(a, b, g, c.authIndex, c.authID);
    }
  }

  lemma {:induction false} RosterAlike(a: EngineState, b: EngineState, g: Group, ids: seq<Identity>, k: Key)
    requires Alike(a, b, g) && k.group == g
    ensures k in RosterEntries(a.entries, ids) <==> k in RosterEntries(b.entries, ids)
    ensures k in RosterEntries(a.entries, ids) ==> RosterEntries(a.entries, ids)[k] == RosterEntries(b.entries, ids)[k]
  {
    if ids != [] {
      RosterAlike(a, b, g, ids[..|ids| - 1], k);
    }
  }

  lemma ReplacedParts(s: EngineState, ids: seq<Identity>, at: Instant)
    ensures var n := RosterNext(s, ids, at);
            && n.cursors == s.cursors && n.config == s.config
            && match NormalizeRoster(ids)
               case None => n == s
               case Some(items) => n.entries == RosterEntries(s.entries, items) && n.authByID == RosterIDs(items)
  {
    hide NormalizeRoster, RosterEntries, RosterIDs;
  }

  lemma RosterStepAlike(a: EngineState, b: EngineState, ids: seq<Identity>, at: Instant, g: Group)
    requires Alike(a, b, g)
    ensures Alike(RosterNext(a, ids, at), RosterNext(b, ids, at), g)
  {
    hide RosterNext, NormalizeRoster, RosterEntries, RosterIDs;
    ReplacedParts(a, ids, at);
    ReplacedParts(b, ids, at);
    if NormalizeRoster(ids).Some? {
      var items := NormalizeRoster(ids).value;
      forall k: Key | k.group == g
        ensures k in RosterEntries(a.entries, items) <==> k in RosterEntries(b.entries, items)
        ensures k in RosterEntries(a.entries, items) ==> RosterEntries(a.entries, items)[k] == RosterEntries(b.entries, items)[k]
      {
        RosterAlike(a, b, g, items, k);
      }
    }
  }

  lemma RegisterStepAlike(a: EngineState, b: EngineState, id: Identity, at: Instant, g: Group)
    requires Alike(a, b, g)
    ensures Alike(RegisterNext(a, id, at), RegisterNext(b, id, at), g)
  {
    RegisteredParts(a, id, at);
    RegisteredParts(b, id, at);
    hide RegisterNext, WithIdentity, NormalizeIdentity;
    if !RegisterRefused(a, id) {
      var item := NormalizeIdentity(id).value;
      var x, y := WithIdentity(a.entries, a.entries, item), WithIdentity(b.entries, b.entries, item);
      forall k: Key | k.group == g ensures (k in x <==> k in y) && (k in x ==> x[k] == y[k]) {
        RegisteredAt(a, item, k);
        RegisteredAt(b, item, k);
      }
    }
  }

  lemma RegisteredParts(s: EngineState, id: Identity, at: Instant)
    ensures var n := RegisterNext(s, id, at);
            && n.cursors == s.cursors && n.config == s.config
            && if RegisterRefused(s, id) then n == s
               else
                 var item := NormalizeIdentity(id).value;
                 && n.entries == WithIdentity(s.entries, s.entries, item)
                 && n.authByID == WithoutIndex(s.authByID, item.authIndex)[item.authID := item.authIndex]
  {
    hide WithIdentity, WithoutIndex;
  }

  /** The same candidate is selected, for the same lease. */
  lemma SelectedAlike(a: EngineState, b: EngineState, r: PickRequest, g: Group, now: Instant)
    requires Alike(a, b, g)
    ensures Selected(a, r, g, now) == Selected(b, r, g, now)
  {
    SurveyAlike(a, b, r, g, now, r.candidates);
    hide Survey;
  }

  lemma OutcomeAlike(a: EngineState, b: EngineState, r: PickRequest, g: Group, now: Instant)
    requires Alike(a, b, g) && LoopGroup(r) == Some(g)
    ensures PickOutcome(a, r, now) == PickOutcome(b, r, now)
  {
    SurveyAlike(a, b, r, g, now, r.candidates);
    SelectedAlike(a, b, r, g, now);
    hide Survey, Selected, RetryAfter, Refusal, RouteIncludesAntigravity, GroupEnforced, UnknownOutcome, Alike;
  }

  /** What an enforcing pick makes of its selection. */
  function Taken(s: EngineState, g: Group, now: Instant, requestID: string, choice: Option<Choice>): EngineState
    requires ValidConfig(s.config)
  {
    match choice
    case None => s
    case Some(c) =>
      var turned := s.(cursors := s.cursors[g := Cursor(s, g) + 1]);
      if c.lease.Some? && c.lease.value in s.entries then
        Dirtied(turned.(entries := s.entries[c.lease.value := Leased(s.config, s.entries[c.lease.value], now, requestID)]), now)
      else turned
  }

  lemma PickTakes(s: EngineState, r: PickRequest, g: Group, now: Instant)
    requires ValidConfig(s.config) && LoopGroup(r) == Some(g)
    ensures PickNext(s, r, now) == if r.mode == Enforce then Taken(s, g, now, r.requestID, Selected(s, r, g, now)) else s
  {
    assert r.group == Some(g);
    hide Selected, LoopGroup, Leased;
  }

  lemma TurnedAlike(a: EngineState, b: EngineState, g: Group)
    requires Alike(a, b, g)
    ensures Alike(a.(cursors := a.cursors[g := Cursor(a, g) + 1]), b.(cursors := b.cursors[g := Cursor(b, g) + 1]), g)
  {
  }

  lemma StoredAlike(a: EngineState, b: EngineState, g: Group, k: Key, e: Entry, at: Time)
    requires Alike(a, b, g)
    ensures Alike(Dirtied(a.(entries := a.entries[k := e]), at), Dirtied(b.(entries := b.entries[k := e]), at), g)
  {
  }

  lemma TakenAlike(a: EngineState, b: EngineState, g: Group, now: Instant, requestID: string, choice: Option<Choice>)
    requires Alike(a, b, g) && ValidConfig(a.config)
    requires choice.Some? && choice.value.lease.Some? ==> choice.value.lease.value.group == g
    ensures ValidConfig(b.config)
    ensures Alike(Taken(a, g, now, requestID, choice), Taken(b, g, now, requestID, choice), g)
  {
    if choice.Some? {
      var x, y := a.(cursors := a.cursors[g := Cursor(a, g) + 1]), b.(cursors := b.cursors[g := Cursor(b, g) + 1]);
      TurnedAlike(a, b, g);
      if choice.value.lease.Some? && choice.value.lease.value in a.entries {
        var k := choice.value.lease.value;
        assert k in b.entries && a.entries[k] == b.entries[k] && a.config == b.config;
        hide Alike, Leased, Cursor;
        StoredAlike(x, y, g, k, Leased(a.config, a.entries[k], now, requestID), now);
      }
    }
  }

  lemma LeaseInGroup(s: EngineState, r: PickRequest, g: Group, now: Instant)
    ensures var choice := Selected(s, r, g, now);
            choice.Some? && choice.value.lease.Some? ==> choice.value.lease.value.group == g
  {
    if Selected(s, r, g, now).Some? {
      SelectedLease(s, r, g, now);
    }
  }

  lemma PickNextAlike(a: EngineState, b: EngineState, r: PickRequest, g: Group, now: Instant)
    requires ValidConfig(a.config) && Alike(a, b, g) && LoopGroup(r) == Some(g)
    ensures ValidConfig(b.config)
    ensures Alike(PickNext(a, r, now), PickNext(b, r, now), g)
  {
    assert a.config == b.config;
    hide PickNext, Selected, LoopGroup, Alike, Taken;
    SelectedAlike(a, b, r, g, now);
    LeaseInGroup(a, r, g, now);
    PickTakes(a, r, g, now);
    PickTakes(b, r, g, now);
    TakenAlike(a, b, g, now, r.requestID, Selected(a, r, g, now));
  }

  lemma PickAlike(a: EngineState, b: EngineState, r: PickRequest, g: Group, now: Instant)
    requires ValidConfig(a.config) && Alike(a, b, g) && LoopGroup(r) == Some(g)
    ensures Alike(PickNext(a, r, now), PickNext(b, r, now), g)
    ensures PickOutcome(a, r, now) == PickOutcome(b, r, now)
  {
    assert ValidConfig(b.config);
    hide PickNext, PickOutcome, Alike, LoopGroup;
    PickNextAlike(a, b, r, g, now);
    OutcomeAlike(a, b, r, g, now);
  }

  lemma UseAlike(a: EngineState, b: EngineState, u: Usage, at: Instant, g: Group)
    requires ValidConfig(a.config) && Alike(a, b, g) && u.group == Some(g)
    ensures Alike(UsageNext(a, u, at), UsageNext(b, u, at), g)
  {
    hide WithUsage, Lookup;
    LookupAlike(a, b, g, u.authIndex, u.authID);
    LookupGroup(a, g, u.authIndex, u.authID);
    LookupGroup(b, g, u.authIndex, u.authID);
  }

  lemma LookupGroup(s: EngineState, g: Group, authIndex: string, authID: string)
    ensures var k := Lookup(s, authIndex, authID, g); k.Some? ==> k.value.group == g && k.value in s.entries
  {
  }

  lemma ProbeAlike(a: EngineState, b: EngineState, ev: Evidence, at: Instant)
    requires Alike(a, b, ev.group)
    ensures Alike(EvidenceNext(a, ev, at), EvidenceNext(b, ev, at), ev.group)
  {
    hide WithEvidence;
  }

  lemma ManualAlike(a: EngineState, b: EngineState, authIndex: string, at: Instant, g: Group)
    requires Alike(a, b, g)
    ensures Alike(ManualNext(a, authIndex, g, at), ManualNext(b, authIndex, g, at), g)
  {
    hide Pending;
  }

  lemma TouchedStep(a: EngineState, b: EngineState, step: Step, g: Group)
    requires ValidConfig(a.config) && Alike(a, b, g) && Touches(step, g)
    ensures Alike(Next(a, step), Next(b, step), g)
  {
    hide UsageNext, EvidenceNext, ManualNext, PickNext, RosterNext, RegisterNext;
    match step
    case Roster(ids, at) => RosterStepAlike(a, b, ids, at, g);
    case Register(id, at) => RegisterStepAlike(a, b, id, at, g);
    case Probe(ev, at) => ProbeAlike(a, b, ev, at);
    case Use(u, at) => UseAlike(a, b, u, at, g);
    case Pick(r, at) => PickAlike(a, b, r, g, at);
    case Manual(index, _, at) => ManualAlike(a, b, index, at, g);
    case Restart(_) =>
  }

  /**
    Isolation over any run: the breakers, cursor and id table that a run
    leaves for a group are those of the same run without the steps of the
    other group, without failed probes and without picks that only observe.
   */
  lemma {:induction false} GroupsAreIsolated(s: EngineState, steps: seq<Step>, g: Group)
    requires ValidConfig(s.config)
    ensures Project(Run(s, steps), g) == Project(Run(s, Only(steps, g)), g)
  {
    if steps != [] {
      var n := |steps| - 1;
      GroupsAreIsolated(s, steps[..n], g);
      var before := Run(s, steps[..n]);
      var kept := Run(s, Only(steps[..n], g));
      if Touches(steps[n], g) {
        assert Only(steps, g)[..|Only(steps, g)| - 1] == Only(steps[..n], g);
        AlikeIsProjection(before, kept, g);
        TouchedStep(before, kept, steps[n], g);
        AlikeIsProjection(Next(before, steps[n]), Next(kept, steps[n]), g);
      } else {
        UntouchedStep(before, steps[n], g);
      }
    }
  }

  lemma Untouched(s: EngineState, step: Step, g: Group)
    requires ValidConfig(s.config) && !Touches(step, g)
    ensures Alike(s, Next(s, step), g)
  {
    UntouchedStep(s, step, g);
    AlikeIsProjection(s, Next(s, step), g);
  }

  lemma CommuteInGroup(s: EngineState, a: Step, b: Step, g: Group)
    requires ValidConfig(s.config) && !(Touches(a, g) && Touches(b, g))
    ensures Alike(Next(Next(s, a), b), Next(Next(s, b), a), g)
  {
    hide Next;
    if Touches(a, g) {
      Untouched(s, b, g);
      Untouched(Next(s, a), b, g);
      TouchedStep(s, Next(s, b), a, g);
    } else {
      Untouched(s, a, g);
      Untouched(Next(s, b), a, g);
      if Touches(b, g) {
        TouchedStep(s, Next(s, a), b, g);
      } else {
        Untouched(Next(s, a), b, g);
        Untouched(s, b, g);
      }
    }
  }

  /** Steps on different groups commute on every entry and every cursor. */
  lemma GroupsCommute(s: EngineState, a: Step, b: Step)
    requires ValidConfig(s.config)
    requires forall g :: !(Touches(a, g) && Touches(b, g))
    ensures Next(Next(s, a), b).entries == Next(Next(s, b), a).entries
    ensures forall g :: Cursor(Next(Next(s, a), b), g) == Cursor(Next(Next(s, b), a), g)
  {
    hide Next;
    var ab, ba := Next(Next(s, a), b), Next(Next(s, b), a);
    CommuteInGroup(s, a, b, Gemini);
    CommuteInGroup(s, a, b, ClaudeGPT);
    forall k ensures (k in ab.entries <==> k in ba.entries) && (k in ab.entries ==> ab.entries[k] == ba.entries[k]) {
      assert k.group == Gemini || k.group == ClaudeGPT;
    }
    forall g ensures Cursor(ab, g) == Cursor(ba, g) {
      assert g == Gemini || g == ClaudeGPT;
    }
  }

  predicate Observes(step: Step) {
    step.Pick? && step.request.mode == Observe
  }

  function WithoutObserving(steps: seq<Step>): seq<Step> {
    if steps == [] then []
    else
      var rest := WithoutObserving(steps[..|steps| - 1]);
      if Observes(steps[|steps| - 1]) then rest else rest + [steps[|steps| - 1]]
  }

  /** Observing picks can be erased from any run: nothing, not even the dirty counter, tells. */
  lemma {:induction false} ObservingLeavesNoTrace(s: EngineState, steps: seq<Step>)
    requires ValidConfig(s.config)
    ensures Run(s, steps) == Run(s, WithoutObserving(steps))
  {
    if steps != [] {
      var n := |steps| - 1;
      ObservingLeavesNoTrace(s, steps[..n]);
      if !Observes(steps[n]) {
        var kept := WithoutObserving(steps);
        assert kept[..|kept| - 1] == WithoutObserving(steps[..n]);
      }
    }
  }

  /** What an observing pick reports is what the same enforcing pick would do, `handled` and the observe flag aside. */
  lemma ObservingProjects(s: EngineState, r: PickRequest, now: Instant)
    ensures PickOutcome(s, r.(mode := Observe), now).(observeOnly := false, handled := false)
            == PickOutcome(s, r.(mode := Enforce), now).(observeOnly := false, handled := false)
  {
    hide KnownOutcome, UnknownOutcome;
    KnownProjects(s, r, now);
    UnknownProjects(s, r, now);
  }

  lemma KnownProjects(s: EngineState, r: PickRequest, now: Instant)
    ensures forall g :: KnownOutcome(s, r.(mode := Observe), g, now).(observeOnly := false, handled := false)
                        == KnownOutcome(s, r.(mode := Enforce), g, now).(observeOnly := false, handled := false)
  {
    hide Survey, Refusal, RetryAfter;
    ModeIsNotJudged(s, r.(mode := Observe), r.(mode := Enforce), r.candidates, now);
  }

  lemma UnknownProjects(s: EngineState, r: PickRequest, now: Instant)
    ensures UnknownOutcome(s, r.(mode := Observe)).(observeOnly := false, handled := false)
            == UnknownOutcome(s, r.(mode := Enforce)).(observeOnly := false, handled := false)
  {
    hide ForeignOnly, Survey;
    ModeIsNotJudged(s, r.(mode := Observe), r.(mode := Enforce), r.candidates, now);
  }

  lemma {:induction false} ModeIsNotJudged(s: EngineState, o: PickRequest, e: PickRequest, cs: seq<Candidate>, now: Instant)
    requires o.(mode := Enforce) == e
    ensures forall g :: Survey(s, o, g, now, cs) == Survey(s, e, g, now, cs)
    ensures ForeignOnly(o, cs) == ForeignOnly(e, cs)
  {
    if cs != [] {
      ModeIsNotJudged(s, o, e, cs[..|cs| - 1], now);
    }
  }
}
