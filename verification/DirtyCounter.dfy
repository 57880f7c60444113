/** No step reads the dirty counter, so a run comes out the same whatever was saved in between. */
module DirtyCounter {
  import opened GuardTypes
  import opened Breaker
  import opened EngineSpec
  import opened EngineRuns

  lemma DirtyIsNotRead(s: EngineState, d: nat, step: Step)
    requires ValidConfig(s.config) && !step.Restart?
    ensures Next(s.(dirty := d), step).(dirty := 0) == Next(s, step).(dirty := 0)
  {
    hide RosterNext, RegisterNext, EvidenceNext, UsageNext, PickNext, ManualNext;
    match step
    case Roster(ids, at) => RosterIgnoresDirty(s, d, ids, at);
    case Register(id, at) => RegisterIgnoresDirty(s, d, id, at);
    case Probe(ev, at) => ProbeIgnoresDirty(s, d, ev, at);
    case Use(u, at) => UseIgnoresDirty(s, d, u, at);
    case Pick(r, at) => PickIgnoresDirty(s, d, r, at);
    case Manual(index, g, at) => ManualIgnoresDirty(s, d, index, g, at);
    case _ =>
  }

  lemma RosterIgnoresDirty(s: EngineState, d: nat, ids: seq<Identity>, at: Instant)
    ensures RosterNext(s.(dirty := d), ids, at).(dirty := 0) == RosterNext(s, ids, at).(dirty := 0)
  {
    hide NormalizeRoster, RosterEntries, RosterIDs;
    if NormalizeRoster(ids).Some? {
      var next := RosterEntries(s.entries, NormalizeRoster(ids).value);
      assert RosterEntries(s.(dirty := d).entries, NormalizeRoster(ids).value) == next;
    }
  }

  lemma RegisterIgnoresDirty(s: EngineState, d: nat, id: Identity, at: Instant)
    ensures RegisterNext(s.(dirty := d), id, at).(dirty := 0) == RegisterNext(s, id, at).(dirty := 0)
  {
    hide NormalizeIdentity, WithIdentity, WithoutIndex;
  }

  lemma ProbeIgnoresDirty(s: EngineState, d: nat, ev: Evidence, at: Instant)
    ensures EvidenceNext(s.(dirty := d), ev, at).(dirty := 0) == EvidenceNext(s, ev, at).(dirty := 0)
  {
    hide WithEvidence;
  }

  lemma ManualIgnoresDirty(s: EngineState, d: nat, authIndex: string, g: Group, at: Instant)
    ensures ManualNext(s.(dirty := d), authIndex, g, at).(dirty := 0) == ManualNext(s, authIndex, g, at).(dirty := 0)
  {
    hide Pending;
  }

  lemma UseIgnoresDirty(s: EngineState, d: nat, u: Usage, at: Instant)
    requires ValidConfig(s.config)
    ensures UsageNext(s.(dirty := d), u, at).(dirty := 0) == UsageNext(s, u, at).(dirty := 0)
  {
    hide WithUsage, UsageTarget;
    assert UsageTarget(s.(dirty := d), u) == UsageTarget(s, u) by { TargetIgnoresDirty(s, d, u); }
  }

  lemma TargetIgnoresDirty(s: EngineState, d: nat, u: Usage)
    ensures UsageTarget(s.(dirty := d), u) == UsageTarget(s, u)
  {
  }

  lemma PickIgnoresDirty(s: EngineState, d: nat, r: PickRequest, at: Instant)
    requires ValidConfig(s.config)
    ensures PickNext(s.(dirty := d), r, at).(dirty := 0) == PickNext(s, r, at).(dirty := 0)
  {
    hide Selected, RouteIncludesAntigravity, GroupEnforced, Leased;
    if LoopGroup(r).Some? {
      SelectionIgnoresDirty(s, d, r, r.group.value, at);
    }
  }

  lemma SelectionIgnoresDirty(s: EngineState, d: nat, r: PickRequest, g: Group, now: Instant)
    ensures Selected(s.(dirty := d), r, g, now) == Selected(s, r, g, now)
  {
    hide Survey;
    SurveyIgnoresDirty(s, d, r, g, now, r.candidates);
  }

  lemma {:induction false} SurveyIgnoresDirty(s: EngineState, d: nat, r: PickRequest, g: Group, now: Instant, cs: seq<Candidate>)
    ensures Survey(s.(dirty := d), r, g, now, cs) == Survey(s, r, g, now, cs)
  {
    hide Judge;
    if cs != [] {
      SurveyIgnoresDirty(s, d, r, g, now, cs[..|cs| - 1]);
      JudgeIgnoresDirty(s, d, r, g, now, cs[|cs| - 1]);
    }
  }

  lemma JudgeIgnoresDirty(s: EngineState, d: nat, r: PickRequest, g: Group, now: Instant, c: Candidate)
    ensures Judge(s.(dirty := d), r, g, now, c) == Judge(s, r, g, now, c)
  {
    hide CandidateIsAntigravity, EvidenceFresh;
  }
}
