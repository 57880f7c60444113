/**
  Runs of the engine: any sequence of its operations from a new engine. The
  invariant of every reachable state, and what changes an entry or the dirty
  counter.
 */
module EngineRuns {
  import opened GuardTypes
  import opened Breaker
  import opened EngineSpec

  datatype Step =
    | Roster(ids: seq<Identity>, at: Instant)
    | Register(id: Identity, at: Instant)
    | Probe(evidence: Evidence, at: Instant)
    | ProbeError
    | Use(usage: Usage, at: Instant)
    | Pick(request: PickRequest, at: Instant)
    | Manual(authIndex: string, manualGroup: Group, at: Instant)
    | Restart(config: Settings)

  function Next(s: EngineState, step: Step): (n: EngineState)
    requires ValidConfig(s.config)
    ensures n.config == (if step.Restart? then step.config else s.config) && ValidConfig(n.config)
  {
    match step
    case Roster(ids, at) => RosterNext(s, ids, at)
    case Register(id, at) => RegisterNext(s, id, at)
    case Probe(ev, at) => EvidenceNext(s, ev, at)
    case ProbeError => s
    case Use(u, at) => UsageNext(s, u, at)
    case Pick(r, at) => PickNext(s, r, at)
    case Manual(index, g, at) => ManualNext(s, index, g, at)
    case Restart(config) => Reloaded(s, config)
  }

  function Run(s: EngineState, steps: seq<Step>): (n: EngineState)
    requires ValidConfig(s.config)
    ensures ValidConfig(n.config)
  {
    if steps == [] then s else Next(Run(s, steps[..|steps| - 1]), steps[|steps| - 1])
  }

  /** The state on which step i of a run acts. */
  function Before(s: EngineState, steps: seq<Step>, i: nat): (n: EngineState)
    requires ValidConfig(s.config) && i <= |steps|
    ensures ValidConfig(n.config)
  {
    Run(s, steps[..i])
  }

  lemma BeforeNext(s: EngineState, steps: seq<Step>, i: nat)
    requires ValidConfig(s.config) && i < |steps|
    ensures Before(s, steps, i + 1) == Next(Before(s, steps, i), steps[i])
  {
    assert steps[..i + 1][..i] == steps[..i];
  }

  lemma RunExtended(s: EngineState, steps: seq<Step>, step: Step)
    requires ValidConfig(s.config)
    ensures Run(s, steps + [step]) == Next(Run(s, steps), step)
  {
    assert (steps + [step])[..|steps|] == steps;
  }

  // ------------------------------------------------------------------ invariant

  predicate EntriesSound(s: EngineState) {
    forall k :: k in s.entries ==> EntrySound(s.entries[k])
  }

  function Twin(k: Key): Key {
    k.(group := if k.group == Gemini then ClaudeGPT else Gemini)
  }

  predicate EntryPlaced(entries: map<Key, Entry>, ids: map<string, string>, k: Key)
    requires k in entries
  {
    var e := entries[k];
    && k == Key(e.authIndex, e.group) && e.authID != "" && e.authIndex != "" && e.fingerprint != ""
    && Twin(k) in entries && SameIdentity(e, entries[Twin(k)])
    && e.authID in ids && ids[e.authID] == e.authIndex
  }

  predicate IDPlaced(entries: map<Key, Entry>, ids: map<string, string>, id: string)
    requires id in ids
  {
    var k := Key(ids[id], Gemini);
    k in entries && entries[k].authID == id
  }

  /** Every entry sits at its own key, beside a twin of the same identity, and the id table is its exact inverse. */
  predicate RosterSound(s: EngineState) {
    && (forall k {:trigger EntryPlaced(s.entries, s.authByID, k)} :: k in s.entries ==> EntryPlaced(s.entries, s.authByID, k))
    && (forall id {:trigger IDPlaced(s.entries, s.authByID, id)} :: id in s.authByID ==> IDPlaced(s.entries, s.authByID, id))
  }

  predicate Sound(s: EngineState) {
    ValidConfig(s.config) && EntriesSound(s) && RosterSound(s)
  }

  predicate SameIdentities(a: EngineState, b: EngineState) {
    && a.authByID == b.authByID
    && a.entries.Keys == b.entries.Keys
    && forall k :: k in a.entries ==> SameIdentity(a.entries[k], b.entries[k]) && a.entries[k].group == b.entries[k].group
  }

  lemma SameIdentitiesKeepRoster(a: EngineState, b: EngineState)
    requires RosterSound(a) && SameIdentities(a, b)
    ensures RosterSound(b)
  {
    forall k | k in b.entries ensures EntryPlaced(b.entries, b.authByID, k) {
      assert EntryPlaced(a.entries, a.authByID, k);
    }
    forall id | id in b.authByID ensures IDPlaced(b.entries, b.authByID, id) {
      assert IDPlaced(a.entries, a.authByID, id);
    }
  }

  /** Distinct indexes and ids, none of them empty. */
  predicate ProperRoster(ids: seq<Identity>) {
    && (forall i :: 0 <= i < |ids| ==> ids[i].authID != "" && ids[i].authIndex != "" && ids[i].fingerprint != "")
    && (forall i, j :: 0 <= i < j < |ids| ==> ids[i].authIndex != ids[j].authIndex && ids[i].authID != ids[j].authID)
  }

  lemma ProperExtended(ids: seq<Identity>, last: Identity)
    requires ProperRoster(ids) && last.authID != "" && last.authIndex != "" && last.fingerprint != ""
    requires forall id :: id in ids ==> id.authIndex != last.authIndex && id.authID != last.authID
    ensures ProperRoster(ids + [last])
  {
    var all := ids + [last];
    forall i, j | 0 <= i < j < |all| ensures all[i].authIndex != all[j].authIndex && all[i].authID != all[j].authID {
      assert all[i] == ids[i] && ids[i] in ids;
    }
  }

  lemma {:induction false} NormalizedIsProper(ids: seq<Identity>)
    requires NormalizeRoster(ids).Some?
    ensures ProperRoster(NormalizeRoster(ids).value)
    ensures |NormalizeRoster(ids).value| == |ids|
    ensures forall i :: 0 <= i < |ids| ==> NormalizeIdentity(ids[i]) == Some(NormalizeRoster(ids).value[i])
  {
    if ids != [] {
      var n := |ids| - 1;
      NormalizedIsProper(ids[..n]);
      var prefix := NormalizeRoster(ids[..n]).value;
      var item := NormalizeIdentity(ids[n]).value;
      assert NormalizeRoster(ids).value == prefix + [item];
      assert item.authID != "" && item.authIndex != "" && item.fingerprint != "";
      hide NormalizeRoster, NormalizeIdentity;
      ProperExtended(prefix, item);
      forall i | 0 <= i < |ids| ensures NormalizeIdentity(ids[i]) == Some((prefix + [item])[i]) {
        if i < n {
          assert ids[..n][i] == ids[i];
        }
      }
    }
  }

  /** What a proper roster leaves at each key and each id, and where those come from. */
  lemma {:induction false} RosterEntryOf(old_: map<Key, Entry>, ids: seq<Identity>, i: nat, g: Group)
    requires ProperRoster(ids) && i < |ids|
    ensures Key(ids[i].authIndex, g) in RosterEntries(old_, ids)
    ensures RosterEntries(old_, ids)[Key(ids[i].authIndex, g)] == Kept(old_, ids[i], g)
    ensures ids[i].authID in RosterIDs(ids) && RosterIDs(ids)[ids[i].authID] == ids[i].authIndex
  {
    var n := |ids| - 1;
    if i < n {
      assert ids[..n][i] == ids[i];
      RosterEntryOf(old_, ids[..n], i, g);
    }
  }

  lemma {:induction false} RosterEntrySource(old_: map<Key, Entry>, ids: seq<Identity>, k: Key) returns (i: nat)
    requires k in RosterEntries(old_, ids)
    ensures i < |ids| && ids[i].authIndex == k.authIndex
  {
    i := |ids| - 1;
    if ids[i].authIndex != k.authIndex {
      i := RosterEntrySource(old_, ids[..i], k);
    }
  }

  lemma {:induction false} RosterIDSource(ids: seq<Identity>, id: string) returns (i: nat)
    requires id in RosterIDs(ids)
    ensures i < |ids| && ids[i].authID == id
  {
    i := |ids| - 1;
    if ids[i].authID != id {
      i := RosterIDSource(ids[..i], id);
    }
  }

  lemma KeptSound(s: EngineState, id: Identity, g: Group)
    requires Sound(s)
    ensures EntrySound(Kept(s.entries, id, g))
  {
    if Key(id.authIndex, g) in s.entries {
      assert EntrySound(s.entries[Key(id.authIndex, g)]);
    }
  }

  lemma KeptIdentity(s: EngineState, id: Identity, g: Group)
    requires RosterSound(s)
    ensures var e := Kept(s.entries, id, g);
            && e.group == g && e.authID == id.authID && e.authIndex == id.authIndex
            && e.fingerprint == id.fingerprint && e.provider == id.provider && e.priority == id.priority
  {
    var k := Key(id.authIndex, g);
    if k in s.entries {
      assert EntryPlaced(s.entries, s.authByID, k);
    }
  }

  lemma RosterEntriesSound(s: EngineState, items: seq<Identity>)
    requires Sound(s) && ProperRoster(items)
    ensures forall k :: k in RosterEntries(s.entries, items) ==> EntrySound(RosterEntries(s.entries, items)[k])
  {
    forall k | k in RosterEntries(s.entries, items) ensures EntrySound(RosterEntries(s.entries, items)[k]) {
      var i := RosterEntrySource(s.entries, items, k);
      RosterEntryOf(s.entries, items, i, k.group);
      KeptSound(s, items[i], k.group);
    }
  }

  lemma RosterPlaced(s: EngineState, items: seq<Identity>)
    requires RosterSound(s) && ProperRoster(items)
    ensures RosterSound(s.(entries := RosterEntries(s.entries, items), authByID := RosterIDs(items)))
  {
    var entries := RosterEntries(s.entries, items);
    var ids := RosterIDs(items);
    forall k | k in entries ensures EntryPlaced(entries, ids, k) {
      var i := RosterEntrySource(s.entries, items, k);
      RosterEntryOf(s.entries, items, i, k.group);
      RosterEntryOf(s.entries, items, i, Twin(k).group);
      KeptIdentity(s, items[i], k.group);
      KeptIdentity(s, items[i], Twin(k).group);
    }
    forall id | id in ids ensures IDPlaced(entries, ids, id) {
      var i := RosterIDSource(items, id);
      RosterEntryOf(s.entries, items, i, Gemini);
      KeptIdentity(s, items[i], Gemini);
    }
  }

  lemma RosterKeepsSound(s: EngineState, ids: seq<Identity>, at: Instant)
    requires Sound(s)
    ensures Sound(RosterNext(s, ids, at))
  {
    hide NormalizeRoster, RosterEntries, RosterIDs, ProperRoster, EntrySound, EntryPlaced, IDPlaced;
    if NormalizeRoster(ids).Some? {
      NormalizedIsProper(ids);
      var items := NormalizeRoster(ids).value;
      RosterEntriesSound(s, items);
      RosterPlaced(s, items);
      var n := s.(entries := RosterEntries(s.entries, items), authByID := RosterIDs(items));
      SameIdentitiesKeepRoster(n, RosterNext(s, ids, at));
    }
  }

  lemma RegisteredAt(s: EngineState, item: Identity, k: Key)
    ensures var entries := WithIdentity(s.entries, s.entries, item);
            if k.authIndex == item.authIndex then k in entries && entries[k] == Kept(s.entries, item, k.group)
            else (k in entries <==> k in s.entries) && (k in entries ==> entries[k] == s.entries[k])
  {
    match k.group
    case Gemini =>
    case ClaudeGPT =>
  }

  lemma RegisterEntryPlaced(s: EngineState, item: Identity, k: Key)
    requires RosterSound(s) && item.authID != "" && item.authIndex != "" && item.fingerprint != ""
    requires item.authID in s.authByID ==> s.authByID[item.authID] == item.authIndex
    requires k in WithIdentity(s.entries, s.entries, item)
    ensures EntryPlaced(WithIdentity(s.entries, s.entries, item),
                        WithoutIndex(s.authByID, item.authIndex)[item.authID := item.authIndex], k)
  {
    RegisteredAt(s, item, k);
    RegisteredAt(s, item, Twin(k));
    if k.authIndex == item.authIndex {
      KeptIdentity(s, item, k.group);
      KeptIdentity(s, item, Twin(k).group);
    } else {
      assert EntryPlaced(s.entries, s.authByID, k);
    }
  }

  lemma RegisterPlaced(s: EngineState, item: Identity)
    requires RosterSound(s) && item.authID != "" && item.authIndex != "" && item.fingerprint != ""
    requires item.authID in s.authByID ==> s.authByID[item.authID] == item.authIndex
    ensures RosterSound(s.(entries := WithIdentity(s.entries, s.entries, item),
                           authByID := WithoutIndex(s.authByID, item.authIndex)[item.authID := item.authIndex]))
  {
    hide WithIdentity, WithoutIndex, EntryPlaced, IDPlaced;
    var entries := WithIdentity(s.entries, s.entries, item);
    var ids := WithoutIndex(s.authByID, item.authIndex)[item.authID := item.authIndex];
    forall k | k in entries ensures EntryPlaced(entries, ids, k) {
      RegisterEntryPlaced(s, item, k);
    }
    forall other | other in ids ensures IDPlaced(entries, ids, other) {
      RegisterIDPlaced(s, item, other);
    }
  }

  lemma RegisterIDPlaced(s: EngineState, item: Identity, other: string)
    requires RosterSound(s) && item.authID != "" && item.authIndex != "" && item.fingerprint != ""
    requires other in WithoutIndex(s.authByID, item.authIndex)[item.authID := item.authIndex]
    ensures IDPlaced(WithIdentity(s.entries, s.entries, item),
                     WithoutIndex(s.authByID, item.authIndex)[item.authID := item.authIndex], other)
  {
    hide WithIdentity;
    var ids := WithoutIndex(s.authByID, item.authIndex)[item.authID := item.authIndex];
    RegisteredAt(s, item, Key(ids[other], Gemini));
    if other == item.authID {
      KeptIdentity(s, item, Gemini);
    } else {
      assert IDPlaced(s.entries, s.authByID, other);
    }
  }

  lemma SameTables(a: EngineState, b: EngineState)
    requires a.entries == b.entries && a.authByID == b.authByID
    ensures SameIdentities(a, b)
  {
  }

  lemma RegisterSoundEntries(s: EngineState, item: Identity)
    requires Sound(s)
    ensures var entries := WithIdentity(s.entries, s.entries, item);
            forall k :: k in entries ==> EntrySound(entries[k])
  {
    hide Kept, EntrySound;
    KeptSound(s, item, Gemini);
    KeptSound(s, item, ClaudeGPT);
  }

  lemma RegisterKeepsSound(s: EngineState, id: Identity, at: Instant)
    requires Sound(s)
    ensures Sound(RegisterNext(s, id, at))
  {
    if !RegisterRefused(s, id) {
      var item := NormalizeIdentity(id).value;
      assert item.authID == id.authID && item.authID != "" && item.authIndex != "" && item.fingerprint != "";
      hide NormalizeIdentity, WithIdentity, WithoutIndex, EntrySound, EntryPlaced, IDPlaced, SameIdentities;
      var next := s.(entries := WithIdentity(s.entries, s.entries, item),
                     authByID := WithoutIndex(s.authByID, item.authIndex)[item.authID := item.authIndex]);
      RegisterPlaced(s, item);
      RegisterSoundEntries(s, item);
      SameTables(next, RegisterNext(s, id, at));
      SameIdentitiesKeepRoster(next, RegisterNext(s, id, at));
    }
  }

  /** A step that rewrites one entry, keeping its identity, keeps the invariant. */
  lemma RewriteKeepsSound(s: EngineState, n: EngineState, k: Key)
    requires Sound(s) && n.config == s.config && n.authByID == s.authByID
    requires k in s.entries && n.entries.Keys == s.entries.Keys
    requires forall other :: other in s.entries && other != k ==> n.entries[other] == s.entries[other]
    requires SameIdentity(s.entries[k], n.entries[k]) && n.entries[k].group == s.entries[k].group
    requires EntrySound(n.entries[k])
    ensures Sound(n)
  {
    SameIdentitiesKeepRoster(s, n);
  }

  lemma CommitKeepsSound(s: EngineState, k: Key, e: Entry, at: Time)
    requires Sound(s) && k in s.entries && EntrySound(e)
    requires SameIdentity(s.entries[k], e) && s.entries[k].group == e.group
    ensures Sound(Commit(s, k, e, at))
  {
    RewriteKeepsSound(s, Commit(s, k, e, at), k);
  }

  lemma PickKeepsSound(s: EngineState, r: PickRequest, at: Instant)
    requires Sound(s)
    ensures Sound(PickNext(s, r, at))
  {
    var n := PickNext(s, r, at);
    if n.entries != s.entries {
      SelectedLease(s, r, r.group.value, at);
      RewriteKeepsSound(s, n, Selected(s, r, r.group.value, at).value.lease.value);
    } else {
      SameIdentitiesKeepRoster(s, n);
    }
  }

  lemma ProbeKeepsSound(s: EngineState, ev: Evidence, at: Instant)
    requires Sound(s)
    ensures Sound(EvidenceNext(s, ev, at))
  {
    var k := Key(ev.authIndex, ev.group);
    if ValidEvidence(ev) && k in s.entries {
      EvidenceKeepsSound(s.config, s.entries[k], ev, at);
      CommitKeepsSound(s, k, WithEvidence(s.entries[k], ev, at), at);
    }
  }

  lemma UseKeepsSound(s: EngineState, u: Usage, at: Instant)
    requires Sound(s)
    ensures Sound(UsageNext(s, u, at))
  {
    if UsageTarget(s, u).Some? {
      var k := UsageTarget(s, u).value;
      UsageKeepsSound(s.config, s.entries[k], u, at);
      CommitKeepsSound(s, k, WithUsage(s.config, s.entries[k], u, at), at);
    }
  }

  lemma ManualKeepsSound(s: EngineState, authIndex: string, g: Group, at: Instant)
    requires Sound(s)
    ensures Sound(ManualNext(s, authIndex, g, at))
  {
    if ManualRefusal(s, authIndex, g, at).None? {
      assert EntrySound(s.entries[Key(authIndex, g)]);
      RewriteKeepsSound(s, ManualNext(s, authIndex, g, at), Key(authIndex, g));
    }
  }

  lemma RestartKeepsSound(s: EngineState, config: Settings)
    requires Sound(s)
    ensures Sound(Reloaded(s, config))
  {
    SameIdentitiesKeepRoster(s, Reloaded(s, config));
  }

  lemma StepKeepsSound(s: EngineState, step: Step)
    requires Sound(s)
    ensures Sound(Next(s, step))
  {
    match step
    case Roster(ids, at) => RosterKeepsSound(s, ids, at);
    case Register(id, at) => RegisterKeepsSound(s, id, at);
    case Probe(ev, at) => ProbeKeepsSound(s, ev, at);
    case ProbeError =>
    case Use(u, at) => UseKeepsSound(s, u, at);
    case Pick(r, at) => PickKeepsSound(s, r, at);
    case Manual(index, g, at) => ManualKeepsSound(s, index, g, at);
    case Restart(config) => RestartKeepsSound(s, config);
  }

  /** A selection that takes a lease takes it on a breaker that may be probed now. */
  lemma SelectedLease(s: EngineState, r: PickRequest, g: Group, now: Instant)
    requires Selected(s, r, g, now).Some?
    ensures var choice := Selected(s, r, g, now).value;
            choice in Eligible(s, r, g, now)
            && exists c :: c in r.candidates && Judge(s, r, g, now, c) == Available(choice)
    ensures Selected(s, r, g, now).value.lease.Some? ==>
              var k := Selected(s, r, g, now).value.lease.value;
              k in s.entries && k.group == g && Probeable(s.entries[k], now)
  {
    SurveyMembers(s, r, g, now, r.candidates);
  }

  predicate Probeable(e: Entry, now: Instant) {
    || (e.state == Open && e.recoverAt != 0 && now >= e.recoverAt)
    || (e.state == HalfOpen && (e.halfOpenLeaseUntil == 0 || now >= e.halfOpenLeaseUntil))
  }

  lemma {:induction false} SurveyMembers(s: EngineState, r: PickRequest, g: Group, now: Instant, cs: seq<Candidate>)
    ensures forall choice :: choice in Survey(s, r, g, now, cs).available <==>
              exists c :: c in cs && Judge(s, r, g, now, c) == Available(choice)
  {
    if cs != [] {
      var n := |cs| - 1;
      SurveyMembers(s, r, g, now, cs[..n]);
      assert cs == cs[..n] + [cs[n]];
      forall choice ensures choice in Survey(s, r, g, now, cs).available <==>
                            exists c :: c in cs && Judge(s, r, g, now, c) == Available(choice)
      {
        if c :| c in cs && Judge(s, r, g, now, c) == Available(choice) && c in cs[..n] {
          assert choice in Survey(s, r, g, now, cs[..n]).available;
        }
        if choice in Survey(s, r, g, now, cs[..n]).available {
          var c :| c in cs[..n] && Judge(s, r, g, now, c) == Available(choice);
          assert c in cs;
        }
      }
    }
  }

  lemma {:induction false} RunKeepsSound(s: EngineState, steps: seq<Step>)
    requires Sound(s)
    ensures Sound(Run(s, steps))
  {
    if steps != [] {
      RunKeepsSound(s, steps[..|steps| - 1]);
      StepKeepsSound(Run(s, steps[..|steps| - 1]), steps[|steps| - 1]);
    }
  }

  /** Every state reachable from a new engine, over all six kinds of step, satisfies the invariant. */
  lemma ReachableIsSound(config: Config, steps: seq<Step>)
    requires ValidConfig(config)
    ensures Sound(Run(Initial(config), steps))
  {
    RunKeepsSound(Initial(config), steps);
  }

  /** A credential named by index, id or both resolves to the one breaker of the group that carries every name given. */
  lemma LookupResolves(s: EngineState, authIndex: string, authID: string, g: Group, k: Key)
    requires Sound(s) && (authIndex != "" || authID != "")
    ensures Lookup(s, authIndex, authID, g) == Some(k)
            <==> && k in s.entries && k.group == g
                 && (authIndex != "" ==> s.entries[k].authIndex == authIndex)
                 && (authID != "" ==> s.entries[k].authID == authID)
  {
    if k in s.entries {
      assert EntryPlaced(s.entries, s.authByID, k);
    }
    var found := Lookup(s, authIndex, authID, g);
    if found.Some? {
      assert EntryPlaced(s.entries, s.authByID, found.value);
    }
  }

  // ------------------------------------------- the configuration's own clauses

  predicate AllTuned(s: EngineState) {
    forall k :: k in s.entries ==> Tuned(s.config, s.entries[k])
  }

  /** Reloads that keep the lease length and do not lower the threshold. */
  predicate KeepsTuning(s: EngineState, step: Step) {
    step.Restart? ==> step.config.halfOpenLease == s.config.halfOpenLease && step.config.threshold >= s.config.threshold
  }

  lemma StepKeepsTuned(s: EngineState, step: Step)
    requires Sound(s) && AllTuned(s) && KeepsTuning(s, step)
    ensures AllTuned(Next(s, step))
  {
    hide RosterNext, RegisterNext, EvidenceNext, UsageNext, PickNext, RosterSound;
    match step
    case Roster(ids, at) => RosterStepTuned(s, ids, at);
    case Register(id, at) => RegisterStepTuned(s, id, at);
    case Probe(ev, at) => ProbeTuned(s, ev, at);
    case Use(u, at) => UseTuned(s, u, at);
    case Pick(r, at) => PickTuned(s, r, at);
    case _ =>
  }

  lemma RosterStepTuned(s: EngineState, ids: seq<Identity>, at: Instant)
    requires ValidConfig(s.config) && AllTuned(s)
    ensures AllTuned(RosterNext(s, ids, at))
  {
    hide NormalizeRoster, RosterEntries, Tuned;
    if NormalizeRoster(ids).Some? {
      RosterTuned(s, NormalizeRoster(ids).value);
    }
  }

  lemma RegisterStepTuned(s: EngineState, id: Identity, at: Instant)
    requires ValidConfig(s.config) && AllTuned(s)
    ensures AllTuned(RegisterNext(s, id, at))
  {
    hide NormalizeIdentity, WithIdentity, Tuned;
    if !RegisterRefused(s, id) {
      RegisterTuned(s, NormalizeIdentity(id).value);
    }
  }

  lemma ProbeTuned(s: EngineState, ev: Evidence, at: Instant)
    requires Sound(s) && AllTuned(s)
    ensures AllTuned(EvidenceNext(s, ev, at))
  {
    hide WithEvidence, RosterSound, Tuned, EntrySound;
    var k := Key(ev.authIndex, ev.group);
    if ValidEvidence(ev) && k in s.entries {
      EvidenceKeepsSound(s.config, s.entries[k], ev, at);
    }
  }

  lemma UseTuned(s: EngineState, u: Usage, at: Instant)
    requires Sound(s) && AllTuned(s)
    ensures AllTuned(UsageNext(s, u, at))
  {
    hide WithUsage, RosterSound, Tuned, EntrySound;
    if UsageTarget(s, u).Some? {
      UsageKeepsSound(s.config, s.entries[UsageTarget(s, u).value], u, at);
    }
  }

  lemma PickTuned(s: EngineState, r: PickRequest, at: Instant)
    requires ValidConfig(s.config) && AllTuned(s)
    ensures AllTuned(PickNext(s, r, at))
  {
    hide Selected, LoopGroup;
  }

  lemma RosterTuned(s: EngineState, items: seq<Identity>)
    requires ValidConfig(s.config) && AllTuned(s)
    ensures forall k :: k in RosterEntries(s.entries, items) ==> Tuned(s.config, RosterEntries(s.entries, items)[k])
  {
    if items != [] {
      RosterTuned(s, items[..|items| - 1]);
    }
  }

  lemma RegisterTuned(s: EngineState, item: Identity)
    requires ValidConfig(s.config) && AllTuned(s)
    ensures var entries := WithIdentity(s.entries, s.entries, item);
            forall k :: k in entries ==> Tuned(s.config, entries[k])
  {
  }

  /** On a run whose reloads keep the tuning every entry stays within the current threshold and lease length. */
  lemma {:induction false} RunKeepsTuned(s: EngineState, steps: seq<Step>)
    requires Sound(s) && AllTuned(s)
    requires forall i :: 0 <= i < |steps| ==> KeepsTuning(Before(s, steps, i), steps[i])
    ensures AllTuned(Run(s, steps))
  {
    if steps != [] {
      var n := |steps| - 1;
      forall i | 0 <= i < n ensures KeepsTuning(Before(s, steps[..n], i), steps[..n][i]) {
        assert steps[..n][..i] == steps[..i];
        assert KeepsTuning(Before(s, steps, i), steps[i]);
      }
      RunKeepsTuned(s, steps[..n]);
      RunKeepsSound(s, steps[..n]);
      assert KeepsTuning(Before(s, steps, n), steps[n]);
      StepKeepsTuned(Run(s, steps[..n]), steps[n]);
    }
  }

  /**
    The entries a reload carries outside the new threshold and lease length:
    those not cooling whose count has reached the new threshold, and those
    whose granted lease has another length.
   */
  lemma ReloadUntunes(s: EngineState, config: Settings, k: Key)
    requires Sound(s) && AllTuned(s) && k in s.entries
    ensures !Tuned(config, Reloaded(s, config).entries[k])
            <==> || (!IsCooling(s.entries[k]) && s.entries[k].failureCount >= config.threshold)
                 || (s.entries[k].state == HalfOpen && s.entries[k].halfOpenStartedAt > 0
                     && s.config.halfOpenLease != config.halfOpenLease)
  {
    assert EntrySound(s.entries[k]);
  }

  // -------------------------------------------------------- dirty bookkeeping

  /** Outside a reload, the entries change only together with the dirty counter, the generation and the time of the last change. */
  lemma ChangesAreDirty(s: EngineState, step: Step)
    requires ValidConfig(s.config) && !step.Restart?
    ensures var n := Next(s, step);
            if n.dirty == s.dirty then n.generation == s.generation && n.entries == s.entries && n.updated == s.updated
            else n.dirty == s.dirty + 1 && n.generation == s.generation + 1 && !step.ProbeError? && n.updated == step.at
  {
  }
}
