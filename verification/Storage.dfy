/**
  That whatever the engine does, what it holds can be stored: every listing of
  its entries is a valid document, even for an engine that was loaded from a
  file this program did not write.
 */
module Storage {
  import opened GuardTypes
  import opened Breaker
  import opened EngineSpec
  import opened EngineRuns
  import opened StateFile

  predicate KeepsFiled(before: Entry, after: Entry) {
    ValidEntry(before) ==> ValidEntry(after) && IdentityOf(after) == IdentityOf(before) && after.group == before.group
  }

  lemma EvidenceKeepsFiled(e: Entry, ev: Evidence, at: Instant)
    requires ValidEvidence(ev)
    ensures KeepsFiled(e, WithEvidence(e, ev, at))
  {
  }

  lemma UsageKeepsFiled(c: Config, e: Entry, u: Usage, at: Instant)
    requires ValidConfig(c)
    ensures KeepsFiled(e, WithUsage(c, e, u, at))
  {
    hide GenericFailure, ExplicitFailure, SuccessfulUse;
    GenericKeepsFiled(c, e, at, u.reset);
    ExplicitKeepsFiled(c, e, at, u.reset);
    SuccessKeepsFiled(e, u.requestID, at);
  }

  lemma GenericKeepsFiled(c: Config, e: Entry, at: Instant, reset: Option<Time>)
    requires ValidConfig(c)
    ensures KeepsFiled(e, GenericFailure(c, e, at, reset))
  {
  }

  lemma ExplicitKeepsFiled(c: Config, e: Entry, at: Instant, reset: Option<Time>)
    requires ValidConfig(c)
    ensures KeepsFiled(e, ExplicitFailure(c, e, at, reset))
  {
  }

  lemma SuccessKeepsFiled(e: Entry, requestID: string, at: Instant)
    ensures KeepsFiled(e, SuccessfulUse(e, requestID, at))
  {
  }

  /** Rewriting one entry, its identity and validity kept, keeps the tables. */
  lemma RewriteKeepsStorable(s: EngineState, n: EngineState, k: Key)
    requires Storable(s) && n.authByID == s.authByID && k in s.entries && n.entries.Keys == s.entries.Keys
    requires forall other :: other in s.entries && other != k ==> n.entries[other] == s.entries[other]
    requires KeepsFiled(s.entries[k], n.entries[k])
    ensures Storable(n)
  {
    assert EntryFiled(s.entries, s.authByID, k);
    forall x | x in n.entries ensures EntryFiled(n.entries, n.authByID, x) {
      assert EntryFiled(s.entries, s.authByID, x);
    }
    forall id | id in n.authByID ensures IDFiled(n.entries, n.authByID, id) {
      assert IDFiled(s.entries, s.authByID, id);
    }
  }

  lemma SameTablesStorable(s: EngineState, n: EngineState)
    requires Storable(s) && n.entries == s.entries && n.authByID == s.authByID
    ensures Storable(n)
  {
    hide EntryFiled, IDFiled;
    forall k | k in n.entries ensures EntryFiled(n.entries, n.authByID, k) {
      assert EntryFiled(s.entries, s.authByID, k);
    }
    forall id | id in n.authByID ensures IDFiled(n.entries, n.authByID, id) {
      assert IDFiled(s.entries, s.authByID, id);
    }
  }

  lemma CommitKeepsStorable(s: EngineState, k: Key, e: Entry, at: Time)
    requires Storable(s) && k in s.entries && KeepsFiled(s.entries[k], e)
    ensures Storable(Commit(s, k, e, at))
  {
    hide Storable, KeepsFiled;
    assert KeepsFiled(s.entries[k], s.entries[k]) by { SameIsKept(s.entries[k]); }
    RewriteKeepsStorable(s, Commit(s, k, e, at), k);
  }

  lemma SameIsKept(e: Entry)
    ensures KeepsFiled(e, e)
  {
  }

  /** What a roster or a registration puts in place for an identity. */
  lemma KeptIsFiled(s: EngineState, id: Identity, g: Group)
    requires Storable(s) && id.authID != "" && id.authIndex != "" && id.fingerprint != ""
    ensures var e := Kept(s.entries, id, g); KeyOf(e) == Key(id.authIndex, g) && ValidEntry(e) && IdentityOf(e) == id
  {
    var k := Key(id.authIndex, g);
    if k in s.entries {
      assert EntryFiled(s.entries, s.authByID, k);
    }
  }

  lemma RosterEntryFiled(s: EngineState, items: seq<Identity>, k: Key)
    requires Storable(s) && ProperRoster(items) && k in RosterEntries(s.entries, items)
    ensures EntryFiled(RosterEntries(s.entries, items), RosterIDs(items), k)
  {
    var i := RosterEntrySource(s.entries, items, k);
    RosterEntryOf(s.entries, items, i, k.group);
    RosterEntryOf(s.entries, items, i, Twin(k).group);
    KeptIsFiled(s, items[i], k.group);
    KeptIsFiled(s, items[i], Twin(k).group);
    hide Storable, RosterEntries, RosterIDs, Kept, ProperRoster;
  }

  lemma RosterKeepsStorable(s: EngineState, ids: seq<Identity>, at: Instant)
    requires Storable(s)
    ensures Storable(RosterNext(s, ids, at))
  {
    hide NormalizeRoster, RosterEntries, RosterIDs, ProperRoster, EntryFiled, IDFiled;
    if NormalizeRoster(ids).Some? {
      NormalizedIsProper(ids);
      var items := NormalizeRoster(ids).value;
      var n := s.(entries := RosterEntries(s.entries, items), authByID := RosterIDs(items));
      forall k | k in n.entries ensures EntryFiled(n.entries, n.authByID, k) {
        RosterEntryFiled(s, items, k);
      }
      forall id | id in n.authByID ensures IDFiled(n.entries, n.authByID, id) {
        RosterIDFiled(s, items, id);
      }
      SameTablesStorable(n, RosterNext(s, ids, at));
    }
  }

  lemma RosterIDFiled(s: EngineState, items: seq<Identity>, id: string)
    requires Storable(s) && ProperRoster(items) && id in RosterIDs(items)
    ensures IDFiled(RosterEntries(s.entries, items), RosterIDs(items), id)
  {
    var i := RosterIDSource(items, id);
    RosterEntryOf(s.entries, items, i, Gemini);
    KeptIsFiled(s, items[i], Gemini);
    hide Storable, RosterEntries, RosterIDs, Kept, ProperRoster;
  }

  predicate Named(id: Identity) {
    id.authID != "" && id.authIndex != "" && id.fingerprint != ""
  }

  lemma RegisterEntryFiled(s: EngineState, item: Identity, k: Key)
    requires Storable(s) && Named(item)
    requires item.authID in s.authByID ==> s.authByID[item.authID] == item.authIndex
    requires k in WithIdentity(s.entries, s.entries, item)
    ensures EntryFiled(WithIdentity(s.entries, s.entries, item),
                       WithoutIndex(s.authByID, item.authIndex)[item.authID := item.authIndex], k)
  {
    RegisteredAt(s, item, k);
    RegisteredAt(s, item, Twin(k));
    KeptIsFiled(s, item, k.group);
    KeptIsFiled(s, item, Twin(k).group);
    hide WithIdentity, Kept;
    if k.authIndex != item.authIndex {
      assert EntryFiled(s.entries, s.authByID, k);
    }
  }

  lemma RegisterIDFiled(s: EngineState, item: Identity, id: string)
    requires Storable(s) && Named(item)
    requires id in WithoutIndex(s.authByID, item.authIndex)[item.authID := item.authIndex]
    ensures IDFiled(WithIdentity(s.entries, s.entries, item),
                    WithoutIndex(s.authByID, item.authIndex)[item.authID := item.authIndex], id)
  {
    var ids := WithoutIndex(s.authByID, item.authIndex)[item.authID := item.authIndex];
    RegisteredAt(s, item, Key(ids[id], Gemini));
    RegisteredAt(s, item, Key(ids[id], ClaudeGPT));
    KeptIsFiled(s, item, Gemini);
    hide WithIdentity, Kept;
    if id != item.authID {
      assert IDFiled(s.entries, s.authByID, id);
    }
  }

  lemma RegisterKeepsStorable(s: EngineState, id: Identity, at: Instant)
    requires Storable(s)
    ensures Storable(RegisterNext(s, id, at))
  {
    if !RegisterRefused(s, id) {
      var item := NormalizeIdentity(id).value;
      assert Named(item) && item.authID == id.authID;
      var n := s.(entries := WithIdentity(s.entries, s.entries, item),
                  authByID := WithoutIndex(s.authByID, item.authIndex)[item.authID := item.authIndex]);
      hide NormalizeIdentity, WithIdentity, WithoutIndex, EntryFiled, IDFiled;
      forall k | k in n.entries ensures EntryFiled(n.entries, n.authByID, k) {
        RegisterEntryFiled(s, item, k);
      }
      forall x | x in n.authByID ensures IDFiled(n.entries, n.authByID, x) {
        RegisterIDFiled(s, item, x);
      }
      SameTablesStorable(n, RegisterNext(s, id, at));
    }
  }

  lemma PickKeepsStorable(s: EngineState, r: PickRequest, at: Instant)
    requires ValidConfig(s.config) && Storable(s)
    ensures Storable(PickNext(s, r, at))
  {
    hide Selected, Storable;
    var n := PickNext(s, r, at);
    if LoopGroup(r).Some? && r.mode == Enforce && Selected(s, r, r.group.value, at).Some?
       && Selected(s, r, r.group.value, at).value.lease.Some?
       && Selected(s, r, r.group.value, at).value.lease.value in s.entries {
      RewriteKeepsStorable(s, n, Selected(s, r, r.group.value, at).value.lease.value);
    } else {
      SameTablesStorable(s, n);
    }
  }

  lemma ManualKeepsStorable(s: EngineState, authIndex: string, g: Group, at: Instant)
    requires Storable(s)
    ensures Storable(ManualNext(s, authIndex, g, at))
  {
    hide Storable, ManualRefusal;
    if ManualNext(s, authIndex, g, at) != s {
      RewriteKeepsStorable(s, ManualNext(s, authIndex, g, at), Key(authIndex, g));
    }
  }

  /** Every step keeps what the engine holds fit to be stored. */
  lemma StepKeepsStorable(s: EngineState, step: Step)
    requires ValidConfig(s.config) && Storable(s)
    ensures Storable(Next(s, step))
  {
    hide Storable, WithEvidence, WithUsage, Commit, RosterNext, RegisterNext, PickNext, ManualNext, Reloaded;
    match step
    case Roster(ids, at) => RosterKeepsStorable(s, ids, at);
    case Register(id, at) => RegisterKeepsStorable(s, id, at);
    case Probe(ev, at) =>
      var k := Key(ev.authIndex, ev.group);
      if ValidEvidence(ev) && k in s.entries {
        EvidenceKeepsFiled(s.entries[k], ev, at);
        CommitKeepsStorable(s, k, WithEvidence(s.entries[k], ev, at), at);
      }
    case ProbeError =>
    case Use(u, at) =>
      if UsageTarget(s, u).Some? {
        var k := UsageTarget(s, u).value;
        UsageKeepsFiled(s.config, s.entries[k], u, at);
        CommitKeepsStorable(s, k, WithUsage(s.config, s.entries[k], u, at), at);
      }
    case Pick(r, at) => PickKeepsStorable(s, r, at);
    case Manual(index, g, at) => ManualKeepsStorable(s, index, g, at);
    case Restart(config) => ReloadIsStorable(s, config);
  }

  lemma {:induction false} RunKeepsStorable(s: EngineState, steps: seq<Step>)
    requires ValidConfig(s.config) && Storable(s)
    ensures Storable(Run(s, steps))
  {
    hide Next, Storable;
    if steps != [] {
      RunKeepsStorable(s, steps[..|steps| - 1]);
      StepKeepsStorable(Run(s, steps[..|steps| - 1]), steps[|steps| - 1]);
    }
  }
}
