/**
  A registration on an active engine swaps without the flush. Exactly when
  that is harmless, what it costs otherwise, and that the harm is within reach.
 */
module Registrations {
  import opened GuardTypes
  import opened EngineSpec
  import opened EngineRuns
  import RosterFence
  import opened StateFile
  import opened Storage
  import opened Persistence
  import opened Durability

  /** Whatever happens from the skipped flush on, a clean engine stays stored. */
  ghost predicate SkipIsHarmless(s: Sys) {
    forall trace: seq<Sys>, actions: seq<Action> ::
      IsRun(trace, actions, true) && actions != [] && actions[0] == SwapSkip && trace[0] == s && Careful(trace[1..], actions[1..])
      ==> forall n :: 0 < n < |trace| ==> CleanIsStored(trace[n])
  }

  // ------------------------------------------------------------ when it is safe

  lemma {:induction false} HarmlessRun(trace: seq<Sys>, actions: seq<Action>, s: Sys, n: nat)
    requires Inv(s) && s.swap.Entered? && FileIsCurrent(s)
    requires IsRun(trace, actions, true) && actions != [] && actions[0] == SwapSkip && trace[0] == s
    requires Careful(trace[1..], actions[1..]) && 0 < n < |trace|
    ensures CleanIsStored(trace[n])
  {
    SkipKeepsInv(s);
    assert trace[1] == Do(trace[0], actions[0], true);
    TailRun(trace, actions);
    hide Inv, IsRun, Careful, CleanIsStored, Do, FileIsCurrent;
    CarefulRunKeepsInv(trace[1..], actions[1..], n - 1);
    InvIsStored(trace[n]);
  }

  lemma TailRun(trace: seq<Sys>, actions: seq<Action>)
    requires IsRun(trace, actions, true) && actions != []
    ensures IsRun(trace[1..], actions[1..], true)
  {
    hide Do, Enabled;
    forall i | 0 <= i < |actions| - 1
      ensures Enabled(trace[1..][i], actions[1..][i], true)
              && trace[1..][i + 1] == Do(trace[1..][i], actions[1..][i], true)
    {
      assert Enabled(trace[i + 1], actions[i + 1], true);
    }
  }

  // ------------------------------------------------------------- when it is not

  lemma OneAction(s: Sys, a: Action) returns (trace: seq<Sys>)
    requires Enabled(s, a, true)
    ensures IsRun(trace, [a], true) && |trace| == 2 && trace[0] == s && trace[1] == Do(s, a, true)
  {
    trace := [s, Do(s, a, true)];
  }

  /** One more action at the end of a run. */
  lemma OneMoreAction(trace: seq<Sys>, actions: seq<Action>, a: Action) returns (longer: seq<Sys>)
    requires IsRun(trace, actions, true) && Enabled(trace[|actions|], a, true)
    ensures IsRun(longer, actions + [a], true) && |longer| == |trace| + 1 && longer[0] == trace[0]
    ensures longer[|actions| + 1] == Do(trace[|actions|], a, true)
    ensures longer[..|trace|] == trace
  {
    hide Do, Enabled;
    var last := OneAction(trace[|actions|], a);
    JoinRuns(trace, actions, last, [a], true);
    longer := trace + last[1..];
  }

  /** The owner of the mutex, if any, finishes: a taken snapshot is renamed, one not yet taken is given up. */
  ghost predicate Finished(x: Sys, y: Sys) {
    && y.gen == x.gen && y.engines == x.engines && y.paths == x.paths && y.swap == x.swap && y.owner.None?
    && x.gen in x.paths
    && y.files == (if x.owner.Some? && SaverOf(x, x.owner.value).Snapped?
                   then x.files[x.paths[x.gen] := SaverOf(x, x.owner.value).doc] else x.files)
    && forall t {:trigger SaverOf(y, t)} :: t !in x.savers ==> SaverOf(y, t).Idle?
  }

  predicate OwnerReady(x: Sys, d: Document) {
    && x.gen in x.engines && x.gen in x.paths && Listing(d, x.engines[x.gen].entries)
    && (x.owner.Some? ==>
          var v := SaverOf(x, x.owner.value);
          InLock(v) && x.owner.value != SWAPPER && x.owner.value in x.savers && (HoldsDoc(v) ==> v.gen == x.gen))
  }

  predicate NoSkips(actions: seq<Action>) {
    forall i :: 0 <= i < |actions| ==> !actions[i].SwapSkip?
  }

  lemma FinishLocked(x: Sys, d: Document) returns (trace: seq<Sys>, actions: seq<Action>)
    requires OwnerReady(x, d) && x.owner.Some? && SaverOf(x, x.owner.value).Locked?
    ensures IsRun(trace, actions, true) && |trace| == |actions| + 1 && trace[0] == x && NoSkips(actions) && Finished(x, trace[|actions|])
  {
    hide Listing;
    var t := x.owner.value;
    actions := [SaveBegin(t, d)];
    trace := OneAction(x, SaveBegin(t, d));
    if SaverOf(x, t).gen == x.gen {
      trace := OneMoreAction(trace, actions, SaveFail(t));
      actions := actions + [SaveFail(t)];
    }
  }

  lemma FinishSnapped(x: Sys, d: Document) returns (trace: seq<Sys>, actions: seq<Action>)
    requires OwnerReady(x, d) && x.owner.Some? && HoldsDoc(SaverOf(x, x.owner.value))
    ensures IsRun(trace, actions, true) && |trace| == |actions| + 1 && trace[0] == x && NoSkips(actions) && Finished(x, trace[|actions|])
  {
    hide Listing;
    var t := x.owner.value;
    if SaverOf(x, t).Snapped? {
      trace := OneAction(x, SaveRename(t));
      trace := OneMoreAction(trace, [SaveRename(t)], SaveFail(t));
      actions := [SaveRename(t), SaveFail(t)];
    } else {
      trace := OneAction(x, SaveFail(t));
      actions := [SaveFail(t)];
    }
  }

  lemma Finish(x: Sys, d: Document) returns (trace: seq<Sys>, actions: seq<Action>)
    requires OwnerReady(x, d)
    ensures IsRun(trace, actions, true) && |trace| == |actions| + 1 && trace[0] == x && NoSkips(actions) && Finished(x, trace[|actions|])
  {
    if x.owner.None? {
      trace, actions := [x], [];
    } else if SaverOf(x, x.owner.value).Locked? {
      trace, actions := FinishLocked(x, d);
    } else {
      trace, actions := FinishSnapped(x, d);
    }
  }

  /** A save that nobody interrupts. */
  lemma WholeSave(s: Sys, t: Thread, d: Document) returns (trace: seq<Sys>, actions: seq<Action>)
    requires s.gen in s.engines && s.gen in s.paths && s.engines[s.gen].dirty > 0
    requires t != SWAPPER && SaverOf(s, t).Idle? && s.owner.None? && Listing(d, s.engines[s.gen].entries)
    ensures IsRun(trace, actions, true) && trace[0] == s && NoSkips(actions)
    ensures var n := trace[|actions|];
            && n.gen == s.gen && n.paths == s.paths && n.swap == s.swap && n.owner.None?
            && n.files == s.files[s.paths[s.gen] := d] && n.gen in n.engines
  {
    hide Listing;
    var first := [SaveCheck(t, s.gen), SaveLock(t), SaveBegin(t, d)];
    var begun := SaveBegins(s, t, d);
    var ended := SaveEnds(begun[3], t);
    hide Do, Enabled;
    JoinRuns(begun, first, ended, [SaveRename(t), SaveFail(t)], true);
    trace, actions := begun + ended[1..], first + [SaveRename(t), SaveFail(t)];
  }

  lemma SaveBegins(s: Sys, t: Thread, d: Document) returns (trace: seq<Sys>)
    requires s.gen in s.engines && s.engines[s.gen].dirty > 0
    requires t != SWAPPER && SaverOf(s, t).Idle? && s.owner.None? && Listing(d, s.engines[s.gen].entries)
    ensures IsRun(trace, [SaveCheck(t, s.gen), SaveLock(t), SaveBegin(t, d)], true) && |trace| == 4 && trace[0] == s
    ensures trace[3] == s.(owner := Some(t),
                           savers := s.savers[t := Snapped(s.gen, d, s.engines[s.gen].generation, |s.log|)])
  {
    hide Listing;
    var s1 := Do(s, SaveCheck(t, s.gen), true);
    var s2 := Do(s1, SaveLock(t), true);
    var s3 := Do(s2, SaveBegin(t, d), true);
    trace := [s, s1, s2, s3];
  }

  lemma SaveEnds(s: Sys, t: Thread) returns (trace: seq<Sys>)
    requires s.gen in s.engines && s.gen in s.paths && t != SWAPPER
    requires SaverOf(s, t).Snapped? && SaverOf(s, t).gen == s.gen
    ensures IsRun(trace, [SaveRename(t), SaveFail(t)], true) && |trace| == 3 && trace[0] == s
    ensures trace[2] == s.(files := s.files[s.paths[s.gen] := SaverOf(s, t).doc], savers := s.savers[t := Idle],
                           owner := None, saved := SaverOf(s, t).upto)
  {
    var s1 := Do(s, SaveRename(t), true);
    var s2 := Do(s1, SaveFail(t), true);
    assert s2.savers == s.savers[t := Idle];
    trace := [s, s1, s2];
  }

  lemma {:induction false} FreshThread(used: set<Thread>) returns (t: Thread)
    ensures t != SWAPPER && forall u: Thread :: u in used ==> u < t
  {
    t := 1;
    if u: Thread :| u in used {
      var rest := FreshThread(used - {u});
      t := if u < rest then rest else u + 1;
      forall v: Thread | v in used ensures v < t {
        assert v == u || v in used - {u};
      }
    }
  }

  lemma {:induction false} ListingExists(entries: map<Key, Entry>, left: set<Key>) returns (es: seq<Entry>)
    requires left <= entries.Keys && forall k :: k in entries ==> KeyOf(entries[k]) == k
    ensures ListsAllBut(es, entries, entries.Keys - left)
  {
    es := [];
    if left != {} {
      var k :| k in left;
      var rest := ListingExists(entries, left - {k});
      ListOneMore(rest, entries, entries.Keys - (left - {k}), k);
      assert entries.Keys - (left - {k}) - {k} == entries.Keys - left;
      es := rest + [entries[k]];
    }
  }

  /** What can be stored has a listing. */
  lemma SomeListing(e: EngineState) returns (d: Document)
    requires Storable(e)
    ensures Listing(d, e.entries)
  {
    var erased := ErasedEntries(e.entries);
    forall k | k in erased ensures KeyOf(erased[k]) == k {
      assert EntryFiled(e.entries, e.authByID, k);
    }
    var es := ListingExists(erased, erased.Keys);
    d := Document(SCHEMA_VERSION, 0, es);
  }

  /** A new engine that is not what its file holds. */
  ghost predicate EndsStale(trace: seq<Sys>, actions: seq<Action>) {
    IsRun(trace, actions, true) && !CleanIsStored(trace[|actions|])
  }

  lemma InstallStale(trace: seq<Sys>, actions: seq<Action>) returns (longer: seq<Sys>)
    requires IsRun(trace, actions, true)
    requires var y := trace[|actions|];
             && y.swap.Prepared? && y.swap.pending == [] && y.owner.None? && ValidConfig(y.swap.loaded.config)
             && y.swap.loaded.dirty == 0 && !Stores(FileAt(y, y.swap.path), y.swap.loaded.entries)
    ensures EndsStale(longer, actions + [SwapInstall]) && longer[0] == trace[0]
    ensures longer[..|trace|] == trace
  {
    hide Stores, IsRun;
    longer := OneMoreAction(trace, actions, SwapInstall);
  }

  lemma RegistrationLoads(s: Sys, c: Settings) returns (trace: seq<Sys>)
    requires Inv(s) && s.swap.Entered?
    ensures IsRun(trace, [SwapSkip, SwapLoad(s.paths[s.gen], c, None, 1)], true) && |trace| == 3 && trace[0] == s
    ensures trace[2] == s.(swap := Prepared(Restarted(s, c), [], s.paths[s.gen]))
  {
    PrefixLoads(s, c);
    hide LoadFrom, Run, SaverSound, Replays, OnDisk, Storable, FileIsPrefix, IsRun;
    trace := SkipAndLoad(s, c);
  }

  lemma SkipAndLoad(s: Sys, c: Settings) returns (trace: seq<Sys>)
    requires s.gen in s.paths && s.swap.Entered? && Loadable(FileAt(s, s.paths[s.gen]))
    ensures IsRun(trace, [SwapSkip, SwapLoad(s.paths[s.gen], c, None, 1)], true) && |trace| == 3 && trace[0] == s
    ensures trace[2] == s.(swap := Prepared(Restarted(s, c), [], s.paths[s.gen]))
  {
    hide LoadFrom;
    var s1 := Do(s, SwapSkip, true);
    trace := [s, s1, Do(s1, SwapLoad(s.paths[s.gen], c, None, 1), true)];
  }

  /** If the active file still matches what was loaded once every saver is done, it is the engine that it does not match. */
  lemma StaleOrBehind(s: Sys, c: Settings, y: Sys)
    requires Inv(s) && s.swap.Entered? && !FileIsCurrent(s)
    requires Finished(s.(swap := Prepared(Restarted(s, c), [], s.paths[s.gen])), y)
    requires Stores(FileAt(y, s.paths[s.gen]), Restarted(s, c).entries)
    ensures !Stores(FileAt(s, s.paths[s.gen]), s.engines[s.gen].entries) && s.engines[s.gen].dirty > 0
  {
    hide Run, LoadFrom, Storable, Replays, SnapshotIsPrefix, EntriesAfter, Keeps;
    var file, loaded, e := FileAt(s, s.paths[s.gen]), Restarted(s, c), s.engines[s.gen];
    assert Stores(file, loaded.entries) by { PrefixStored(s, c); }
    if Stores(file, e.entries) {
      var t :| HoldsDoc(SaverOf(s, t)) && !Keeps(SaverOf(s, t).doc, e.entries);
      assert SaverSound(s, t);
      if SaverOf(s, t).Snapped? {
        assert FileAt(y, s.paths[s.gen]) == Some(SaverOf(s, t).doc);
        Interchangeable(file, SaverOf(s, t).doc, loaded.entries, e.entries);
      }
      assert false;
    }
  }

  lemma PrefixStored(s: Sys, c: Settings)
    requires Inv(s)
    ensures Stores(FileAt(s, s.paths[s.gen]), Restarted(s, c).entries) && Restarted(s, c).dirty == 0
    ensures Restarted(s, c).config == c
  {
    PrefixLoads(s, c);
    hide Run, SaverSound, Replays, OnDisk, Storable, EntriesAfter;
    LoadedSound(FileAt(s, s.paths[s.gen]), c);
  }

  /** The document of an engine that the file lags behind does not serve what was loaded from the file. */
  lemma FilesDiffer(file: Option<Document>, d: Document, entries: map<Key, Entry>, loaded: map<Key, Entry>)
    requires Stores(file, loaded) && !Stores(file, entries) && Keeps(d, entries)
    ensures !Stores(Some(d), loaded)
  {
    if entries != map[] {
      var k :| k in entries;
      assert k in ErasedEntries(entries);
    }
    assert ErasedEntries(map[]) == map[];
  }

  lemma OwnerIsReady(s: Sys, c: Settings, d: Document)
    requires Inv(s) && s.swap.Entered? && Listing(d, s.engines[s.gen].entries)
    ensures OwnerReady(s.(swap := Prepared(Restarted(s, c), [], s.paths[s.gen])), d)
  {
    hide LoadFrom, Listing, Replays, OnDisk, FileIsPrefix, SnapshotIsPrefix, Storable;
    if s.owner.Some? {
      assert SaverSound(s, s.owner.value) && SaverSound(s, SWAPPER);
    }
  }

  lemma InvIsStorable(s: Sys)
    requires Inv(s)
    ensures s.gen in s.engines && s.gen in s.paths && Storable(s.engines[s.gen]) && ValidConfig(s.engines[s.gen].config)
  {
    hide Storable, SaverSound, Replays, OnDisk, FileIsPrefix;
  }

  lemma FinishedIsPrepared(x: Sys, y: Sys)
    requires Finished(x, y)
    ensures y.swap == x.swap && y.owner.None? && y.gen == x.gen && y.paths == x.paths && y.engines == x.engines
  {
  }

  /** One more save before the swap, by a thread that had no part in anything so far. */
  lemma LateSave(s: Sys, c: Settings, y: Sys, d: Document) returns (trace: seq<Sys>, actions: seq<Action>)
    requires Inv(s) && s.swap.Entered? && Listing(d, s.engines[s.gen].entries)
    requires Finished(s.(swap := Prepared(Restarted(s, c), [], s.paths[s.gen])), y)
    requires !Stores(FileAt(s, s.paths[s.gen]), s.engines[s.gen].entries) && s.engines[s.gen].dirty > 0
    ensures IsRun(trace, actions, true) && |trace| == |actions| + 1 && trace[0] == y && NoSkips(actions)
    ensures var n := trace[|actions|];
            n.swap == y.swap && n.owner.None? && !Stores(FileAt(n, s.paths[s.gen]), Restarted(s, c).entries)
  {
    InvIsStorable(s);
    PrefixStored(s, c);
    ListingKeeps(s.engines[s.gen], d);
    FilesDiffer(FileAt(s, s.paths[s.gen]), d, s.engines[s.gen].entries, Restarted(s, c).entries);
    hide Inv, Stores, Listing, Keeps, LoadFrom, Storable, IsRun, NoSkips;
    var t := FreshThread(s.savers.Keys);
    assert t !in s.savers;
    assert SaverOf(y, t).Idle?;
    trace, actions := WholeSave(y, t, d);
  }

  /**
    Whenever the file, or a snapshot on its way to it, is not what the engine
    holds, a registration can end with a clean new engine and a file it does
    not match: it suffices that the running saver finishes and, if the file
    still matches what was loaded, one more save goes through before the swap.
   */
  lemma SkipGoesStale(s: Sys, c: Settings) returns (trace: seq<Sys>, actions: seq<Action>)
    requires Inv(s) && s.swap.Entered? && !FileIsCurrent(s)
    ensures EndsStale(trace, actions) && trace[0] == s && |actions| > 1 && actions[0] == SwapSkip && NoSkips(actions[1..])
  {
    hide Inv, FileIsCurrent, Stores, IsRun, Listing, LoadFrom, Finished, OwnerReady, Storable;
    InvIsStorable(s);
    PrefixStored(s, c);
    var start := [SwapSkip, SwapLoad(s.paths[s.gen], c, None, 1)];
    var loaded := RegistrationLoads(s, c);
    var d := SomeListing(s.engines[s.gen]);
    OwnerIsReady(s, c, d);
    var finish, steps := Finish(loaded[2], d);
    JoinRuns(loaded, start, finish, steps, true);
    trace, actions := loaded + finish[1..], start + steps;
    var y := finish[|steps|];
    FinishedIsPrepared(loaded[2], y);
    if Stores(FileAt(y, s.paths[s.gen]), Restarted(s, c).entries) {
      StaleOrBehind(s, c, y);
      var save, more := LateSave(s, c, y, d);
      JoinRuns(trace, actions, save, more, true);
      trace, actions := trace + save[1..], actions + more;
    }
    trace := InstallStale(trace, actions);
    actions := actions + [SwapInstall];
  }

  /**
    A registration may skip the flush exactly when the file, and any snapshot
    on its way to it, already is what the engine holds: then whatever follows
    keeps every clean engine stored, and otherwise something may follow that
    does not.
   */
  lemma SkipHarmlessWhen(s: Sys)
    requires Inv(s) && s.swap.Entered?
    ensures s.gen in s.engines && s.gen in s.paths
    ensures SkipIsHarmless(s) <==> FileIsCurrent(s)
  {
    InvIsStorable(s);
    hide Inv, FileIsCurrent, CleanIsStored, IsRun, Careful, Storable;
    if FileIsCurrent(s) {
      forall trace: seq<Sys>, actions: seq<Action>, n |
        IsRun(trace, actions, true) && actions != [] && actions[0] == SwapSkip && trace[0] == s
        && |trace| == |actions| + 1 && Careful(trace[1..], actions[1..]) && 0 < n < |trace|
        ensures CleanIsStored(trace[n])
      {
        HarmlessRun(trace, actions, s, n);
      }
    } else {
      var trace, actions := SkipGoesStale(s, DEFAULT_CONFIG);
      StaleIsHarm(s, trace, actions);
    }
  }

  lemma StaleIsHarm(s: Sys, trace: seq<Sys>, actions: seq<Action>)
    requires EndsStale(trace, actions) && trace[0] == s && |actions| > 1 && actions[0] == SwapSkip && NoSkips(actions[1..])
    ensures !SkipIsHarmless(s)
  {
    hide CleanIsStored, Enabled, Do;
    assert Careful(trace[1..], actions[1..]);
    assert !CleanIsStored(trace[|actions|]);
  }

  /** What a registration starts from, exactly: the mutations that are on disk, and none accepted later. */
  lemma RegistrationFinds(trace: seq<Sys>, actions: seq<Action>, n: nat, c: Settings)
    requires IsGuarded(trace, actions) && n < |trace| && trace[n].swap.Entered?
    ensures var s := trace[n];
            && s.gen in s.paths && ValidConfig(s.base.config) && s.saved <= |s.log|
            && Restarted(s, c).entries == ErasedEntries(Before(s.base, s.log, s.saved).entries)
            && s.gen in s.engines
            && (Restarted(s, c).entries == ErasedEntries(s.engines[s.gen].entries)
                <==> Stores(FileAt(s, s.paths[s.gen]), s.engines[s.gen].entries))
  {
    RunKeepsInv(trace, actions, n);
    var s := trace[n];
    hide IsGuarded, Run, SaverSound, Storable, OnDisk, Replays, FileIsPrefix;
    PrefixLoads(s, c);
    hide Restarted, Inv;
    SameEntriesStored(s, c);
  }

  lemma SameEntriesStored(s: Sys, c: Settings)
    requires s.gen in s.engines && s.gen in s.paths && Loadable(FileAt(s, s.paths[s.gen]))
    ensures Restarted(s, c).entries == ErasedEntries(s.engines[s.gen].entries)
            <==> Stores(FileAt(s, s.paths[s.gen]), s.engines[s.gen].entries)
  {
    if k :| k in s.engines[s.gen].entries {
      assert k in ErasedEntries(s.engines[s.gen].entries);
    }
  }

  // ----------------------------------------------------------- within easy reach

  const SOMEONE := Identity("someone", "1", "f", "antigravity", 0)

  lemma SomeoneArrives(e: EngineState)
    ensures RosterNext(e, [SOMEONE], 1).entries != map[]
  {
    var one := [SOMEONE];
    RosterFence.AcceptedRosters(one);
    NormalizedIsProper(one);
    assert NormalizeIdentity(one[0]) == Some(SOMEONE);
    RosterEntryOf(e.entries, NormalizeRoster(one).value, 0, Gemini);
    hide RosterEntries, NormalizeRoster;
  }

  lemma EverybodyLeaves(e: EngineState)
    ensures RosterNext(e, [], 2).entries == map[]
  {
  }

  /** From a first start: a first roster is accepted, and a registration comes before it is saved. */
  lemma UnsavedIsReachable(c: Settings, path: Path) returns (trace: seq<Sys>, actions: seq<Action>)
    ensures IsGuarded(trace, actions) && trace[0] == Installed(c, map[], path)
    ensures var s := trace[|actions|];
            Inv(s) && s.swap.Entered? && s.owner.None? && !FileIsCurrent(s)
  {
    var s := Installed(c, map[], path);
    FirstInstall(c, map[], path);
    SomeoneArrives(s.engines[0]);
    var arrives := Roster([SOMEONE], 1);
    assert Next(s.engines[0], arrives).entries != map[] by { NextIsRoster(s.engines[0], arrives); }
    hide Next, Inv, Started, Do, Enabled, IsRun, FileIsCurrent;
    var arrival := Arrival(s, arrives);
    var entry := Entering(arrival[2]);
    actions := [ReadLock(1), Mutate(1, arrives)] + [ReadUnlock(1), SwapEnter];
    JoinRuns(arrival, [ReadLock(1), Mutate(1, arrives)], entry, [ReadUnlock(1), SwapEnter], true);
    trace := arrival + entry[1..];
    NoSkipsIsGuarded(trace, actions);
    RunKeepsInv(trace, actions, 4);
    EmptyIsNotCurrent(trace[4]);
  }

  lemma EmptyIsNotCurrent(s: Sys)
    requires s.gen in s.engines && s.gen in s.paths && FileAt(s, s.paths[s.gen]).None? && s.engines[s.gen].entries != map[]
    ensures !FileIsCurrent(s)
  {
  }

  lemma Arrival(s: Sys, step: Step) returns (trace: seq<Sys>)
    requires s.readers == {} && s.swap.NoSwap? && s.gen in s.engines && ValidConfig(s.engines[s.gen].config) && !step.Restart?
    ensures IsRun(trace, [ReadLock(1), Mutate(1, step)], true) && |trace| == 3 && trace[0] == s
    ensures trace[2] == s.(readers := {1}, engines := s.engines[s.gen := Next(s.engines[s.gen], step)], log := s.log + [step])
  {
    hide Next;
    var s1 := Do(s, ReadLock(1), true);
    trace := [s, s1, Do(s1, Mutate(1, step), true)];
  }

  lemma Entering(s: Sys) returns (trace: seq<Sys>)
    requires s.readers == {1} && s.swap.NoSwap?
    ensures IsRun(trace, [ReadUnlock(1), SwapEnter], true) && |trace| == 3 && trace[0] == s
    ensures trace[2] == s.(readers := {}, swap := Entered)
  {
    var s1 := Do(s, ReadUnlock(1), true);
    trace := [s, s1, Do(s1, SwapEnter, true)];
  }

  lemma Departure(s: Sys, step: Step) returns (trace: seq<Sys>)
    requires s.readers == {1} && s.swap.NoSwap? && s.gen in s.engines && ValidConfig(s.engines[s.gen].config) && !step.Restart?
    ensures IsRun(trace, [Mutate(1, step)], true) && |trace| == 2 && trace[0] == s
    ensures trace[1] == s.(engines := s.engines[s.gen := Next(s.engines[s.gen], step)], log := s.log + [step])
  {
    hide Next;
    trace := [s, Do(s, Mutate(1, step), true)];
  }

  lemma NextIsRoster(e: EngineState, step: Step)
    requires ValidConfig(e.config) && step.Roster?
    ensures Next(e, step) == RosterNext(e, step.ids, step.at)
  {
  }

  /**
    And with a saver under way: it snapshots that roster, an empty one makes
    the missing file current again, and the registration comes before the rename.
   */
  lemma RunningSaverIsReachable(c: Settings, path: Path) returns (trace: seq<Sys>, actions: seq<Action>)
    ensures IsGuarded(trace, actions) && trace[0] == Installed(c, map[], path)
    ensures var s := trace[|actions|];
            && Inv(s) && s.swap.Entered? && s.owner.Some? && !FileIsCurrent(s)
            && Stores(FileAt(s, s.paths[s.gen]), s.engines[s.gen].entries)
  {
    var s := Installed(c, map[], path);
    FirstInstall(c, map[], path);
    FirstArrival(s.engines[0]);
    var e := Next(s.engines[0], Roster([SOMEONE], 1));
    LastDeparture(e);
    var d := SomeListing(e);
    ListingKeeps(e, d);
    KeptElsewhere(d, e.entries);
    hide Next, Inv, Started, Listing, Storable, Keeps, IsRun, FileIsCurrent, SnapshotActions;
    trace := ComingAndGoing(s, Roster([SOMEONE], 1), Roster([], 2), d);
    actions := SnapshotActions(Roster([SOMEONE], 1), d) + [Mutate(1, Roster([], 2)), ReadUnlock(1), SwapEnter];
    NoSkipsBefore(Roster([SOMEONE], 1), d, Roster([], 2));
    NoSkipsIsGuarded(trace, actions);
    RunKeepsInv(trace, actions, 8);
    SnapshotIsNotCurrent(trace[8], 2);
  }

  lemma NoSkipsBefore(arrives: Step, d: Document, leaves: Step)
    ensures var actions := SnapshotActions(arrives, d) + [Mutate(1, leaves), ReadUnlock(1), SwapEnter];
            |actions| == 8 && NoSkips(actions)
  {
  }

  lemma ComingAndGoing(s: Sys, arrives: Step, leaves: Step, d: Document) returns (trace: seq<Sys>)
    requires s.gen == 0 && 0 in s.engines && ValidConfig(s.engines[0].config) && !arrives.Restart? && !leaves.Restart?
    requires s.readers == {} && s.swap.NoSwap? && s.owner.None? && s.savers == map[]
    requires Next(s.engines[0], arrives).dirty > 0 && Listing(d, Next(s.engines[0], arrives).entries)
    ensures IsRun(trace, SnapshotActions(arrives, d) + [Mutate(1, leaves), ReadUnlock(1), SwapEnter], true)
    ensures |trace| == 9 && trace[0] == s
    ensures var n := trace[8];
            && n.gen == 0 && n.paths == s.paths && n.files == s.files && n.swap.Entered? && n.owner == Some(2)
            && 0 in n.engines && n.engines[0] == Next(Next(s.engines[0], arrives), leaves)
            && SaverOf(n, 2).Snapped? && SaverOf(n, 2).doc == d
  {
    hide Next, Listing, IsRun, SaverOf;
    var snapped := SnapshotAfter(s, arrives, d);
    var left := LeaveAndEnter(snapped[5], leaves);
    trace := snapped + left[1..];
    JoinRuns(snapped, SnapshotActions(arrives, d), left, [Mutate(1, leaves), ReadUnlock(1), SwapEnter], true);
  }

  lemma LastDeparture(e: EngineState)
    requires ValidConfig(e.config)
    ensures Next(e, Roster([], 2)).entries == map[]
  {
    EverybodyLeaves(e);
  }

  lemma NoSkipsIsGuarded(trace: seq<Sys>, actions: seq<Action>)
    requires IsRun(trace, actions, true) && NoSkips(actions) && Started(trace[0])
    ensures IsGuarded(trace, actions)
  {
    hide Do, Enabled, Started;
  }

  function SnapshotActions(step: Step, d: Document): seq<Action> {
    [ReadLock(1), Mutate(1, step)] + [SaveCheck(2, 0), SaveLock(2), SaveBegin(2, d)]
  }

  /** A mutation whose snapshot is taken while its mutator still holds the lock. */
  lemma SnapshotAfter(s: Sys, step: Step, d: Document) returns (trace: seq<Sys>)
    requires s.gen == 0 && 0 in s.engines && ValidConfig(s.engines[0].config) && !step.Restart?
    requires s.readers == {} && s.swap.NoSwap? && s.owner.None? && s.savers == map[]
    requires Next(s.engines[0], step).dirty > 0 && Listing(d, Next(s.engines[0], step).entries)
    ensures IsRun(trace, SnapshotActions(step, d), true) && |trace| == 6 && trace[0] == s
    ensures var n := trace[5];
            && n.gen == 0 && n.engines == s.engines[0 := Next(s.engines[0], step)] && n.paths == s.paths && n.files == s.files
            && n.readers == {1} && n.swap.NoSwap? && n.owner == Some(2)
            && SaverOf(n, 2).Snapped? && SaverOf(n, 2).doc == d
  {
    hide Next, Listing, Do, Enabled;
    var arrival := Arrival(s, step);
    var save := SaveBegins(arrival[2], 2, d);
    JoinRuns(arrival, [ReadLock(1), Mutate(1, step)], save, [SaveCheck(2, 0), SaveLock(2), SaveBegin(2, d)], true);
    trace := arrival + save[1..];
  }

  lemma LeaveAndEnter(s: Sys, step: Step) returns (trace: seq<Sys>)
    requires s.readers == {1} && s.swap.NoSwap? && s.gen in s.engines && ValidConfig(s.engines[s.gen].config) && !step.Restart?
    ensures IsRun(trace, [Mutate(1, step), ReadUnlock(1), SwapEnter], true) && |trace| == 4 && trace[0] == s
    ensures var n := trace[3];
            && n.gen == s.gen && n.engines == s.engines[s.gen := Next(s.engines[s.gen], step)] && n.paths == s.paths
            && n.files == s.files && n.swap.Entered? && n.owner == s.owner
            && SaverOf(n, 2) == SaverOf(s, 2)
  {
    hide Next, Do, Enabled;
    var departure := Departure(s, step);
    var entry := Entering(departure[1]);
    JoinRuns(departure, [Mutate(1, step)], entry, [ReadUnlock(1), SwapEnter], true);
    trace := departure + entry[1..];
  }

  lemma KeptElsewhere(d: Document, entries: map<Key, Entry>)
    requires Keeps(d, entries) && entries != map[]
    ensures !Keeps(d, map[])
  {
    var k :| k in entries;
    assert k in ErasedEntries(entries);
  }

  lemma SnapshotIsNotCurrent(s: Sys, t: Thread)
    requires s.gen in s.engines && s.gen in s.paths && HoldsDoc(SaverOf(s, t))
    requires !Keeps(SaverOf(s, t).doc, s.engines[s.gen].entries)
    ensures !FileIsCurrent(s)
  {
  }

  lemma FirstArrival(e: EngineState)
    requires ValidConfig(e.config) && Storable(e) && e.entries == map[]
    ensures var n := Next(e, Roster([SOMEONE], 1));
            n.entries != map[] && ValidConfig(n.config) && n.dirty > 0 && Storable(n)
  {
    StepKeepsStorable(e, Roster([SOMEONE], 1));
    ChangesAreDirty(e, Roster([SOMEONE], 1));
    SomeoneArrives(e);
    NextIsRoster(e, Roster([SOMEONE], 1));
    hide Next, RosterNext, Storable;
  }
}
