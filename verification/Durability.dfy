/**
  What is on disk over any run of the persistence protocol: a clean engine is
  stored, an unclean or dead one is stored up to some point, a retired one
  never writes, and a configuration change loses nothing.
 */
module Durability {
  import opened GuardTypes
  import opened EngineSpec
  import opened EngineRuns
  import opened StateFile
  import opened Storage
  import opened Persistence

  /** The system right after its first engine was installed. */
  ghost predicate Started(s: Sys) {
    && s.gen == 0
    && (forall g: nat :: g in s.engines <==> g == 0)
    && (forall g: nat :: g in s.paths <==> g == 0)
    && (forall p :: p in s.files ==> Bare(s.files[p]))
    && ValidConfig(s.engines[0].config) && Storable(s.engines[0])
    && Stores(FileAt(s, s.paths[0]), s.engines[0].entries)
    && s.readers == {} && s.owner.None? && s.savers == map[] && s.swap.NoSwap?
    && s.base == s.engines[0] && s.log == [] && s.saved == 0
  }

  lemma StartedIsInv(s: Sys)
    requires Started(s)
    ensures Inv(s)
  {
    hide Stores, Bare, Storable;
    assert s.log[..0] == [];
    forall t ensures SaverSound(s, t) {
    }
  }

  /** Installing the first engine from whatever its state file holds starts such a system. */
  lemma FirstInstall(c: Settings, files: map<Path, Document>, path: Path)
    requires forall p :: p in files ==> Bare(files[p])
    requires path in files ==> ValidDocument(files[path])
    ensures Started(Installed(c, files, path))
  {
    LoadedSound(if path in files then Some(files[path]) else None, c);
    hide Stores, Bare, LoadFrom, Storable;
  }

  function Installed(c: Settings, files: map<Path, Document>, path: Path): Sys {
    var e := LoadFrom(c, if path in files then Some(files[path]) else None);
    Sys(map[0 := e], map[0 := path], 0, files, {}, None, map[], NoSwap, e, [], 0)
  }

  /** A run: every action is enabled where it happens. */
  ghost predicate IsRun(trace: seq<Sys>, actions: seq<Action>, serialised: bool) {
    && |trace| == |actions| + 1
    && forall i :: 0 <= i < |actions| ==>
         Enabled(trace[i], actions[i], serialised) && trace[i + 1] == Do(trace[i], actions[i], serialised)
  }

  lemma JoinRuns(first: seq<Sys>, a: seq<Action>, second: seq<Sys>, b: seq<Action>, serialised: bool)
    requires IsRun(first, a, serialised) && IsRun(second, b, serialised) && first[|a|] == second[0]
    ensures IsRun(first + second[1..], a + b, serialised)
    ensures (first + second[1..])[|a| + |b|] == second[|b|]
  {
    hide Do, Enabled;
    var trace := first + second[1..];
    forall i | 0 <= i < |a| + |b|
      ensures Enabled(trace[i], (a + b)[i], serialised) && trace[i + 1] == Do(trace[i], (a + b)[i], serialised)
    {
      if i < |a| {
        assert trace[i] == first[i] && trace[i + 1] == first[i + 1];
      } else {
        assert trace[i] == second[i - |a|] && trace[i + 1] == second[i - |a| + 1];
      }
    }
  }

  /** Every repeated registration finds everything on disk. */
  ghost predicate Careful(trace: seq<Sys>, actions: seq<Action>)
    requires |trace| == |actions| + 1
  {
    forall i :: 0 <= i < |actions| && actions[i].SwapSkip? ==>
      trace[i].gen in trace[i].engines && trace[i].gen in trace[i].paths && FileIsCurrent(trace[i])
  }

  ghost predicate IsGuarded(trace: seq<Sys>, actions: seq<Action>) {
    IsRun(trace, actions, true) && Careful(trace, actions) && Started(trace[0])
  }

  lemma {:induction false} CarefulRunKeepsInv(trace: seq<Sys>, actions: seq<Action>, n: nat)
    requires IsRun(trace, actions, true) && Careful(trace, actions) && Inv(trace[0]) && n < |trace|
    ensures Inv(trace[n])
  {
    hide Inv, Do, Enabled, FileIsCurrent;
    if n > 0 {
      CarefulRunKeepsInv(trace, actions, n - 1);
      ActionKeepsInv(trace[n - 1], actions[n - 1]);
    }
  }

  lemma RunKeepsInv(trace: seq<Sys>, actions: seq<Action>, n: nat)
    requires IsGuarded(trace, actions) && n < |trace|
    ensures Inv(trace[n])
  {
    hide Inv, Started, IsRun, Careful;
    StartedIsInv(trace[0]);
    CarefulRunKeepsInv(trace, actions, n);
  }

  /** The active engine is dirty, or its state file loads and holds exactly its entries, lease holders aside. */
  predicate CleanIsStored(s: Sys) {
    && s.gen in s.engines && s.gen in s.paths
    && (s.engines[s.gen].dirty == 0 ==> Stores(FileAt(s, s.paths[s.gen]), s.engines[s.gen].entries))
  }

  lemma InvIsStored(s: Sys)
    requires Inv(s)
    ensures CleanIsStored(s)
  {
    hide SaverSound, Replays, FileIsPrefix, Stores;
  }

  /**
    However mutators, savers, configuration changes and crashes interleave:
    whenever the active engine is not dirty, the state file of its path loads,
    and holds exactly its entries, lease holders aside.
   */
  lemma CleanMeansSaved(trace: seq<Sys>, actions: seq<Action>, n: nat)
    requires IsGuarded(trace, actions) && n < |trace|
    ensures CleanIsStored(trace[n])
  {
    hide IsGuarded, Inv, CleanIsStored;
    RunKeepsInv(trace, actions, n);
    InvIsStored(trace[n]);
  }

  // -------------------------------------------------------------------- crashes

  /** The engine that a start from the active path would load. */
  function Restarted(s: Sys, c: Settings): EngineState
    requires s.gen in s.paths
  {
    LoadFrom(c, FileAt(s, s.paths[s.gen]))
  }

  /** What a load finds in a file that stores the state of some engine, id table and all. */
  lemma LoadFinds(file: Option<Document>, e: EngineState, c: Settings)
    requires Storable(e) && Stores(file, e.entries)
    ensures Loadable(file)
    ensures LoadFrom(c, file) == match file
                                 case Some(d) => Reloaded(e, c).(updated := d.updated)
                                 case None => Initial(c)
    ensures LoadFrom(c, file).entries == ErasedEntries(e.entries) && LoadFrom(c, file).authByID == e.authByID
  {
    if file.Some? {
      var d := file.value;
      ValidLists(d.entries);
      SavedLoads(e, d, c);
    } else {
      hide EntryFiled, IDFiledIn;
      assert e.authByID == map[] by {
        if id :| id in e.authByID {
          NoEntriesNoIDs(e, id);
        }
      }
    }
  }

  lemma NoEntriesNoIDs(e: EngineState, id: string)
    requires Storable(e) && id in e.authByID
    ensures e.entries != map[]
  {
    assert IDFiled(e.entries, e.authByID, id);
  }

  lemma PrefixLoads(s: Sys, c: Settings)
    requires Inv(s)
    ensures s.saved <= |s.log| && Loadable(FileAt(s, s.paths[s.gen]))
    ensures var earlier := Before(s.base, s.log, s.saved);
            Restarted(s, c) == match FileAt(s, s.paths[s.gen])
                               case Some(d) => Reloaded(earlier, c).(updated := d.updated)
                               case None => Initial(c)
    ensures Restarted(s, c).entries == ErasedEntries(Before(s.base, s.log, s.saved).entries)
  {
    hide SaverSound, OnDisk, Storable, Stores, LoadFrom, Run;
    RunKeepsStorable(s.base, s.log[..s.saved]);
    LoadFinds(FileAt(s, s.paths[s.gen]), Before(s.base, s.log, s.saved), c);
  }

  /**
    At any moment of any run, whatever is under way, a crash costs at most the
    newest mutations: what the next start loads is the result of a prefix of
    those accepted since the active engine was loaded, and of all of them when
    that engine is clean. A sound engine is followed by a sound one.
   */
  lemma CrashLosesOnlyASuffix(trace: seq<Sys>, actions: seq<Action>, n: nat, c: Settings)
    requires IsGuarded(trace, actions) && n < |trace|
    ensures var s := trace[n];
            && s.gen in s.paths && s.gen in s.engines && ValidConfig(s.base.config) && s.saved <= |s.log|
            && Enabled(s, Crash(s.paths[s.gen], c), true)
            && var earlier := Before(s.base, s.log, s.saved);
            && Restarted(s, c) == (match FileAt(s, s.paths[s.gen])
                                   case Some(d) => Reloaded(earlier, c).(updated := d.updated)
                                   case None => Initial(c))
            && Restarted(s, c).entries == ErasedEntries(earlier.entries)
            && (s.engines[s.gen].dirty == 0 ==> ErasedEntries(earlier.entries) == ErasedEntries(Run(s.base, s.log).entries))
            && (Sound(s.base) ==> Sound(Restarted(s, c)))
  {
    hide IsGuarded, Run, Restarted, Sound, SaverSound, Storable, OnDisk, FileIsPrefix;
    RunKeepsInv(trace, actions, n);
    var s := trace[n];
    PrefixLoads(s, c);
    if Sound(s.base) {
      CrashIsSound(s, c);
    }
    if s.engines[s.gen].dirty == 0 {
      CleanPrefix(s);
    }
  }

  lemma CrashIsSound(s: Sys, c: Settings)
    requires Inv(s) && Sound(s.base)
    ensures Sound(Restarted(s, c))
  {
    hide SaverSound, OnDisk, Storable, Stores, Sound, Run, LoadFrom, Reloaded;
    PrefixLoads(s, c);
    RunKeepsSound(s.base, s.log[..s.saved]);
    RestartKeepsSound(Before(s.base, s.log, s.saved), c);
    match FileAt(s, s.paths[s.gen])
    case None => NewIsSound(c);
    case Some(d) => TouchedIsSound(Reloaded(Before(s.base, s.log, s.saved), c), d.updated);
  }

  lemma NewIsSound(c: Settings)
    ensures Sound(Initial(c))
  {
  }

  lemma TouchedIsSound(e: EngineState, at: Time)
    requires Sound(e)
    ensures Sound(e.(updated := at))
  {
    SameIdentitiesKeepRoster(e, e.(updated := at));
  }

  lemma CleanPrefix(s: Sys)
    requires Inv(s) && s.engines[s.gen].dirty == 0
    ensures ErasedEntries(Before(s.base, s.log, s.saved).entries) == ErasedEntries(Run(s.base, s.log).entries)
  {
    hide Run, Storable, SaverSound;
    WholeLog(s);
    assert s.log[..|s.log|] == s.log;
    SameStored(FileAt(s, s.paths[s.gen]), Before(s.base, s.log, s.saved).entries, s.engines[s.gen].entries);
  }

  lemma SameStored(file: Option<Document>, a: map<Key, Entry>, b: map<Key, Entry>)
    requires Stores(file, a) && Stores(file, b)
    ensures ErasedEntries(a) == ErasedEntries(b)
  {
  }

  predicate Extends(s: Sys, n: Sys) {
    n.base == s.base && n.saved >= s.saved && s.log <= n.log
  }

  lemma OtherStepExtends(s: Sys, a: Action)
    requires Enabled(s, a, true) && !a.SaveRename? && Do(s, a, true).gen == s.gen
    ensures Extends(s, Do(s, a, true))
  {
    hide Next, LoadFrom, Run;
  }

  lemma RenameExtends(s: Sys, t: Thread)
    requires s.gen in s.engines && s.gen in s.paths && SaverSound(s, t) && Enabled(s, SaveRename(t), true)
    ensures Extends(s, Do(s, SaveRename(t), true))
  {
    hide SnapshotSound, EntriesAfter, Keeps;
  }

  lemma DurableStep(s: Sys, a: Action)
    requires Inv(s) && Enabled(s, a, true) && Do(s, a, true).gen == s.gen
    ensures Extends(s, Do(s, a, true))
  {
    hide Do, Enabled, Extends, Replays, OnDisk, FileIsPrefix;
    if a.SaveRename? {
      assert SaverSound(s, a.t);
      hide SaverSound;
      RenameExtends(s, a.t);
    } else {
      OtherStepExtends(s, a);
    }
  }

  /** What is once on disk stays there: within a generation the stored prefix never shrinks. */
  lemma {:induction false} DurableStays(trace: seq<Sys>, actions: seq<Action>, i: nat, n: nat)
    requires IsGuarded(trace, actions) && i <= n < |trace| && trace[i].gen == trace[n].gen
    ensures Extends(trace[i], trace[n])
  {
    hide Do, Enabled, Inv, Started, Careful;
    if i < n {
      GenerationsAdvance(trace, actions, i, n - 1);
      GenerationsAdvance(trace, actions, n - 1, n);
      DurableStays(trace, actions, i, n - 1);
      RunKeepsInv(trace, actions, n - 1);
      DurableStep(trace[n - 1], actions[n - 1]);
    }
  }

  // --------------------------------------------------------------- generations

  lemma GenerationStep(s: Sys, a: Action)
    requires Enabled(s, a, true)
    ensures Do(s, a, true).gen >= s.gen
  {
    hide Next, LoadFrom, Run;
  }

  /** The generation counter never goes back. */
  lemma {:induction false} GenerationsAdvance(trace: seq<Sys>, actions: seq<Action>, i: nat, n: nat)
    requires IsRun(trace, actions, true) && i <= n < |trace|
    ensures trace[i].gen <= trace[n].gen
  {
    hide Do, Enabled;
    if i < n {
      GenerationsAdvance(trace, actions, i, n - 1);
      GenerationStep(trace[n - 1], actions[n - 1]);
    }
  }

  lemma OthersWriteNothing(s: Sys, a: Action)
    requires Enabled(s, a, true) && !a.SaveRename?
    ensures Do(s, a, true).files == s.files
  {
    hide Next, LoadFrom, Run;
  }

  lemma RenameWritesHere(s: Sys, t: Thread)
    requires s.gen in s.engines && s.gen in s.paths && SaverSound(s, t) && Enabled(s, SaveRename(t), true)
    ensures SaverOf(s, t).gen == s.gen
    ensures forall p :: p != s.paths[s.gen] ==> FileAt(Do(s, SaveRename(t), true), p) == FileAt(s, p)
  {
    hide SnapshotIsPrefix, Keeps, Bare;
  }

  /**
    A retired generation never writes: a file changes only in the rename of
    a saver of the generation active at that moment, and only at that
    generation's path; no saver of a generation replaced at step i writes later.
   */
  lemma RetiredNeverWrites(trace: seq<Sys>, actions: seq<Action>, i: nat, n: nat)
    requires IsGuarded(trace, actions) && i <= n < |actions|
    requires trace[n + 1].files != trace[n].files
    ensures actions[n].SaveRename?
    ensures var v := SaverOf(trace[n], actions[n].t);
            && v.Snapped? && v.gen == trace[n].gen >= trace[i].gen
            && trace[n].gen in trace[n].paths
            && forall p :: p != trace[n].paths[trace[n].gen] ==> FileAt(trace[n + 1], p) == FileAt(trace[n], p)
  {
    RunKeepsInv(trace, actions, n);
    GenerationsAdvance(trace, actions, i, n);
    hide Do, SaverSound, OnDisk, FileIsPrefix, Replays, Started, Careful;
    var s, a := trace[n], actions[n];
    assert Enabled(s, a, true) && trace[n + 1] == Do(s, a, true);
    if !a.SaveRename? {
      OthersWriteNothing(s, a);
    } else {
      assert SaverSound(s, a.t);
      RenameWritesHere(s, a.t);
    }
  }

  // -------------------------------------------------------- configuration changes

  /** What a load of the active path finds once everything accepted is on disk. */
  lemma LoadFindsEverything(s: Sys, c: Settings)
    requires Inv(s) && Stores(FileAt(s, s.paths[s.gen]), s.engines[s.gen].entries)
    ensures Loadable(FileAt(s, s.paths[s.gen]))
    ensures Restarted(s, c) == match FileAt(s, s.paths[s.gen])
                               case Some(d) => Reloaded(Run(s.base, s.log), c).(updated := d.updated)
                               case None => Initial(c)
    ensures Restarted(s, c).entries == ErasedEntries(Run(s.base, s.log).entries)
    ensures Restarted(s, c).authByID == Run(s.base, s.log).authByID
  {
    hide SaverSound, Storable, Stores, LoadFrom, Run, OnDisk, FileIsPrefix;
    RunKeepsStorable(s.base, s.log);
    WholeLog(s);
    assert s.log[..|s.log|] == s.log;
    LoadFinds(FileAt(s, s.paths[s.gen]), Run(s.base, s.log), c);
  }

  lemma LoadsEverything(s: Sys, a: Action)
    requires Inv(s) && a.SwapLoad? && Enabled(s, a, true) && a.path == s.paths[s.gen]
    ensures Restarted(s, a.config) == match FileAt(s, a.path)
                                      case Some(d) => Reloaded(Run(s.base, s.log), a.config).(updated := d.updated)
                                      case None => Initial(a.config)
    ensures Restarted(s, a.config).entries == ErasedEntries(Run(s.base, s.log).entries)
    ensures Restarted(s, a.config).authByID == Run(s.base, s.log).authByID
  {
    hide Run, SaverSound, FileIsPrefix, Replays, Storable, Stores, Restarted;
    LoadFindsEverything(s, a.config);
  }

  /**
    A configuration change that keeps the state path starts, before any roster
    reconciliation, from the result of every mutation accepted since the active
    engine was loaded, id table and all, lease holders aside. A change of path
    starts from what that path holds.
   */
  lemma SwapLosesNothing(trace: seq<Sys>, actions: seq<Action>, n: nat)
    requires IsGuarded(trace, actions) && n < |actions| && actions[n].SwapLoad?
    ensures var s, a := trace[n], actions[n];
            && s.gen in s.paths && ValidConfig(s.base.config)
            && trace[n + 1].swap == Prepared(LoadFrom(a.config, FileAt(s, a.path)), Reconciliation(a.roster, a.at), a.path)
            && (a.path == s.paths[s.gen] ==>
                  && Restarted(s, a.config) == (match FileAt(s, a.path)
                                                case Some(d) => Reloaded(Run(s.base, s.log), a.config).(updated := d.updated)
                                                case None => Initial(a.config))
                  && Restarted(s, a.config).entries == ErasedEntries(Run(s.base, s.log).entries)
                  && Restarted(s, a.config).authByID == Run(s.base, s.log).authByID)
  {
    RunKeepsInv(trace, actions, n);
    var s, a := trace[n], actions[n];
    assert Enabled(s, a, true) && trace[n + 1] == Do(s, a, true);
    LoadStep(s, a);
    hide IsGuarded, Run, SaverSound, Replays, OnDisk, FileIsPrefix, Storable, Restarted, LoadFrom, Do, Enabled;
    if a.path == s.paths[s.gen] {
      LoadsEverything(s, a);
    }
  }

  lemma LoadStep(s: Sys, a: Action)
    requires a.SwapLoad? && Enabled(s, a, true)
    ensures Do(s, a, true).swap == Prepared(LoadFrom(a.config, FileAt(s, a.path)), Reconciliation(a.roster, a.at), a.path)
  {
    hide LoadFrom;
  }

  /** At any moment the active path can be loaded. */
  lemma ActiveFileLoads(trace: seq<Sys>, actions: seq<Action>, n: nat)
    requires IsGuarded(trace, actions) && n < |trace|
    ensures trace[n].gen in trace[n].paths && Loadable(FileAt(trace[n], trace[n].paths[trace[n].gen]))
  {
    RunKeepsInv(trace, actions, n);
    hide IsGuarded, SaverSound, Replays, OnDisk, Storable, EntriesAfter;
  }

  lemma StepChangesNothing(s: Sys, a: Action)
    requires s.gen in s.engines && s.readers == {} && !s.swap.NoSwap?
    requires Enabled(s, a, true) && Do(s, a, true).gen == s.gen
    ensures var n := Do(s, a, true);
            n.log == s.log && n.gen in n.engines && n.engines[s.gen].entries == s.engines[s.gen].entries
  {
    hide Next, LoadFrom, Run;
  }

  /** While a change is under way nothing is accepted, so nothing can slip between its flush and its swap. */
  lemma NothingSlipsThrough(trace: seq<Sys>, actions: seq<Action>, n: nat)
    requires IsGuarded(trace, actions) && n < |actions|
    requires !trace[n].swap.NoSwap? && trace[n].gen == trace[n + 1].gen
    ensures trace[n + 1].log == trace[n].log
    ensures trace[n].gen in trace[n].engines && trace[n].gen in trace[n + 1].engines
    ensures trace[n + 1].engines[trace[n].gen].entries == trace[n].engines[trace[n].gen].entries
  {
    RunKeepsInv(trace, actions, n);
    hide Do, Enabled, SaverSound, OnDisk, FileIsPrefix, Replays, Started, Careful;
    StepChangesNothing(trace[n], actions[n]);
  }
}
