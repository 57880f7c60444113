/**
  Saving and replacing the engine while requests keep arriving: mutators hold
  `access` for reading, savers take `persistMu`, and a configuration change
  holds `access` for writing across flush, load and swap. A save is three
  steps (snapshot, rename, clear the dirty counter) that others interleave,
  and the process may die between any two.
 */
module Persistence {
  import opened GuardTypes
  import opened EngineSpec
  import opened EngineRuns
  import opened StateFile
  import opened Storage
  import opened DirtyCounter

  type Thread = nat
  type Path = string

  /** The configuration change's own thread. */
  const SWAPPER: Thread := 0

  /** `upto` counts the accepted mutations a snapshot contains. */
  datatype Saver =
    | Idle
    | Waiting(gen: nat)
    | Locked(gen: nat)
    | Snapped(gen: nat, doc: Document, version: nat, upto: nat)
    | Renamed(gen: nat, doc: Document, version: nat, upto: nat)

  /** A prepared engine is what was loaded plus the roster reconciliation, if any. */
  datatype Swap =
    | NoSwap
    | Entered
    | Flushing
    | Flushed
    | Prepared(loaded: EngineState, pending: seq<Step>, path: Path)

  /**
    Every generation has its own engine and path; `gen` is the active one.
    `base` is what the active engine was loaded as, `log` what it accepted
    since, and `saved` how much of that its file contains.
   */
  datatype Sys = Sys(
    engines: map<nat, EngineState>,
    paths: map<nat, Path>,
    gen: nat,
    files: map<Path, Document>,
    readers: set<Thread>,
    owner: Option<Thread>,
    savers: map<Thread, Saver>,
    swap: Swap,
    base: EngineState,
    log: seq<Step>,
    saved: nat)

  /** A repeated registration is a configuration change that skips the flush; a crash is followed by a new start. */
  datatype Action =
    | ReadLock(t: Thread)
    | Mutate(t: Thread, step: Step)
    | ReadUnlock(t: Thread)
    | SaveCheck(t: Thread, gen: nat)
    | SaveLock(t: Thread)
    | SaveBegin(t: Thread, doc: Document)
    | SaveRename(t: Thread)
    | SaveClear(t: Thread)
    | SaveFail(t: Thread)
    | SwapEnter
    | SwapFlush
    | SwapSkip
    | SwapLoad(path: Path, config: Settings, roster: Option<seq<Identity>>, at: Instant)
    | SwapInstall
    | SwapAbort
    | Crash(path: Path, config: Settings)

  function SaverOf(s: Sys, t: Thread): Saver {
    if t in s.savers then s.savers[t] else Idle
  }

  function FileAt(s: Sys, p: Path): Option<Document> {
    if p in s.files then Some(s.files[p]) else None
  }

  predicate InLock(v: Saver) {
    v.Locked? || v.Snapped? || v.Renamed?
  }

  predicate HoldsDoc(v: Saver) {
    v.Snapped? || v.Renamed?
  }

  /** What a save encodes: the entries in any order, without their lease holders. */
  predicate Listing(d: Document, entries: map<Key, Entry>) {
    d.version == SCHEMA_VERSION && Lists(d.entries, ErasedEntries(entries))
  }

  /** A document that loads, and loads back as these entries, lease holders aside. */
  predicate Keeps(d: Document, entries: map<Key, Entry>) {
    ValidDocument(d) && Table(d.entries) == ErasedEntries(entries)
  }

  predicate Stores(file: Option<Document>, entries: map<Key, Entry>) {
    match file
    case None => entries == map[]
    case Some(d) => Keeps(d, entries)
  }

  /** Nothing validates a listing before it is renamed; that it would load follows from what engines hold. */
  lemma ListingKeeps(e: EngineState, d: Document)
    requires Storable(e) && ValidConfig(e.config) && Listing(d, e.entries)
    ensures Keeps(d, e.entries) && Bare(d)
  {
    SavedLoads(e, d, e.config);
    EraseTwice(e.entries);
  }

  predicate Loadable(file: Option<Document>) {
    file.Some? ==> ValidDocument(file.value)
  }

  /** A new engine that has read a state file; a missing file leaves it new. */
  function LoadFrom(c: Settings, file: Option<Document>): EngineState {
    match file
    case None => Initial(c)
    case Some(d) => Loaded(c, d)
  }

  function Reconciliation(roster: Option<seq<Identity>>, at: Instant): seq<Step> {
    match roster
    case None => []
    case Some(ids) => [Roster(ids, at)]
  }

  /** `serialised` is false in a system without `persistMu`. */
  predicate Enabled(s: Sys, a: Action, serialised: bool) {
    match a
    case ReadLock(t) => s.swap.NoSwap? && t !in s.readers
    case Mutate(t, step) => t in s.readers && s.gen in s.engines && ValidConfig(s.engines[s.gen].config) && !step.Restart?
    case ReadUnlock(t) => t in s.readers
    case SaveCheck(t, g) => t != SWAPPER && SaverOf(s, t).Idle? && g in s.engines && s.engines[g].dirty > 0
    case SaveLock(t) => SaverOf(s, t).Waiting? && (serialised ==> s.owner.None?)
    case SaveBegin(t, d) =>
      SaverOf(s, t).Locked? && s.gen in s.engines && (SaverOf(s, t).gen == s.gen ==> Listing(d, s.engines[s.gen].entries))
    case SaveRename(t) => SaverOf(s, t).Snapped? && SaverOf(s, t).gen in s.paths
    case SaveClear(t) => SaverOf(s, t).Renamed? && SaverOf(s, t).gen in s.engines && ValidDocument(SaverOf(s, t).doc)
    case SaveFail(t) => HoldsDoc(SaverOf(s, t))
    case SwapEnter => s.swap.NoSwap? && s.readers == {}
    case SwapFlush => s.swap.Entered? && s.gen in s.engines
    case SwapSkip => s.swap.Entered?
    case SwapLoad(p, _, roster, _) =>
      s.swap.Flushed? && Loadable(FileAt(s, p)) && (roster.Some? ==> NormalizeRoster(roster.value).Some?)
    case SwapInstall => s.swap.Prepared? && ValidConfig(s.swap.loaded.config) && (serialised ==> s.owner.None?)
    case SwapAbort => s.swap.Flushed? || s.swap.Prepared?
    case Crash(p, _) => Loadable(FileAt(s, p))
  }

  /** The saver leaves `persistMu`; the configuration change goes on only if its own flush succeeded. */
  function Release(s: Sys, t: Thread, ok: bool): Sys {
    s.(owner := None, savers := s.savers[t := Idle],
       swap := if t == SWAPPER then (if ok then Flushed else NoSwap) else s.swap)
  }

  function Do(s: Sys, a: Action, serialised: bool): Sys
    requires Enabled(s, a, serialised)
  {
    match a
    case ReadLock(t) => s.(readers := s.readers + {t})
    case Mutate(t, step) =>
      s.(engines := s.engines[s.gen := Next(s.engines[s.gen], step)], log := s.log + [step])
    case ReadUnlock(t) => s.(readers := s.readers - {t})
    case SaveCheck(t, g) => s.(savers := s.savers[t := Waiting(g)])
    case SaveLock(t) => s.(owner := Some(t), savers := s.savers[t := Locked(SaverOf(s, t).gen)])
    case SaveBegin(t, d) =>
      if SaverOf(s, t).gen != s.gen then Release(s, t, true)
      else s.(savers := s.savers[t := Snapped(s.gen, d, s.engines[s.gen].generation, |s.log|)])
    case SaveRename(t) =>
      var v := SaverOf(s, t);
      s.(files := s.files[s.paths[v.gen] := v.doc], savers := s.savers[t := Renamed(v.gen, v.doc, v.version, v.upto)],
         saved := v.upto)
    case SaveClear(t) =>
      var v := SaverOf(s, t);
      var e := s.engines[v.gen];
      var n := Release(s, t, true);
      if e.generation == v.version then n.(engines := s.engines[v.gen := e.(dirty := 0)]) else n
    case SaveFail(t) => Release(s, t, false)
    case SwapEnter => s.(swap := Entered)
    case SwapFlush =>
      if s.engines[s.gen].dirty == 0 then s.(swap := Flushed)
      else s.(swap := Flushing, savers := s.savers[SWAPPER := Waiting(s.gen)])
    case SwapSkip => s.(swap := Flushed)
    case SwapLoad(p, c, roster, at) => s.(swap := Prepared(LoadFrom(c, FileAt(s, p)), Reconciliation(roster, at), p))
    case SwapInstall => Active(s, s.swap.loaded, s.swap.pending, s.swap.path).(swap := NoSwap)
    case SwapAbort => s.(swap := NoSwap)
    case Crash(p, c) =>
      Active(s, LoadFrom(c, FileAt(s, p)), [], p).(readers := {}, owner := None, savers := map[], swap := NoSwap)
  }

  /** The next generation is the active one. */
  function Active(s: Sys, loaded: EngineState, pending: seq<Step>, path: Path): Sys
    requires ValidConfig(loaded.config)
  {
    s.(engines := s.engines[s.gen + 1 := Run(loaded, pending)], paths := s.paths[s.gen + 1 := path],
       gen := s.gen + 1, base := loaded, log := pending, saved := 0)
  }

  // ------------------------------------------------------------------ invariant

  predicate Settled(e: EngineState, file: Option<Document>) {
    e.dirty == 0 ==> Stores(file, e.entries)
  }

  /** Between flush and swap what is on disk, or about to be, is what the engine holds. */
  predicate Unchanging(s: Sys) {
    s.swap.Flushed? || s.swap.Prepared?
  }

  /** The entries of the active engine after its first n mutations. */
  function EntriesAfter(s: Sys, n: nat): map<Key, Entry>
    requires ValidConfig(s.base.config) && n <= |s.log|
  {
    Before(s.base, s.log, n).entries
  }

  /** What a saver inside `persistMu` knows about the engine it is saving. */
  predicate SnapshotSound(s: Sys, v: Saver)
    requires s.gen in s.engines && HoldsDoc(v)
  {
    var e := s.engines[s.gen];
    && v.gen == s.gen
    && v.version <= e.generation
    && (v.version == e.generation ==> Keeps(v.doc, e.entries))
    && (v.version == e.generation || e.dirty > 0)
    && (Unchanging(s) ==> Keeps(v.doc, e.entries))
    && Bare(v.doc)
  }

  predicate SnapshotIsPrefix(s: Sys, v: Saver)
    requires HoldsDoc(v)
  {
    && ValidConfig(s.base.config)
    && s.saved <= v.upto <= |s.log|
    && Keeps(v.doc, EntriesAfter(s, v.upto))
  }

  /** Files carry no lease holders. */
  predicate Bare(d: Document) {
    Table(d.entries) == ErasedEntries(Table(d.entries))
  }

  predicate SaverSound(s: Sys, t: Thread)
    requires s.gen in s.engines && s.gen in s.paths
  {
    var v := SaverOf(s, t);
    && (InLock(v) <==> s.owner == Some(t))
    && (!v.Idle? ==> v.gen <= s.gen)
    && (HoldsDoc(v) ==> SnapshotSound(s, v) && SnapshotIsPrefix(s, v))
    && (v.Renamed? ==> FileAt(s, s.paths[s.gen]) == Some(v.doc) && v.upto == s.saved)
    && (t == SWAPPER ==>
          && (!v.Idle? <==> s.swap.Flushing?)
          && (!v.Idle? ==> v.gen == s.gen)
          && (HoldsDoc(v) ==> v.version == s.engines[s.gen].generation))
  }

  ghost predicate Shaped(s: Sys) {
    && (forall g: nat :: g in s.engines <==> g <= s.gen)
    && (forall g: nat :: g in s.paths <==> g <= s.gen)
    && s.gen in s.engines && s.gen in s.paths
    && ValidConfig(s.engines[s.gen].config) && ValidConfig(s.base.config)
    && Storable(s.engines[s.gen])
    && (!s.swap.NoSwap? ==> s.readers == {})
    && (s.swap.Prepared? ==> PreparedSound(s.swap))
    && (forall p :: p in s.files ==> Bare(s.files[p]))
  }

  predicate PreparedSound(w: Swap)
    requires w.Prepared?
  {
    && ValidConfig(w.loaded.config) && Storable(w.loaded) && w.loaded.dirty == 0
    && |w.pending| <= 1 && (forall i :: 0 <= i < |w.pending| ==> w.pending[i].Roster?)
  }

  /** The files of the active and of a prepared engine. */
  predicate OnDisk(s: Sys)
    requires s.gen in s.engines && s.gen in s.paths
  {
    && Settled(s.engines[s.gen], FileAt(s, s.paths[s.gen]))
    && (Unchanging(s) ==> Stores(FileAt(s, s.paths[s.gen]), s.engines[s.gen].entries))
    && (s.swap.Prepared? ==> Stores(FileAt(s, s.swap.path), s.swap.loaded.entries))
  }

  /** The active file holds the result of the first `saved` mutations, whatever happened since. */
  predicate FileIsPrefix(s: Sys)
    requires s.gen in s.paths
  {
    && ValidConfig(s.base.config)
    && s.saved <= |s.log|
    && Stores(FileAt(s, s.paths[s.gen]), EntriesAfter(s, s.saved))
  }

  /** The active engine is what it was loaded as plus every mutation accepted since, apart from the dirty counter. */
  predicate Replays(s: Sys)
    requires s.gen in s.engines && ValidConfig(s.base.config)
  {
    (forall i :: 0 <= i < |s.log| ==> !s.log[i].Restart?)
    && Storable(s.base)
    && s.engines[s.gen].(dirty := 0) == Run(s.base, s.log).(dirty := 0)
  }

  ghost predicate Inv(s: Sys) {
    && Shaped(s)
    && (forall t {:trigger SaverSound(s, t)} :: SaverSound(s, t))
    && OnDisk(s)
    && FileIsPrefix(s)
    && Replays(s)
  }

  lemma EraseTwice(m: map<Key, Entry>)
    ensures ErasedEntries(ErasedEntries(m)) == ErasedEntries(m)
  {
  }

  // ------------------------------------------------- what the invariant rests on

  lemma MutateKeepsReplay(s: Sys, step: Step)
    requires s.gen in s.engines && ValidConfig(s.base.config) && Replays(s) && !step.Restart?
    requires ValidConfig(s.engines[s.gen].config)
    ensures Replays(s.(engines := s.engines[s.gen := Next(s.engines[s.gen], step)], log := s.log + [step]))
  {
    hide Next, Run, Storable;
    var e, r := s.engines[s.gen], Run(s.base, s.log);
    DirtyIsNotRead(e, 0, step);
    DirtyIsNotRead(r, 0, step);
    RunExtended(s.base, s.log, step);
    assert e.(dirty := 0) == r.(dirty := 0);
  }

  /** A longer log has the same prefixes. */
  lemma PrefixStays(s: Sys, n: Sys, step: Step, i: nat)
    requires ValidConfig(s.base.config) && n.base == s.base && n.log == s.log + [step] && i <= |s.log|
    ensures EntriesAfter(n, i) == EntriesAfter(s, i)
  {
    assert n.log[..i] == s.log[..i];
  }

  lemma WholeLog(s: Sys)
    requires s.gen in s.engines && ValidConfig(s.base.config) && Replays(s)
    ensures EntriesAfter(s, |s.log|) == s.engines[s.gen].entries
  {
    hide Run, Storable;
    assert s.log[..|s.log|] == s.log;
    assert s.engines[s.gen].(dirty := 0).entries == Run(s.base, s.log).(dirty := 0).entries;
  }

  lemma SameReplay(s: Sys, n: Sys)
    requires s.gen in s.engines && ValidConfig(s.base.config) && Replays(s)
    requires n.gen == s.gen && n.base == s.base && n.log == s.log
    requires n.gen in n.engines && n.engines[n.gen].(dirty := 0) == s.engines[s.gen].(dirty := 0)
    ensures Replays(n)
  {
    hide Run, Storable;
  }

  lemma SameDisk(s: Sys, n: Sys)
    requires s.gen in s.engines && s.gen in s.paths && OnDisk(s) && FileIsPrefix(s)
    requires n.gen == s.gen && n.engines == s.engines && n.paths == s.paths && n.files == s.files
    requires n.base == s.base && n.log == s.log && n.saved == s.saved
    requires n.swap == s.swap || n.swap.NoSwap?
    ensures OnDisk(n) && FileIsPrefix(n)
  {
    hide Run, Stores;
  }

  /** Steps that touch no engine, file or log and no saver but t leave the others' promises alone. */
  lemma OtherSaver(s: Sys, n: Sys, t: Thread)
    requires s.gen in s.engines && s.gen in s.paths && SaverSound(s, t)
    requires n.gen == s.gen && n.engines == s.engines && n.paths == s.paths && n.files == s.files
    requires n.base == s.base && n.log == s.log && n.saved == s.saved
    requires SaverOf(n, t) == SaverOf(s, t) && (n.owner == Some(t) <==> s.owner == Some(t))
    requires t == SWAPPER ==> (n.swap.Flushing? <==> s.swap.Flushing?)
    requires Unchanging(n) ==> Unchanging(s) || SaverOf(s, t).Idle? || !InLock(SaverOf(s, t))
    ensures SaverSound(n, t)
  {
    hide Keeps, Bare, EntriesAfter;
    if HoldsDoc(SaverOf(s, t)) && SnapshotIsPrefix(s, SaverOf(s, t)) {
      SamePrefix(s, n, SaverOf(s, t).upto);
    }
  }

  lemma SaversKeep(s: Sys, n: Sys)
    requires s.gen in s.engines && s.gen in s.paths && (forall t {:trigger SaverSound(s, t)} :: SaverSound(s, t))
    requires n.gen == s.gen && n.engines == s.engines && n.paths == s.paths && n.files == s.files
    requires n.base == s.base && n.log == s.log && n.saved == s.saved
    requires n.owner == s.owner && n.savers == s.savers
    requires n.swap.Flushing? <==> s.swap.Flushing?
    requires Unchanging(n) ==> Unchanging(s)
    ensures forall t {:trigger SaverSound(n, t)} :: SaverSound(n, t)
  {
    hide SaverSound;
    forall t ensures SaverSound(n, t) {
      assert SaverSound(s, t);
      OtherSaver(s, n, t);
    }
  }

  // ------------------------------------------------------ each action keeps it

  lemma MutateSaver(s: Sys, t: Thread, step: Step, x: Thread)
    requires s.gen in s.engines && s.gen in s.paths && SaverSound(s, x) && s.swap.NoSwap?
    requires Enabled(s, Mutate(t, step), true)
    ensures var n := Do(s, Mutate(t, step), true);
            n.gen in n.engines && n.gen in n.paths && SaverSound(n, x)
  {
    hide Next, Keeps, Bare, EntriesAfter;
    var n := Do(s, Mutate(t, step), true);
    ChangesAreDirty(s.engines[s.gen], step);
    if HoldsDoc(SaverOf(s, x)) {
      PrefixStays(s, n, step, SaverOf(s, x).upto);
    }
  }

  lemma MutateOnDisk(s: Sys, t: Thread, step: Step)
    requires s.gen in s.engines && s.gen in s.paths && OnDisk(s) && FileIsPrefix(s) && s.swap.NoSwap?
    requires Enabled(s, Mutate(t, step), true)
    ensures var n := Do(s, Mutate(t, step), true);
            n.gen in n.engines && n.gen in n.paths && OnDisk(n) && FileIsPrefix(n)
  {
    hide Next, Stores, EntriesAfter;
    ChangesAreDirty(s.engines[s.gen], step);
    PrefixStays(s, Do(s, Mutate(t, step), true), step, s.saved);
  }

  lemma MutateKeepsInv(s: Sys, t: Thread, step: Step)
    requires Inv(s) && Enabled(s, Mutate(t, step), true)
    ensures Inv(Do(s, Mutate(t, step), true))
  {
    hide Next, Storable, Replays, OnDisk, FileIsPrefix, SaverSound, Bare;
    var n := Do(s, Mutate(t, step), true);
    MutateKeepsReplay(s, step);
    StepKeepsStorable(s.engines[s.gen], step);
    MutateOnDisk(s, t, step);
    forall x ensures SaverSound(n, x) {
      assert SaverSound(s, x);
      MutateSaver(s, t, step, x);
    }
  }

  lemma CheckKeepsInv(s: Sys, t: Thread, gen: nat)
    requires Inv(s) && Enabled(s, SaveCheck(t, gen), true)
    ensures Inv(Do(s, SaveCheck(t, gen), true))
  {
    var n := Do(s, SaveCheck(t, gen), true);
    SameShape(s, n);
    hide Shaped, Replays, OnDisk, FileIsPrefix, SnapshotSound, SnapshotIsPrefix;
    SameReplay(s, n);
    SameDisk(s, n);
    assert SaverSound(s, t);
    forall x ensures SaverSound(n, x) {
      assert SaverSound(s, x);
      if x != t {
        OtherSaver(s, n, x);
      }
    }
  }

  lemma LockKeepsInv(s: Sys, t: Thread)
    requires Inv(s) && Enabled(s, SaveLock(t), true)
    ensures Inv(Do(s, SaveLock(t), true))
  {
    var n := Do(s, SaveLock(t), true);
    SameShape(s, n);
    hide Shaped, Replays, OnDisk, FileIsPrefix, SnapshotSound, SnapshotIsPrefix;
    SameReplay(s, n);
    SameDisk(s, n);
    assert SaverSound(s, t);
    forall x ensures SaverSound(n, x) {
      assert SaverSound(s, x);
      if x != t {
        OtherSaver(s, n, x);
      }
    }
  }

  lemma BeginSaver(s: Sys, t: Thread, d: Document)
    requires Inv(s) && Enabled(s, SaveBegin(t, d), true) && SaverOf(s, t).gen == s.gen
    ensures SaverSound(Do(s, SaveBegin(t, d), true), t)
  {
    assert SaverSound(s, t);
    ListingKeeps(s.engines[s.gen], d);
    WholeLog(s);
    hide Run, Storable, Keeps, Bare, Listing, Replays, EntriesAfter, Stores;
  }

  lemma SameShape(s: Sys, n: Sys)
    requires Shaped(s)
    requires n.gen == s.gen && n.engines == s.engines && n.paths == s.paths && n.files == s.files && n.base == s.base
    requires n.swap == s.swap || n.swap.NoSwap? || (!s.swap.NoSwap? && !n.swap.Prepared?)
    requires n.readers == s.readers
    ensures Shaped(n)
  {
    hide Storable, Bare;
  }

  lemma BeginOther(s: Sys, t: Thread, d: Document, x: Thread)
    requires s.gen in s.engines && s.gen in s.paths && SaverSound(s, t) && SaverSound(s, x) && x != t
    requires Enabled(s, SaveBegin(t, d), true)
    ensures SaverSound(Do(s, SaveBegin(t, d), true), x)
  {
    hide SnapshotSound, SnapshotIsPrefix, Listing;
    OtherSaver(s, Do(s, SaveBegin(t, d), true), x);
  }

  lemma BeginReleases(s: Sys, t: Thread, d: Document)
    requires s.gen in s.engines && s.gen in s.paths && SaverSound(s, t)
    requires Enabled(s, SaveBegin(t, d), true) && SaverOf(s, t).gen != s.gen
    ensures SaverSound(Do(s, SaveBegin(t, d), true), t)
  {
    hide SnapshotSound, SnapshotIsPrefix, Listing;
  }

  lemma BeginKeepsInv(s: Sys, t: Thread, d: Document)
    requires Inv(s) && Enabled(s, SaveBegin(t, d), true)
    ensures Inv(Do(s, SaveBegin(t, d), true))
  {
    assert SaverSound(s, t);
    var n := Do(s, SaveBegin(t, d), true);
    assert SaverSound(n, t) by {
      if SaverOf(s, t).gen == s.gen {
        BeginSaver(s, t, d);
      } else {
        BeginReleases(s, t, d);
      }
    }
    BeginKeepsRest(s, t, d);
    hide Run, Storable, Replays, OnDisk, FileIsPrefix, SaverSound, Bare, Listing, Do, Enabled;
    forall x ensures SaverSound(n, x) {
      assert SaverSound(s, x);
      if x != t {
        BeginOther(s, t, d, x);
      }
    }
  }

  lemma BeginKeepsRest(s: Sys, t: Thread, d: Document)
    requires Shaped(s) && OnDisk(s) && FileIsPrefix(s) && Replays(s) && SaverSound(s, t) && Enabled(s, SaveBegin(t, d), true)
    ensures var n := Do(s, SaveBegin(t, d), true); Shaped(n) && OnDisk(n) && FileIsPrefix(n) && Replays(n)
  {
    hide Run, Storable, Replays, OnDisk, FileIsPrefix, SnapshotSound, SnapshotIsPrefix, Bare, Listing;
    var n := Do(s, SaveBegin(t, d), true);
    SameShape(s, n);
    SameReplay(s, n);
    SameDisk(s, n);
  }

  lemma FailSaver(s: Sys, t: Thread, x: Thread)
    requires s.gen in s.engines && s.gen in s.paths && SaverSound(s, t) && SaverSound(s, x)
    requires Enabled(s, SaveFail(t), true)
    ensures SaverSound(Do(s, SaveFail(t), true), x)
  {
    hide SnapshotSound, SnapshotIsPrefix;
    if x != t {
      OtherSaver(s, Do(s, SaveFail(t), true), x);
    }
  }

  lemma FailKeepsInv(s: Sys, t: Thread)
    requires Inv(s) && Enabled(s, SaveFail(t), true)
    ensures Inv(Do(s, SaveFail(t), true))
  {
    assert SaverSound(s, t);
    var n := Do(s, SaveFail(t), true);
    assert n.swap == s.swap || n.swap.NoSwap?;
    SameShape(s, n);
    SameReplay(s, n);
    SameDisk(s, n);
    hide Shaped, Replays, OnDisk, FileIsPrefix, SaverSound, Do, Enabled;
    forall x ensures SaverSound(n, x) {
      assert SaverSound(s, x);
      FailSaver(s, t, x);
    }
  }

  /** Documents of the same entries serve the same engines. */
  lemma Interchangeable(file: Option<Document>, d: Document, a: map<Key, Entry>, b: map<Key, Entry>)
    requires Stores(file, a) && Stores(file, b) && Keeps(d, a)
    ensures Keeps(d, b)
  {
  }

  lemma RenameOnDisk(s: Sys, t: Thread)
    requires s.gen in s.engines && s.gen in s.paths && SaverSound(s, t) && OnDisk(s)
    requires Enabled(s, SaveRename(t), true)
    ensures var n := Do(s, SaveRename(t), true);
            n.gen in n.engines && n.gen in n.paths && OnDisk(n) && FileIsPrefix(n)
  {
    hide Keeps, Bare, EntriesAfter;
    var d := SaverOf(s, t).doc;
    assert EntriesAfter(Do(s, SaveRename(t), true), SaverOf(s, t).upto) == EntriesAfter(s, SaverOf(s, t).upto) by {
      SamePrefix(s, Do(s, SaveRename(t), true), SaverOf(s, t).upto);
    }
    if s.swap.Prepared? && s.swap.path == s.paths[s.gen] {
      Interchangeable(FileAt(s, s.swap.path), d, s.engines[s.gen].entries, s.swap.loaded.entries);
    }
  }

  lemma SamePrefix(s: Sys, n: Sys, i: nat)
    requires ValidConfig(s.base.config) && n.base == s.base && n.log == s.log && i <= |s.log|
    ensures EntriesAfter(n, i) == EntriesAfter(s, i)
  {
  }

  lemma RenameSaver(s: Sys, t: Thread, x: Thread)
    requires s.gen in s.engines && s.gen in s.paths && SaverSound(s, t) && SaverSound(s, x)
    requires Enabled(s, SaveRename(t), true)
    ensures var n := Do(s, SaveRename(t), true);
            n.gen in n.engines && n.gen in n.paths && SaverSound(n, x)
  {
    hide Keeps, Bare, EntriesAfter;
    if HoldsDoc(SaverOf(s, x)) {
      SamePrefix(s, Do(s, SaveRename(t), true), SaverOf(s, x).upto);
    }
  }

  lemma RenameShaped(s: Sys, t: Thread)
    requires Shaped(s) && SaverSound(s, t) && Replays(s) && Enabled(s, SaveRename(t), true)
    ensures Shaped(Do(s, SaveRename(t), true)) && Replays(Do(s, SaveRename(t), true))
  {
    hide Run, Storable, Bare, Replays, SnapshotIsPrefix;
    SameReplay(s, Do(s, SaveRename(t), true));
  }

  lemma RenameKeepsInv(s: Sys, t: Thread)
    requires Inv(s) && Enabled(s, SaveRename(t), true)
    ensures Inv(Do(s, SaveRename(t), true))
  {
    assert SaverSound(s, t);
    hide SaverSound, OnDisk, FileIsPrefix, Replays, Do, Enabled;
    RenameOnDisk(s, t);
    RenameShaped(s, t);
    var n := Do(s, SaveRename(t), true);
    forall x ensures SaverSound(n, x) {
      assert SaverSound(s, x);
      RenameSaver(s, t, x);
    }
  }

  lemma ClearOnDisk(s: Sys, t: Thread)
    requires s.gen in s.engines && s.gen in s.paths && SaverSound(s, t) && OnDisk(s) && FileIsPrefix(s)
    requires Enabled(s, SaveClear(t), true)
    ensures var n := Do(s, SaveClear(t), true);
            n.gen in n.engines && n.gen in n.paths && OnDisk(n) && FileIsPrefix(n)
  {
    hide Keeps, Bare, EntriesAfter;
    SamePrefix(s, Do(s, SaveClear(t), true), s.saved);
  }

  lemma ClearSaver(s: Sys, t: Thread, x: Thread)
    requires s.gen in s.engines && s.gen in s.paths && SaverSound(s, t) && SaverSound(s, x)
    requires Enabled(s, SaveClear(t), true)
    ensures var n := Do(s, SaveClear(t), true);
            n.gen in n.engines && n.gen in n.paths && SaverSound(n, x)
  {
    hide Keeps, Bare, EntriesAfter;
    if HoldsDoc(SaverOf(s, x)) {
      SamePrefix(s, Do(s, SaveClear(t), true), SaverOf(s, x).upto);
    }
  }

  lemma ClearShaped(s: Sys, t: Thread)
    requires Shaped(s) && SaverSound(s, t) && Replays(s) && Enabled(s, SaveClear(t), true)
    ensures Shaped(Do(s, SaveClear(t), true)) && Replays(Do(s, SaveClear(t), true))
  {
    hide Run, Bare, Replays, SnapshotIsPrefix, Storable;
    SameReplay(s, Do(s, SaveClear(t), true));
    StorableClean(s.engines[s.gen]);
  }

  lemma StorableClean(e: EngineState)
    requires Storable(e)
    ensures Storable(e.(dirty := 0))
  {
    SameTablesStorable(e, e.(dirty := 0));
  }

  lemma ClearKeepsInv(s: Sys, t: Thread)
    requires Inv(s) && Enabled(s, SaveClear(t), true)
    ensures Inv(Do(s, SaveClear(t), true))
  {
    assert SaverSound(s, t);
    hide SaverSound, OnDisk, FileIsPrefix, Replays, Do, Enabled;
    ClearOnDisk(s, t);
    ClearShaped(s, t);
    var n := Do(s, SaveClear(t), true);
    forall x ensures SaverSound(n, x) {
      assert SaverSound(s, x);
      ClearSaver(s, t, x);
    }
  }

  /** What a load leaves: an engine that can be stored, holding the entries of the file. */
  lemma LoadedSound(file: Option<Document>, c: Settings)
    requires Loadable(file) && (file.Some? ==> Bare(file.value))
    ensures var e := LoadFrom(c, file);
            && e.config == c && e.dirty == 0 && Storable(e) && Stores(file, e.entries)
  {
    if file.Some? {
      LoadedIsStorable(c, file.value);
    }
  }

  /** Roster reconciliation either changes nothing or leaves the engine dirty. */
  lemma ReconciledSettles(w: Swap, file: Option<Document>)
    requires w.Prepared? && PreparedSound(w) && Stores(file, w.loaded.entries)
    ensures var e := Run(w.loaded, w.pending);
            ValidConfig(e.config) && Storable(e) && Settled(e, file)
  {
    RunKeepsStorable(w.loaded, w.pending);
    hide Storable, Stores, Next;
    if w.pending != [] {
      assert w.pending[..0] == [];
      ChangesAreDirty(w.loaded, w.pending[0]);
    }
  }

  lemma LoadKeepsInv(s: Sys, a: Action)
    requires Inv(s) && a.SwapLoad? && Enabled(s, a, true)
    ensures Inv(Do(s, a, true))
  {
    LoadedSound(FileAt(s, a.path), a.config);
    LoadOnDisk(s, a);
    LoadShaped(s, a);
    hide Replays, SaverSound, Shaped, OnDisk, FileIsPrefix, LoadFrom;
    var n := Do(s, a, true);
    SameReplay(s, n);
    SaversKeep(s, n);
  }

  lemma LoadShaped(s: Sys, a: Action)
    requires Shaped(s) && a.SwapLoad? && Enabled(s, a, true)
    requires var e := LoadFrom(a.config, FileAt(s, a.path)); e.config == a.config && e.dirty == 0 && Storable(e)
    ensures Shaped(Do(s, a, true))
  {
    hide LoadFrom, Storable, Bare;
  }

  lemma LoadOnDisk(s: Sys, a: Action)
    requires s.gen in s.engines && s.gen in s.paths && OnDisk(s) && FileIsPrefix(s) && a.SwapLoad? && Enabled(s, a, true)
    requires Stores(FileAt(s, a.path), LoadFrom(a.config, FileAt(s, a.path)).entries)
    ensures var n := Do(s, a, true);
            n.gen in n.engines && n.gen in n.paths && OnDisk(n) && FileIsPrefix(n)
  {
    hide LoadFrom, Stores, EntriesAfter;
    SamePrefix(s, Do(s, a, true), s.saved);
  }

  lemma EnterKeepsInv(s: Sys)
    requires Inv(s) && Enabled(s, SwapEnter, true)
    ensures Inv(Do(s, SwapEnter, true))
  {
    hide Run, Storable, Bare, Replays, SaverSound, Stores, EntriesAfter;
    var n := Do(s, SwapEnter, true);
    SameReplay(s, n);
    SamePrefix(s, n, s.saved);
    SaversKeep(s, n);
  }

  lemma AbortKeepsInv(s: Sys)
    requires Inv(s) && Enabled(s, SwapAbort, true)
    ensures Inv(Do(s, SwapAbort, true))
  {
    hide Run, Storable, Bare, Replays, SaverSound, OnDisk, FileIsPrefix;
    var n := Do(s, SwapAbort, true);
    SameReplay(s, n);
    SameDisk(s, n);
    SaversKeep(s, n);
  }

  /** What is on disk, and what a saver is about to put there, is what the active engine holds. */
  ghost predicate FileIsCurrent(s: Sys)
    requires s.gen in s.engines && s.gen in s.paths
  {
    && Stores(FileAt(s, s.paths[s.gen]), s.engines[s.gen].entries)
    && forall t {:trigger SaverOf(s, t)} :: HoldsDoc(SaverOf(s, t)) ==> Keeps(SaverOf(s, t).doc, s.engines[s.gen].entries)
  }

  lemma CleanIsCurrent(s: Sys)
    requires Inv(s) && s.engines[s.gen].dirty == 0
    ensures FileIsCurrent(s)
  {
    hide Run, Keeps, Bare, Replays, Stores, Storable, FileIsPrefix, SnapshotIsPrefix;
    forall t | HoldsDoc(SaverOf(s, t)) ensures Keeps(SaverOf(s, t).doc, s.engines[s.gen].entries) {
      assert SaverSound(s, t);
    }
  }

  lemma SkipSaver(s: Sys, x: Thread)
    requires s.gen in s.engines && s.gen in s.paths && SaverSound(s, x) && FileIsCurrent(s) && s.swap.Entered?
    ensures SaverSound(s.(swap := Flushed), x)
  {
    hide Keeps, Bare, EntriesAfter, Stores;
    var n := s.(swap := Flushed);
    if HoldsDoc(SaverOf(s, x)) {
      SamePrefix(s, n, SaverOf(s, x).upto);
    }
  }

  lemma SkipKeepsInv(s: Sys)
    requires Inv(s) && s.swap.Entered? && FileIsCurrent(s)
    ensures Inv(s.(swap := Flushed))
  {
    hide Run, Bare, Replays, Storable, SaverSound, Stores, Keeps, EntriesAfter;
    var n := s.(swap := Flushed);
    SameReplay(s, n);
    SamePrefix(s, n, s.saved);
    forall x ensures SaverSound(n, x) {
      assert SaverSound(s, x);
      SkipSaver(s, x);
    }
  }

  lemma FlushSaver(s: Sys, x: Thread)
    requires Inv(s) && Enabled(s, SwapFlush, true) && s.engines[s.gen].dirty > 0
    ensures SaverSound(Do(s, SwapFlush, true), x)
  {
    assert SaverSound(s, SWAPPER) && SaverSound(s, x);
    var n := Do(s, SwapFlush, true);
    hide Run, Storable, Replays, OnDisk, FileIsPrefix, SnapshotSound, SnapshotIsPrefix, Bare;
    if x != SWAPPER {
      OtherSaver(s, n, x);
    }
  }

  lemma FlushKeepsInv(s: Sys)
    requires Inv(s) && Enabled(s, SwapFlush, true)
    ensures Inv(Do(s, SwapFlush, true))
  {
    hide Run, Storable, Replays, Stores, SaverSound, EntriesAfter, Bare, FileIsCurrent;
    var n := Do(s, SwapFlush, true);
    if s.engines[s.gen].dirty == 0 {
      CleanIsCurrent(s);
      SkipKeepsInv(s);
    } else {
      SameReplay(s, n);
      SamePrefix(s, n, s.saved);
      forall x ensures SaverSound(n, x) {
        FlushSaver(s, x);
      }
    }
  }

  /** A new generation, from an engine whose file stores what it was loaded as, starts sound if no saver is inside. */
  lemma ActiveIsInv(s: Sys, w: Swap, n: Sys)
    requires Shaped(s) && w.Prepared? && PreparedSound(w) && Stores(FileAt(s, w.path), w.loaded.entries)
    requires n == Active(s, w.loaded, w.pending, w.path)
                  .(swap := NoSwap, readers := n.readers, owner := None, savers := n.savers)
    requires forall t :: !InLock(SaverOf(n, t)) && (SaverOf(n, t).Idle? || (t != SWAPPER && SaverOf(n, t).gen <= s.gen))
    ensures Inv(n)
  {
    hide Storable, Stores, Bare, Next, Run, Replays, Settled, EntriesAfter, SaverSound;
    ReconciledSettles(w, FileAt(s, w.path));
    FreshReplay(n, w.loaded, w.pending);
    ActiveOnDisk(s, w, n);
    forall t ensures SaverSound(n, t) {
      assert !InLock(SaverOf(n, t));
      FreshSaver(n, t, s.gen);
    }
  }

  lemma ActiveOnDisk(s: Sys, w: Swap, n: Sys)
    requires w.Prepared? && ValidConfig(w.loaded.config) && Stores(FileAt(s, w.path), w.loaded.entries)
    requires Settled(Run(w.loaded, w.pending), FileAt(s, w.path))
    requires n == Active(s, w.loaded, w.pending, w.path)
                  .(swap := NoSwap, readers := n.readers, owner := None, savers := n.savers)
    ensures OnDisk(n) && FileIsPrefix(n)
  {
    assert n.log[..0] == [];
    hide Settled, Stores, Next;
  }

  lemma FreshSaver(n: Sys, t: Thread, gen: nat)
    requires n.gen in n.engines && n.gen in n.paths && n.owner.None? && n.swap.NoSwap? && n.gen == gen + 1
    requires !InLock(SaverOf(n, t)) && (SaverOf(n, t).Idle? || (t != SWAPPER && SaverOf(n, t).gen <= gen))
    ensures SaverSound(n, t)
  {
  }

  lemma FreshReplay(n: Sys, loaded: EngineState, pending: seq<Step>)
    requires ValidConfig(loaded.config) && Storable(loaded) && n.base == loaded && n.log == pending
    requires n.gen in n.engines && n.engines[n.gen] == Run(loaded, pending)
    requires forall i :: 0 <= i < |pending| ==> pending[i].Roster?
    ensures Replays(n)
  {
    hide Run, Storable;
  }

  lemma InstallKeepsInv(s: Sys)
    requires Inv(s) && Enabled(s, SwapInstall, true)
    ensures Inv(Do(s, SwapInstall, true))
  {
    var n := Do(s, SwapInstall, true);
    assert SaverSound(s, SWAPPER);
    hide Run, Storable, Stores, Bare, Replays, FileIsPrefix, SnapshotSound, SnapshotIsPrefix, PreparedSound;
    forall t ensures !InLock(SaverOf(n, t)) && (SaverOf(n, t).Idle? || (t != SWAPPER && SaverOf(n, t).gen <= s.gen)) {
      assert SaverSound(s, t);
    }
    ActiveIsInv(s, s.swap, n);
  }

  lemma CrashKeepsInv(s: Sys, path: Path, c: Settings)
    requires Inv(s) && Enabled(s, Crash(path, c), true)
    ensures Inv(Do(s, Crash(path, c), true))
  {
    var n := Do(s, Crash(path, c), true);
    LoadedSound(FileAt(s, path), c);
    hide Run, Storable, Stores, Bare, Replays, FileIsPrefix, SaverSound, OnDisk, LoadFrom;
    ActiveIsInv(s, Prepared(LoadFrom(c, FileAt(s, path)), [], path), n);
  }

  lemma ReadersKeepInv(s: Sys, a: Action)
    requires Inv(s) && (a.ReadLock? || a.ReadUnlock?) && Enabled(s, a, true)
    ensures Inv(Do(s, a, true))
  {
    hide Run, Storable, Bare, Replays, SaverSound, OnDisk, FileIsPrefix;
    var n := Do(s, a, true);
    SameReplay(s, n);
    SameDisk(s, n);
    SaversKeep(s, n);
  }

  lemma ActionKeepsInv(s: Sys, a: Action)
    requires Inv(s) && Enabled(s, a, true) && (a.SwapSkip? ==> FileIsCurrent(s))
    ensures Inv(Do(s, a, true))
  {
    if a.SwapSkip? {
      SkipKeepsInv(s);
    } else {
      hide Inv, Do, FileIsCurrent;
      match a
      case ReadLock(_) => ReadersKeepInv(s, a);
      case Mutate(t, step) => MutateKeepsInv(s, t, step);
      case ReadUnlock(_) => ReadersKeepInv(s, a);
      case SaveCheck(t, gen) => CheckKeepsInv(s, t, gen);
      case SaveLock(t) => LockKeepsInv(s, t);
      case SaveBegin(t, d) => BeginKeepsInv(s, t, d);
      case SaveRename(t) => RenameKeepsInv(s, t);
      case SaveClear(t) => ClearKeepsInv(s, t);
      case SaveFail(t) => FailKeepsInv(s, t);
      case SwapEnter => EnterKeepsInv(s);
      case SwapFlush => FlushKeepsInv(s);
      case SwapLoad(_, _, _, _) => LoadKeepsInv(s, a);
      case SwapInstall => InstallKeepsInv(s);
      case SwapAbort => AbortKeepsInv(s);
      case Crash(path, c) => CrashKeepsInv(s, path, c);
    }
  }
}
