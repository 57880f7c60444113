/** Why saves need a mutex of their own: without it two of them can leave a stale file behind a clean engine. */
module MutexNeeded {
  import opened GuardTypes
  import opened EngineSpec
  import opened EngineRuns
  import opened StateFile
  import opened Storage
  import opened Persistence
  import opened Durability

  function SnapshotSteps(gen: nat, t: Thread, d: Document): seq<Action> {
    [SaveCheck(t, gen), SaveLock(t), SaveBegin(t, d)]
  }

  function Interruption(step: Step): seq<Action> {
    [ReadLock(9), Mutate(9, step)]
  }

  const ENDINGS := [SaveRename(2), SaveClear(2), SaveRename(1)]

  /** Two overlapping saves: the later snapshot is renamed first, the earlier one last. */
  function OverlappingSaves(gen: nat, step: Step, early: Document, late: Document): seq<Action> {
    (SnapshotSteps(gen, 1, early) + Interruption(step)) + (SnapshotSteps(gen, 2, late) + ENDINGS)
  }

  /** A save up to its snapshot, in a system that does not look at the mutex. */
  lemma SnapshotTaken(s: Sys, t: Thread, d: Document) returns (trace: seq<Sys>)
    requires s.gen in s.engines && t != SWAPPER && SaverOf(s, t).Idle? && s.engines[s.gen].dirty > 0
    requires Listing(d, s.engines[s.gen].entries)
    ensures IsRun(trace, SnapshotSteps(s.gen, t, d), false) && |trace| == 4 && trace[0] == s
    ensures trace[3] == s.(owner := Some(t),
                           savers := s.savers[t := Snapped(s.gen, d, s.engines[s.gen].generation, |s.log|)])
  {
    hide Listing;
    var s1 := Do(s, SaveCheck(t, s.gen), false);
    var s2 := Do(s1, SaveLock(t), false);
    trace := [s, s1, s2, Do(s2, SaveBegin(t, d), false)];
  }

  lemma MutatedMeanwhile(s: Sys, step: Step) returns (trace: seq<Sys>)
    requires s.gen in s.engines && ValidConfig(s.engines[s.gen].config) && !step.Restart?
    requires s.readers == {} && s.swap.NoSwap?
    ensures IsRun(trace, Interruption(step), false) && |trace| == 3 && trace[0] == s
    ensures trace[2] == s.(readers := {9}, engines := s.engines[s.gen := Next(s.engines[s.gen], step)], log := s.log + [step])
  {
    hide Next;
    var s1 := Do(s, ReadLock(9), false);
    trace := [s, s1, Do(s1, Mutate(9, step), false)];
  }

  lemma OverlapEnds(s: Sys) returns (trace: seq<Sys>)
    requires s.gen in s.engines && s.gen in s.paths
    requires SaverOf(s, 1).Snapped? && SaverOf(s, 2).Snapped? && SaverOf(s, 1).gen == SaverOf(s, 2).gen == s.gen
    requires SaverOf(s, 2).version == s.engines[s.gen].generation && ValidDocument(SaverOf(s, 2).doc)
    ensures IsRun(trace, ENDINGS, false) && |trace| == 4 && trace[0] == s
    ensures trace[3].engines == s.engines[s.gen := s.engines[s.gen].(dirty := 0)]
    ensures trace[3].gen == s.gen && trace[3].paths == s.paths && FileAt(trace[3], s.paths[s.gen]) == Some(SaverOf(s, 1).doc)
  {
    hide ValidDocument;
    var s1 := Do(s, SaveRename(2), false);
    var s2 := Do(s1, SaveClear(2), false);
    trace := [s, s1, s2, Do(s2, SaveRename(1), false)];
  }

  lemma FirstHalf(s: Sys, step: Step, early: Document) returns (trace: seq<Sys>)
    requires s.gen in s.engines && ValidConfig(s.engines[s.gen].config) && !step.Restart?
    requires s.readers == {} && s.swap.NoSwap? && SaverOf(s, 1).Idle? && SaverOf(s, 2).Idle? && s.engines[s.gen].dirty > 0
    requires Listing(early, s.engines[s.gen].entries)
    ensures IsRun(trace, SnapshotSteps(s.gen, 1, early) + Interruption(step), false) && |trace| == 6 && trace[0] == s
    ensures var n := trace[5];
            && n.gen == s.gen && n.paths == s.paths && n.engines == s.engines[s.gen := Next(s.engines[s.gen], step)]
            && SaverOf(n, 1).Snapped? && SaverOf(n, 1).gen == s.gen && SaverOf(n, 1).doc == early && SaverOf(n, 2).Idle?
  {
    hide Next, Listing, Do, Enabled;
    var one := SnapshotTaken(s, 1, early);
    var change := MutatedMeanwhile(one[3], step);
    JoinRuns(one, SnapshotSteps(s.gen, 1, early), change, Interruption(step), false);
    trace := one + change[1..];
  }

  lemma SecondHalf(s: Sys, late: Document) returns (trace: seq<Sys>)
    requires s.gen in s.engines && s.gen in s.paths && SaverOf(s, 2).Idle? && s.engines[s.gen].dirty > 0
    requires SaverOf(s, 1).Snapped? && SaverOf(s, 1).gen == s.gen
    requires Listing(late, s.engines[s.gen].entries) && ValidDocument(late)
    ensures IsRun(trace, SnapshotSteps(s.gen, 2, late) + ENDINGS, false) && |trace| == 7 && trace[0] == s
    ensures var n := trace[6];
            && n.gen == s.gen && n.paths == s.paths && n.engines == s.engines[s.gen := s.engines[s.gen].(dirty := 0)]
            && FileAt(n, s.paths[s.gen]) == Some(SaverOf(s, 1).doc)
  {
    hide Listing, ValidDocument, Do, Enabled;
    var two := SnapshotTaken(s, 2, late);
    var ends := OverlapEnds(two[3]);
    JoinRuns(two, SnapshotSteps(s.gen, 2, late), ends, ENDINGS, false);
    trace := two + ends[1..];
  }

  lemma KeepsDiffer(d: Document, a: map<Key, Entry>, b: map<Key, Entry>)
    requires Keeps(d, a) && ErasedEntries(a) != ErasedEntries(b)
    ensures !Stores(Some(d), b)
  {
  }

  /** The two documents are what saves would write, before and after the mutation. */
  lemma DocumentsDiffer(e: EngineState, step: Step, early: Document, late: Document)
    requires Storable(e) && ValidConfig(e.config) && !step.Restart?
    requires Listing(early, e.entries) && Listing(late, Next(e, step).entries)
    requires ErasedEntries(Next(e, step).entries) != ErasedEntries(e.entries)
    ensures ValidDocument(late) && !Stores(Some(early), Next(e, step).entries)
    ensures e.dirty > 0 ==> Next(e, step).dirty > 0
  {
    ListingKeeps(e, early);
    StepKeepsStorable(e, step);
    ListingKeeps(Next(e, step), late);
    hide Next, ErasedEntries, Listing, Storable, Bare;
    KeepsDiffer(early, e.entries, Next(e, step).entries);
    ChangesAreDirty(e, step);
  }

  /**
    Without `persistMu`, from any dirty engine that nobody is saving and for
    any mutation that changes what would be stored, two overlapping saves can
    leave a stale file behind an engine that is no longer dirty.
   */
  lemma WithoutTheMutexSavesGoStale(s: Sys, step: Step, early: Document, late: Document) returns (trace: seq<Sys>)
    requires Inv(s) && s.readers == {} && s.swap.NoSwap? && SaverOf(s, 1).Idle? && SaverOf(s, 2).Idle?
    requires s.engines[s.gen].dirty > 0 && !step.Restart?
    requires Listing(early, s.engines[s.gen].entries) && Listing(late, Next(s.engines[s.gen], step).entries)
    requires ErasedEntries(Next(s.engines[s.gen], step).entries) != ErasedEntries(s.engines[s.gen].entries)
    ensures IsRun(trace, OverlappingSaves(s.gen, step, early, late), false) && |trace| == 12 && trace[0] == s
    ensures trace[11].gen == s.gen && s.gen in trace[11].engines && s.gen in trace[11].paths && !CleanIsStored(trace[11])
  {
    hide Next, ErasedEntries, Do, Enabled, Stores, IsRun, Listing, Storable, SaverSound, OnDisk, FileIsPrefix, Replays;
    DocumentsDiffer(s.engines[s.gen], step, early, late);
    var first := FirstHalf(s, step, early);
    var second := SecondHalf(first[5], late);
    hide Inv;
    JoinRuns(first, SnapshotSteps(s.gen, 1, early) + Interruption(step),
             second, SnapshotSteps(s.gen, 2, late) + ENDINGS, false);
    trace := first + second[1..];
  }
}
