/**
  What each generation starts from and what becomes of it: a configuration
  change or a restart installs exactly what it read, and from then on the
  active engine is what the accepted mutations make of it.
 */
module Generations {
  import opened GuardTypes
  import opened EngineSpec
  import opened EngineRuns
  import opened StateFile
  import opened Storage
  import opened DirtyCounter
  import opened Persistence
  import opened Durability
  import opened RosterFence

  // ------------------------------------------------------------ what gets installed

  /** The entries of a state file; none if there is no file. */
  function EntriesIn(file: Option<Document>): map<Key, Entry> {
    match file
    case None => map[]
    case Some(d) => Table(d.entries)
  }

  /** Step m installs what step n prepared: no other preparation, install, retreat or crash lies between. */
  predicate InstallsPreparedAt(actions: seq<Action>, n: nat, m: nat) {
    && n < m < |actions| && actions[n].SwapLoad? && actions[m].SwapInstall?
    && forall x :: n < x < m ==>
         !actions[x].SwapLoad? && !actions[x].SwapInstall? && !actions[x].SwapAbort? && !actions[x].Crash?
  }

  lemma SwapStays(s: Sys, a: Action)
    requires s.gen in s.engines && s.gen in s.paths && SaverSound(s, SWAPPER) && Enabled(s, a, true) && s.swap.Prepared?
    requires !a.SwapLoad? && !a.SwapInstall? && !a.SwapAbort? && !a.Crash?
    ensures Do(s, a, true).swap == s.swap
  {
    hide Next, SnapshotSound, SnapshotIsPrefix, Listing;
  }

  lemma {:induction false} PreparedStays(trace: seq<Sys>, actions: seq<Action>, n: nat, m: nat, x: nat)
    requires IsGuarded(trace, actions) && InstallsPreparedAt(actions, n, m) && n < x <= m
    ensures var a := actions[n];
            trace[x].swap == Prepared(LoadFrom(a.config, FileAt(trace[n], a.path)), Reconciliation(a.roster, a.at), a.path)
  {
    hide Do, Enabled, Inv, Started, Careful, LoadFrom, Reconciliation;
    if x == n + 1 {
      LoadStep(trace[n], actions[n]);
    } else {
      PreparedStays(trace, actions, n, m, x - 1);
      RunKeepsInv(trace, actions, x - 1);
      SwapperIsSound(trace[x - 1]);
      SwapStays(trace[x - 1], actions[x - 1]);
    }
  }

  lemma SwapperIsSound(s: Sys)
    requires Inv(s)
    ensures s.gen in s.engines && s.gen in s.paths && SaverSound(s, SWAPPER)
  {
    hide SaverSound, OnDisk, FileIsPrefix, Replays;
  }

  /** What the active engine of a new generation holds, given the entries it was loaded with. */
  ghost predicate Starts(s: Sys, path: Path, config: Settings, held: map<Key, Entry>, roster: Option<seq<Identity>>) {
    && s.gen in s.engines && s.gen in s.paths && s.paths[s.gen] == path && s.engines[s.gen].config == config
    && s.base.entries == held
    && match roster
       case None => s.engines[s.gen].entries == held
       case Some(ids) => Clean(ids) && IsTableOf(s.engines[s.gen].entries, held, ids)
  }

  lemma StorableKeys(e: EngineState)
    requires Storable(e)
    ensures AtOwnKeys(e.entries)
  {
    forall k | k in e.entries ensures e.entries[k].authIndex == k.authIndex && e.entries[k].group == k.group {
      assert EntryFiled(e.entries, e.authByID, k);
    }
  }

  lemma ReconciledTable(e: EngineState, roster: Option<seq<Identity>>, at: Instant)
    requires ValidConfig(e.config) && Storable(e) && (roster.Some? ==> NormalizeRoster(roster.value).Some?)
    ensures var n := Run(e, Reconciliation(roster, at));
            && n.config == e.config
            && match roster
               case None => n.entries == e.entries
               case Some(ids) => Clean(ids) && IsTableOf(n.entries, e.entries, ids)
  {
    hide NormalizeRoster, RosterEntries, RosterIDs, IsTableOf, Storable, Clean;
    if roster.Some? {
      var steps := Reconciliation(roster, at);
      assert steps[..0] == [];
      AcceptedRosters(roster.value);
      StorableKeys(e);
      RosterTable(e.entries, roster.value);
    }
  }

  lemma InstallStep(s: Sys)
    requires Enabled(s, SwapInstall, true)
    ensures var n := Do(s, SwapInstall, true);
            && n.gen == s.gen + 1 && n.gen in n.engines && n.gen in n.paths && n.paths[n.gen] == s.swap.path
            && n.engines[n.gen] == Run(s.swap.loaded, s.swap.pending) && n.swap.NoSwap? && n.base == s.swap.loaded
  {
    hide Run;
  }

  lemma LoadedEntries(c: Settings, file: Option<Document>)
    ensures LoadFrom(c, file).config == c && LoadFrom(c, file).entries == EntriesIn(file)
  {
  }

  lemma GuardedStep(trace: seq<Sys>, actions: seq<Action>, n: nat)
    requires IsGuarded(trace, actions) && n < |actions|
    ensures Enabled(trace[n], actions[n], true) && trace[n + 1] == Do(trace[n], actions[n], true)
  {
    hide Do, Enabled, Started, Careful;
  }

  lemma InstallStarts(s: Sys, a: Action, file: Option<Document>)
    requires Shaped(s) && Enabled(s, SwapInstall, true) && a.SwapLoad?
    requires s.swap == Prepared(LoadFrom(a.config, file), Reconciliation(a.roster, a.at), a.path)
    requires a.roster.Some? ==> NormalizeRoster(a.roster.value).Some?
    ensures var n := Do(s, SwapInstall, true);
            n.gen == s.gen + 1 && n.swap.NoSwap? && Starts(n, a.path, a.config, EntriesIn(file), a.roster)
  {
    InstallStep(s);
    LoadedEntries(a.config, file);
    assert PreparedSound(s.swap) && Storable(s.swap.loaded);
    hide Shaped, PreparedSound, Do, Enabled, LoadFrom, Run, NormalizeRoster, Reconciliation, Storable;
    ReconciledTable(s.swap.loaded, a.roster, a.at);
    hide Clean, IsTableOf;
  }

  /**
    A configuration change installs, under the path and configuration asked
    for, the entries its file held when it was read; with a roster, exactly the
    two breakers of each credential of it, those read from the file for the
    credentials that kept their identity and empty ones for all others.
   */
  lemma SwapInstalls(trace: seq<Sys>, actions: seq<Action>, n: nat, m: nat)
    requires IsGuarded(trace, actions) && InstallsPreparedAt(actions, n, m)
    ensures trace[m + 1].gen == trace[m].gen + 1 && trace[m + 1].swap.NoSwap?
    ensures var a := actions[n]; Starts(trace[m + 1], a.path, a.config, EntriesIn(FileAt(trace[n], a.path)), a.roster)
  {
    hide IsGuarded, IsRun, Inv, Do, LoadFrom, Reconciliation, NormalizeRoster, Starts, Shaped;
    IsLongEnough(trace, actions);
    PreparedStays(trace, actions, n, m, m);
    RunKeepsInv(trace, actions, m);
    GuardedStep(trace, actions, n);
    GuardedStep(trace, actions, m);
    InvIsShaped(trace[m]);
    InstallStarts(trace[m], actions[n], FileAt(trace[n], actions[n].path));
  }

  lemma InvIsShaped(s: Sys)
    requires Inv(s)
    ensures Shaped(s)
  {
    hide Shaped, SaverSound, OnDisk, FileIsPrefix, Replays;
  }

  /** The start after a crash holds what the file it reads held at that moment, and nobody else is at work. */
  lemma CrashRestarts(trace: seq<Sys>, actions: seq<Action>, n: nat)
    requires IsGuarded(trace, actions) && n < |actions| && actions[n].Crash?
    ensures var a, s := actions[n], trace[n + 1];
            && s.gen == trace[n].gen + 1 && s.files == trace[n].files
            && s.readers == {} && s.swap.NoSwap? && (forall t :: SaverOf(s, t).Idle?)
            && Starts(s, a.path, a.config, EntriesIn(FileAt(trace[n], a.path)), None)
            && (trace[n].gen in trace[n].paths && trace[n].paths[trace[n].gen] == a.path ==>
                  s.engines[s.gen] == Restarted(trace[n], a.config))
  {
    var a := actions[n];
    assert Enabled(trace[n], a, true) && trace[n + 1] == Do(trace[n], a, true);
    CrashStep(trace[n], a);
    LoadedEntries(a.config, FileAt(trace[n], a.path));
    hide Do, Enabled, LoadFrom, IsGuarded;
  }

  lemma CrashStep(s: Sys, a: Action)
    requires a.Crash? && Enabled(s, a, true)
    ensures var n := Do(s, a, true);
            && n.gen == s.gen + 1 && n.files == s.files && n.readers == {} && n.swap.NoSwap? && n.savers == map[]
            && n.gen in n.engines && n.gen in n.paths && n.paths[n.gen] == a.path
            && n.engines[n.gen] == n.base == LoadFrom(a.config, FileAt(s, a.path))
  {
    hide LoadFrom;
  }

  // ----------------------------------------------------------------- what is accepted

  /** The mutations among some actions, in order. */
  function MutationsOf(actions: seq<Action>): seq<Step> {
    if actions == [] then []
    else
      var n := |actions| - 1;
      MutationsOf(actions[..n]) + if actions[n].Mutate? then [actions[n].step] else []
  }

  /** Within a generation, every action but a mutation leaves the active engine alone, dirty counter aside. */
  lemma OthersKeepEngine(s: Sys, a: Action)
    requires s.gen in s.engines && s.gen in s.paths && Enabled(s, a, true) && !a.Mutate? && Do(s, a, true).gen == s.gen
    ensures var n := Do(s, a, true); n.gen in n.engines && n.engines[s.gen].(dirty := 0) == s.engines[s.gen].(dirty := 0)
    ensures Do(s, a, true).log == s.log
  {
    hide Next, LoadFrom, Run, Listing, Active, Reconciliation;
    if a.SwapInstall? || a.Crash? {
      NewGeneration(s, a);
    } else {
      assert Do(s, a, true).log == s.log;
    }
  }

  lemma NewGeneration(s: Sys, a: Action)
    requires Enabled(s, a, true) && (a.SwapInstall? || a.Crash?)
    ensures Do(s, a, true).gen == s.gen + 1
  {
    hide LoadFrom, Run, Listing;
  }

  lemma MutationApplies(s: Sys, a: Action)
    requires a.Mutate? && Enabled(s, a, true)
    ensures var n := Do(s, a, true);
            && n.gen == s.gen && n.gen in n.engines && n.engines[s.gen] == Next(s.engines[s.gen], a.step)
            && n.log == s.log + [a.step]
  {
    hide Next;
  }

  lemma ActiveIsThere(s: Sys)
    requires Inv(s)
    ensures s.gen in s.engines && s.gen in s.paths && ValidConfig(s.engines[s.gen].config)
  {
    hide SaverSound, OnDisk, FileIsPrefix, Replays;
  }

  /**
    As long as its generation lasts, the active engine is what the mutations
    make of it, in the order in which they were accepted, whatever savers and
    configuration changes do meanwhile.
   */
  lemma {:induction false} EveryMutationCounts(trace: seq<Sys>, actions: seq<Action>, i: nat, n: nat)
    requires IsGuarded(trace, actions) && i <= n < |trace| && trace[i].gen == trace[n].gen
    ensures Replayed(trace[i], trace[n], MutationsOf(actions[i..n]))
  {
    hide IsGuarded, IsRun, Do, Enabled, Inv, Run, MutationsOf, Replayed;
    IsLongEnough(trace, actions);
    RunKeepsInv(trace, actions, i);
    ActiveIsThere(trace[i]);
    if i == n {
      NothingReplayed(trace[i]);
      NoMutations(actions, i);
    } else {
      var m := n - 1;
      GenerationsAdvance(trace, actions, i, m);
      GenerationsAdvance(trace, actions, m, n);
      RunKeepsInv(trace, actions, m);
      ActiveIsThere(trace[m]);
      GuardedStep(trace, actions, m);
      EveryMutationCounts(trace, actions, i, m);
      MutationsMore(actions, i, m);
      OneMoreAction(trace[i], trace[m], actions[m], MutationsOf(actions[i..m]));
    }
  }

  /** Between two states of a generation the active engine went through these steps, and nothing else, dirty counter aside. */
  predicate Replayed(s: Sys, n: Sys, steps: seq<Step>) {
    && s.gen in s.engines && s.gen in n.engines && n.gen == s.gen && ValidConfig(s.engines[s.gen].config)
    && n.engines[s.gen].(dirty := 0) == Run(s.engines[s.gen], steps).(dirty := 0)
    && n.log == s.log + steps
  }

  lemma IsLongEnough(trace: seq<Sys>, actions: seq<Action>)
    requires IsGuarded(trace, actions)
    ensures |trace| == |actions| + 1 && IsRun(trace, actions, true)
  {
    hide Do, Enabled, Started, Careful;
  }

  lemma NoMutations(actions: seq<Action>, i: nat)
    requires i <= |actions|
    ensures MutationsOf(actions[i..i]) == []
  {
  }

  lemma NothingReplayed(s: Sys)
    requires s.gen in s.engines && ValidConfig(s.engines[s.gen].config)
    ensures Replayed(s, s, [])
  {
  }

  lemma MutationsMore(actions: seq<Action>, i: nat, m: nat)
    requires i <= m < |actions|
    ensures MutationsOf(actions[i..m + 1]) == MutationsOf(actions[i..m]) + if actions[m].Mutate? then [actions[m].step] else []
  {
    assert actions[i..m + 1][..m - i] == actions[i..m];
  }

  lemma OneMoreAction(first: Sys, s: Sys, a: Action, steps: seq<Step>)
    requires s.gen in s.engines && s.gen in s.paths && Enabled(s, a, true) && Do(s, a, true).gen == s.gen
    requires Replayed(first, s, steps)
    ensures Replayed(first, Do(s, a, true), steps + if a.Mutate? then [a.step] else [])
  {
    hide Run, Next;
    if a.Mutate? {
      MutationApplies(s, a);
      var now, then_ := s.engines[s.gen], Run(first.engines[s.gen], steps);
      DirtyIsNotRead(now, 0, a.step);
      DirtyIsNotRead(then_, 0, a.step);
      RunExtended(first.engines[s.gen], steps, a.step);
      assert now.(dirty := 0) == then_.(dirty := 0);
      assert !a.step.Restart?;
      hide Do, Enabled;
    } else {
      OthersKeepEngine(s, a);
      hide Do, Enabled;
      assert steps + [] == steps;
    }
  }
}
