/**
  A probe round: the roster is read, identities are captured, the network
  takes its time while anything may happen, the roster is read again, and the
  evidence is applied to the identities it was captured for.
 */
module ProbeRound {
  import opened GuardTypes
  import opened Breaker
  import opened EngineSpec
  import opened EngineRuns
  import opened RosterFence
  import opened QuotaWindows
  import opened EngineClass
  import Transitions

  type Fingerprint = s: string | s != "" witness "0"

  /** A host credential file; its fingerprint stands for the hash of its identifying fields. */
  datatype AuthFile = AuthFile(
    id: string,
    name: string,
    authIndex: string,
    antigravity: bool,
    disabled: bool,
    fingerprint: Fingerprint,
    priority: int)

  function IdentityOfFile(f: AuthFile): Option<Identity> {
    var id := if f.id == "" then f.name else f.id;
    if !f.antigravity || f.disabled || id == "" || f.authIndex == "" then None
    else Some(Identity(id, f.authIndex, f.fingerprint, "antigravity", f.priority))
  }

  // ------------------------------------------------------------ reading a roster

  function Listed(files: seq<AuthFile>): seq<Identity> {
    if files == [] then []
    else
      var rest := Listed(files[..|files| - 1]);
      match IdentityOfFile(files[|files| - 1]) { case Some(id) => rest + [id] case None => rest }
  }

  function Captured(files: seq<AuthFile>): map<string, Identity> {
    if files == [] then map[]
    else
      var rest := Captured(files[..|files| - 1]);
      match IdentityOfFile(files[|files| - 1]) { case Some(id) => rest[id.authIndex := id] case None => rest }
  }

  method ReadRoster(files: seq<AuthFile>) returns (ids: seq<Identity>)
    ensures ids == Listed(files)
  {
    ids := [];
    for i := 0 to |files|
      invariant ids == Listed(files[..i])
    {
      assert files[..i + 1][..i] == files[..i];
      var id := IdentityOfFile(files[i]);
      if id.None? {
        continue;
      }
      ids := ids + [id.value];
    }
    assert files[..|files|] == files;
  }

  method IdentitiesByIndex(files: seq<AuthFile>) returns (ids: map<string, Identity>)
    ensures ids == Captured(files)
  {
    ids := map[];
    for i := 0 to |files|
      invariant ids == Captured(files[..i])
    {
      assert files[..i + 1][..i] == files[..i];
      var id := IdentityOfFile(files[i]);
      if id.Some? {
        ids := ids[id.value.authIndex := id.value];
      }
    }
    assert files[..|files|] == files;
  }

  method DisabledIndexes(files: seq<AuthFile>) returns (indexes: set<string>)
    ensures forall a :: a in indexes <==> a != "" && exists f :: f in files && f.antigravity && f.disabled && f.authIndex == a
  {
    indexes := {};
    for i := 0 to |files|
      invariant forall a :: a in indexes <==>
        a != "" && exists f :: f in files[..i] && f.antigravity && f.disabled && f.authIndex == a
    {
      assert files[..i + 1] == files[..i] + [files[i]];
      if files[i].antigravity && files[i].disabled && files[i].authIndex != "" {
        indexes := indexes + {files[i].authIndex};
      }
    }
    assert files[..|files|] == files;
  }

  /** What is captured for an index is an identity of that index from the roster just read. */
  lemma {:induction false} CapturedIsListed(files: seq<AuthFile>)
    ensures forall a :: a in Captured(files) ==>
              var id := Captured(files)[a];
              id in Listed(files) && id.authIndex == a && id.authID != "" && id.fingerprint != ""
    ensures forall id :: id in Listed(files) ==> id.authIndex in Captured(files) && NormalizeIdentity(id) == Some(id)
  {
    if files != [] {
      CapturedIsListed(files[..|files| - 1]);
    }
  }

  /** An enabled Antigravity file with an index, and an id or a name, gives this identity. */
  predicate Gives(f: AuthFile, id: Identity) {
    && f.antigravity && !f.disabled && f.authIndex == id.authIndex != ""
    && id.authID == (if f.id != "" then f.id else f.name) && id.authID != ""
    && id.fingerprint == f.fingerprint && id.priority == f.priority && id.provider == "antigravity"
  }

  /** The roster lists exactly the identities that some file gives. */
  lemma {:induction false} RosterIsWhatFilesGive(files: seq<AuthFile>, id: Identity)
    ensures id in Listed(files) <==> exists f :: f in files && Gives(f, id)
    ensures id.authIndex in Captured(files) <==> exists other :: other in Listed(files) && other.authIndex == id.authIndex
  {
    if files != [] {
      var n := |files| - 1;
      RosterIsWhatFilesGive(files[..n], id);
      assert files == files[..n] + [files[n]];
      assert IdentityOfFile(files[n]) == Some(id) <==> Gives(files[n], id);
    }
  }

  // -------------------------------------------------------- applying the evidence

  datatype GroupResult = GroupResult(group: Group, eligible: seq<Quota>, failures: nat)

  /** One eligible item, for the identity captured before the probe. */
  function AppliedItem(s: EngineState, captured: map<string, Identity>, g: Group, q: Quota, wall: Instant): EngineState {
    if q.authIndex !in captured then s
    else
      match EvidenceFor(q, captured[q.authIndex], g)
      case None => s
      case Some(ev) => EvidenceNext(s, ev, Stamp(ev.observedAt, wall))
  }

  function AppliedItems(s: EngineState, captured: map<string, Identity>, g: Group, qs: seq<Quota>, wall: Instant): EngineState {
    if qs == [] then s
    else AppliedItem(AppliedItems(s, captured, g, qs[..|qs| - 1], wall), captured, g, qs[|qs| - 1], wall)
  }

  function AppliedAll(s: EngineState, captured: map<string, Identity>, results: seq<GroupResult>, wall: Instant): EngineState {
    if results == [] then s
    else
      var last := results[|results| - 1];
      AppliedItems(AppliedAll(s, captured, results[..|results| - 1], wall), captured, last.group, last.eligible, wall)
  }

  /** Evidence of unknown credentials counts as an error unless the credential is known to be disabled. */
  function ItemErrors(captured: map<string, Identity>, ignored: set<string>, qs: seq<Quota>): nat {
    if qs == [] then 0
    else
      var a := qs[|qs| - 1].authIndex;
      ItemErrors(captured, ignored, qs[..|qs| - 1]) + if a !in captured && a !in ignored then 1 else 0
  }

  function Errors(captured: map<string, Identity>, ignored: set<string>, results: seq<GroupResult>): nat {
    if results == [] then 0
    else
      var last := results[|results| - 1];
      Errors(captured, ignored, results[..|results| - 1]) + ItemErrors(captured, ignored, last.eligible) + last.failures
  }

  /** A round is free of errors exactly when no probe failed and every item is of a captured or a disabled credential. */
  lemma {:induction false} ErrorsAreUnexplained(captured: map<string, Identity>, ignored: set<string>, results: seq<GroupResult>)
    ensures Errors(captured, ignored, results) == 0
            <==> forall r :: r in results ==>
                   r.failures == 0 && forall q :: q in r.eligible ==> q.authIndex in captured || q.authIndex in ignored
  {
    if results != [] {
      var n := |results| - 1;
      ErrorsAreUnexplained(captured, ignored, results[..n]);
      ItemsAreUnexplained(captured, ignored, results[n].eligible);
      assert results == results[..n] + [results[n]];
      hide ItemErrors;
    }
  }

  lemma {:induction false} ItemsAreUnexplained(captured: map<string, Identity>, ignored: set<string>, qs: seq<Quota>)
    ensures ItemErrors(captured, ignored, qs) == 0 <==> forall q :: q in qs ==> q.authIndex in captured || q.authIndex in ignored
  {
    if qs != [] {
      ItemsAreUnexplained(captured, ignored, qs[..|qs| - 1]);
      assert qs == qs[..|qs| - 1] + [qs[|qs| - 1]];
    }
  }

  method ApplyItems(engine: Engine, captured: map<string, Identity>, ignored: set<string>, g: Group, qs: seq<Quota>, wall: Instant)
    returns (changed: bool, errors: nat)
    modifies engine
    ensures engine.State() == AppliedItems(old(engine.State()), captured, g, qs, wall)
    ensures errors == ItemErrors(captured, ignored, qs)
    ensures !changed ==> engine.State() == old(engine.State())
  {
    changed, errors := false, 0;
    for i := 0 to |qs|
      invariant engine.State() == AppliedItems(old(engine.State()), captured, g, qs[..i], wall)
      invariant errors == ItemErrors(captured, ignored, qs[..i])
      invariant !changed ==> engine.State() == old(engine.State())
    {
      assert qs[..i + 1][..i] == qs[..i];
      var q := qs[i];
      if q.authIndex !in captured {
        if q.authIndex !in ignored {
          errors := errors + 1;
        }
        continue;
      }
      var ev := EvidenceFor(q, captured[q.authIndex], g);
      if ev.None? {
        continue;
      }
      var outcome := engine.ApplyQuotaEvidence(ev.value, wall);
      if outcome.Ok? && outcome.value.changed {
        changed := true;
      }
    }
    assert qs[..|qs|] == qs;
  }

  method ApplyGuardEvidence(engine: Engine, captured: map<string, Identity>, ignored: set<string>,
                            results: seq<GroupResult>, wall: Instant)
    returns (changed: bool, errors: nat)
    modifies engine
    ensures engine.State() == AppliedAll(old(engine.State()), captured, results, wall)
    ensures errors == Errors(captured, ignored, results)
    ensures !changed ==> engine.State() == old(engine.State())
  {
    changed, errors := false, 0;
    for i := 0 to |results|
      invariant engine.State() == AppliedAll(old(engine.State()), captured, results[..i], wall)
      invariant errors == Errors(captured, ignored, results[..i])
      invariant !changed ==> engine.State() == old(engine.State())
    {
      assert results[..i + 1][..i] == results[..i];
      var any, missed := ApplyItems(engine, captured, ignored, results[i].group, results[i].eligible, wall);
      changed := changed || any;
      errors := errors + missed + results[i].failures;
    }
    assert results[..|results|] == results;
  }

  // ------------------------------------------------------------------- the fence

  /** The breaker at this key belongs to the credential captured for its index. */
  predicate StillCaptured(captured: map<string, Identity>, k: Key, e: Entry) {
    k.authIndex in captured && e.authID == captured[k.authIndex].authID && e.fingerprint == captured[k.authIndex].fingerprint
  }

  predicate Genuine(captured: map<string, Identity>) {
    forall a :: a in captured ==> captured[a].authIndex == a && captured[a].authID != "" && captured[a].fingerprint != ""
  }

  /** Between these states only breakers of captured credentials differ, and none changed hands. */
  ghost predicate OnlyCaptured(s: EngineState, n: EngineState, captured: map<string, Identity>) {
    && n.entries.Keys == s.entries.Keys
    && forall k :: k in s.entries ==>
         && n.entries[k].authID == s.entries[k].authID && n.entries[k].fingerprint == s.entries[k].fingerprint
         && (n.entries[k] != s.entries[k] ==> StillCaptured(captured, k, s.entries[k]))
  }

  lemma ItemIsFenced(s: EngineState, captured: map<string, Identity>, g: Group, q: Quota, wall: Instant)
    requires Genuine(captured)
    ensures OnlyCaptured(s, AppliedItem(s, captured, g, q, wall), captured)
  {
    hide Condensed, EvidenceNext, Stamp;
    if q.authIndex in captured && EvidenceFor(q, captured[q.authIndex], g).Some? {
      var ev := EvidenceFor(q, captured[q.authIndex], g).value;
      var at := Stamp(ev.observedAt, wall);
      assert CapturedFor(ev, captured[q.authIndex]);
      var n := EvidenceNext(s, ev, at);
      assert AppliedItem(s, captured, g, q, wall) == n;
      NoEntryNoEvidence(s, ev, at);
      hide AppliedItem, EvidenceFor;
      forall k | k in s.entries
        ensures n.entries.Keys == s.entries.Keys
        ensures n.entries[k].authID == s.entries[k].authID && n.entries[k].fingerprint == s.entries[k].fingerprint
        ensures n.entries[k] != s.entries[k] ==> StillCaptured(captured, k, s.entries[k])
      {
        EvidenceIsFenced(s, ev, captured[q.authIndex], at, k);
      }
    }
  }

  lemma NoEntryNoEvidence(s: EngineState, ev: Evidence, at: Instant)
    ensures EvidenceNext(s, ev, at).entries.Keys == s.entries.Keys
  {
    hide WithEvidence;
  }

  lemma {:induction false} ItemsAreFenced(s: EngineState, captured: map<string, Identity>, g: Group, qs: seq<Quota>, wall: Instant)
    requires Genuine(captured)
    ensures OnlyCaptured(s, AppliedItems(s, captured, g, qs, wall), captured)
  {
    hide AppliedItem;
    if qs != [] {
      ItemsAreFenced(s, captured, g, qs[..|qs| - 1], wall);
      ItemIsFenced(AppliedItems(s, captured, g, qs[..|qs| - 1], wall), captured, g, qs[|qs| - 1], wall);
    }
  }

  lemma {:induction false} ResultsAreFenced(s: EngineState, captured: map<string, Identity>, results: seq<GroupResult>, wall: Instant)
    requires Genuine(captured)
    ensures OnlyCaptured(s, AppliedAll(s, captured, results, wall), captured)
  {
    hide AppliedItems;
    if results != [] {
      var front, last := results[..|results| - 1], results[|results| - 1];
      ResultsAreFenced(s, captured, front, wall);
      ItemsAreFenced(AppliedAll(s, captured, front, wall), captured, last.group, last.eligible, wall);
    }
  }

  /** What happens while and after the probes are on the network. */
  datatype Flight = Flight(
    first: seq<AuthFile>, readAt: Instant,
    meanwhile: seq<Step>,
    second: seq<AuthFile>, rereadAt: Instant,
    afterwards: seq<Step>,
    results: seq<GroupResult>, wall: Instant)

  /** Both rosters must be accepted for a round to apply anything. */
  predicate Completes(f: Flight) {
    NormalizeRoster(Listed(f.first)).Some? && NormalizeRoster(Listed(f.second)).Some?
  }

  /** The state the second roster meets. */
  function InFlight(s: EngineState, f: Flight): (n: EngineState)
    requires ValidConfig(s.config)
    ensures ValidConfig(n.config)
  {
    Run(RosterNext(s, Listed(f.first), f.readAt), f.meanwhile)
  }

  /** The state the evidence meets. */
  function Landed(s: EngineState, f: Flight): EngineState
    requires ValidConfig(s.config)
  {
    Run(RosterNext(InFlight(s, f), Listed(f.second), f.rereadAt), f.afterwards)
  }

  function Round(s: EngineState, f: Flight): EngineState
    requires ValidConfig(s.config)
  {
    if NormalizeRoster(Listed(f.first)).None? then s
    else if NormalizeRoster(Listed(f.second)).None? then InFlight(s, f)
    else AppliedAll(Landed(s, f), Captured(f.first), f.results, f.wall)
  }

  /**
    Whatever happens during a round, its evidence alters only breakers that
    at that moment belong to the very credential the round captured for their
    index before it probed.
   */
  lemma RoundIsFenced(s: EngineState, f: Flight)
    requires ValidConfig(s.config) && Completes(f)
    ensures OnlyCaptured(Landed(s, f), Round(s, f), Captured(f.first))
  {
    hide Run, AppliedAll;
    CapturedIsListed(f.first);
    ResultsAreFenced(Landed(s, f), Captured(f.first), f.results, f.wall);
  }

  /**
    A credential that the second roster lists but the round did not capture,
    because it is new or took over its index meanwhile, leaves the round as
    the second roster put it: uninitialized in both groups unless its own
    breaker was already there.
   */
  lemma NewcomersAreUntouched(s: EngineState, f: Flight, id: Identity, g: Group)
    requires ValidConfig(s.config) && Completes(f) && f.afterwards == []
    requires id in Listed(f.second)
    requires id.authIndex in Captured(f.first) ==>
               Captured(f.first)[id.authIndex].authID != id.authID || Captured(f.first)[id.authIndex].fingerprint != id.fingerprint
    ensures var k := Key(id.authIndex, g);
            && k in Round(s, f).entries
            && Round(s, f).entries[k]
               == if k in InFlight(s, f).entries && InFlight(s, f).entries[k].authID == id.authID
                     && InFlight(s, f).entries[k].fingerprint == id.fingerprint
                  then InFlight(s, f).entries[k].(provider := id.provider, priority := id.priority)
                  else NewEntry(id, g)
  {
    RoundIsFenced(s, f);
    CapturedIsListed(f.second);
    NormalizedIsProper(Listed(f.second));
    var i :| 0 <= i < |Listed(f.second)| && Listed(f.second)[i] == id;
    var landed := RosterNext(InFlight(s, f), Listed(f.second), f.rereadAt);
    assert Landed(s, f) == landed;
    ReplacedStartsFresh(InFlight(s, f), Listed(f.second), f.rereadAt, i, g);
    hide Round, InFlight, Run, RosterNext, NormalizeRoster, Captured;
    assert !StillCaptured(Captured(f.first), Key(id.authIndex, g), landed.entries[Key(id.authIndex, g)]);
  }

  // --------------------------------------------------- items among other steps

  /** What one eligible item amounts to as a step of a run. */
  function ItemStep(captured: map<string, Identity>, g: Group, q: Quota, wall: Instant): Step {
    if q.authIndex !in captured then ProbeError
    else
      match EvidenceFor(q, captured[q.authIndex], g)
      case None => ProbeError
      case Some(ev) => Step.Probe(ev, Stamp(ev.observedAt, wall))
  }

  function ItemSteps(captured: map<string, Identity>, g: Group, qs: seq<Quota>, wall: Instant): seq<Step> {
    if qs == [] then [] else ItemSteps(captured, g, qs[..|qs| - 1], wall) + [ItemStep(captured, g, qs[|qs| - 1], wall)]
  }

  function RoundSteps(captured: map<string, Identity>, results: seq<GroupResult>, wall: Instant): seq<Step> {
    if results == [] then []
    else
      var last := results[|results| - 1];
      RoundSteps(captured, results[..|results| - 1], wall) + ItemSteps(captured, last.group, last.eligible, wall)
  }

  lemma {:induction false} RunJoined(s: EngineState, a: seq<Step>, b: seq<Step>)
    requires ValidConfig(s.config)
    ensures Run(s, a + b) == Run(Run(s, a), b)
  {
    hide Next;
    if b == [] {
      assert a + b == a;
    } else {
      var n := |b| - 1;
      RunJoined(s, a, b[..n]);
      assert (a + b)[..|a + b| - 1] == a + b[..n];
    }
  }

  lemma ItemIsStep(s: EngineState, captured: map<string, Identity>, g: Group, q: Quota, wall: Instant)
    requires ValidConfig(s.config)
    ensures Next(s, ItemStep(captured, g, q, wall)) == AppliedItem(s, captured, g, q, wall)
  {
    hide EvidenceFor, EvidenceNext, Stamp;
  }

  lemma {:induction false} ItemsAreSteps(s: EngineState, captured: map<string, Identity>, g: Group, qs: seq<Quota>, wall: Instant)
    requires ValidConfig(s.config)
    ensures Run(s, ItemSteps(captured, g, qs, wall)) == AppliedItems(s, captured, g, qs, wall)
  {
    hide ItemStep, AppliedItem, Next, Run;
    if qs == [] {
      NothingRuns(s);
    } else {
      var front := qs[..|qs| - 1];
      var before := ItemSteps(captured, g, front, wall);
      ItemsAreSteps(s, captured, g, front, wall);
      RunExtended(s, before, ItemStep(captured, g, qs[|qs| - 1], wall));
      ItemIsStep(Run(s, before), captured, g, qs[|qs| - 1], wall);
    }
  }

  /** Applied without interruption, the round is the run of its items. */
  lemma {:induction false} RoundIsRun(s: EngineState, captured: map<string, Identity>, results: seq<GroupResult>, wall: Instant)
    requires ValidConfig(s.config)
    ensures Run(s, RoundSteps(captured, results, wall)) == AppliedAll(s, captured, results, wall)
  {
    hide Run, ItemSteps, AppliedItems;
    if results == [] {
      NothingRuns(s);
    } else {
      var front, last := results[..|results| - 1], results[|results| - 1];
      RoundIsRun(s, captured, front, wall);
      RunJoined(s, RoundSteps(captured, front, wall), ItemSteps(captured, last.group, last.eligible, wall));
      ItemsAreSteps(Run(s, RoundSteps(captured, front, wall)), captured, last.group, last.eligible, wall);
    }
  }

  lemma NothingRuns(s: EngineState)
    requires ValidConfig(s.config)
    ensures Run(s, []) == s
  {
  }

  /** A step by which a round that captured these identities applies some item. */
  ghost predicate AppliesItem(step: Step, captured: map<string, Identity>) {
    exists g, q: Quota, wall: Instant :: step == ItemStep(captured, g, q, wall)
  }

  lemma {:induction false} ItemStepsApply(captured: map<string, Identity>, g: Group, qs: seq<Quota>, wall: Instant)
    ensures forall step :: step in ItemSteps(captured, g, qs, wall) ==> AppliesItem(step, captured)
  {
    hide ItemStep;
    if qs != [] {
      ItemStepsApply(captured, g, qs[..|qs| - 1], wall);
    }
  }

  lemma {:induction false} RoundStepsApply(captured: map<string, Identity>, results: seq<GroupResult>, wall: Instant)
    ensures forall step :: step in RoundSteps(captured, results, wall) ==> AppliesItem(step, captured)
  {
    hide ItemSteps, AppliesItem;
    if results != [] {
      var last := results[|results| - 1];
      RoundStepsApply(captured, results[..|results| - 1], wall);
      ItemStepsApply(captured, last.group, last.eligible, wall);
    }
  }

  /**
    The fence with other steps between the items: in any run whatever, the
    step that applies an item alters only a breaker that at that moment
    belongs to the credential captured for its index, and changes no owner.
   */
  lemma InterleavedRoundIsFenced(s: EngineState, files: seq<AuthFile>, steps: seq<Step>, i: nat)
    requires ValidConfig(s.config) && i < |steps| && AppliesItem(steps[i], Captured(files))
    ensures OnlyCaptured(Before(s, steps, i), Before(s, steps, i + 1), Captured(files))
  {
    CapturedIsListed(files);
    BeforeNext(s, steps, i);
    hide Run, Next, OnlyCaptured, ItemStep, Listed, Captured;
    var g, q: Quota, wall: Instant :| steps[i] == ItemStep(Captured(files), g, q, wall);
    ItemIsStep(Before(s, steps, i), Captured(files), g, q, wall);
    ItemIsFenced(Before(s, steps, i), Captured(files), g, q, wall);
  }

  /** The items of a round that are aimed at one credential. */
  lemma ItemIsCapturedFor(captured: map<string, Identity>, g: Group, q: Quota, wall: Instant)
    requires Genuine(captured)
    ensures var step := ItemStep(captured, g, q, wall);
            step.Probe? ==> q.authIndex in captured && CapturedFor(step.evidence, captured[q.authIndex])
  {
    hide Condensed, Stamp;
  }

  predicate AimedAt(step: Step, id: Identity) {
    step.Probe? && CapturedFor(step.evidence, id)
  }

  /**
    And over a whole run: once the credential captured for an index has left
    it, and as long as it is not installed again, the round's items for that
    index might as well not be there, wherever they fall among other steps.
   */
  lemma DepartedIsOutOfReach(s: EngineState, files: seq<AuthFile>, steps: seq<Step>, index: string)
    requires Sound(s) && index in Captured(files) && Absent(s, Captured(files)[index])
    requires forall i :: 0 <= i < |steps| ==> !Installs(steps[i], Captured(files)[index])
    ensures Run(s, steps) == Run(s, WithoutEvidenceFor(steps, Captured(files)[index]))
    ensures forall g, q: Quota, wall: Instant :: q.authIndex == index && ItemStep(Captured(files), g, q, wall).Probe? ==>
              AimedAt(ItemStep(Captured(files), g, q, wall), Captured(files)[index])
  {
    CapturedIsListed(files);
    InFlightEvidenceIsLost(s, steps, Captured(files)[index]);
    hide Run, ItemStep, Captured, Listed;
    forall g, q: Quota, wall: Instant | q.authIndex == index && ItemStep(Captured(files), g, q, wall).Probe?
      ensures AimedAt(ItemStep(Captured(files), g, q, wall), Captured(files)[index])
    {
      ItemIsCapturedFor(Captured(files), g, q, wall);
    }
  }

  /** The least of the shares a quota names. */
  ghost predicate IsLeastShare(q: Quota, share: real) {
    && (q.remaining.Some? || q.shortRemaining.Some? || q.longRemaining.Some?)
    && (forall x :: Some(x) == q.remaining || Some(x) == q.shortRemaining || Some(x) == q.longRemaining ==>
          share <= Clamp(x as real, 0.0, 100.0))
    && (exists x :: (Some(x) == q.remaining || Some(x) == q.shortRemaining || Some(x) == q.longRemaining)
                    && share == Clamp(x as real, 0.0, 100.0))
  }

  lemma CondensedIsLeast(q: Quota)
    ensures Condensed(q).Some? <==> q.remaining.Some? || q.shortRemaining.Some? || q.longRemaining.Some?
    ensures Condensed(q).Some? ==> IsLeastShare(q, Condensed(q).value.remaining)
  {
    hide Deferred;
    var least := Least(Least(q.remaining, q.shortRemaining), q.longRemaining);
    if least.Some? {
      assert Some(least.value) == q.remaining || Some(least.value) == q.shortRemaining || Some(least.value) == q.longRemaining;
      assert Condensed(q).value.remaining == Clamp(least.value as real, 0.0, 100.0);
    }
  }

  /**
    What the fence lets through is recorded: an item of a captured credential
    that still holds its index is evidence for its breaker, unless something
    newer is known, and leaves its least share and its time there.
   */
  lemma ItemIsRecorded(s: EngineState, captured: map<string, Identity>, g: Group, q: Quota, wall: Instant)
    requires Sound(s) && Genuine(captured) && q.authIndex in captured
    requires q.remaining.Some? || q.shortRemaining.Some? || q.longRemaining.Some?
    requires var k := Key(q.authIndex, g);
             && k in s.entries && StillCaptured(captured, k, s.entries[k])
             && s.entries[k].lastEvidenceAt <= Stamp(q.observedAt, wall)
    ensures var k, step := Key(q.authIndex, g), ItemStep(captured, g, q, wall);
            && step.Probe? && Transitions.Proves(s, step.evidence, step.at, k) && step.at == Stamp(q.observedAt, wall)
            && IsLeastShare(q, step.evidence.remaining)
            && var n := AppliedItem(s, captured, g, q, wall);
               && n == Next(s, step) && k in n.entries
               && n.entries[k].lastQuotaEvidenceAt == step.at && n.entries[k].remaining == Some(step.evidence.remaining)
  {
    var k := Key(q.authIndex, g);
    CondensedIsLeast(q);
    ItemIsStep(s, captured, g, q, wall);
    assert EntryPlaced(s.entries, s.authByID, k);
    hide Condensed, IsLeastShare, RosterSound, EntriesSound, Run, Stamp;
    var ev := EvidenceFor(q, captured[q.authIndex], g).value;
    RecordedEvidence(s, ev, Stamp(q.observedAt, wall), k);
    hide AppliedItem;
  }

  lemma RecordedEvidence(s: EngineState, ev: Evidence, at: Instant, k: Key)
    requires k in s.entries && Transitions.Proves(s, ev, at, k)
    ensures var n := EvidenceNext(s, ev, at);
            k in n.entries && n.entries[k].lastQuotaEvidenceAt == at && n.entries[k].remaining == Some(ev.remaining)
  {
  }
}
