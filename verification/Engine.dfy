/**
  The guard engine: a mutable table of breakers with a round-robin cursor per
  group and a dirty counter. Every method is proved to move the engine's
  abstract state exactly as `EngineSpec` says.
 */
module EngineClass {
  import opened GuardTypes
  import opened Breaker
  import opened EngineSpec
  import opened StateFile

  datatype EvidenceOutcome = EvidenceOutcome(changed: bool, ignored: bool, state: BreakerState, reason: Reason)
  datatype UsageOutcome = UsageOutcome(handled: bool, changed: bool, group: Option<Group>, state: BreakerState, reason: Reason)

  const UNHANDLED := UsageOutcome(false, false, None, Uninitialized, NoReason)

  method NewEngine(config: Config) returns (engine: Engine?)
    ensures engine != null <==> ValidConfig(WithDefaults(config))
    ensures engine != null ==> fresh(engine) && engine.State() == Initial(WithDefaults(config))
  {
    var c := WithDefaults(config);
    if !ValidConfig(c) {
      return null;
    }
    engine := new Engine(c);
  }

  /** The state file: replaced as a whole, by a write that may fail before or after the replacement. */
  class Disk {
    var file: Option<Document>

    constructor ()
      ensures file.None?
    {
      file := None;
    }

    method Replace(d: Document) returns (done: bool)
      modifies this
      ensures file == Some(d) || (file == old(file) && !done)
    {
      if * {
        file := Some(d);
        done := *;
      } else {
        done := false;
      }
    }
  }

  /** A document that could have been saved in this state. */
  predicate SavedFrom(d: Document, s: EngineState) {
    && d.version == SCHEMA_VERSION
    && (s.updated != 0 ==> d.updated == s.updated)
    && Lists(d.entries, ErasedEntries(s.entries))
  }

  /** A new engine with the state a file holds. */
  method LoadEngine(disk: Disk, config: Config) returns (engine: Engine?)
    ensures engine != null <==> ValidConfig(WithDefaults(config)) && (disk.file.None? || ValidDocument(disk.file.value))
    ensures engine != null ==> fresh(engine)
    ensures engine != null && disk.file.Some? ==> engine.State() == Loaded(WithDefaults(config), disk.file.value)
    ensures engine != null && disk.file.None? ==> engine.State() == Initial(WithDefaults(config))
  {
    engine := NewEngine(config);
    if engine != null {
      var ok := engine.Load(disk);
      if !ok {
        return null;
      }
    }
  }

  class Engine {
    const config: Config
    var entries: map<Key, Entry>
    var authByID: map<string, string>
    var cursors: map<Group, nat>
    var updated: Time
    var dirty: nat
    var generation: nat

    function State(): EngineState
      reads this
    {
      EngineState(config, entries, authByID, cursors, updated, dirty, generation)
    }

    constructor (config: Config)
      ensures State() == Initial(config)
    {
      this.config := config;
      entries, authByID, cursors := map[], map[], map[];
      updated, dirty, generation := 0, 0, 0;
    }

    method MarkDirty(at: Instant)
      modifies this`updated, this`dirty, this`generation
      ensures State() == Dirtied(old(State()), at)
    {
      updated := at;
      dirty := dirty + 1;
      generation := generation + 1;
    }

    // ------------------------------------------------------ evidence and usage

    method ApplyQuotaEvidence(ev: Evidence, wall: Instant) returns (r: Result<EvidenceOutcome, GuardError>)
      modifies this
      ensures State() == EvidenceNext(old(State()), ev, if ev.observedAt == 0 then wall else ev.observedAt)
      ensures r.Err? <==> !ValidEvidence(ev)
      ensures r.Ok? ==> r.value.changed == (State() != old(State()))
      ensures r.Ok? && !r.value.ignored ==>
        var k := Key(ev.authIndex, ev.group);
        k in entries && Concerns(entries[k], ev) && entries[k].lastEvidenceAt == Stamp(ev.observedAt, wall)
        && r.value.state == entries[k].state && r.value.reason == entries[k].reason
    {
      if ev.authIndex == "" || ev.remaining < 0.0 || ev.remaining > 100.0 {
        return Err(InvalidEvidence);
      }
      var at := Stamp(ev.observedAt, wall);
      var k := Key(ev.authIndex, ev.group);
      if k !in entries {
        return Ok(EvidenceOutcome(false, true, Uninitialized, NoReason));
      }
      var entry := entries[k];
      hide WithEvidence;
      if (ev.authID != "" && entry.authID != ev.authID) || (ev.fingerprint != "" && entry.fingerprint != ev.fingerprint) {
        EvidenceIgnored(entry, ev, at);
        return Ok(EvidenceOutcome(false, true, entry.state, entry.reason));
      }
      if entry.lastEvidenceAt != 0 && at < entry.lastEvidenceAt {
        EvidenceIgnored(entry, ev, at);
        return Ok(EvidenceOutcome(false, true, entry.state, entry.reason));
      }
      var before := entry;
      entry := AcceptEvidence(entry, ev, at);
      var changed := before != entry;
      entries := entries[k := entry];
      assert !changed ==> entries == old(entries);
      if changed {
        MarkDirty(at);
      }
      r := Ok(EvidenceOutcome(changed, false, entry.state, entry.reason));
    }

    lemma EvidenceIgnored(e: Entry, ev: Evidence, at: Instant)
      requires !Concerns(e, ev) || at < e.lastEvidenceAt
      ensures WithEvidence(e, ev, at) == e
    {
    }

    /** What evidence that is neither foreign nor stale makes of an entry. */
    method AcceptEvidence(e: Entry, ev: Evidence, at: Instant) returns (entry: Entry)
      requires Concerns(e, ev) && at >= e.lastEvidenceAt
      ensures entry == WithEvidence(e, ev, at) && entry.lastEvidenceAt == at
      ensures entry.authID == e.authID && entry.fingerprint == e.fingerprint
    {
      entry := e;
      entry := entry.(remaining := Some(ev.remaining));
      entry := entry.(lastEvidenceAt := at);
      entry := entry.(lastQuotaEvidenceAt := at);
      entry := entry.(source := SourceName(ev.source));
      if ev.remaining <= 0.0 && ev.resetAt > at {
        entry := Open(entry, QuotaZero, at, ev.resetAt, ev.resetAt);
      } else if ev.remaining > 0.0 && (entry.state == Uninitialized || entry.reason == QuotaZero || entry.reason == ManualProbe) {
        entry := Close(entry);
      }
    }

    method Open(e: Entry, reason: Reason, at: Time, recoverAt: Time, resetAt: Time) returns (entry: Entry)
      ensures entry == Opened(e, reason, at, recoverAt, resetAt)
    {
      entry := e.(state := BreakerState.Open);
      entry := entry.(reason := reason);
      entry := entry.(openedAt := at);
      entry := entry.(recoverAt := recoverAt);
      entry := entry.(resetAt := resetAt);
      entry := entry.(halfOpenStartedAt := 0);
      entry := entry.(halfOpenLeaseUntil := 0);
      entry := entry.(requestID := "");
    }

    method Close(e: Entry) returns (entry: Entry)
      ensures entry == Shut(e)
    {
      entry := e.(state := Closed);
      entry := entry.(reason := NoReason);
      entry := entry.(openedAt := 0, recoverAt := 0, resetAt := 0);
      entry := entry.(failureCount := 0);
      entry := entry.(lastFailureAt := 0);
      entry := entry.(halfOpenStartedAt := 0, halfOpenLeaseUntil := 0);
      entry := entry.(requestID := "");
    }

    function LookupEntry(authIndex: string, authID: string, g: Group): (k: Option<Key>)
      reads this
      ensures k == Lookup(State(), authIndex, authID, g)
    {
      var index := if authIndex == "" && authID != "" then (if authID in authByID then authByID[authID] else "") else authIndex;
      var k := Key(index, g);
      if k !in entries || (authID != "" && entries[k].authID != authID) then None else Some(k)
    }

    method ObserveUsage(u: Usage, wall: Instant) returns (r: UsageOutcome)
      requires ValidConfig(config)
      modifies this
      ensures State() == UsageNext(old(State()), u, if u.observedAt == 0 then wall else u.observedAt)
      ensures r.handled <==> u.antigravity && u.group.Some?
      ensures r.changed == (State() != old(State()))
      ensures UsageTarget(old(State()), u).Some? ==>
        var e := entries[UsageTarget(old(State()), u).value];
        r == UsageOutcome(true, r.changed, u.group, e.state, e.reason)
    {
      if !u.antigravity || u.group.None? {
        return UNHANDLED;
      }
      var at := Stamp(u.observedAt, wall);
      var found := LookupEntry(u.authIndex, u.authID, u.group.value);
      if found.None? {
        return UsageOutcome(true, false, u.group, Uninitialized, NoReason);
      }
      var k := found.value;
      var entry := entries[k];
      var before := entry;
      entry := AbsorbUsage(entry, u, at);
      hide WithUsage;
      var changed := before != entry;
      entries := entries[k := entry];
      assert !changed ==> entries == old(entries);
      if changed {
        MarkDirty(at);
      }
      r := UsageOutcome(true, changed, u.group, entry.state, entry.reason);
    }

    /** What a usage record makes of the entry it concerns; a stale or fenced-off one makes nothing of it. */
    method AbsorbUsage(e: Entry, u: Usage, at: Instant) returns (entry: Entry)
      requires ValidConfig(config)
      ensures entry == WithUsage(config, e, u, at)
    {
      hide GenericFailure, ExplicitFailure;
      entry := e;
      if entry.lastEvidenceAt != 0 && at < entry.lastEvidenceAt {
        return;
      }
      if entry.state == HalfOpen && entry.requestID != "" && u.requestID != entry.requestID {
        return;
      }
      if !u.failed {
        if entry.state == HalfOpen && entry.halfOpenStartedAt != 0 && at >= entry.halfOpenStartedAt
           && entry.requestID != "" && u.requestID == entry.requestID {
          entry := Close(entry);
          entry := entry.(lastEvidenceAt := at);
          entry := entry.(source := "usage_success");
        } else if entry.state == Closed && at >= entry.lastFailureAt {
          entry := entry.(failureCount := 0);
          entry := entry.(lastFailureAt := 0);
        }
      } else if u.tooManyRequests {
        if u.exhausted {
          entry := ObserveExplicit429(entry, at, u.reset);
        } else {
          entry := ObserveGeneric429(entry, at, u.reset);
        }
      }
    }

    method ObserveExplicit429(e: Entry, at: Instant, reset: Option<Time>) returns (entry: Entry)
      requires ValidConfig(config)
      ensures entry == ExplicitFailure(config, e, at, reset)
    {
      var recoverAt: Time := if reset.Some? then reset.value else 0;
      if reset.None? || recoverAt <= at {
        recoverAt := at + config.maxCooldown;
      }
      var reason := Explicit429;
      if e.state == BreakerState.Open && at < e.recoverAt && (e.reason == QuotaZero || e.reason == Explicit429) {
        if e.recoverAt > recoverAt {
          recoverAt := e.recoverAt;
        }
        if e.reason == QuotaZero {
          reason := QuotaZero;
        }
      }
      entry := Open(e, reason, at, recoverAt, recoverAt);
      entry := entry.(failureCount := entry.failureCount + 1);
      entry := entry.(lastFailureAt := at);
      entry := entry.(lastEvidenceAt := at, source := "usage_429");
    }

    method ObserveGeneric429(e: Entry, at: Instant, reset: Option<Time>) returns (entry: Entry)
      requires ValidConfig(config)
      ensures entry == GenericFailure(config, e, at, reset)
    {
      entry := e;
      var wasOpen := e.state == BreakerState.Open || e.state == HalfOpen;
      if e.lastFailureAt == 0 || at - e.lastFailureAt > config.window || at < e.lastFailureAt {
        entry := entry.(failureCount := 1);
      } else {
        entry := entry.(failureCount := entry.failureCount + 1);
      }
      entry := entry.(lastFailureAt := at);
      entry := entry.(lastEvidenceAt := at, source := "usage_429");
      if entry.state == BreakerState.Open && at < entry.recoverAt && (entry.reason == QuotaZero || entry.reason == Explicit429) {
        return;
      }
      if entry.failureCount < config.threshold && !wasOpen {
        return;
      }
      var cooldown := config.initialCooldown;
      if wasOpen || entry.failureCount > config.threshold {
        cooldown := config.maxCooldown;
      }
      var resetAt: Time := if reset.Some? then reset.value else 0;
      var recoverAt: Time := at + cooldown;
      if reset.Some? && resetAt > recoverAt {
        recoverAt := resetAt;
      }
      entry := Open(entry, Generic429, at, recoverAt, resetAt);
    }

    // ------------------------------------------------------------------ picks

    /** The candidate loop of a pick: which are eligible, and why the others are not. */
    method Assess(r: PickRequest, g: Group, now: Instant) returns (t: Tally)
      ensures t == Survey(State(), r, g, now, r.candidates)
    {
      hide Survey, CandidateIsAntigravity, EvidenceFresh, Lookup;
      assert Survey(State(), r, g, now, r.candidates[..0]) == NO_TALLY by { NothingSurveyed(State(), r, g, now); }
      var authPolicy := PolicyOr(r.authPolicy, config.unknownAuth);
      t := NO_TALLY;
      for i := 0 to |r.candidates|
        invariant t == Survey(State(), r, g, now, r.candidates[..i])
      {
        SurveyNext(State(), r, g, now, r.candidates, i);
        t := AssessOne(r, g, now, authPolicy, r.candidates[i], t);
      }
      assert r.candidates[..|r.candidates|] == r.candidates;
    }

    /** One turn of that loop. */
    method AssessOne(r: PickRequest, g: Group, now: Instant, authPolicy: Policy, c: Candidate, earlier: Tally) returns (t: Tally)
      requires authPolicy == AuthPolicy(State(), r)
      ensures t == Count(earlier, Judge(State(), r, g, now, c))
    {
      hide CandidateIsAntigravity, EvidenceFresh, Lookup, AuthPolicy;
      t := earlier;
      if !CandidateIsAntigravity(r, c) {
        t := t.(available := t.available + [Choice(c, None)]);
        return;
      }
      var found := LookupEntry(c.authIndex, c.authID, g);
      if found.None? {
        if authPolicy == FailOpen {
          t := t.(available := t.available + [Choice(c, None)]);
        } else {
          t := t.(excluded := t.excluded + 1, missing := t.missing + 1);
        }
        return;
      }
      assert found.value in entries by { LookupFound(State(), c.authIndex, c.authID, g); }
      var entry := entries[found.value];
      if (entry.state == Closed || entry.state == Uninitialized) && !EvidenceFresh(entry, now, config.evidenceMaxAge) {
        t := t.(excluded := t.excluded + 1);
        return;
      }
      match entry.state {
        case Closed =>
          t := t.(available := t.available + [Choice(Normalized(c, entry), None)]);
        case Open =>
          if entry.recoverAt != 0 && now >= entry.recoverAt {
            t := t.(available := t.available + [Choice(Normalized(c, entry), found)]);
          } else {
            t := t.(excluded := t.excluded + 1, cooling := t.cooling + 1);
            t := t.(earliest := EarlierNonZero(t.earliest, entry.recoverAt));
          }
        case HalfOpen =>
          if entry.halfOpenLeaseUntil == 0 || now >= entry.halfOpenLeaseUntil {
            t := t.(available := t.available + [Choice(Normalized(c, entry), found)]);
          } else {
            t := t.(excluded := t.excluded + 1, cooling := t.cooling + 1);
            t := t.(earliest := EarlierNonZero(t.earliest, entry.halfOpenLeaseUntil));
          }
        case Uninitialized =>
          if authPolicy == FailOpen {
            t := t.(available := t.available + [Choice(Normalized(c, entry), None)]);
          } else {
            t := t.(excluded := t.excluded + 1, unready := t.unready + 1);
          }
      }
    }

    method Pick(r: PickRequest, wall: Instant) returns (result: PickResult)
      requires ValidConfig(config)
      modifies this
      ensures var now: Instant := if r.now == 0 then wall else r.now;
              result == PickOutcome(old(State()), r, now) && State() == PickNext(old(State()), r, now)
    {
      var now := Stamp(r.now, wall);
      hide UnknownOutcome, KnownOutcome, Selected, RouteIncludesAntigravity, GroupEnforced;
      if !RouteIncludesAntigravity(r) {
        return NO_PICK;
      }
      if r.group.None? {
        result := PickUnknownModel(r);
        return;
      }
      if !GroupEnforced(r.group.value, r.enforcedGroups) {
        return NO_PICK.(group := r.group);
      }
      result := PickKnown(r, r.group.value, now);
    }

    method PickKnown(r: PickRequest, g: Group, now: Instant) returns (result: PickResult)
      requires ValidConfig(config) && LoopGroup(r) == Some(g)
      modifies this
      ensures result == KnownOutcome(old(State()), r, g, now)
      ensures State() == PickNext(old(State()), r, now)
    {
      assert r.group == Some(g);
      hide Survey, LoopGroup, RetryAfter, Refusal;
      var t := Assess(r, g, now);
      result := NO_PICK.(group := r.group, excluded := t.excluded, observeOnly := r.mode == Observe);
      if |t.available| == 0 {
        result := Refuse(result, t, r.mode, now);
        return;
      }
      var cursor := if g in cursors then cursors[g] else 0;
      var selected := t.available[cursor % |t.available|];
      assert Some(selected) == Selected(State(), r, g, now);
      result := result.(selectedAuthID := selected.candidate.authID, selectedAuthIndex := selected.candidate.authIndex);
      result := result.(handled := r.mode == Enforce);
      hide Selected, KnownOutcome;
      if r.mode == Enforce {
        Take(r, g, now, selected);
      }
    }

    /** Turns the cursor, and lends the lease the selection calls for. */
    method Take(r: PickRequest, g: Group, now: Instant, selected: Choice)
      requires ValidConfig(config) && LoopGroup(r) == Some(g) && r.mode == Enforce && Selected(State(), r, g, now) == Some(selected)
      modifies this
      ensures State() == PickNext(old(State()), r, now)
    {
      assert r.group == Some(g);
      hide Selected, LoopGroup;
      cursors := cursors[g := (if g in cursors then cursors[g] else 0) + 1];
      if selected.lease.Some? && selected.lease.value in entries {
        var k := selected.lease.value;
        var entry := entries[k];
        entry := entry.(state := HalfOpen);
        entry := entry.(halfOpenStartedAt := now);
        entry := entry.(halfOpenLeaseUntil := now + config.halfOpenLease);
        entry := entry.(requestID := r.requestID);
        entries := entries[k := entry];
        MarkDirty(now);
      }
    }

    /** The answer when no candidate is eligible. */
    method Refuse(base: PickResult, t: Tally, mode: Mode, now: Instant) returns (result: PickResult)
      requires base.error == NoError
      ensures result == base.(allCooling := Refusal(t) == ModelCooldown, retryAfter := RetryAfter(now, t.earliest),
                              error := Refusal(t), handled := mode == Enforce)
    {
      hide RetryAfter;
      result := base.(allCooling := t.cooling > 0 && t.missing == 0 && t.unready == 0, retryAfter := RetryAfter(now, t.earliest));
      if result.allCooling {
        result := result.(error := ModelCooldown);
      } else if t.missing > 0 {
        result := result.(error := AuthUnknown);
      } else if t.unready > 0 {
        result := result.(error := AuthUninitialized);
      } else {
        result := result.(error := NoEligibleAuth);
      }
      result := result.(handled := mode == Enforce);
    }

    method PickUnknownModel(r: PickRequest) returns (result: PickResult)
      ensures result == UnknownOutcome(State(), r)
    {
      result := NO_PICK.(observeOnly := r.mode == Observe, error := QuotaGroupUnknown);
      if PolicyOr(r.modelPolicy, config.unknownModel) == FailOpen {
        return;
      }
      var foreign: seq<Candidate> := [];
      for i := 0 to |r.candidates|
        invariant foreign == ForeignOnly(r, r.candidates[..i])
        invariant result.(excluded := 0) == NO_PICK.(observeOnly := r.mode == Observe, error := QuotaGroupUnknown)
        invariant result.excluded + |foreign| == i
      {
        assert r.candidates[..i + 1][..i] == r.candidates[..i];
        if !CandidateIsAntigravity(r, r.candidates[i]) {
          foreign := foreign + [r.candidates[i]];
        } else {
          result := result.(excluded := result.excluded + 1);
        }
      }
      assert r.candidates[..|r.candidates|] == r.candidates;
      if |foreign| > 0 {
        result := result.(selectedAuthID := foreign[0].authID, selectedAuthIndex := foreign[0].authIndex, error := NoError);
      }
      result := result.(handled := r.mode == Enforce);
    }

    method ManualHalfOpen(authIndex: string, g: Group, at: Time, wall: Instant) returns (r: Result<Time, GuardError>)
      modifies this
      ensures var now: Instant := if at == 0 then wall else at;
              && State() == ManualNext(old(State()), authIndex, g, now)
              && r == match ManualRefusal(old(State()), authIndex, g, now)
                      case Some(error) => Err(error)
                      case None => Ok(now)
    {
      if authIndex == "" {
        return Err(InvalidIdentity);
      }
      var now := Stamp(at, wall);
      var k := Key(authIndex, g);
      if k !in entries {
        return Err(InvalidIdentity);
      }
      var entry := entries[k];
      if entry.state == HalfOpen {
        if entry.halfOpenLeaseUntil == 0 {
          return Err(ProbePending);
        }
        if now < entry.halfOpenLeaseUntil {
          return Err(LeaseActive);
        }
      }
      if entry.state != BreakerState.Open && entry.state != HalfOpen {
        return Err(NotOpen);
      }
      entry := entry.(state := HalfOpen);
      entry := entry.(reason := ManualProbe);
      entry := entry.(halfOpenStartedAt := 0, halfOpenLeaseUntil := 0);
      entry := entry.(requestID := "");
      entries := entries[k := entry];
      MarkDirty(now);
      r := Ok(now);
    }

    // --------------------------------------------------- snapshots, save, load

    /** All entries, in some order, with each group's earliest recovery. */
    method Snapshot() returns (es: seq<Entry>, earliest: map<Group, Time>)
      requires Storable(State())
      ensures Lists(es, entries)
      ensures forall g :: g in earliest && earliest[g] == EarliestRecover(es, g)
    {
      es := [];
      earliest := map[Gemini := 0, ClaudeGPT := 0];
      forall g ensures g in earliest && earliest[g] == EarliestRecover(es, g) {
        assert g == Gemini || g == ClaudeGPT;
      }
      var left := entries.Keys;
      assert ListsAllBut(es, entries, left);
      hide EarliestRecover;
      while left != {}
        invariant left <= entries.Keys
        invariant ListsAllBut(es, entries, left)
        invariant forall g :: g in earliest && earliest[g] == EarliestRecover(es, g)
        decreases left
      {
        var k :| k in left;
        var e := entries[k];
        assert EntryFiled(entries, authByID, k);
        ListOneMore(es, entries, left, k);
        forall g ensures EarliestRecover(es + [e], g) == EarlierNonZero(EarliestRecover(es, g), Boundary(e, g)) {
          EarliestOneMore(es, e, g);
        }
        left := left - {k};
        es := es + [e];
        if e.state == BreakerState.Open || e.state == HalfOpen {
          var boundary := if e.state == HalfOpen then e.halfOpenLeaseUntil else e.recoverAt;
          earliest := earliest[e.group := EarlierNonZero(earliest[e.group], boundary)];
        }
      }
    }

    /** One uninterrupted save: a failure keeps the engine dirty, a success leaves a loadable copy behind. */
    method Save(disk: Disk, wall: Instant) returns (ok: bool)
      requires Storable(State())
      modifies this`dirty, disk
      ensures State() == old(State()).(dirty := if ok then 0 else old(dirty))
      ensures disk.file == old(disk.file) || (disk.file.Some? && SavedFrom(disk.file.value, old(State())))
      ensures ok ==> disk.file.Some? && SavedFrom(disk.file.value, old(State())) && ValidDocument(disk.file.value)
    {
      var es, _ := Snapshot();
      var stored := Encode(es);
      var d := Document(SCHEMA_VERSION, Stamp(updated, wall), stored);
      var version := generation;
      ok := disk.Replace(d);
      if !ok {
        return;
      }
      var verified := ValidateDocument(d);
      if verified.Err? {
        return false;
      }
      if generation == version {
        dirty := 0;
      }
    }

    /** What the encoding keeps of a listing: everything but the lease holders. */
    method Encode(es: seq<Entry>) returns (stored: seq<Entry>)
      requires Lists(es, entries)
      ensures Lists(stored, ErasedEntries(entries))
    {
      stored := [];
      for i := 0 to |es|
        invariant |stored| == i && forall j :: 0 <= j < i ==> stored[j] == Erased(es[j])
      {
        stored := stored + [Erased(es[i])];
      }
      forall k | k in entries ensures ErasedEntries(entries)[k] in stored {
        var i :| 0 <= i < |es| && es[i] == entries[k];
        assert stored[i] == ErasedEntries(entries)[k];
      }
      forall i, j | 0 <= i < j < |stored| ensures KeyOf(stored[i]) != KeyOf(stored[j]) {
        assert KeyOf(es[i]) != KeyOf(es[j]);
      }
    }

    /** A missing file is a first start; an invalid one changes nothing. */
    method Load(disk: Disk) returns (ok: bool)
      modifies this
      ensures ok <==> disk.file.None? || ValidDocument(disk.file.value)
      ensures State() ==
              if disk.file.Some? && ValidDocument(disk.file.value) then
                old(State()).(entries := Table(disk.file.value.entries), authByID := IDTable(disk.file.value.entries),
                              updated := disk.file.value.updated, dirty := 0, generation := old(generation) + 1)
              else old(State())
    {
      if disk.file.None? {
        return true;
      }
      var d := disk.file.value;
      var verified := ValidateDocument(d);
      if verified.Err? {
        return false;
      }
      entries := verified.value.0;
      authByID := verified.value.1;
      updated := d.updated;
      dirty := 0;
      generation := generation + 1;
      ok := true;
    }

    // ----------------------------------------------------------------- roster

    lemma RosterNormalizedNext(ids: seq<Identity>, i: nat)
      requires i < |ids| && NormalizeRoster(ids[..i]).Some?
      ensures var kept, item := NormalizeRoster(ids[..i]).value, NormalizeIdentity(ids[i]);
              NormalizeRoster(ids[..i + 1])
              == if item.None?
                    || exists other :: other in kept && (other.authIndex == item.value.authIndex || other.authID == item.value.authID)
                 then None else Some(kept + [item.value])
    {
      hide NormalizeIdentity;
      assert ids[..i + 1][..i] == ids[..i];
    }

    /** The first half of a roster change: nothing is touched until every identity has passed. */
    method CheckRoster(ids: seq<Identity>) returns (items: Option<seq<Identity>>)
      ensures items == NormalizeRoster(ids)
    {
      hide NormalizeIdentity;
      var kept: seq<Identity> := [];
      var seenIndexes: set<string> := {};
      var seenIDs: set<string> := {};
      assert NormalizeRoster(ids[..0]) == Some(kept);
      hide NormalizeRoster;
      for i := 0 to |ids|
        invariant NormalizeRoster(ids[..i]) == Some(kept)
        invariant forall a :: a in seenIndexes <==> exists item :: item in kept && item.authIndex == a
        invariant forall a :: a in seenIDs <==> exists item :: item in kept && item.authID == a
      {
        RosterNormalizedNext(ids, i);
        var item := NormalizeIdentity(ids[i]);
        if item.None? || item.value.authIndex in seenIndexes || item.value.authID in seenIDs {
          RejectedPrefix(ids, i + 1);
          return None;
        }
        seenIndexes := seenIndexes + {item.value.authIndex};
        seenIDs := seenIDs + {item.value.authID};
        kept := kept + [item.value];
      }
      assert ids[..|ids|] == ids;
      items := Some(kept);
    }

    method ReplaceRoster(ids: seq<Identity>, wall: Instant) returns (error: Option<GuardError>)
      modifies this
      ensures error.Some? <==> NormalizeRoster(ids).None?
      ensures State() == RosterNext(old(State()), ids, wall)
    {
      hide NormalizeRoster;
      var checked := CheckRoster(ids);
      if checked.None? {
        return Some(InvalidIdentity);
      }
      var items := checked.value;
      var next: map<Key, Entry> := map[];
      var nextByID: map<string, string> := map[];
      for i := 0 to |items|
        invariant next == RosterEntries(entries, items[..i])
        invariant nextByID == RosterIDs(items[..i])
      {
        assert items[..i + 1][..i] == items[..i];
        var id := items[i];
        nextByID := nextByID[id.authID := id.authIndex];
        next := next[Key(id.authIndex, Gemini) := Kept(entries, id, Gemini)];
        next := next[Key(id.authIndex, ClaudeGPT) := Kept(entries, id, ClaudeGPT)];
      }
      assert items[..|items|] == items;
      if entries == next {
        authByID := nextByID;
        return None;
      }
      entries := next;
      authByID := nextByID;
      MarkDirty(wall);
      error := None;
    }

    method RegisterIdentity(id: Identity, wall: Instant) returns (error: Option<GuardError>)
      modifies this
      ensures error.Some? <==> RegisterRefused(old(State()), id)
      ensures State() == RegisterNext(old(State()), id, wall)
    {
      var item := NormalizeIdentity(id);
      if item.None? {
        return Some(InvalidIdentity);
      }
      var n := item.value;
      if n.authID in authByID && authByID[n.authID] != n.authIndex {
        return Some(InvalidIdentity);
      }
      var changed := false;
      ghost var was := entries;
      var groups := [Gemini, ClaudeGPT];
      hide Kept, NormalizeIdentity;
      for i := 0 to 2
        modifies this`entries
        invariant entries == if i == 0 then was else if i == 1 then was[Key(n.authIndex, Gemini) := Kept(was, n, Gemini)]
                             else WithIdentity(was, was, n)
        invariant changed <==> entries != was
      {
        KeptAlike(entries, was, n, groups[i]);
        var differs := RegisterIn(n, groups[i]);
        changed := changed || differs;
      }
      authByID := (map other | other in authByID && !(authByID[other] == n.authIndex && other != n.authID) :: authByID[other]);
      authByID := authByID[n.authID := n.authIndex];
      assert authByID == WithoutIndex(old(authByID), n.authIndex)[n.authID := n.authIndex];
      if changed {
        MarkDirty(wall);
      }
      error := None;
    }

    /** Puts an identity in place in one group, and tells whether that changed anything. */
    method RegisterIn(n: Identity, g: Group) returns (differs: bool)
      modifies this`entries
      ensures entries == old(entries)[Key(n.authIndex, g) := Kept(old(entries), n, g)]
      ensures differs <==> entries != old(entries)
    {
      var k := Key(n.authIndex, g);
      ghost var was := entries;
      if k !in entries || entries[k].authID != n.authID || entries[k].fingerprint != n.fingerprint {
        entries := entries[k := NewEntry(n, g)];
        assert k !in was || entries[k] != was[k];
        differs := true;
      } else if entries[k].provider != n.provider || entries[k].priority != n.priority {
        entries := entries[k := entries[k].(provider := n.provider, priority := n.priority)];
        assert entries[k] != was[k];
        differs := true;
      } else {
        assert was[k := Kept(was, n, g)] == was;
        differs := false;
      }
    }

    lemma KeptAlike(a: map<Key, Entry>, b: map<Key, Entry>, n: Identity, g: Group)
      requires var k := Key(n.authIndex, g); (k in a <==> k in b) && (k in a ==> a[k] == b[k])
      ensures Kept(a, n, g) == Kept(b, n, g)
    {
    }

    lemma {:induction false} RejectedPrefix(ids: seq<Identity>, n: nat)
      requires n <= |ids| && NormalizeRoster(ids[..n]).None?
      ensures NormalizeRoster(ids).None?
      decreases |ids|
    {
      if n == |ids| {
        assert ids[..n] == ids;
      } else {
        assert ids[..|ids| - 1][..n] == ids[..n];
        RejectedPrefix(ids[..|ids| - 1], n);
      }
    }
  }
}
