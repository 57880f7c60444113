/**
  The state of the guard engine as a value, and what each of its operations
  makes of that state. `Engine` proves its methods against these functions.
 */
module EngineSpec {
  import opened GuardTypes
  import opened Breaker

  datatype EngineState = EngineState(
    config: Config,
    entries: map<Key, Entry>,
    authByID: map<string, string>,
    cursors: map<Group, nat>,
    updated: Time,
    dirty: nat,
    generation: nat)

  function Initial(c: Config): EngineState {
    EngineState(c, map[], map[], map[], 0, 0, 0)
  }

  function Dirtied(s: EngineState, at: Time): EngineState {
    s.(updated := at, dirty := s.dirty + 1, generation := s.generation + 1)
  }

  /** Store an entry; only a real change marks the engine dirty. */
  function Commit(s: EngineState, k: Key, e: Entry, at: Time): EngineState
    requires k in s.entries
  {
    if e == s.entries[k] then s else Dirtied(s.(entries := s.entries[k := e]), at)
  }

  function Cursor(s: EngineState, g: Group): nat {
    if g in s.cursors then s.cursors[g] else 0
  }

  function Lookup(s: EngineState, authIndex: string, authID: string, g: Group): Option<Key> {
    var index := if authIndex != "" || authID == "" then authIndex
                 else if authID in s.authByID then s.authByID[authID] else "";
    var k := Key(index, g);
    if k in s.entries && (authID == "" || s.entries[k].authID == authID) then Some(k) else None
  }

  // ------------------------------------------------------- evidence and usage

  function EvidenceNext(s: EngineState, ev: Evidence, at: Instant): EngineState {
    var k := Key(ev.authIndex, ev.group);
    if ValidEvidence(ev) && k in s.entries then Commit(s, k, WithEvidence(s.entries[k], ev, at), at) else s
  }

  function UsageTarget(s: EngineState, u: Usage): Option<Key> {
    if u.antigravity && u.group.Some? then Lookup(s, u.authIndex, u.authID, u.group.value) else None
  }

  function UsageNext(s: EngineState, u: Usage, at: Instant): EngineState
    requires ValidConfig(s.config)
  {
    match UsageTarget(s, u)
    case None => s
    case Some(k) => Commit(s, k, WithUsage(s.config, s.entries[k], u, at), at)
  }

  // -------------------------------------------------------------------- picks

  predicate RouteIncludesAntigravity(r: PickRequest) {
    || r.provider == Antigravity
    || Antigravity in r.providers
    || exists c :: c in r.candidates && c.provider == Antigravity
  }

  predicate CandidateIsAntigravity(r: PickRequest, c: Candidate) {
    if c.provider != Omitted then c.provider == Antigravity
    else r.provider == Antigravity && forall p :: p in r.providers ==> p != Foreign
  }

  predicate GroupEnforced(g: Group, groups: seq<Group>) {
    groups == [] || g in groups
  }

  function PolicyOr(p: Option<Policy>, fallback: Option<Policy>): Policy {
    match p
    case Some(v) => v
    case None => if fallback.Some? then fallback.value else FailClosed
  }

  function AuthPolicy(s: EngineState, r: PickRequest): Policy {
    PolicyOr(r.authPolicy, s.config.unknownAuth)
  }

  /** An eligible candidate, with the breaker whose half-open lease it would take. */
  datatype Choice = Choice(candidate: Candidate, lease: Option<Key>)
  datatype Cause = Stale | Cooling | Missing | Unready
  datatype Verdict = Available(choice: Choice) | Rejected(cause: Cause, boundary: Time)

  function Normalized(c: Candidate, e: Entry): Candidate {
    c.(authID := if c.authID == "" then e.authID else c.authID,
       authIndex := if c.authIndex == "" then e.authIndex else c.authIndex)
  }

  function JudgeEntry(s: EngineState, policy: Policy, now: Instant, c: Candidate, k: Key): Verdict
    requires k in s.entries
  {
    var e := s.entries[k];
    match e.state
    case Closed =>
      if EvidenceFresh(e, now, s.config.evidenceMaxAge) then Available(Choice(Normalized(c, e), None)) else Rejected(Stale, 0)
    case Uninitialized =>
      if !EvidenceFresh(e, now, s.config.evidenceMaxAge) then Rejected(Stale, 0)
      else if policy == FailOpen then Available(Choice(Normalized(c, e), None)) else Rejected(Unready, 0)
    case Open =>
      if e.recoverAt != 0 && now >= e.recoverAt then Available(Choice(Normalized(c, e), Some(k)))
      else Rejected(Cooling, e.recoverAt)
    case HalfOpen =>
      if e.halfOpenLeaseUntil == 0 || now >= e.halfOpenLeaseUntil then Available(Choice(Normalized(c, e), Some(k)))
      else Rejected(Cooling, e.halfOpenLeaseUntil)
  }

  function Judge(s: EngineState, r: PickRequest, g: Group, now: Instant, c: Candidate): Verdict {
    if !CandidateIsAntigravity(r, c) then Available(Choice(c, None))
    else
      match Lookup(s, c.authIndex, c.authID, g)
      case None => if AuthPolicy(s, r) == FailOpen then Available(Choice(c, None)) else Rejected(Missing, 0)
      case Some(k) => JudgeEntry(s, AuthPolicy(s, r), now, c, k)
  }

  function EarlierNonZero(current: Time, candidate: Time): Time {
    if candidate == 0 then current
    else if current == 0 || candidate < current then candidate
    else current
  }

  datatype Tally = Tally(available: seq<Choice>, excluded: nat, cooling: nat, missing: nat, unready: nat, earliest: Time)

  function Count(t: Tally, v: Verdict): Tally {
    match v
    case Available(choice) => t.(available := t.available + [choice])
    case Rejected(cause, boundary) =>
      t.(excluded := t.excluded + 1,
         cooling := t.cooling + (if cause == Cooling then 1 else 0),
         missing := t.missing + (if cause == Missing then 1 else 0),
         unready := t.unready + (if cause == Unready then 1 else 0),
         earliest := EarlierNonZero(t.earliest, boundary))
  }

  function Survey(s: EngineState, r: PickRequest, g: Group, now: Instant, cs: seq<Candidate>): Tally {
    if cs == [] then NO_TALLY
    else Count(Survey(s, r, g, now, cs[..|cs| - 1]), Judge(s, r, g, now, cs[|cs| - 1]))
  }

  const NO_TALLY := Tally([], 0, 0, 0, 0, 0)

  lemma NothingSurveyed(s: EngineState, r: PickRequest, g: Group, now: Instant)
    ensures Survey(s, r, g, now, r.candidates[..0]) == NO_TALLY
  {
  }

  lemma LookupFound(s: EngineState, authIndex: string, authID: string, g: Group)
    requires Lookup(s, authIndex, authID, g).Some?
    ensures Lookup(s, authIndex, authID, g).value in s.entries
  {
  }

  lemma SurveyNext(s: EngineState, r: PickRequest, g: Group, now: Instant, cs: seq<Candidate>, i: nat)
    requires i < |cs|
    ensures Survey(s, r, g, now, cs[..i + 1]) == Count(Survey(s, r, g, now, cs[..i]), Judge(s, r, g, now, cs[i]))
  {
    hide Judge, Count;
    assert cs[..i + 1][..i] == cs[..i];
  }

  function RetryAfter(now: Time, boundary: Time): int {
    if boundary <= now then 0 else (boundary - now + SECOND - 1) / SECOND * SECOND
  }

  function Refusal(t: Tally): ErrorCode {
    if t.cooling > 0 && t.missing == 0 && t.unready == 0 then ModelCooldown
    else if t.missing > 0 then AuthUnknown
    else if t.unready > 0 then AuthUninitialized
    else NoEligibleAuth
  }

  function Eligible(s: EngineState, r: PickRequest, g: Group, now: Instant): seq<Choice> {
    Survey(s, r, g, now, r.candidates).available
  }

  function Position(s: EngineState, g: Group, size: nat): nat
    requires size > 0
  {
    Cursor(s, g) % size
  }

  function Selected(s: EngineState, r: PickRequest, g: Group, now: Instant): Option<Choice> {
    var available := Eligible(s, r, g, now);
    if available == [] then None else Some(available[Position(s, g, |available|)])
  }

  function KnownOutcome(s: EngineState, r: PickRequest, g: Group, now: Instant): PickResult {
    var t := Survey(s, r, g, now, r.candidates);
    var base := NO_PICK.(group := Some(g), excluded := t.excluded, observeOnly := r.mode == Observe, handled := r.mode == Enforce);
    match Selected(s, r, g, now)
    case Some(choice) =>
      base.(selectedAuthID := choice.candidate.authID, selectedAuthIndex := choice.candidate.authIndex)
    case None =>
      base.(allCooling := Refusal(t) == ModelCooldown, retryAfter := RetryAfter(now, t.earliest), error := Refusal(t))
  }

  function ForeignOnly(r: PickRequest, cs: seq<Candidate>): (foreign: seq<Candidate>)
    ensures |foreign| <= |cs|
  {
    if cs == [] then []
    else
      var rest := ForeignOnly(r, cs[..|cs| - 1]);
      var c := cs[|cs| - 1];
      if CandidateIsAntigravity(r, c) then rest else rest + [c]
  }

  function UnknownOutcome(s: EngineState, r: PickRequest): PickResult {
    var base := NO_PICK.(observeOnly := r.mode == Observe, error := QuotaGroupUnknown);
    var foreign := ForeignOnly(r, r.candidates);
    if PolicyOr(r.modelPolicy, s.config.unknownModel) == FailOpen then base
    else
      var closed := base.(excluded := |r.candidates| - |foreign|, handled := r.mode == Enforce);
      if foreign == [] then closed
      else closed.(error := NoError, selectedAuthID := foreign[0].authID, selectedAuthIndex := foreign[0].authIndex)
  }

  /** The group whose selection loop a request reaches, if any. */
  function LoopGroup(r: PickRequest): Option<Group> {
    if RouteIncludesAntigravity(r) && r.group.Some? && GroupEnforced(r.group.value, r.enforcedGroups) then r.group else None
  }

  function PickOutcome(s: EngineState, r: PickRequest, now: Instant): PickResult {
    if !RouteIncludesAntigravity(r) then NO_PICK
    else if r.group.None? then UnknownOutcome(s, r)
    else if LoopGroup(r).None? then NO_PICK.(group := r.group)
    else KnownOutcome(s, r, r.group.value, now)
  }

  function PickNext(s: EngineState, r: PickRequest, now: Instant): EngineState
    requires ValidConfig(s.config)
  {
    if LoopGroup(r).None? || r.mode != Enforce then s
    else
      var g := r.group.value;
      match Selected(s, r, g, now)
      case None => s
      case Some(choice) =>
        var turned := s.(cursors := s.cursors[g := Cursor(s, g) + 1]);
        if choice.lease.Some? && choice.lease.value in s.entries then
          var k := choice.lease.value;
          Dirtied(turned.(entries := s.entries[k := Leased(s.config, s.entries[k], now, r.requestID)]), now)
        else turned
  }

  // ----------------------------------------------------------- manual half-open

  function ManualRefusal(s: EngineState, authIndex: string, g: Group, now: Instant): Option<GuardError> {
    var k := Key(authIndex, g);
    if authIndex == "" || k !in s.entries then Some(InvalidIdentity)
    else
      var e := s.entries[k];
      if e.state == HalfOpen && e.halfOpenLeaseUntil == 0 then Some(ProbePending)
      else if e.state == HalfOpen && now < e.halfOpenLeaseUntil then Some(LeaseActive)
      else if !IsCooling(e) then Some(NotOpen)
      else None
  }

  function ManualNext(s: EngineState, authIndex: string, g: Group, now: Instant): EngineState {
    var k := Key(authIndex, g);
    if ManualRefusal(s, authIndex, g, now).Some? || k !in s.entries then s
    else Dirtied(s.(entries := s.entries[k := Pending(s.entries[k])]), now)
  }

  // -------------------------------------------------------------------- roster

  /** The joined identifying fields, never empty; the hash of them taken in the source is assumed injective. */
  function DefaultFingerprint(id: Identity): string {
    id.authIndex + "\0" + id.authID + "\0" + id.provider
  }

  function NormalizeIdentity(id: Identity): Option<Identity> {
    if id.authIndex == "" || id.authID == "" then None
    else if id.fingerprint == "" then Some(id.(fingerprint := DefaultFingerprint(id)))
    else Some(id)
  }

  function NormalizeRoster(ids: seq<Identity>): Option<seq<Identity>> {
    if ids == [] then Some([])
    else
      var prefix := NormalizeRoster(ids[..|ids| - 1]);
      var item := NormalizeIdentity(ids[|ids| - 1]);
      if prefix.None? || item.None? then None
      else if exists other :: other in prefix.value && (other.authIndex == item.value.authIndex || other.authID == item.value.authID)
      then None
      else Some(prefix.value + [item.value])
  }

  /** The same credential keeps its breaker; any other gets a new one. */
  function Kept(old_: map<Key, Entry>, id: Identity, g: Group): Entry {
    var k := Key(id.authIndex, g);
    if k in old_ && old_[k].authID == id.authID && old_[k].fingerprint == id.fingerprint
    then old_[k].(provider := id.provider, priority := id.priority)
    else NewEntry(id, g)
  }

  function WithIdentity(base: map<Key, Entry>, old_: map<Key, Entry>, id: Identity): map<Key, Entry> {
    base[Key(id.authIndex, Gemini) := Kept(old_, id, Gemini)][Key(id.authIndex, ClaudeGPT) := Kept(old_, id, ClaudeGPT)]
  }

  function RosterEntries(old_: map<Key, Entry>, ids: seq<Identity>): map<Key, Entry> {
    if ids == [] then map[]
    else WithIdentity(RosterEntries(old_, ids[..|ids| - 1]), old_, ids[|ids| - 1])
  }

  function RosterIDs(ids: seq<Identity>): map<string, string> {
    if ids == [] then map[]
    else RosterIDs(ids[..|ids| - 1])[ids[|ids| - 1].authID := ids[|ids| - 1].authIndex]
  }

  function RosterNext(s: EngineState, ids: seq<Identity>, wall: Instant): EngineState {
    match NormalizeRoster(ids)
    case None => s
    case Some(items) =>
      var next := RosterEntries(s.entries, items);
      var known := s.(authByID := RosterIDs(items));
      if next == s.entries then known else Dirtied(known.(entries := next), wall)
  }

  predicate RegisterRefused(s: EngineState, id: Identity) {
    || NormalizeIdentity(id).None?
    || (id.authID in s.authByID && s.authByID[id.authID] != id.authIndex)
  }

  function WithoutIndex(ids: map<string, string>, authIndex: string): map<string, string> {
    map id | id in ids && ids[id] != authIndex :: ids[id]
  }

  function RegisterNext(s: EngineState, id: Identity, wall: Instant): EngineState {
    if RegisterRefused(s, id) then s
    else
      var item := NormalizeIdentity(id).value;
      var known := s.(authByID := WithoutIndex(s.authByID, item.authIndex)[item.authID := item.authIndex]);
      var next := WithIdentity(s.entries, s.entries, item);
      if next == s.entries then known else Dirtied(known.(entries := next), wall)
  }

  // ------------------------------------------------------------ save and reload

  function ErasedEntries(entries: map<Key, Entry>): map<Key, Entry> {
    map k | k in entries :: Erased(entries[k])
  }

  /** A new engine, under a configuration of its own, that has loaded what this one saved. */
  function Reloaded(s: EngineState, config: Settings): EngineState {
    s.(config := config, entries := ErasedEntries(s.entries), cursors := map[], dirty := 0, generation := 1)
  }
}
