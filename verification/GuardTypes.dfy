/**
  Types shared by the quota guard: the breaker kept per credential and model
  group, its configuration, and the inputs of its operations.
 */
module GuardTypes {

  /** Nanoseconds; 0 stands for the zero `time.Time`, which every real instant follows. */
  type Time = nat
  type Instant = t: nat | t > 0 witness 1

  const SECOND := 1_000_000_000
  const MINUTE := 60 * SECOND
  const HOUR := 60 * MINUTE

  datatype Option<+T> = None | Some(value: T)
  datatype Result<+T, +E> = Ok(value: T) | Err(error: E)

  datatype Group = Gemini | ClaudeGPT
  datatype BreakerState = Uninitialized | Closed | Open | HalfOpen
  datatype Reason = NoReason | QuotaZero | Explicit429 | Generic429 | ManualProbe
  datatype Mode = Observe | Enforce
  datatype Policy = FailClosed | FailOpen

  datatype Config = Config(
    threshold: int,
    window: int,
    initialCooldown: int,
    maxCooldown: int,
    halfOpenLease: int,
    evidenceMaxAge: int,
    unknownAuth: Option<Policy>,
    unknownModel: Option<Policy>)

  const DEFAULT_CONFIG := Config(2, MINUTE, 15 * MINUTE, 30 * MINUTE, 30 * SECOND, 30 * MINUTE,
                                 Some(FailClosed), Some(FailClosed))

  /** A zero field takes its default. */
  function WithDefaults(c: Config): Config {
    var d := DEFAULT_CONFIG;
    Config(
      if c.threshold == 0 then d.threshold else c.threshold,
      if c.window == 0 then d.window else c.window,
      if c.initialCooldown == 0 then d.initialCooldown else c.initialCooldown,
      if c.maxCooldown == 0 then d.maxCooldown else c.maxCooldown,
      if c.halfOpenLease == 0 then d.halfOpenLease else c.halfOpenLease,
      if c.evidenceMaxAge == 0 then d.evidenceMaxAge else c.evidenceMaxAge,
      if c.unknownAuth.None? then d.unknownAuth else c.unknownAuth,
      if c.unknownModel.None? then d.unknownModel else c.unknownModel)
  }

  predicate ValidConfig(c: Config) {
    && c.threshold >= 1
    && c.window > 0
    && 0 < c.initialCooldown <= c.maxCooldown
    && c.halfOpenLease > 0
    && c.evidenceMaxAge > 0
    && c.unknownAuth.Some?
    && c.unknownModel.Some?
  }

  /** A configuration with its defaults filled in and its ranges checked. */
  type Settings = c: Config | ValidConfig(c) witness DEFAULT_CONFIG

  datatype Key = Key(authIndex: string, group: Group)

  datatype Identity = Identity(authID: string, authIndex: string, fingerprint: string, provider: string, priority: int)

  /** One breaker. `requestID` is the half-open holder; it is never written to disk. */
  datatype Entry = Entry(
    authID: string,
    authIndex: string,
    fingerprint: string,
    provider: string,
    priority: int,
    group: Group,
    state: BreakerState,
    reason: Reason,
    openedAt: Time,
    recoverAt: Time,
    resetAt: Time,
    failureCount: int,
    lastFailureAt: Time,
    halfOpenStartedAt: Time,
    halfOpenLeaseUntil: Time,
    source: string,
    lastEvidenceAt: Time,
    lastQuotaEvidenceAt: Time,
    remaining: Option<real>,
    requestID: string)

  /** A usage record after its model, status, body and headers have been classified. */
  datatype Usage = Usage(
    requestID: string,
    antigravity: bool,
    group: Option<Group>,
    authID: string,
    authIndex: string,
    failed: bool,
    tooManyRequests: bool,
    exhausted: bool,
    reset: Option<Time>,
    observedAt: Time)

  datatype Evidence = Evidence(
    authIndex: string,
    authID: string,
    fingerprint: string,
    group: Group,
    remaining: real,
    resetAt: Time,
    observedAt: Time,
    source: string)

  /** Provider strings only matter through these four classes. */
  datatype Provider = Omitted | Blank | Antigravity | Foreign

  datatype Candidate = Candidate(authID: string, authIndex: string, provider: Provider)

  datatype PickRequest = PickRequest(
    now: Time,
    requestID: string,
    provider: Provider,
    providers: seq<Provider>,
    group: Option<Group>,
    candidates: seq<Candidate>,
    mode: Mode,
    enforcedGroups: seq<Group>,
    authPolicy: Option<Policy>,
    modelPolicy: Option<Policy>)

  datatype ErrorCode = NoError | ModelCooldown | QuotaGroupUnknown | AuthUnknown | AuthUninitialized | NoEligibleAuth

  datatype PickResult = PickResult(
    selectedAuthID: string,
    selectedAuthIndex: string,
    handled: bool,
    observeOnly: bool,
    allCooling: bool,
    retryAfter: int,
    error: ErrorCode,
    group: Option<Group>,
    excluded: nat)

  const NO_PICK := PickResult("", "", false, false, false, 0, NoError, None, 0)

  datatype GuardError = InvalidIdentity | InvalidEvidence | ProbePending | LeaseActive | NotOpen | InvalidState

  /** A missing timestamp is replaced by the wall clock. */
  function Stamp(t: Time, wall: Instant): Instant {
    if t == 0 then wall else t
  }

  function Clamp(x: real, lo: real, hi: real): real {
    if x < lo then lo else if x > hi then hi else x
  }
}
