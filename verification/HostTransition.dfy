/**
  One credential change against a host store that others may change, and that
  may fail, between any two calls.
 */
module HostTransition {
  import opened GuardTypes

  // ------------------------------------------------------------------ documents

  datatype Value = Null | Number(number: int) | Flag(flag: bool) | Text(text: string) | Raw(raw: string)
  datatype Body = Blank | Malformed | Object(fields: map<string, Value>)
  datatype Envelope = Envelope(authIndex: string, name: string, location: string)
  datatype Document = Document(envelope: Envelope, body: Body)

  const AUTH_INDEX := "auth_index"
  const NAME := "name"
  const PRIORITY := "priority"
  const DISABLED := "disabled"

  /** What a credential document says about the two fields that transitions change. */
  datatype Observed = Observed(authIndex: string, priority: Option<int>, disabled: bool, disabledKnown: bool)

  predicate TextOrNull(fields: map<string, Value>, key: string) {
    key in fields ==> fields[key].Null? || fields[key].Text?
  }

  function Decode(d: Document): Option<Observed> {
    if !d.body.Object? then None
    else
      var fields := d.body.fields;
      if !TextOrNull(fields, AUTH_INDEX) || !TextOrNull(fields, NAME) then None
      else if PRIORITY in fields && !fields[PRIORITY].Null? && !fields[PRIORITY].Number? then None
      else if DISABLED in fields && !fields[DISABLED].Null? && !fields[DISABLED].Flag? then None
      else
        var inner := if AUTH_INDEX in fields && fields[AUTH_INDEX].Text? then fields[AUTH_INDEX].text else "";
        Some(Observed(
          if inner != "" then inner else d.envelope.authIndex,
          if PRIORITY in fields && fields[PRIORITY].Number? then Some(fields[PRIORITY].number) else None,
          DISABLED in fields && fields[DISABLED].Flag? && fields[DISABLED].flag,
          DISABLED in fields))
  }

  // -------------------------------------------------------------------- intents

  datatype Target<T> = Keep | Put(value: T) | Unset

  /** `authIndex` may be empty and is then completed from the other identity given. */
  datatype Expected = Expected(authIndex: string, priority: Option<int>, disabled: bool, disabledKnown: bool)
  datatype Intent = Intent(authIndex: string, expected: Expected, priority: Target<int>, disabled: Target<bool>)

  function FirstNonEmpty(a: string, b: string): string {
    if a != "" then a else b
  }

  function Normalized(i: Intent): Intent {
    var index := FirstNonEmpty(i.authIndex, i.expected.authIndex);
    i.(authIndex := index, expected := i.expected.(authIndex := FirstNonEmpty(i.expected.authIndex, index)))
  }

  datatype Cause = Satisfied | Verified | Canceled | InvalidIntent | ReadFailed | DecodeFailed
                 | IdentityConflict | PriorityConflict | DisabledConflict
                 | CommitFailed | VerificationFailed | VerificationUnreadable
  datatype Outcome = NoChange | Committed | Failed | Conflict | Uncertain
  datatype Report = Report(outcome: Outcome, cause: Cause)

  function ConflictOf(e: Expected, actual: Observed): Option<Cause> {
    if e.authIndex != "" && (actual.authIndex == "" || e.authIndex != actual.authIndex) then Some(IdentityConflict)
    else if e.priority != actual.priority then Some(PriorityConflict)
    else if e.disabledKnown && e.disabled != actual.disabled then Some(DisabledConflict)
    else None
  }

  predicate IdentityMatches(i: Intent, actual: Observed) {
    i.authIndex == "" || (actual.authIndex != "" && i.authIndex == actual.authIndex)
  }

  predicate SameFields(a: Observed, b: Observed) {
    a.priority == b.priority && a.disabled == b.disabled && a.disabledKnown == b.disabledKnown
  }

  predicate SameDecision(a: Observed, b: Observed) {
    a.priority == b.priority && a.disabled == b.disabled
  }

  /** The document's fields after the intent's operations, and whether anything had to change. */
  method ApplyTarget(current: Observed, fields: map<string, Value>, i: Intent)
    returns (edited: map<string, Value>, target: Observed, changed: bool)
    ensures target == Targeted(current, i)
    ensures edited == Edited(current, fields, i)
    ensures changed <==> target != current
  {
    edited, target, changed := fields, current, false;
    if i.priority.Put? {
      if current.priority != Some(i.priority.value) {
        edited := edited[PRIORITY := Number(i.priority.value)];
        target := target.(priority := Some(i.priority.value));
        changed := true;
      }
    } else if i.priority.Unset? {
      if current.priority.Some? {
        edited := edited - {PRIORITY};
        target := target.(priority := None);
        changed := true;
      }
    }
    if i.disabled.Put? {
      if !current.disabledKnown || current.disabled != i.disabled.value {
        edited := edited[DISABLED := Flag(i.disabled.value)];
        target := target.(disabled := i.disabled.value, disabledKnown := true);
        changed := true;
      }
    } else if i.disabled.Unset? {
      if current.disabledKnown {
        edited := edited - {DISABLED};
        target := target.(disabled := false, disabledKnown := false);
        changed := true;
      }
    }
  }

  /** What the fields must say once the intent is satisfied. */
  function Targeted(current: Observed, i: Intent): Observed {
    Observed(
      current.authIndex,
      match i.priority { case Keep => current.priority case Put(v) => Some(v) case Unset => None },
      match i.disabled { case Keep => current.disabled case Put(v) => v
                         case Unset => current.disabled && !current.disabledKnown },
      match i.disabled { case Keep => current.disabledKnown case Put(_) => true case Unset => false })
  }

  /** A field whose reading is already right is left exactly as it was written. */
  function Edited(current: Observed, fields: map<string, Value>, i: Intent): map<string, Value> {
    var goal := Targeted(current, i);
    var first :=
      if goal.priority == current.priority then fields
      else if goal.priority.Some? then fields[PRIORITY := Number(goal.priority.value)]
      else fields - {PRIORITY};
    if goal.disabled == current.disabled && goal.disabledKnown == current.disabledKnown then first
    else if goal.disabledKnown then first[DISABLED := Flag(goal.disabled)]
    else first - {DISABLED}
  }

  // ------------------------------------------------------------------ the store

  /** Envelopes by auth index, and bodies by the place they are kept. */
  datatype Hosted = Hosted(index: map<string, Envelope>, files: map<string, Body>)

  /** `Lost` carries a write out and then reports an error. */
  datatype Fault = NoFault | Refused(canceled: bool) | Lost

  /** What happens around one call: others may first put the store in any state. */
  datatype Turn = Turn(interference: Option<Hosted>, fault: Fault)

  datatype Attempt = Attempt(location: string, body: Body)

  datatype World = World(hosted: Hosted, turns: seq<Turn>, attempts: seq<Attempt>)

  const QUIET_TURN := Turn(None, NoFault)

  function Coming(w: World): Turn {
    if w.turns == [] then QUIET_TURN else w.turns[0]
  }

  function Turned(w: World): World {
    w.(hosted := match Coming(w).interference { case Some(h) => h case None => w.hosted },
       turns := if w.turns == [] then [] else w.turns[1..])
  }

  function Kept(h: Hosted, authIndex: string): Option<Document> {
    if authIndex !in h.index || h.index[authIndex].location !in h.files then None
    else Some(Document(h.index[authIndex], h.files[h.index[authIndex].location]))
  }

  function Fetched(w: World, authIndex: string): Result<Document, bool> {
    if Coming(w).fault != NoFault then Err(Coming(w).fault.Refused? && Coming(w).fault.canceled)
    else match Kept(Turned(w).hosted, authIndex)
      case Some(d) => Ok(d)
      case None => Err(false)
  }

  function Replaced(w: World, d: Document, body: Body): World {
    var n := Turned(w);
    n.(hosted := if Coming(w).fault.Refused? then n.hosted
                 else n.hosted.(files := n.hosted.files[d.envelope.location := body]),
       attempts := n.attempts + [Attempt(d.envelope.location, body)])
  }

  class Host {
    var hosted: Hosted
    var turns: seq<Turn>
    var attempts: seq<Attempt>

    constructor (hosted: Hosted, turns: seq<Turn>)
      ensures State() == World(hosted, turns, [])
    {
      this.hosted, this.turns, this.attempts := hosted, turns, [];
    }

    function State(): World
      reads this
    {
      World(hosted, turns, attempts)
    }

    method TakeTurn() returns (fault: Fault)
      modifies this
      ensures State() == Turned(old(State())) && fault == Coming(old(State())).fault
    {
      var turn := QUIET_TURN;
      if turns != [] {
        turn := turns[0];
        turns := turns[1..];
      }
      if turn.interference.Some? {
        hosted := turn.interference.value;
      }
      fault := turn.fault;
    }

    method GetAuth(authIndex: string) returns (r: Result<Document, bool>)
      modifies this
      ensures State() == Turned(old(State())) && r == Fetched(old(State()), authIndex)
    {
      var fault := TakeTurn();
      if fault != NoFault {
        return Err(fault.Refused? && fault.canceled);
      }
      var found := Kept(hosted, authIndex);
      if found.None? {
        return Err(false);
      }
      return Ok(found.value);
    }

    method ReplaceAuth(d: Document, body: Body) returns (ok: bool)
      modifies this
      ensures State() == Replaced(old(State()), d, body) && (ok <==> Coming(old(State())).fault == NoFault)
    {
      var fault := TakeTurn();
      attempts := attempts + [Attempt(d.envelope.location, body)];
      if !fault.Refused? {
        hosted := hosted.(files := hosted.files[d.envelope.location := body]);
      }
      ok := fault == NoFault;
    }
  }

  // --------------------------------------------------------------- a transition

  /** When the caller's context is found cancelled. */
  datatype Context = Context(atStart: bool, afterRead: bool, beforeWrite: bool)

  function ReadBack(w: World, authIndex: string): Option<Observed> {
    match Fetched(w, authIndex)
    case Ok(d) => Decode(d)
    case Err(_) => None
  }

  /** The report once a replacement was attempted, from the document read afterwards. */
  function Judged(i: Intent, before: Observed, target: Observed, final: Option<Observed>, acknowledged: bool): Report {
    if final.None? then Report(Uncertain, VerificationUnreadable)
    else if SameFields(target, final.value) && IdentityMatches(i, final.value) then Report(Committed, Verified)
    else if !acknowledged && ConflictOf(i.expected, final.value).None? && SameDecision(final.value, before) then
      Report(Failed, CommitFailed)
    else Report(Uncertain, VerificationFailed)
  }

  /** What one intent, already normalised, decides from the first read alone. */
  datatype Decision = Stop(report: Report) | Write(document: Document, before: Observed)

  function Decided(w: World, i: Intent, ctx: Context): Decision {
    match Fetched(w, i.authIndex)
    case Err(canceled) => Stop(Report(Failed, if canceled || ctx.afterRead then Canceled else ReadFailed))
    case Ok(d) =>
      var current := Decode(d);
      if current.None? then Stop(Report(Failed, DecodeFailed))
      else
        var conflict := ConflictOf(i.expected, current.value);
        if conflict.Some? then Stop(Report(Conflict, conflict.value))
        else if Targeted(current.value, i) == current.value then Stop(Report(NoChange, Satisfied))
        else if ctx.beforeWrite then Stop(Report(Failed, Canceled))
        else Write(d, current.value)
  }

  function Encoded(d: Document, before: Observed, i: Intent): Body
    requires d.body.Object?
  {
    Object(Edited(before, d.body.fields, i))
  }

  function Outcomes(w: World, intent: Intent, ctx: Context): (World, Report) {
    var i := Normalized(intent);
    if i.authIndex == "" then (w, Report(Failed, InvalidIntent))
    else if ctx.atStart then (w, Report(Failed, Canceled))
    else
      match Decided(w, i, ctx)
      case Stop(report) => (Turned(w), report)
      case Write(d, before) =>
        var written := Replaced(Turned(w), d, Encoded(d, before, i));
        (Turned(written),
         Judged(i, before, Targeted(before, i), ReadBack(written, i.authIndex), Coming(Turned(w)).fault == NoFault))
  }

  method ReadFinal(host: Host, authIndex: string) returns (final: Option<Observed>)
    modifies host
    ensures host.State() == Turned(old(host.State())) && final == ReadBack(old(host.State()), authIndex)
  {
    var latest := host.GetAuth(authIndex);
    if latest.Err? {
      return None;
    }
    final := Decode(latest.value);
  }

  method ExecuteOne(host: Host, intent: Intent, ctx: Context) returns (report: Report)
    modifies host
    ensures (host.State(), report) == Outcomes(old(host.State()), intent, ctx)
  {
    var i := Normalized(intent);
    if i.authIndex == "" {
      return Report(Failed, InvalidIntent);
    }
    if ctx.atStart {
      return Report(Failed, Canceled);
    }
    var read := host.GetAuth(i.authIndex);
    if read.Err? {
      return Report(Failed, if read.error || ctx.afterRead then Canceled else ReadFailed);
    }
    var document := read.value;
    var decoded := Decode(document);
    if decoded.None? {
      return Report(Failed, DecodeFailed);
    }
    var conflict := ConflictOf(i.expected, decoded.value);
    if conflict.Some? {
      return Report(Conflict, conflict.value);
    }
    var fields, target, changed := ApplyTarget(decoded.value, document.body.fields, i);
    if !changed {
      return Report(NoChange, Satisfied);
    }
    if ctx.beforeWrite {
      return Report(Failed, Canceled);
    }
    var ok := host.ReplaceAuth(document, Object(fields));
    var final := ReadFinal(host, i.authIndex);
    if final.None? {
      return Report(Uncertain, VerificationUnreadable);
    }
    if SameFields(target, final.value) && IdentityMatches(i, final.value) {
      return Report(Committed, Verified);
    }
    if !ok && ConflictOf(i.expected, final.value).None? && SameDecision(final.value, decoded.value) {
      return Report(Failed, CommitFailed);
    }
    report := Report(Uncertain, VerificationFailed);
  }

  // ---------------------------------------------------------------- guarantees

  predicate WroteNothing(before: World, after: World) {
    after.attempts == before.attempts
  }

  /** At most one replacement is attempted, and the outcomes that promise none attempt none. */
  lemma WritesAtMostOnce(w: World, intent: Intent, ctx: Context)
    ensures var (after, report) := Outcomes(w, intent, ctx);
            && (WroteNothing(w, after) <==>
                  report.outcome in {NoChange, Conflict} || (report.outcome == Failed && report.cause != CommitFailed))
            && (!WroteNothing(w, after) ==> exists a :: after.attempts == w.attempts + [a])
  {
    hide Decode, Fetched, ConflictOf, Targeted, Edited, ReadBack;
    var i := Normalized(intent);
    if i.authIndex != "" && !ctx.atStart {
      match Decided(w, i, ctx)
      case Stop(_) =>
      case Write(d, before) =>
        DecodedIsObject(d);
        var a := Attempt(d.envelope.location, Encoded(d, before, i));
        var (after, _) := Outcomes(w, intent, ctx);
        assert after.attempts == w.attempts + [a];
        assert after.attempts[|w.attempts|] == a;
    }
  }

  predicate SameExcept(a: map<string, Value>, b: map<string, Value>, keys: set<string>) {
    && a.Keys - keys == b.Keys - keys
    && forall k :: k in a && k !in keys ==> k in b && b[k] == a[k]
  }

  /** A replacement goes back where the document came from and touches nothing the intent leaves alone. */
  lemma WritesOnlyItsFields(w: World, intent: Intent, ctx: Context)
    ensures var (after, _) := Outcomes(w, intent, ctx);
            after.attempts != w.attempts ==>
              var read := Fetched(w, Normalized(intent).authIndex);
              && read.Ok? && read.value.body.Object?
              && var attempt := after.attempts[|after.attempts| - 1];
              && attempt.location == read.value.envelope.location
              && attempt.body.Object?
              && attempt.body.fields != read.value.body.fields
              && SameExcept(read.value.body.fields, attempt.body.fields,
                            (if intent.priority.Keep? then {} else {PRIORITY})
                            + (if intent.disabled.Keep? then {} else {DISABLED}))
  {
    hide Decode, Fetched, Targeted, Edited, SameExcept, Judged, ReadBack, ConflictOf;
    var i := Normalized(intent);
    if i.authIndex != "" && !ctx.atStart {
      match Decided(w, i, ctx)
      case Stop(_) =>
      case Write(d, before) =>
        DecodedIsObject(d);
        EditReadsAsTarget(d, before, i);
        assert Encoded(d, before, i) != d.body by { SameBodyReadsSame(d, before, i); }
        EditTouches(before, d.body.fields, i);
    }
  }

  lemma DecodedIsObject(d: Document)
    ensures Decode(d).Some? ==> d.body.Object?
  {
  }

  lemma SameBodyReadsSame(d: Document, before: Observed, i: Intent)
    requires d.body.Object? && Decode(d) == Some(before) && Targeted(before, i) != before
    requires Decode(d.(body := Encoded(d, before, i))) == Some(Targeted(before, i))
    ensures Encoded(d, before, i) != d.body
  {
    hide Decode, Targeted, Encoded;
  }

  lemma EditTouches(before: Observed, fields: map<string, Value>, i: Intent)
    ensures SameExcept(fields, Edited(before, fields, i),
                       (if i.priority.Keep? then {} else {PRIORITY}) + (if i.disabled.Keep? then {} else {DISABLED}))
  {
  }

  /** Reading back what the intent wrote yields exactly its target. */
  lemma EditReadsAsTarget(d: Document, before: Observed, i: Intent)
    requires d.body.Object? && Decode(d) == Some(before)
    ensures Decode(d.(body := Encoded(d, before, i))) == Some(Targeted(before, i))
  {
    assert PRIORITY != DISABLED by { assert PRIORITY[0] != DISABLED[0]; }
    assert PRIORITY != AUTH_INDEX by { assert PRIORITY[0] != AUTH_INDEX[0]; }
    assert PRIORITY != NAME by { assert PRIORITY[0] != NAME[0]; }
    assert DISABLED != AUTH_INDEX by { assert DISABLED[0] != AUTH_INDEX[0]; }
    assert DISABLED != NAME by { assert DISABLED[0] != NAME[0]; }
  }

  /** Committed means that the store, as last read, showed the target under the intended identity. */
  lemma CommittedIsVisible(w: World, intent: Intent, ctx: Context)
    ensures var (after, report) := Outcomes(w, intent, ctx);
            var i := Normalized(intent);
            report.outcome == Committed ==>
              var start := Fetched(w, i.authIndex);
              var kept := Kept(after.hosted, i.authIndex);
              && start.Ok? && Decode(start.value).Some?
              && kept.Some? && Decode(kept.value).Some?
              && SameFields(Targeted(Decode(start.value).value, i), Decode(kept.value).value)
              && Decode(kept.value).value.authIndex == i.authIndex
  {
  }

  // ----------------------------------------------------- what each report means

  /** The index an intent is about. */
  function IndexOf(i: Intent): string {
    if i.authIndex != "" then i.authIndex else i.expected.authIndex
  }

  /** A document is as the intent expects it: identity, priority, and whether it is disabled if that was known. */
  predicate Agrees(i: Intent, actual: Observed) {
    && actual.authIndex == (if i.expected.authIndex != "" then i.expected.authIndex else i.authIndex)
    && actual.priority == i.expected.priority
    && (i.expected.disabledKnown ==> actual.disabled == i.expected.disabled)
  }

  /** The first expectation that fails. */
  predicate Disagreement(i: Intent, actual: Observed, cause: Cause) {
    match cause
    case IdentityConflict => !Agrees(i, actual.(priority := i.expected.priority, disabled := i.expected.disabled))
    case PriorityConflict =>
      actual.priority != i.expected.priority && Agrees(i, actual.(priority := i.expected.priority, disabled := i.expected.disabled))
    case DisabledConflict =>
      i.expected.disabledKnown && actual.disabled != i.expected.disabled && Agrees(i, actual.(disabled := i.expected.disabled))
    case _ => false
  }

  /** A document shows what the intent asks for, and what was there before where it asks for nothing. */
  predicate Shows(i: Intent, before: Observed, now: Observed) {
    && (match i.priority
        case Keep => now.priority == before.priority
        case Put(v) => now.priority == Some(v)
        case Unset => now.priority == None)
    && (match i.disabled
        case Keep => now.disabled == before.disabled && now.disabledKnown == before.disabledKnown
        case Put(v) => now.disabled == v && now.disabledKnown
        case Unset => !now.disabled && !now.disabledKnown)
  }

  function TurnAt(w: World, n: nat): Turn {
    if n < |w.turns| then w.turns[n] else QUIET_TURN
  }

  /** The document as the verifying read, the third call, found it. */
  function FinalRead(w: World, after: World, authIndex: string): Option<Observed> {
    if TurnAt(w, 2).fault != NoFault || Kept(after.hosted, authIndex).None? then None
    else Decode(Kept(after.hosted, authIndex).value)
  }

  lemma ConflictIsDisagreement(intent: Intent, actual: Observed)
    requires IndexOf(intent) != ""
    ensures var conflict := ConflictOf(Normalized(intent).expected, actual);
            && (conflict.None? <==> Agrees(intent, actual))
            && (conflict.Some? ==> Disagreement(intent, actual, conflict.value))
  {
  }

  lemma TargetIsShown(intent: Intent, d: Document, before: Observed, now: Observed)
    requires Decode(d) == Some(before)
    ensures Shows(intent, before, now) <==> SameFields(Targeted(before, Normalized(intent)), now)
    ensures Targeted(before, Normalized(intent)) == before <==> Shows(intent, before, before)
  {
    assert before.disabled ==> before.disabledKnown;
    hide Decode;
  }

  /**
    What every report says happened. A replacement is attempted only if the
    document read is as expected and not yet as asked for, and what is
    attempted shows what is asked for; a conflict is reported exactly when the
    document read is not as expected; committed exactly when, after the
    attempt, the document of that identity shows what is asked for.
   */
  lemma ReportsMeanWhatTheySay(w: World, intent: Intent, ctx: Context)
    ensures var (after, report) := Outcomes(w, intent, ctx);
            var index := IndexOf(intent);
            var read := Fetched(w, index);
            var found := if read.Ok? then Decode(read.value) else None;
            if index == "" then report == Report(Failed, InvalidIntent) && after == w
            else if ctx.atStart then report == Report(Failed, Canceled) && after == w
            else if read.Err? then
              report == Report(Failed, if read.error || ctx.afterRead then Canceled else ReadFailed) && after.attempts == w.attempts
            else if found.None? then report == Report(Failed, DecodeFailed) && after.attempts == w.attempts
            else if !Agrees(intent, found.value) then
              report.outcome == Conflict && Disagreement(intent, found.value, report.cause) && after.attempts == w.attempts
            else if Shows(intent, found.value, found.value) then report == Report(NoChange, Satisfied) && after.attempts == w.attempts
            else if ctx.beforeWrite then report == Report(Failed, Canceled) && after.attempts == w.attempts
            else
              && AttemptShows(w, after, read.value, intent, found.value)
              && report == (match FinalRead(w, after, index)
                            case None => Report(Uncertain, VerificationUnreadable)
                            case Some(now) =>
                              if now.authIndex == index && Shows(intent, found.value, now) then Report(Committed, Verified)
                              else if TurnAt(w, 1).fault != NoFault && Agrees(intent, now)
                                      && now.priority == found.value.priority && now.disabled == found.value.disabled
                              then Report(Failed, CommitFailed)
                              else Report(Uncertain, VerificationFailed))
  {
    var i := Normalized(intent);
    var read := Fetched(w, i.authIndex);
    if i.authIndex != "" && !ctx.atStart && read.Ok? && Decode(read.value).Some? {
      var before := Decode(read.value).value;
      ConflictIsDisagreement(intent, before);
      TargetIsShown(intent, read.value, before, before);
      if Decided(w, i, ctx).Write? {
        WriteMeans(w, intent, ctx, before);
      }
    }
    hide Fetched, Decode, ConflictOf, Targeted, Edited, Agrees, Disagreement, Shows, ReadBack, Replaced, Judged, AttemptShows, FinalRead, Turned;
  }

  /** Exactly one replacement was attempted, where the document came from, and it shows what the intent asks for. */
  ghost predicate AttemptShows(w: World, after: World, d: Document, intent: Intent, before: Observed) {
    && |after.attempts| == |w.attempts| + 1 && after.attempts[..|w.attempts|] == w.attempts
    && var attempt := after.attempts[|w.attempts|];
    && attempt.location == d.envelope.location
    && var written := Decode(d.(body := attempt.body));
    && written.Some? && written.value.authIndex == before.authIndex && Shows(intent, before, written.value)
  }

  lemma WriteMeans(w: World, intent: Intent, ctx: Context, before: Observed)
    requires var i := Normalized(intent);
             && i.authIndex != "" && !ctx.atStart && Decided(w, i, ctx).Write? && Decided(w, i, ctx).before == before
             && Fetched(w, i.authIndex) == Ok(Decided(w, i, ctx).document) && Decode(Decided(w, i, ctx).document) == Some(before)
    ensures var (after, report) := Outcomes(w, intent, ctx);
            && AttemptShows(w, after, Decided(w, Normalized(intent), ctx).document, intent, before)
            && report == (match FinalRead(w, after, IndexOf(intent))
                          case None => Report(Uncertain, VerificationUnreadable)
                          case Some(now) =>
                            if now.authIndex == IndexOf(intent) && Shows(intent, before, now) then Report(Committed, Verified)
                            else if TurnAt(w, 1).fault != NoFault && Agrees(intent, now)
                                    && now.priority == before.priority && now.disabled == before.disabled
                            then Report(Failed, CommitFailed)
                            else Report(Uncertain, VerificationFailed))
  {
    hide Decode, Fetched, ConflictOf, Targeted, Edited, Agrees, Shows, ReadBack, FinalRead, Disagreement;
    var i := Normalized(intent);
    var d := Decided(w, i, ctx).document;
    DecodedIsObject(d);
    var written := Replaced(Turned(w), d, Encoded(d, before, i));
    EditReadsAsTarget(d, before, i);
    TargetIsShown(intent, d, before, Targeted(before, i));
    TargetKeepsIdentity(before, i);
    ThreeTurns(w, d, Encoded(d, before, i), i.authIndex);
    var final := ReadBack(written, i.authIndex);
    if final.Some? {
      TargetIsShown(intent, d, before, final.value);
      ConflictIsDisagreement(intent, final.value);
    }
    hide Decided, Replaced;
  }

  /** The second and third call of a transition meet the second and third turn. */
  lemma ThreeTurns(w: World, d: Document, body: Body, authIndex: string)
    ensures var written := Replaced(Turned(w), d, body);
            && Coming(Turned(w)) == TurnAt(w, 1)
            && ReadBack(written, authIndex) == FinalRead(w, Turned(written), authIndex)
            && Turned(written).attempts == w.attempts + [Attempt(d.envelope.location, body)]
  {
    hide Decode;
  }

  // ------------------------------------------------------------- a quiet store

  predicate Quiet(w: World) {
    forall t :: t in w.turns ==> t == QUIET_TURN
  }

  lemma QuietTurn(w: World)
    requires Quiet(w)
    ensures Coming(w) == QUIET_TURN && Turned(w).hosted == w.hosted && Quiet(Turned(w))
    ensures Turned(w).attempts == w.attempts
  {
    if w.turns != [] {
      assert w.turns[0] in w.turns && forall t :: t in w.turns[1..] ==> t in w.turns;
    }
  }

  const UNCANCELED := Context(false, false, false)

  /**
    With nobody interfering, a change that is free of conflicts is reported as
    committed exactly when the two identities of the intent agree.
   */
  lemma QuietChangeCommits(w: World, intent: Intent)
    requires Quiet(w)
    requires var i := Normalized(intent);
             && i.authIndex != ""
             && Decided(w, i, UNCANCELED).Write?
    ensures var (after, report) := Outcomes(w, intent, UNCANCELED);
            var i := Normalized(intent);
            && (report.outcome == Committed <==> i.authIndex == i.expected.authIndex)
            && (report.outcome != Committed <==> report == Report(Uncertain, VerificationFailed))
            && Quiet(after)
            && Kept(after.hosted, i.authIndex).Some?
            && Kept(w.hosted, i.authIndex).Some? && Decode(Kept(w.hosted, i.authIndex).value).Some?
            && Decode(Kept(after.hosted, i.authIndex).value)
               == Some(Targeted(Decode(Kept(w.hosted, i.authIndex).value).value, i))
  {
    var i := Normalized(intent);
    var d, before := Decided(w, i, UNCANCELED).document, Decided(w, i, UNCANCELED).before;
    QuietTurn(w);
    QuietTurn(Turned(w));
    EditReadsAsTarget(d, before, i);
    hide Decode, Edited, Targeted;
    var written := Replaced(Turned(w), d, Encoded(d, before, i));
    assert Quiet(written);
    QuietTurn(written);
    assert Kept(written.hosted, i.authIndex) == Some(d.(body := Encoded(d, before, i)));
    assert Targeted(before, i).authIndex == before.authIndex by { TargetKeepsIdentity(before, i); }
  }

  lemma TargetKeepsIdentity(before: Observed, i: Intent)
    ensures Targeted(before, i).authIndex == before.authIndex
  {
  }

  /** Running a committed intent again attempts no second replacement. */
  lemma RetryWritesNothing(w: World, intent: Intent)
    requires Quiet(w) && Outcomes(w, intent, UNCANCELED).1.outcome == Committed
    ensures var after := Outcomes(w, intent, UNCANCELED).0;
            WroteNothing(after, Outcomes(after, intent, UNCANCELED).0)
  {
    var i := Normalized(intent);
    assert Decided(w, i, UNCANCELED).Write?;
    QuietChangeCommits(w, intent);
    var after := Outcomes(w, intent, UNCANCELED).0;
    QuietTurn(w);
    QuietTurn(after);
    var start := Decode(Kept(w.hosted, i.authIndex).value).value;
    assert Fetched(after, i.authIndex) == Ok(Kept(after.hosted, i.authIndex).value);
    assert Decode(Kept(after.hosted, i.authIndex).value) == Some(Targeted(start, i));
    hide Decode;
    assert Targeted(Targeted(start, i), i) == Targeted(start, i);
  }

  // ------------------------------------------------------------------- a round

  datatype Totals = Totals(attempted: nat, noChange: nat, committed: nat, failed: nat, conflicts: nat, uncertain: nat)

  function Tally(reports: seq<Report>, outcome: Outcome): nat {
    if reports == [] then 0
    else Tally(reports[..|reports| - 1], outcome) + if reports[|reports| - 1].outcome == outcome then 1 else 0
  }

  function Round(w: World, intents: seq<Intent>, ctxs: seq<Context>): (World, seq<Report>)
    requires |ctxs| == |intents|
  {
    if intents == [] then (w, [])
    else
      var n := |intents| - 1;
      var (between, reports) := Round(w, intents[..n], ctxs[..n]);
      var (after, report) := Outcomes(between, intents[n], ctxs[n]);
      (after, reports + [report])
  }

  /** Every intent is tried once, whatever became of the ones before it. */
  method Execute(host: Host, intents: seq<Intent>, ctxs: seq<Context>)
    returns (details: seq<Report>, totals: Totals)
    requires |ctxs| == |intents|
    modifies host
    ensures (host.State(), details) == Round(old(host.State()), intents, ctxs)
    ensures totals == Totals(|intents|, Tally(details, NoChange), Tally(details, Committed), Tally(details, Failed),
                             Tally(details, Conflict), Tally(details, Uncertain))
  {
    hide Outcomes;
    details, totals := [], Totals(0, 0, 0, 0, 0, 0);
    for k := 0 to |intents|
      invariant (host.State(), details) == Round(old(host.State()), intents[..k], ctxs[..k])
      invariant |details| == k
      invariant totals == Totals(k, Tally(details, NoChange), Tally(details, Committed), Tally(details, Failed),
                                 Tally(details, Conflict), Tally(details, Uncertain))
    {
      assert intents[..k + 1][..k] == intents[..k] && ctxs[..k + 1][..k] == ctxs[..k];
      var detail := ExecuteOne(host, intents[k], ctxs[k]);
      ghost var earlier := details;
      details := details + [detail];
      assert details[..k] == earlier;
      totals := totals.(attempted := totals.attempted + 1);
      match detail.outcome {
        case NoChange => totals := totals.(noChange := totals.noChange + 1);
        case Committed => totals := totals.(committed := totals.committed + 1);
        case Failed => totals := totals.(failed := totals.failed + 1);
        case Conflict => totals := totals.(conflicts := totals.conflicts + 1);
        case Uncertain => totals := totals.(uncertain := totals.uncertain + 1);
      }
    }
    assert intents[..|intents|] == intents && ctxs[..|intents|] == ctxs;
  }

  /** A round accounts for every intent once, and attempts at most one replacement for each. */
  lemma {:induction false} RoundAddsUp(w: World, intents: seq<Intent>, ctxs: seq<Context>)
    requires |ctxs| == |intents|
    ensures var (after, reports) := Round(w, intents, ctxs);
            && |reports| == |intents|
            && Tally(reports, NoChange) + Tally(reports, Committed) + Tally(reports, Failed)
               + Tally(reports, Conflict) + Tally(reports, Uncertain) == |intents|
            && |w.attempts| + Tally(reports, Committed) + Tally(reports, Uncertain)
               <= |after.attempts| <= |w.attempts| + |intents| - Tally(reports, NoChange) - Tally(reports, Conflict)
  {
    hide Outcomes;
    if intents != [] {
      var n := |intents| - 1;
      RoundAddsUp(w, intents[..n], ctxs[..n]);
      var (between, reports) := Round(w, intents[..n], ctxs[..n]);
      var (after, report) := Outcomes(between, intents[n], ctxs[n]);
      assert Round(w, intents, ctxs) == (after, reports + [report]);
      hide Round;
      WritesAtMostOnce(between, intents[n], ctxs[n]);
      forall outcome { TallyMore(reports, report, outcome); }
      hide Tally;
    }
  }

  lemma TallyMore(reports: seq<Report>, report: Report, outcome: Outcome)
    ensures Tally(reports + [report], outcome) == Tally(reports, outcome) + if report.outcome == outcome then 1 else 0
  {
    assert (reports + [report])[..|reports|] == reports;
  }
}
