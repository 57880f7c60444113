/**
  From the quota windows of one model group to the breaker: which bucket speaks
  for each window length, what the group's probe result says, how the guard
  condenses it, and what that does to a breaker.
 */
module QuotaWindows {
  import opened GuardTypes
  import opened Breaker

  datatype Length = FiveHour | Weekly | Unrecognised

  /** A bucket with a readable share left (a percentage, never negative) and reset time. */
  datatype Window = Window(resetAt: Time, remaining: nat, length: Length)

  /** A probe result; the group, identity and time are filled in by the caller of the parser. */
  datatype Probe = Probe(
    antigravity: bool,
    ready: bool,
    authIndex: string,
    group: Group,
    observedAt: Time,
    resetAt: Option<Time>,
    remaining: Option<int>,
    shortResetAt: Option<Time>,
    shortRemaining: Option<int>,
    longResetAt: Option<Time>,
    longRemaining: Option<int>)

  /** The quota evidence of a probe; its burn rate is filled in later. */
  datatype Quota = Quota(
    antigravity: bool,
    authIndex: string,
    group: Group,
    observedAt: Time,
    resetAt: Option<Time>,
    remaining: Option<int>,
    shortResetAt: Option<Time>,
    shortRemaining: Option<int>,
    longResetAt: Option<Time>,
    longRemaining: Option<int>,
    burnRate: real)

  function QuotaOf(p: Probe): Quota {
    Quota(p.antigravity, p.authIndex, p.group, p.observedAt, p.resetAt, p.remaining,
          p.shortResetAt, p.shortRemaining, p.longResetAt, p.longRemaining, 0.0)
  }

  // ------------------------------------------------------- the speaking bucket

  predicate Beats(a: Window, b: Window) {
    a.remaining < b.remaining || (a.remaining == b.remaining && a.resetAt > b.resetAt)
  }

  /** The bucket of one length with the least left, the latest reset breaking ties. */
  ghost predicate IsWorst(ws: seq<Window>, length: Length, worst: Option<Window>) {
    match worst
    case None => forall w :: w in ws ==> w.length != length
    case Some(v) =>
      && v in ws && v.length == length
      && forall w :: w in ws && w.length == length ==> !Beats(w, v)
  }

  method FirstWindow(ws: seq<Window>, length: Length) returns (selected: Option<Window>)
    ensures IsWorst(ws, length, selected)
  {
    selected := None;
    for i := 0 to |ws|
      invariant IsWorst(ws[..i], length, selected)
    {
      assert ws[..i + 1] == ws[..i] + [ws[i]];
      if ws[i].length == length && (selected.None? || Beats(ws[i], selected.value)) {
        selected := Some(ws[i]);
      }
    }
    assert ws[..|ws|] == ws;
  }

  function Worst(ws: seq<Window>, length: Length): (worst: Option<Window>)
    ensures IsWorst(ws, length, worst)
  {
    if ws == [] then None
    else
      var n := |ws| - 1;
      var rest := Worst(ws[..n], length);
      assert ws == ws[..n] + [ws[n]];
      if ws[n].length == length && (rest.None? || Beats(ws[n], rest.value)) then Some(ws[n]) else rest
  }

  lemma WorstIsUnique(ws: seq<Window>, length: Length, a: Option<Window>, b: Option<Window>)
    requires IsWorst(ws, length, a) && IsWorst(ws, length, b)
    ensures a == b
  {
    if a.Some? && b.Some? {
      assert !Beats(a.value, b.value) && !Beats(b.value, a.value);
    }
  }

  // ------------------------------------------------------------ a probe result

  /** The window a group's headline figures come from. */
  function Effective(ws: seq<Window>): Option<Window> {
    var short := Worst(ws, FiveHour);
    var long := Worst(ws, Weekly);
    if short.Some? && long.Some? then
      if long.value.remaining <= 0 then long else short
    else if long.Some? then long
    else if short.Some? then short
    else if ws != [] then Some(ws[0])
    else None
  }

  method PickEffectiveWindow(ws: seq<Window>) returns (selected: Option<Window>)
    ensures selected == Effective(ws)
  {
    var short := FirstWindow(ws, FiveHour);
    var long := FirstWindow(ws, Weekly);
    WorstIsUnique(ws, FiveHour, short, Worst(ws, FiveHour));
    WorstIsUnique(ws, Weekly, long, Worst(ws, Weekly));
    if short.Some? && long.Some? {
      if long.value.remaining <= 0 {
        return long;
      }
      return short;
    }
    if long.Some? {
      return long;
    }
    if short.Some? {
      return short;
    }
    if ws != [] {
      return Some(ws[0]);
    }
    return None;
  }

  function ResetOf(w: Option<Window>): Option<Time> {
    if w.Some? then Some(w.value.resetAt) else None
  }

  function LeftOf(w: Option<Window>): Option<int> {
    if w.Some? then Some(w.value.remaining) else None
  }

  function Parsed(ws: seq<Window>, authIndex: string, group: Group, observedAt: Time): Probe {
    var chosen := Effective(ws);
    if chosen.None? then Probe(true, false, authIndex, group, observedAt, None, None, None, None, None, None)
    else
      var short := Worst(ws, FiveHour);
      var long := Worst(ws, Weekly);
      Probe(true, true, authIndex, group, observedAt, ResetOf(chosen), LeftOf(chosen),
            ResetOf(short), LeftOf(short), ResetOf(long), LeftOf(long))
  }

  method ParseGroup(ws: seq<Window>, authIndex: string, group: Group, observedAt: Time) returns (p: Probe)
    ensures p == Parsed(ws, authIndex, group, observedAt)
  {
    var chosen := PickEffectiveWindow(ws);
    if chosen.None? {
      return Probe(true, false, authIndex, group, observedAt, None, None, None, None, None, None);
    }
    p := Probe(true, true, authIndex, group, observedAt, Some(chosen.value.resetAt), Some(chosen.value.remaining),
               None, None, None, None);
    var short := FirstWindow(ws, FiveHour);
    WorstIsUnique(ws, FiveHour, short, Worst(ws, FiveHour));
    if short.Some? {
      p := p.(shortResetAt := Some(short.value.resetAt), shortRemaining := Some(short.value.remaining));
    }
    var long := FirstWindow(ws, Weekly);
    WorstIsUnique(ws, Weekly, long, Worst(ws, Weekly));
    if long.Some? {
      p := p.(longResetAt := Some(long.value.resetAt), longRemaining := Some(long.value.remaining));
    }
  }

  // -------------------------------------------------------- the guard's reading

  /** The single percentage and reset the guard keeps of a probe. */
  datatype Reading = Reading(remaining: real, resetAt: Time)

  function Least(a: Option<int>, b: Option<int>): Option<int> {
    if a.None? then b else if b.Some? && b.value < a.value then b else a
  }

  function Deferred(resetAt: Time, left: Option<int>, reset: Option<Time>): Time {
    if left.Some? && left.value <= 0 && reset.Some? then Later(resetAt, reset.value) else resetAt
  }

  function Condensed(q: Quota): Option<Reading> {
    var least := Least(Least(q.remaining, q.shortRemaining), q.longRemaining);
    if least.None? then None
    else
      var stated := if q.resetAt.Some? then q.resetAt.value else 0;
      var resetAt := Deferred(Deferred(stated, q.shortRemaining, q.shortResetAt), q.longRemaining, q.longResetAt);
      var left := if least.value < 0 then 0 else if least.value > 100 then 100 else least.value;
      Some(Reading(left as real, resetAt))
  }

  /** What the guard makes of quota evidence, for the identity that was probed. */
  function EvidenceFor(q: Quota, id: Identity, group: Group): Option<Evidence> {
    match Condensed(q)
    case None => None
    case Some(reading) =>
      Some(Evidence(q.authIndex, id.authID, id.fingerprint, group, reading.remaining, reading.resetAt,
                    q.observedAt, "quota_probe"))
  }

  /** The evidence the guard derives from a group's windows. */
  function EvidenceOf(ws: seq<Window>, id: Identity, group: Group, observedAt: Time): Option<Evidence> {
    EvidenceFor(QuotaOf(Parsed(ws, id.authIndex, group, observedAt)), id, group)
  }

  // --------------------------------------------------------------- what it means

  /** A five-hour or weekly bucket with nothing left. */
  predicate Depleted(w: Window) {
    w.length != Unrecognised && w.remaining == 0
  }

  predicate HasKnown(ws: seq<Window>) {
    exists w :: w in ws && w.length != Unrecognised
  }

  ghost predicate IsLatestDepleted(ws: seq<Window>, t: Time) {
    && (exists w :: w in ws && Depleted(w) && w.resetAt == t)
    && (forall w :: w in ws && Depleted(w) ==> w.resetAt <= t)
  }

  lemma DepletedIsWorst(ws: seq<Window>, w: Window)
    requires w in ws && Depleted(w)
    ensures var v := Worst(ws, w.length); v.Some? && Depleted(v.value) && w.resetAt <= v.value.resetAt
  {
    assert IsWorst(ws, w.length, Worst(ws, w.length));
    assert !Beats(w, Worst(ws, w.length).value);
  }

  lemma WorstIsThere(ws: seq<Window>, length: Length)
    ensures var v := Worst(ws, length);
            if v.Some? then v.value in ws && v.value.length == length else forall w :: w in ws ==> w.length != length
  {
  }

  predicate Empty(w: Option<Window>) {
    w.Some? && w.value.remaining == 0
  }

  /** The reading in terms of the two speaking buckets. */
  lemma ReadingOfTwo(ws: seq<Window>, authIndex: string, group: Group, observedAt: Time)
    requires Worst(ws, FiveHour).Some? || Worst(ws, Weekly).Some?
    ensures var r := Condensed(QuotaOf(Parsed(ws, authIndex, group, observedAt)));
            var short, long := Worst(ws, FiveHour), Worst(ws, Weekly);
            && r.Some? && 0.0 <= r.value.remaining <= 100.0
            && (r.value.remaining == 0.0 <==> Empty(short) || Empty(long))
            && (Empty(short) || Empty(long) ==>
                  r.value.resetAt == Later(if Empty(short) then short.value.resetAt else 0,
                                           if Empty(long) then long.value.resetAt else 0))
  {
    hide Worst, IsWorst;
  }

  /** A share as the guard reads it. */
  function Percent(remaining: nat): real {
    if remaining > 100 then 100.0 else remaining as real
  }

  /** The reading is the least share left in any recognised bucket. */
  lemma ReadingIsLeast(ws: seq<Window>, authIndex: string, group: Group, observedAt: Time)
    requires HasKnown(ws)
    ensures var r := Condensed(QuotaOf(Parsed(ws, authIndex, group, observedAt)));
            && r.Some?
            && (exists w :: w in ws && w.length != Unrecognised && r.value.remaining == Percent(w.remaining))
            && (forall w :: w in ws && w.length != Unrecognised ==> r.value.remaining <= Percent(w.remaining))
  {
    WorstIsThere(ws, FiveHour);
    WorstIsThere(ws, Weekly);
    LeastOfTwo(ws, authIndex, group, observedAt);
    forall w | w in ws && w.length != Unrecognised
      ensures var v := Worst(ws, w.length); v.Some? && v.value.remaining <= w.remaining
    {
      WorstIsLeast(ws, w);
    }
    hide Condensed, Parsed, Worst, IsWorst, QuotaOf;
  }

  /** Of any quota, the guard waits for the reset it states, or for that of an empty window if it is later. */
  lemma ReadingWaitsForEmpty(q: Quota)
    requires Condensed(q).Some?
    ensures var at := Condensed(q).value.resetAt;
            && (q.resetAt.Some? ==> at >= q.resetAt.value)
            && (q.shortRemaining.Some? && q.shortRemaining.value <= 0 && q.shortResetAt.Some? ==> at >= q.shortResetAt.value)
            && (q.longRemaining.Some? && q.longRemaining.value <= 0 && q.longResetAt.Some? ==> at >= q.longResetAt.value)
            && (|| at == 0 || q.resetAt == Some(at)
                || (q.shortRemaining.Some? && q.shortRemaining.value <= 0 && q.shortResetAt == Some(at))
                || (q.longRemaining.Some? && q.longRemaining.value <= 0 && q.longResetAt == Some(at)))
  {
  }

  lemma WorstIsLeast(ws: seq<Window>, w: Window)
    requires w in ws
    ensures var v := Worst(ws, w.length); v.Some? && v.value.remaining <= w.remaining
  {
    assert IsWorst(ws, w.length, Worst(ws, w.length));
    assert !Beats(w, Worst(ws, w.length).value);
  }

  lemma LeastOfTwo(ws: seq<Window>, authIndex: string, group: Group, observedAt: Time)
    requires Worst(ws, FiveHour).Some? || Worst(ws, Weekly).Some?
    ensures var r := Condensed(QuotaOf(Parsed(ws, authIndex, group, observedAt)));
            var short, long := Worst(ws, FiveHour), Worst(ws, Weekly);
            && r.Some?
            && (short.Some? ==> r.value.remaining <= Percent(short.value.remaining))
            && (long.Some? ==> r.value.remaining <= Percent(long.value.remaining))
            && ((short.Some? && r.value.remaining == Percent(short.value.remaining))
                || (long.Some? && r.value.remaining == Percent(long.value.remaining)))
  {
    hide Worst, IsWorst;
  }

  /** The two windows speak for their worst buckets; the week makes the headline if it is empty or alone. */
  lemma ProbeSpeaks(ws: seq<Window>, authIndex: string, group: Group, observedAt: Time)
    ensures var p := Parsed(ws, authIndex, group, observedAt);
            && (p.ready <==> ws != [])
            && (p.shortRemaining.Some? <==> exists w :: w in ws && w.length == FiveHour)
            && (p.longRemaining.Some? <==> exists w :: w in ws && w.length == Weekly)
            && (forall w :: w in ws && w.length == FiveHour ==>
                  p.shortRemaining.value < w.remaining
                  || (p.shortRemaining.value == w.remaining && p.shortResetAt.Some? && p.shortResetAt.value >= w.resetAt))
            && (forall w :: w in ws && w.length == Weekly ==>
                  p.longRemaining.value < w.remaining
                  || (p.longRemaining.value == w.remaining && p.longResetAt.Some? && p.longResetAt.value >= w.resetAt))
            && (p.shortRemaining.Some? ==> exists w :: w in ws && w.length == FiveHour && Some(w.resetAt) == p.shortResetAt && w.remaining == p.shortRemaining.value)
            && (p.longRemaining.Some? ==> exists w :: w in ws && w.length == Weekly && Some(w.resetAt) == p.longResetAt && w.remaining == p.longRemaining.value)
            && (HasKnown(ws) ==>
                  if p.shortRemaining.None? || p.longRemaining == Some(0)
                  then p.remaining == p.longRemaining && p.resetAt == p.longResetAt
                  else p.remaining == p.shortRemaining && p.resetAt == p.shortResetAt)
  {
    WorstIsThere(ws, FiveHour);
    WorstIsThere(ws, Weekly);
    forall w | w in ws ensures Worst(ws, w.length).Some? && !Beats(w, Worst(ws, w.length).value) {
      assert IsWorst(ws, w.length, Worst(ws, w.length));
    }
    hide Worst, IsWorst;
  }

  /** The reading is empty exactly when some bucket is, and then waits for the last of them. */
  lemma ReadingIsWorst(ws: seq<Window>, authIndex: string, group: Group, observedAt: Time)
    requires HasKnown(ws)
    ensures var r := Condensed(QuotaOf(Parsed(ws, authIndex, group, observedAt)));
            && r.Some? && 0.0 <= r.value.remaining <= 100.0
            && (r.value.remaining == 0.0 <==> exists w :: w in ws && Depleted(w))
            && (r.value.remaining == 0.0 ==> IsLatestDepleted(ws, r.value.resetAt))
  {
    hide Condensed, Parsed, Worst, IsWorst;
    WorstIsThere(ws, FiveHour);
    WorstIsThere(ws, Weekly);
    ReadingOfTwo(ws, authIndex, group, observedAt);
    forall w | w in ws && Depleted(w)
      ensures var v := Worst(ws, w.length); v.Some? && Depleted(v.value) && w.resetAt <= v.value.resetAt
    {
      DepletedIsWorst(ws, w);
    }
  }

  /**
    Accepted evidence from a group with an empty bucket holds the breaker open
    until the last empty bucket resets; it opens nothing otherwise.
   */
  lemma EmptyBucketOpens(ws: seq<Window>, id: Identity, e: Entry, observedAt: Instant)
    requires HasKnown(ws) && observedAt >= e.lastEvidenceAt
    requires e.authID == id.authID && e.fingerprint == id.fingerprint
    ensures var ev := EvidenceOf(ws, id, e.group, observedAt);
            && ev.Some? && (id.authIndex != "" ==> ValidEvidence(ev.value))
            && var n := WithEvidence(e, ev.value, observedAt);
            && n.lastQuotaEvidenceAt == observedAt
            && ((exists w :: w in ws && Depleted(w) && w.resetAt > observedAt) ==>
                  n.state == Open && n.reason == QuotaZero && n.openedAt == observedAt && IsLatestDepleted(ws, n.recoverAt))
            && (!(exists w :: w in ws && Depleted(w) && w.resetAt > observedAt) ==>
                  n.state == Closed || n.state == e.state)
            && (!(exists w :: w in ws && Depleted(w)) ==> n.state != Uninitialized && n.reason != QuotaZero)
  {
    ReadingIsWorst(ws, id.authIndex, e.group, observedAt);
    hide Parsed, Condensed;
    assert Concerns(e, EvidenceOf(ws, id, e.group, observedAt).value);
  }

  predicate Unanimous(ws: seq<Window>) {
    forall i, j :: 0 <= i < |ws| && 0 <= j < |ws| ==> ws[i] == ws[j]
  }

  ghost predicate OrderIsIrrelevant(ws: seq<Window>, authIndex: string, group: Group, observedAt: Time) {
    forall vs: seq<Window> :: multiset(vs) == multiset(ws) ==>
      Parsed(vs, authIndex, group, observedAt) == Parsed(ws, authIndex, group, observedAt)
  }

  lemma SameMembers(ws: seq<Window>, vs: seq<Window>)
    requires multiset(ws) == multiset(vs)
    ensures |ws| == |vs| && forall w :: w in ws <==> w in vs
  {
    assert |ws| == |multiset(ws)| && |vs| == |multiset(vs)|;
    forall w ensures w in ws <==> w in vs {
      assert w in ws <==> w in multiset(ws);
      assert w in vs <==> w in multiset(vs);
    }
  }

  lemma ReorderedReading(ws: seq<Window>, vs: seq<Window>, authIndex: string, group: Group, observedAt: Time)
    requires HasKnown(ws) || Unanimous(ws)
    requires multiset(ws) == multiset(vs)
    ensures Parsed(ws, authIndex, group, observedAt) == Parsed(vs, authIndex, group, observedAt)
  {
    SameMembers(ws, vs);
    forall length: Length ensures Worst(ws, length) == Worst(vs, length) {
      WorstIsUnique(ws, length, Worst(ws, length), Worst(vs, length));
    }
    if HasKnown(ws) {
      var known :| known in ws && known.length != Unrecognised;
      assert Worst(ws, known.length).Some?;
    } else if ws != [] {
      assert vs[0] in ws;
      assert vs[0] == ws[0];
    }
  }

  /** The order of the buckets matters only if no window is recognised and the buckets differ. */
  lemma OrderMattersWhen(ws: seq<Window>, authIndex: string, group: Group, observedAt: Time)
    ensures OrderIsIrrelevant(ws, authIndex, group, observedAt) <==> HasKnown(ws) || Unanimous(ws)
  {
    hide Parsed, Unanimous, HasKnown;
    if HasKnown(ws) || Unanimous(ws) {
      forall vs: seq<Window> | multiset(vs) == multiset(ws)
        ensures Parsed(vs, authIndex, group, observedAt) == Parsed(ws, authIndex, group, observedAt)
      {
        ReorderedReading(ws, vs, authIndex, group, observedAt);
      }
    } else {
      var k := OddOneOut(ws);
      var vs := ws[0 := ws[k]][k := ws[0]];
      SwappedReading(ws, vs, k, authIndex, group, observedAt);
      assert Parsed(vs, authIndex, group, observedAt) != Parsed(ws, authIndex, group, observedAt);
    }
  }

  lemma OddOneOut(ws: seq<Window>) returns (k: nat)
    requires !Unanimous(ws)
    ensures 0 < k < |ws| && ws[k] != ws[0]
  {
    k :| 0 < k < |ws| && ws[k] != ws[0];
  }

  /** Among unrecognised buckets, bringing another to the front changes the probe. */
  lemma SwappedReading(ws: seq<Window>, vs: seq<Window>, k: nat, authIndex: string, group: Group, observedAt: Time)
    requires !HasKnown(ws) && 0 < k < |ws| && ws[k] != ws[0] && vs == ws[0 := ws[k]][k := ws[0]]
    ensures multiset(vs) == multiset(ws)
    ensures Parsed(vs, authIndex, group, observedAt) != Parsed(ws, authIndex, group, observedAt)
  {
    assert multiset(vs) == multiset(ws);
    SameMembers(ws, vs);
    UnrecognisedSpeak(ws);
    UnrecognisedSpeak(vs);
    assert ws[0] in ws && ws[k] in ws;
    hide Worst, IsWorst;
  }

  lemma UnrecognisedSpeak(ws: seq<Window>)
    requires !HasKnown(ws) && ws != []
    ensures Worst(ws, FiveHour) == None && Worst(ws, Weekly) == None && Effective(ws) == Some(ws[0])
  {
    WorstIsThere(ws, FiveHour);
    WorstIsThere(ws, Weekly);
  }

  /** Without a recognised window an empty bucket may even go unnoticed. */
  lemma UnrecognisedBucketsDependOnOrder()
    ensures var empty := Window(9, 0, Unrecognised);
            var full := Window(9, 80, Unrecognised);
            && Condensed(QuotaOf(Parsed([empty, full], "a", Gemini, 1))) == Some(Reading(0.0, 9))
            && Condensed(QuotaOf(Parsed([full, empty], "a", Gemini, 1))) == Some(Reading(80.0, 9))
  {
    var empty := Window(9, 0, Unrecognised);
    var full := Window(9, 80, Unrecognised);
    assert Worst([empty, full], FiveHour) == None && Worst([empty, full], Weekly) == None;
    assert Worst([full, empty], FiveHour) == None && Worst([full, empty], Weekly) == None;
  }
}
