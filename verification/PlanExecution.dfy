/**
  From the changes of a plan to the host: each fresh change becomes an intent,
  and a round of them leaves the host as the plan asked.
 */
module PlanExecution {
  import opened GuardTypes
  import opened HostTransition
  import P = Planner

  /** The host's state as the plan saw it. */
  function ExpectedOf(c: P.Credential): Expected {
    Expected(c.authIndex, if c.priorityMissing then None else Some(c.priority), c.disabled, true)
  }

  /** Only what differs from the credential is put. */
  function IntentOf(c: P.Change): Intent {
    Intent(
      c.credential.authIndex,
      ExpectedOf(c.credential),
      if c.priority != c.credential.priority || c.credential.priorityMissing then Put(c.priority) else Keep,
      if c.disabled != c.credential.disabled then Put(c.disabled) else Keep)
  }

  function IntentsOf(changes: seq<P.Change>): seq<Intent> {
    if changes == [] then []
    else
      var n := |changes| - 1;
      IntentsOf(changes[..n]) + if changes[n].evidenceFresh then [IntentOf(changes[n])] else []
  }

  /** Calls are not cancelled. */
  function Uncanceled(n: nat): seq<Context> {
    seq(n, _ => UNCANCELED)
  }

  method ExecutePlan(host: Host, changes: seq<P.Change>) returns (details: seq<Report>, totals: Totals)
    modifies host
    ensures (host.State(), details) == Round(old(host.State()), IntentsOf(changes), Uncanceled(|IntentsOf(changes)|))
    ensures totals.attempted == |details| == |IntentsOf(changes)|
  {
    hide Round, Tally;
    var intents := [];
    for i := 0 to |changes|
      invariant intents == IntentsOf(changes[..i])
    {
      assert changes[..i + 1][..i] == changes[..i];
      if changes[i].evidenceFresh {
        intents := intents + [IntentOf(changes[i])];
      }
    }
    assert changes[..|changes|] == changes;
    details, totals := Execute(host, intents, Uncanceled(|intents|));
    RoundReports(old(host.State()), intents, Uncanceled(|intents|));
  }

  lemma RoundReports(w: World, intents: seq<Intent>, ctxs: seq<Context>)
    requires |ctxs| == |intents|
    ensures |Round(w, intents, ctxs).1| == |intents|
  {
    RoundAddsUp(w, intents, ctxs);
  }

  // ------------------------------------------------------------ on a quiet host

  /** The document kept for an index reads like this. */
  predicate Reads(h: Hosted, authIndex: string, priority: Option<int>, disabled: bool) {
    && Kept(h, authIndex).Some?
    && Decode(Kept(h, authIndex).value).Some?
    && var o := Decode(Kept(h, authIndex).value).value;
    o.authIndex == authIndex && o.priority == priority && o.disabled == disabled
  }

  /** The host is as the plan saw it. */
  predicate Seen(h: Hosted, c: P.Credential) {
    c.authIndex != "" && Reads(h, c.authIndex, if c.priorityMissing then None else Some(c.priority), c.disabled)
  }

  /** Nothing is kept differently except at one place. */
  ghost predicate SameElsewhere(a: Hosted, b: Hosted, location: string) {
    && b.index == a.index
    && (forall l :: l != location ==> (l in b.files <==> l in a.files))
    && (forall l :: l != location && l in a.files ==> l in b.files && b.files[l] == a.files[l])
  }

  lemma QuietWrite(w: World, d: Document, body: Body)
    requires Quiet(w)
    ensures var n := Turned(Replaced(Turned(w), d, body));
            Quiet(n) && SameElsewhere(w.hosted, n.hosted, d.envelope.location)
  {
    QuietTurn(w);
    QuietTurn(Turned(w));
    QuietTurn(Replaced(Turned(w), d, body));
  }

  /** Whatever one intent does on a quiet host, it does in the one place kept for its index. */
  lemma IntentStaysInPlace(w: World, i: Intent)
    requires Quiet(w) && i.authIndex != ""
    ensures var n := Outcomes(w, i, UNCANCELED).0;
            && Quiet(n)
            && (i.authIndex in w.hosted.index ==> SameElsewhere(w.hosted, n.hosted, w.hosted.index[i.authIndex].location))
  {
    QuietTurn(w);
    hide Decode, ConflictOf, Targeted, Edited;
    match Decided(w, Normalized(i), UNCANCELED)
    case Stop(_) =>
    case Write(d, before) =>
      DecodedIsObject(d);
      QuietWrite(w, d, Encoded(d, before, Normalized(i)));
  }

  /** A change to a credential that the host still has as the plan saw it leaves it as the plan wants it. */
  lemma ChangeTakesEffect(w: World, c: P.Change)
    requires Quiet(w) && Seen(w.hosted, c.credential)
    ensures var (n, report) := Outcomes(w, IntentOf(c), UNCANCELED);
            && Reads(n.hosted, c.credential.authIndex, Some(c.priority), c.disabled)
            && report.outcome == (if c.priority == c.credential.priority && !c.credential.priorityMissing && c.disabled == c.credential.disabled
                                  then NoChange else Committed)
  {
    var i := IntentOf(c);
    var index := c.credential.authIndex;
    var d := Kept(w.hosted, index).value;
    var before := Decode(d).value;
    QuietTurn(w);
    assert Normalized(i) == i;
    assert Fetched(w, index) == Ok(d);
    hide Decode, Edited;
    assert ConflictOf(i.expected, before).None?;
    if Targeted(before, i) != before {
      assert Decided(w, i, UNCANCELED) == Write(d, before);
      QuietChangeCommits(w, i);
      assert Targeted(before, i).authIndex == index;
    }
  }

  /** The place where an index's document is kept. */
  function PlaceOf(h: Hosted, authIndex: string): Option<string> {
    if authIndex in h.index then Some(h.index[authIndex].location) else None
  }

  /** Each change is to a fresh credential as the plan saw it, and no two share a document. */
  predicate Applicable(h: Hosted, changes: seq<P.Change>) {
    && (forall k :: 0 <= k < |changes| ==> changes[k].evidenceFresh && Seen(h, changes[k].credential))
    && (forall j, k :: 0 <= j < k < |changes| ==>
          PlaceOf(h, changes[j].credential.authIndex) != PlaceOf(h, changes[k].credential.authIndex))
  }

  /** The first n changes show on the host; everything else is as it was. */
  ghost predicate Applied(h: Hosted, now: Hosted, changes: seq<P.Change>, n: nat)
    requires n <= |changes|
  {
    && now.index == h.index
    && (forall k :: 0 <= k < n ==> Reads(now, changes[k].credential.authIndex, Some(changes[k].priority), changes[k].disabled))
    && (forall l :: (forall k :: 0 <= k < n ==> PlaceOf(h, changes[k].credential.authIndex) != Some(l)) ==> SameFile(h, now, l))
  }

  predicate SameFile(a: Hosted, b: Hosted, location: string) {
    (location in a.files <==> location in b.files) && (location in a.files ==> b.files[location] == a.files[location])
  }

  lemma SameFileReads(a: Hosted, b: Hosted, authIndex: string, priority: Option<int>, disabled: bool)
    requires b.index == a.index && PlaceOf(a, authIndex).Some? && SameFile(a, b, PlaceOf(a, authIndex).value)
    ensures Reads(a, authIndex, priority, disabled) <==> Reads(b, authIndex, priority, disabled)
  {
    hide Decode;
    assert Kept(a, authIndex) == Kept(b, authIndex);
  }

  lemma SeenHasPlace(h: Hosted, c: P.Credential)
    requires Seen(h, c)
    ensures PlaceOf(h, c.authIndex).Some?
  {
  }

  /** One more change, in its own place, leaves the earlier ones alone. */
  lemma OneMoreApplied(h: Hosted, now: Hosted, next: Hosted, changes: seq<P.Change>, n: nat)
    requires n < |changes| && Applicable(h, changes) && Applied(h, now, changes, n)
    requires PlaceOf(h, changes[n].credential.authIndex).Some?
    requires SameElsewhere(now, next, PlaceOf(h, changes[n].credential.authIndex).value)
    requires Reads(next, changes[n].credential.authIndex, Some(changes[n].priority), changes[n].disabled)
    ensures Applied(h, next, changes, n + 1)
  {
    hide Reads, Seen;
    var here := PlaceOf(h, changes[n].credential.authIndex).value;
    forall k: nat | k < n
      ensures Reads(next, changes[k].credential.authIndex, Some(changes[k].priority), changes[k].disabled)
    {
      assert Seen(h, changes[k].credential);
      SeenHasPlace(h, changes[k].credential);
      SameFileReads(now, next, changes[k].credential.authIndex, Some(changes[k].priority), changes[k].disabled);
    }
    forall l | forall k :: 0 <= k < n + 1 ==> PlaceOf(h, changes[k].credential.authIndex) != Some(l)
      ensures SameFile(h, next, l)
    {
      assert PlaceOf(h, changes[n].credential.authIndex) != Some(l);
      assert SameFile(h, now, l);
    }
  }

  lemma StillSeen(h: Hosted, now: Hosted, changes: seq<P.Change>, n: nat)
    requires n < |changes| && Applicable(h, changes) && Applied(h, now, changes, n)
    ensures Seen(now, changes[n].credential) && PlaceOf(h, changes[n].credential.authIndex).Some?
  {
    hide Reads;
    var c := changes[n].credential;
    SeenHasPlace(h, c);
    assert SameFile(h, now, PlaceOf(h, c.authIndex).value);
    SameFileReads(h, now, c.authIndex, if c.priorityMissing then None else Some(c.priority), c.disabled);
  }

  /** The outcome a change deserves. */
  function Deserved(c: P.Change): Outcome {
    if c.priority == c.credential.priority && !c.credential.priorityMissing && c.disabled == c.credential.disabled then NoChange
    else Committed
  }

  lemma RoundNext(w: World, changes: seq<P.Change>)
    requires changes != [] && changes[|changes| - 1].evidenceFresh
    ensures var n := |changes| - 1;
            var (between, reports) := Round(w, IntentsOf(changes[..n]), Uncanceled(|IntentsOf(changes[..n])|));
            var (after, report) := Outcomes(between, IntentOf(changes[n]), UNCANCELED);
            Round(w, IntentsOf(changes), Uncanceled(|IntentsOf(changes)|)) == (after, reports + [report])
  {
    hide Outcomes;
    var front := IntentsOf(changes[..|changes| - 1]);
    var intents := IntentsOf(changes);
    assert intents[..|intents| - 1] == front;
    assert Uncanceled(|intents|)[..|intents| - 1] == Uncanceled(|front|);
  }

  /**
    On an undisturbed host that still is as the plan saw it, a round of the
    plan's changes leaves every credential as the plan wants it, reports it
    so, and touches no other document.
   */
  lemma {:induction false} PlanTakesEffect(w: World, changes: seq<P.Change>)
    requires Quiet(w) && Applicable(w.hosted, changes)
    ensures var (after, reports) := Round(w, IntentsOf(changes), Uncanceled(|IntentsOf(changes)|));
            && Quiet(after) && Applied(w.hosted, after.hosted, changes, |changes|)
            && |reports| == |changes| && forall k :: 0 <= k < |changes| ==> reports[k].outcome == Deserved(changes[k])
  {
    if changes != [] {
      var n := |changes| - 1;
      var front := changes[..n];
      assert Applicable(w.hosted, front);
      PlanTakesEffect(w, front);
      RoundNext(w, changes);
      var (between, reports) := Round(w, IntentsOf(front), Uncanceled(|IntentsOf(front)|));
      hide Round, Outcomes, Applicable, Reads, Seen, IntentOf;
      assert Applied(w.hosted, between.hosted, changes, n) by { AppliedFront(w.hosted, between.hosted, changes); }
      StillSeen(w.hosted, between.hosted, changes, n);
      ChangeTakesEffect(between, changes[n]);
      IntentNamesCredential(changes[n]);
      SeenIsNamed(between.hosted, changes[n].credential);
      IntentStaysInPlace(between, IntentOf(changes[n]));
      OneMoreApplied(w.hosted, between.hosted, Outcomes(between, IntentOf(changes[n]), UNCANCELED).0.hosted, changes, n);
    }
  }

  lemma AppliedFront(h: Hosted, now: Hosted, changes: seq<P.Change>)
    requires changes != [] && Applied(h, now, changes[..|changes| - 1], |changes| - 1)
    ensures Applied(h, now, changes, |changes| - 1)
  {
    hide Reads;
    var front := changes[..|changes| - 1];
    assert forall k :: 0 <= k < |front| ==> front[k] == changes[k];
  }

  lemma IntentNamesCredential(c: P.Change)
    ensures IntentOf(c).authIndex == c.credential.authIndex
  {
  }

  lemma SeenIsNamed(h: Hosted, c: P.Credential)
    requires Seen(h, c)
    ensures c.authIndex != ""
  {
  }
}
