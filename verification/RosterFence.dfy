/**
  The roster: which rosters are accepted, what they do to breakers, and why
  evidence probed for one credential never reaches another.
 */
module RosterFence {
  import opened GuardTypes
  import opened Breaker
  import opened EngineSpec
  import opened EngineRuns

  predicate Clashes(ids: seq<Identity>, other: Identity) {
    exists i :: 0 <= i < |ids| && (ids[i].authIndex == other.authIndex || ids[i].authID == other.authID)
  }

  predicate Clean(ids: seq<Identity>) {
    && (forall i :: 0 <= i < |ids| ==> ids[i].authIndex != "" && ids[i].authID != "")
    && (forall i, j :: 0 <= i < j < |ids| ==> ids[i].authIndex != ids[j].authIndex && ids[i].authID != ids[j].authID)
  }

  lemma CleanExtends(ids: seq<Identity>, last: Identity)
    ensures Clean(ids + [last]) <==> Clean(ids) && last.authIndex != "" && last.authID != "" && !Clashes(ids, last)
  {
    var all := ids + [last];
    assert all[|ids|] == last;
    assert forall i :: 0 <= i < |ids| ==> all[i] == ids[i];
    if Clean(all) {
      assert !Clashes(ids, last);
      assert Clean(ids);
    }
  }

  /** A roster is accepted exactly when no index or id is missing or used twice. */
  lemma {:induction false} AcceptedRosters(ids: seq<Identity>)
    ensures NormalizeRoster(ids).Some? <==> Clean(ids)
  {
    if ids != [] {
      var n := |ids| - 1;
      AcceptedRosters(ids[..n]);
      assert ids == ids[..n] + [ids[n]];
      CleanExtends(ids[..n], ids[n]);
      if NormalizeRoster(ids[..n]).Some? && NormalizeIdentity(ids[n]).Some? {
        ClashesNormalized(ids[..n], ids[n]);
      }
    }
  }

  lemma NormalizedNames(id: Identity)
    ensures NormalizeIdentity(id).Some? ==>
              NormalizeIdentity(id).value.authIndex == id.authIndex && NormalizeIdentity(id).value.authID == id.authID
  {
  }

  lemma ClashesNormalized(ids: seq<Identity>, other: Identity)
    requires NormalizeRoster(ids).Some?
    ensures Clashes(ids, other) <==>
              exists item :: item in NormalizeRoster(ids).value && (item.authIndex == other.authIndex || item.authID == other.authID)
  {
    NormalizedIsProper(ids);
    hide NormalizeRoster, NormalizeIdentity, ProperRoster;
    var items := NormalizeRoster(ids).value;
    forall i | 0 <= i < |ids| ensures items[i].authIndex == ids[i].authIndex && items[i].authID == ids[i].authID {
      NormalizedNames(ids[i]);
    }
    if i :| 0 <= i < |ids| && (ids[i].authIndex == other.authIndex || ids[i].authID == other.authID) {
      assert items[i] in items;
    }
    if item :| item in items && (item.authIndex == other.authIndex || item.authID == other.authID) {
      var i :| 0 <= i < |items| && items[i] == item;
      assert Clashes(ids, other);
    }
  }

  /** A replaced credential starts uninitialized in both groups; a kept one keeps its breaker. */
  lemma ReplacedStartsFresh(s: EngineState, ids: seq<Identity>, at: Instant, i: nat, g: Group)
    requires NormalizeRoster(ids).Some? && i < |NormalizeRoster(ids).value|
    ensures var id := NormalizeRoster(ids).value[i];
            var k := Key(id.authIndex, g);
            var n := RosterNext(s, ids, at);
            && k in n.entries
            && n.entries[k] == if k in s.entries && s.entries[k].authID == id.authID && s.entries[k].fingerprint == id.fingerprint
                               then s.entries[k].(provider := id.provider, priority := id.priority)
                               else NewEntry(id, g)
  {
    NormalizedIsProper(ids);
    RosterEntryOf(s.entries, NormalizeRoster(ids).value, i, g);
  }

  /** Replaying a roster changes nothing and does not dirty the engine. */
  lemma RosterReplay(s: EngineState, ids: seq<Identity>, at: Instant, again: Instant)
    ensures RosterNext(RosterNext(s, ids, at), ids, again) == RosterNext(s, ids, at)
  {
    if NormalizeRoster(ids).Some? {
      NormalizedIsProper(ids);
      var items := NormalizeRoster(ids).value;
      var once := RosterEntries(s.entries, items);
      KeptTwice(s.entries, items, |items|);
      assert items[..|items|] == items;
      assert RosterEntries(once, items) == once;
    }
  }

  lemma {:induction false} KeptTwice(old_: map<Key, Entry>, items: seq<Identity>, n: nat)
    requires ProperRoster(items) && n <= |items|
    ensures RosterEntries(RosterEntries(old_, items), items[..n]) == RosterEntries(old_, items[..n])
  {
    hide Kept;
    if n > 0 {
      KeptTwice(old_, items, n - 1);
      assert items[..n][..n - 1] == items[..n - 1];
      KeptOfKept(old_, items, n - 1, Gemini);
      KeptOfKept(old_, items, n - 1, ClaudeGPT);
    }
  }

  lemma KeptOfKept(old_: map<Key, Entry>, items: seq<Identity>, i: nat, g: Group)
    requires ProperRoster(items) && i < |items|
    ensures Kept(RosterEntries(old_, items), items[i], g) == Kept(old_, items[i], g)
  {
    RosterEntryOf(old_, items, i, g);
    hide RosterEntries, ProperRoster;
  }

  predicate Plain(text: string) {
    '\0' !in text
  }

  lemma SplitAtMark(a: string, b: string, c: string, d: string)
    requires Plain(a) && Plain(c) && a + "\0" + b == c + "\0" + d
    ensures a == c && b == d
  {
    var left, right := a + "\0" + b, c + "\0" + d;
    assert left[|a|] == '\0' && right[|c|] == '\0';
    assert left[..|a|] == a && right[..|c|] == c;
    assert left[|a| + 1..] == b && right[|c| + 1..] == d;
  }

  /** Without a fingerprint of their own, credentials are told apart by index, id and provider. */
  lemma DefaultFingerprintsDiffer(a: Identity, b: Identity)
    requires Plain(a.authIndex) && Plain(a.authID) && Plain(b.authIndex) && Plain(b.authID)
    ensures DefaultFingerprint(a) == DefaultFingerprint(b)
            <==> a.authIndex == b.authIndex && a.authID == b.authID && a.provider == b.provider
  {
    if DefaultFingerprint(a) == DefaultFingerprint(b) {
      var x, y := a.authID + "\0" + a.provider, b.authID + "\0" + b.provider;
      assert DefaultFingerprint(a) == a.authIndex + "\0" + x && DefaultFingerprint(b) == b.authIndex + "\0" + y;
      SplitAtMark(a.authIndex, x, b.authIndex, y);
      SplitAtMark(a.authID, a.provider, b.authID, b.provider);
    }
  }

  // ---------------------------------------------------------- the tables after it

  /** A breaker about which nothing is known yet. */
  predicate Untold(e: Entry) {
    && e.state == Uninitialized && e.reason == NoReason && e.remaining == None && e.failureCount == 0
    && e.lastFailureAt == e.lastEvidenceAt == e.lastQuotaEvidenceAt == 0
    && e.openedAt == e.recoverAt == e.resetAt == e.halfOpenStartedAt == e.halfOpenLeaseUntil == 0 && e.requestID == ""
  }

  /** The breaker of a credential: the one it had under the same id and fingerprint, otherwise one that knows nothing. */
  predicate Carries(old_: map<Key, Entry>, id: Identity, g: Group, e: Entry) {
    var k := Key(id.authIndex, g);
    && e.authIndex == id.authIndex && e.authID == id.authID && e.provider == id.provider && e.priority == id.priority
    && e.group == g && e.fingerprint != "" && (id.fingerprint != "" ==> e.fingerprint == id.fingerprint)
    && if k in old_ && old_[k].authID == id.authID && old_[k].fingerprint == e.fingerprint
       then e == old_[k].(provider := id.provider, priority := id.priority)
       else Untold(e)
  }

  /** Two breakers for each credential of the roster, and no others. */
  ghost predicate IsTableOf(entries: map<Key, Entry>, old_: map<Key, Entry>, ids: seq<Identity>) {
    && (forall k :: k in entries <==> exists i :: 0 <= i < |ids| && ids[i].authIndex == k.authIndex)
    && (forall i, g {:trigger Carries(old_, ids[i], g, entries[Key(ids[i].authIndex, g)])} :: 0 <= i < |ids| ==>
          Key(ids[i].authIndex, g) in entries && Carries(old_, ids[i], g, entries[Key(ids[i].authIndex, g)]))
  }

  predicate AtOwnKeys(entries: map<Key, Entry>) {
    forall k :: k in entries ==> entries[k].authIndex == k.authIndex && entries[k].group == k.group
  }

  lemma KeptCarries(old_: map<Key, Entry>, id: Identity, g: Group)
    requires AtOwnKeys(old_) && NormalizeIdentity(id).Some?
    ensures Carries(old_, id, g, Kept(old_, NormalizeIdentity(id).value, g))
  {
  }

  lemma ItemCarries(old_: map<Key, Entry>, ids: seq<Identity>, i: nat, g: Group)
    requires AtOwnKeys(old_) && NormalizeRoster(ids).Some? && i < |ids|
    ensures var entries, k := RosterEntries(old_, NormalizeRoster(ids).value), Key(ids[i].authIndex, g);
            k in entries && Carries(old_, ids[i], g, entries[k])
  {
    NormalizedIsProper(ids);
    var items := NormalizeRoster(ids).value;
    assert NormalizeIdentity(ids[i]) == Some(items[i]);
    NormalizedNames(ids[i]);
    RosterEntryOf(old_, items, i, g);
    hide NormalizeRoster, NormalizeIdentity, RosterEntries, RosterIDs, Carries, Kept, AtOwnKeys;
    KeptCarries(old_, ids[i], g);
  }

  /**
    An accepted roster leaves exactly two breakers for each of its credentials:
    those it had, or ones that know nothing. A rejected roster changes nothing.
   */
  lemma RosterInstalls(s: EngineState, ids: seq<Identity>, at: Instant)
    requires Sound(s)
    ensures if Clean(ids) then IsTableOf(Next(s, Roster(ids, at)).entries, s.entries, ids) else Next(s, Roster(ids, at)) == s
  {
    AcceptedRosters(ids);
    if Clean(ids) {
      SoundKeys(s);
      RosterTable(s.entries, ids);
    }
    hide NormalizeRoster, RosterEntries, RosterIDs, IsTableOf, Clean;
  }

  lemma RosterKeys(old_: map<Key, Entry>, ids: seq<Identity>)
    requires NormalizeRoster(ids).Some?
    ensures var entries := RosterEntries(old_, NormalizeRoster(ids).value);
            forall k :: k in entries <==> exists i :: 0 <= i < |ids| && ids[i].authIndex == k.authIndex
  {
    NormalizedIsProper(ids);
    var items := NormalizeRoster(ids).value;
    var entries := RosterEntries(old_, items);
    forall i: nat | i < |ids| ensures items[i].authIndex == ids[i].authIndex {
      NormalizedNames(ids[i]);
    }
    hide NormalizeRoster, NormalizeIdentity, RosterEntries, RosterIDs;
    forall k ensures k in entries <==> exists i :: 0 <= i < |ids| && ids[i].authIndex == k.authIndex {
      if k in entries {
        var i := RosterEntrySource(old_, items, k);
        assert ids[i].authIndex == k.authIndex;
      }
      if i :| 0 <= i < |ids| && ids[i].authIndex == k.authIndex {
        RosterEntryOf(old_, items, i, k.group);
      }
    }
  }

  lemma RosterTable(old_: map<Key, Entry>, ids: seq<Identity>)
    requires AtOwnKeys(old_) && NormalizeRoster(ids).Some?
    ensures IsTableOf(RosterEntries(old_, NormalizeRoster(ids).value), old_, ids)
  {
    hide NormalizeRoster, RosterEntries, Carries, AtOwnKeys;
    RosterKeys(old_, ids);
    var entries := RosterEntries(old_, NormalizeRoster(ids).value);
    forall i: nat, g: Group | i < |ids|
      ensures Key(ids[i].authIndex, g) in entries && Carries(old_, ids[i], g, entries[Key(ids[i].authIndex, g)])
    {
      ItemCarries(old_, ids, i, g);
    }
  }

  lemma SoundKeys(s: EngineState)
    requires RosterSound(s)
    ensures AtOwnKeys(s.entries)
  {
    forall k | k in s.entries ensures s.entries[k].authIndex == k.authIndex && s.entries[k].group == k.group {
      assert EntryPlaced(s.entries, s.authByID, k);
    }
  }

  /**
    Registering a credential is refused exactly when a name is missing or its
    id belongs to another index. Otherwise it has two breakers, those it had
    there or ones that know nothing, and every other index keeps its own.
   */
  lemma RegistrationInstalls(s: EngineState, id: Identity, at: Instant)
    requires Sound(s)
    ensures var n := Next(s, Register(id, at));
            if id.authIndex == "" || id.authID == ""
               || (exists k :: k in s.entries && s.entries[k].authID == id.authID && k.authIndex != id.authIndex)
            then n == s
            else && (forall k :: k in n.entries <==> k in s.entries || k.authIndex == id.authIndex)
                 && (forall k :: k in s.entries && k.authIndex != id.authIndex ==> n.entries[k] == s.entries[k])
                 && (forall g {:trigger Carries(s.entries, id, g, n.entries[Key(id.authIndex, g)])} ::
                       Key(id.authIndex, g) in n.entries && Carries(s.entries, id, g, n.entries[Key(id.authIndex, g)]))
  {
    IDTaken(s, id);
    NormalizedNames(id);
    hide RosterSound, EntriesSound, Carries, WithoutIndex;
    if !RegisterRefused(s, id) {
      SoundKeys(s);
      forall g ensures Carries(s.entries, id, g, Kept(s.entries, NormalizeIdentity(id).value, g)) {
        KeptCarries(s.entries, id, g);
      }
      RegisteredTable(s, id, at);
    }
  }

  lemma RegisteredTable(s: EngineState, id: Identity, at: Instant)
    requires ValidConfig(s.config) && !RegisterRefused(s, id)
    ensures var n, item := Next(s, Register(id, at)), NormalizeIdentity(id).value;
            && (forall k :: k in n.entries <==> k in s.entries || k.authIndex == id.authIndex)
            && (forall k :: k in s.entries && k.authIndex != id.authIndex ==> n.entries[k] == s.entries[k])
            && (forall g :: Key(id.authIndex, g) in n.entries && n.entries[Key(id.authIndex, g)] == Kept(s.entries, item, g))
  {
    var item := NormalizeIdentity(id).value;
    NormalizedNames(id);
    assert Next(s, Register(id, at)).entries == WithIdentity(s.entries, s.entries, item);
    hide NormalizeIdentity, Kept, WithIdentity, Next;
    forall k: Key
      ensures var entries := WithIdentity(s.entries, s.entries, item);
              if k.authIndex == id.authIndex then k in entries && entries[k] == Kept(s.entries, item, k.group)
              else (k in entries <==> k in s.entries) && (k in entries ==> entries[k] == s.entries[k])
    {
      RegisteredAt(s, item, k);
    }
  }

  lemma IDTaken(s: EngineState, id: Identity)
    requires RosterSound(s)
    ensures id.authID in s.authByID && s.authByID[id.authID] != id.authIndex
            <==> exists k :: k in s.entries && s.entries[k].authID == id.authID && k.authIndex != id.authIndex
  {
    if id.authID in s.authByID {
      assert IDPlaced(s.entries, s.authByID, id.authID);
    }
    if k :| k in s.entries && s.entries[k].authID == id.authID && k.authIndex != id.authIndex {
      assert EntryPlaced(s.entries, s.authByID, k);
    }
  }

  // ------------------------------------------------------- evidence in flight

  /** Evidence captured for this identity. */
  predicate CapturedFor(ev: Evidence, id: Identity) {
    && ev.authIndex == id.authIndex
    && ev.authID == id.authID != ""
    && ev.fingerprint == id.fingerprint != ""
  }

  /** Evidence alters at most the breaker it names, and only while that breaker belongs to the identity it was captured for. */
  lemma EvidenceIsFenced(s: EngineState, ev: Evidence, id: Identity, at: Instant, k: Key)
    requires CapturedFor(ev, id) && k in s.entries
    ensures var n := EvidenceNext(s, ev, at);
            && n.entries.Keys == s.entries.Keys
            && n.entries[k].authID == s.entries[k].authID && n.entries[k].fingerprint == s.entries[k].fingerprint
            && (n.entries[k] != s.entries[k] ==>
                  k == Key(id.authIndex, ev.group) && s.entries[k].authID == id.authID && s.entries[k].fingerprint == id.fingerprint)
  {
  }

  predicate Absent(s: EngineState, id: Identity) {
    forall g :: Key(id.authIndex, g) in s.entries ==>
                  var e := s.entries[Key(id.authIndex, g)]; e.authID != id.authID || e.fingerprint != id.fingerprint
  }

  /** The step (re)installs this identity at its index. */
  predicate Installs(step: Step, id: Identity) {
    match step
    case Roster(ids, _) =>
      NormalizeRoster(ids).Some? && exists item :: item in NormalizeRoster(ids).value && Same(item, id)
    case Register(other, _) => NormalizeIdentity(other).Some? && Same(NormalizeIdentity(other).value, id)
    case _ => false
  }

  predicate Same(a: Identity, b: Identity) {
    a.authIndex == b.authIndex && a.authID == b.authID && a.fingerprint == b.fingerprint
  }

  lemma AbsentRoster(s: EngineState, items: seq<Identity>, id: Identity, g: Group)
    requires ProperRoster(items) && forall item :: item in items ==> !Same(item, id)
    requires RosterSound(s)
    requires Key(id.authIndex, g) in RosterEntries(s.entries, items)
    ensures var e := RosterEntries(s.entries, items)[Key(id.authIndex, g)]; e.authID != id.authID || e.fingerprint != id.fingerprint
  {
    var i := RosterEntrySource(s.entries, items, Key(id.authIndex, g));
    RosterEntryOf(s.entries, items, i, g);
    KeptIdentity(s, items[i], g);
    assert !Same(items[i], id);
  }

  lemma AbsentStep(s: EngineState, step: Step, id: Identity)
    requires Sound(s) && Absent(s, id) && !Installs(step, id)
    ensures Absent(Next(s, step), id)
  {
    hide NormalizeRoster, NormalizeIdentity, RosterEntries, WithIdentity, RosterSound, EntriesSound;
    forall g | Key(id.authIndex, g) in Next(s, step).entries
      ensures var e := Next(s, step).entries[Key(id.authIndex, g)]; e.authID != id.authID || e.fingerprint != id.fingerprint
    {
      if step.Roster? {
        AbsentAfterRoster(s, step.ids, step.at, id, g);
      } else if step.Register? {
        AbsentAfterRegister(s, step.id, step.at, id, g);
      } else {
        IdentitiesStay(s, step);
        assert SameIdentity(s.entries[Key(id.authIndex, g)], Next(s, step).entries[Key(id.authIndex, g)]);
      }
    }
  }

  lemma AbsentAfterRoster(s: EngineState, ids: seq<Identity>, at: Instant, id: Identity, g: Group)
    requires Sound(s) && Absent(s, id) && !Installs(Roster(ids, at), id)
    requires Key(id.authIndex, g) in RosterNext(s, ids, at).entries
    ensures var e := RosterNext(s, ids, at).entries[Key(id.authIndex, g)]; e.authID != id.authID || e.fingerprint != id.fingerprint
  {
    if NormalizeRoster(ids).Some? {
      NormalizedIsProper(ids);
      var items := NormalizeRoster(ids).value;
      assert RosterNext(s, ids, at).entries == RosterEntries(s.entries, items);
      AbsentRoster(s, items, id, g);
    }
  }

  lemma AbsentAfterRegister(s: EngineState, other: Identity, at: Instant, id: Identity, g: Group)
    requires Sound(s) && Absent(s, id) && !Installs(Register(other, at), id)
    requires Key(id.authIndex, g) in RegisterNext(s, other, at).entries
    ensures var e := RegisterNext(s, other, at).entries[Key(id.authIndex, g)]; e.authID != id.authID || e.fingerprint != id.fingerprint
  {
    if !RegisterRefused(s, other) {
      var item := NormalizeIdentity(other).value;
      assert RegisterNext(s, other, at).entries == WithIdentity(s.entries, s.entries, item);
      RegisteredAt(s, item, Key(id.authIndex, g));
      KeptIdentity(s, item, g);
    }
  }

  /** Only roster steps change which credential a breaker belongs to. */
  lemma IdentitiesStay(s: EngineState, step: Step)
    requires Sound(s) && !step.Roster? && !step.Register?
    ensures Next(s, step).entries.Keys == s.entries.Keys
    ensures forall k :: k in s.entries ==> SameIdentity(s.entries[k], Next(s, step).entries[k])
  {
    hide WithUsage, WithEvidence, PickNext, EntrySound, RosterSound;
    match step
    case Probe(ev, at) =>
      var k := Key(ev.authIndex, ev.group);
      if ValidEvidence(ev) && k in s.entries {
        EvidenceKeepsSound(s.config, s.entries[k], ev, at);
      }
    case Use(u, at) =>
      if UsageTarget(s, u).Some? {
        UsageKeepsSound(s.config, s.entries[UsageTarget(s, u).value], u, at);
      }
    case Pick(r, at) => PickKeepsIdentities(s, r, at);
    case _ =>
  }

  lemma PickKeepsIdentities(s: EngineState, r: PickRequest, at: Instant)
    requires ValidConfig(s.config)
    ensures PickNext(s, r, at).entries.Keys == s.entries.Keys
    ensures forall k :: k in s.entries ==> SameIdentity(s.entries[k], PickNext(s, r, at).entries[k])
  {
    hide Selected, LoopGroup;
  }

  function WithoutEvidenceFor(steps: seq<Step>, id: Identity): seq<Step> {
    if steps == [] then []
    else
      var n := |steps| - 1;
      var rest := WithoutEvidenceFor(steps[..n], id);
      if steps[n].Probe? && CapturedFor(steps[n].evidence, id) then rest else rest + [steps[n]]
  }

  /**
    Once a credential has left its index, probes still in flight for it are
    without effect in any run that does not install it again.
   */
  lemma {:induction false} InFlightEvidenceIsLost(s: EngineState, steps: seq<Step>, id: Identity)
    requires Sound(s) && Absent(s, id) && forall i :: 0 <= i < |steps| ==> !Installs(steps[i], id)
    ensures Run(s, steps) == Run(s, WithoutEvidenceFor(steps, id))
    ensures Absent(Run(s, steps), id)
  {
    if steps != [] {
      var n := |steps| - 1;
      InFlightEvidenceIsLost(s, steps[..n], id);
      RunKeepsSound(s, steps[..n]);
      var before := Run(s, steps[..n]);
      AbsentStep(before, steps[n], id);
      if steps[n].Probe? && CapturedFor(steps[n].evidence, id) {
        assert Next(before, steps[n]) == before;
      } else {
        var kept := WithoutEvidenceFor(steps, id);
        assert kept[..|kept| - 1] == WithoutEvidenceFor(steps[..n], id);
      }
    }
  }

  /** A roster that drops or replaces a credential leaves it absent. */
  lemma DroppedIsAbsent(s: EngineState, ids: seq<Identity>, at: Instant, id: Identity)
    requires Sound(s) && NormalizeRoster(ids).Some? && !Installs(Roster(ids, at), id)
    ensures Absent(RosterNext(s, ids, at), id)
  {
    NormalizedIsProper(ids);
    var items := NormalizeRoster(ids).value;
    assert RosterNext(s, ids, at).entries == RosterEntries(s.entries, items);
    forall g | Key(id.authIndex, g) in RosterEntries(s.entries, items)
      ensures var e := RosterEntries(s.entries, items)[Key(id.authIndex, g)]; e.authID != id.authID || e.fingerprint != id.fingerprint
    {
      AbsentRoster(s, items, id, g);
    }
  }
}
