/**
  The state document: which documents load, and that what a reachable engine
  saves always loads back as the same engine without its lease holders.
 */
module StateFile {
  import opened GuardTypes
  import opened Breaker
  import opened EngineSpec
  import opened EngineRuns

  const SCHEMA_VERSION := 1

  datatype Document = Document(version: int, updated: Time, entries: seq<Entry>)

  function KeyOf(e: Entry): Key {
    Key(e.authIndex, e.group)
  }

  function IdentityOf(e: Entry): Identity {
    Identity(e.authID, e.authIndex, e.fingerprint, e.provider, e.priority)
  }

  predicate ValidEntry(e: Entry) {
    && e.authID != "" && e.authIndex != "" && e.fingerprint != "" && e.failureCount >= 0
    && (e.remaining.Some? ==> 0.0 <= e.remaining.value <= 100.0)
  }

  predicate Compatible(a: Entry, b: Entry) {
    && KeyOf(a) != KeyOf(b)
    && (a.authIndex == b.authIndex ==> IdentityOf(a) == IdentityOf(b))
    && (a.authID == b.authID ==> a.authIndex == b.authIndex)
  }

  predicate ValidEntries(es: seq<Entry>) {
    && (forall i :: 0 <= i < |es| ==> ValidEntry(es[i]))
    && (forall i, j :: 0 <= i < j < |es| ==> Compatible(es[i], es[j]))
  }

  predicate ValidDocument(d: Document) {
    d.version == SCHEMA_VERSION && ValidEntries(d.entries)
  }

  function Table(es: seq<Entry>): map<Key, Entry> {
    if es == [] then map[] else Table(es[..|es| - 1])[KeyOf(es[|es| - 1]) := es[|es| - 1]]
  }

  function IDTable(es: seq<Entry>): map<string, string> {
    if es == [] then map[] else IDTable(es[..|es| - 1])[es[|es| - 1].authID := es[|es| - 1].authIndex]
  }

  function IdentityTable(es: seq<Entry>): map<string, Identity> {
    if es == [] then map[] else IdentityTable(es[..|es| - 1])[es[|es| - 1].authIndex := IdentityOf(es[|es| - 1])]
  }

  /** Accepts exactly the valid documents and indexes their entries by key and by id. */
  method ValidateDocument(d: Document) returns (r: Result<(map<Key, Entry>, map<string, string>), GuardError>)
    ensures r.Ok? <==> ValidDocument(d)
    ensures r.Ok? ==> r.value == (Table(d.entries), IDTable(d.entries))
  {
    if d.version != SCHEMA_VERSION {
      return Err(InvalidState);
    }
    var es := d.entries;
    var entries: map<Key, Entry> := map[];
    var ids: map<string, string> := map[];
    var identities: map<string, Identity> := map[];
    hide Compatible, ValidEntry;
    for n := 0 to |es|
      invariant ValidEntries(es[..n])
      invariant entries == Table(es[..n]) && ids == IDTable(es[..n]) && identities == IdentityTable(es[..n])
    {
      var e := es[n];
      assert es[..n + 1] == es[..n] + [e] && es[..n + 1][..n] == es[..n];
      Admission(es[..n], e);
      InvalidPrefix(es, n + 1);
      if e.authID == "" || e.authIndex == "" || e.fingerprint == "" || e.failureCount < 0
         || (e.remaining.Some? && (e.remaining.value < 0.0 || e.remaining.value > 100.0)) {
        return Err(InvalidState);
      }
      if KeyOf(e) in entries {
        return Err(InvalidState);
      }
      var identity := IdentityOf(e);
      if e.authIndex in identities && identities[e.authIndex] != identity {
        return Err(InvalidState);
      }
      if e.authID in ids && ids[e.authID] != e.authIndex {
        return Err(InvalidState);
      }
      identities := identities[e.authIndex := identity];
      ids := ids[e.authID := e.authIndex];
      entries := entries[KeyOf(e) := e];
    }
    assert es[..|es|] == es;
    r := Ok((entries, ids));
  }

  lemma InvalidPrefix(es: seq<Entry>, n: nat)
    requires n <= |es|
    ensures ValidEntries(es) ==> ValidEntries(es[..n])
  {
  }

  /** The tests of the loop against the entries already indexed. */
  predicate Admits(es: seq<Entry>, e: Entry) {
    && KeyOf(e) !in Table(es)
    && (e.authIndex in IdentityTable(es) ==> IdentityTable(es)[e.authIndex] == IdentityOf(e))
    && (e.authID in IDTable(es) ==> IDTable(es)[e.authID] == e.authIndex)
  }

  lemma AdmittedIsCompatible(es: seq<Entry>, e: Entry, a: Entry)
    requires ValidEntries(es) && Admits(es, e) && a in es
    ensures Compatible(a, e)
  {
    TableLookup(es);
    if a.authIndex == e.authIndex {
      IdentityLookup(es);
      SameIndexSameIdentity(es, e.authIndex);
    }
    if a.authID == e.authID {
      IDTableLookup(es);
      SameIDSameIndex(es, e.authID);
    }
  }

  lemma RefusedIsIncompatible(es: seq<Entry>, e: Entry) returns (a: Entry)
    requires ValidEntries(es) && !Admits(es, e)
    ensures a in es && !Compatible(a, e)
  {
    if KeyOf(e) in Table(es) {
      TableLookup(es);
      a := Table(es)[KeyOf(e)];
    } else if e.authIndex in IdentityTable(es) && IdentityTable(es)[e.authIndex] != IdentityOf(e) {
      IdentityLookup(es);
      a :| a in es && a.authIndex == e.authIndex && IdentityOf(a) == IdentityTable(es)[e.authIndex];
    } else {
      IDTableLookup(es);
      a :| a in es && a.authID == e.authID && a.authIndex == IDTable(es)[e.authID];
    }
  }

  /** The tests of the loop decide whether one more entry keeps the list valid. */
  lemma Admission(es: seq<Entry>, e: Entry)
    requires ValidEntries(es)
    ensures ValidEntries(es + [e]) <==> ValidEntry(e) && Admits(es, e)
  {
    hide Compatible, Admits;
    AdmissionPairwise(es, e);
    if Admits(es, e) {
      forall a | a in es ensures Compatible(a, e) {
        AdmittedIsCompatible(es, e, a);
      }
    } else {
      var a := RefusedIsIncompatible(es, e);
    }
  }

  lemma AdmissionPairwise(es: seq<Entry>, e: Entry)
    requires ValidEntries(es)
    ensures ValidEntries(es + [e]) <==> ValidEntry(e) && forall a :: a in es ==> Compatible(a, e)
  {
    var all := es + [e];
    assert all[|es|] == e;
    if ValidEntries(all) {
      forall a | a in es ensures Compatible(a, e) {
        var i :| 0 <= i < |es| && es[i] == a;
        assert Compatible(all[i], all[|es|]);
      }
    }
    if ValidEntry(e) && forall a :: a in es ==> Compatible(a, e) {
      forall i, j | 0 <= i < j < |all| ensures Compatible(all[i], all[j]) {
        assert all[i] == es[i] && es[i] in es;
        if j < |es| {
          assert Compatible(es[i], es[j]);
        }
      }
    }
  }

  lemma SameIDSameIndex(es: seq<Entry>, id: string)
    requires ValidEntries(es)
    ensures forall a, b :: a in es && b in es && a.authID == b.authID == id ==> a.authIndex == b.authIndex
  {
    forall a, b | a in es && b in es && a.authID == b.authID == id ensures a.authIndex == b.authIndex {
      var i :| 0 <= i < |es| && es[i] == a;
      var j :| 0 <= j < |es| && es[j] == b;
      assert i == j || Compatible(es[i], es[j]) || Compatible(es[j], es[i]);
    }
  }

  lemma SameIndexSameIdentity(es: seq<Entry>, index: string)
    requires ValidEntries(es)
    ensures forall a, b :: a in es && b in es && a.authIndex == b.authIndex == index ==> IdentityOf(a) == IdentityOf(b)
  {
    forall a, b | a in es && b in es && a.authIndex == b.authIndex == index ensures IdentityOf(a) == IdentityOf(b) {
      var i :| 0 <= i < |es| && es[i] == a;
      var j :| 0 <= j < |es| && es[j] == b;
      assert i == j || Compatible(es[i], es[j]) || Compatible(es[j], es[i]);
    }
  }

  lemma {:induction false} IdentityLookup(es: seq<Entry>)
    ensures forall e :: e in es ==> e.authIndex in IdentityTable(es)
    ensures forall x :: x in IdentityTable(es) ==> exists e :: e in es && e.authIndex == x && IdentityOf(e) == IdentityTable(es)[x]
  {
    if es != [] {
      var n := |es| - 1;
      IdentityLookup(es[..n]);
      assert es == es[..n] + [es[n]];
      forall x | x in IdentityTable(es) ensures exists e :: e in es && e.authIndex == x && IdentityOf(e) == IdentityTable(es)[x] {
        if x == es[n].authIndex {
          assert es[n] in es;
        } else {
          assert x in IdentityTable(es[..n]);
          var e :| e in es[..n] && e.authIndex == x && IdentityOf(e) == IdentityTable(es[..n])[x];
          assert e in es;
        }
      }
      forall e | e in es ensures e.authIndex in IdentityTable(es) {
        assert e in es[..n] || e == es[n];
      }
    }
  }

  /** `es` lists the values of the table, each once, in some order. */
  predicate Lists(es: seq<Entry>, entries: map<Key, Entry>) {
    && (forall i :: 0 <= i < |es| ==> KeyOf(es[i]) in entries && entries[KeyOf(es[i])] == es[i])
    && (forall i, j :: 0 <= i < j < |es| ==> KeyOf(es[i]) != KeyOf(es[j]))
    && (forall k :: k in entries ==> entries[k] in es)
  }

  /** The instant at which an open or half-open breaker of the group may next be probed. */
  function Boundary(e: Entry, g: Group): Time {
    if e.group != g then 0
    else if e.state == Open then e.recoverAt
    else if e.state == HalfOpen then e.halfOpenLeaseUntil
    else 0
  }

  function EarliestRecover(es: seq<Entry>, g: Group): Time {
    if es == [] then 0 else EarlierNonZero(EarliestRecover(es[..|es| - 1], g), Boundary(es[|es| - 1], g))
  }

  /** The same, except for the keys still left to list. */
  predicate ListsAllBut(es: seq<Entry>, entries: map<Key, Entry>, left: set<Key>) {
    && (forall i :: 0 <= i < |es| ==>
          KeyOf(es[i]) in entries && KeyOf(es[i]) !in left && entries[KeyOf(es[i])] == es[i])
    && (forall i, j :: 0 <= i < j < |es| ==> KeyOf(es[i]) != KeyOf(es[j]))
    && (forall k :: k in entries && k !in left ==> entries[k] in es)
  }

  lemma ListOneMore(es: seq<Entry>, entries: map<Key, Entry>, left: set<Key>, k: Key)
    requires ListsAllBut(es, entries, left) && k in left && k in entries && KeyOf(entries[k]) == k
    ensures ListsAllBut(es + [entries[k]], entries, left - {k})
  {
    var all := es + [entries[k]];
    forall x | x in entries && x !in left - {k} ensures entries[x] in all {
      assert x == k || entries[x] in es;
    }
  }

  lemma EarliestOneMore(es: seq<Entry>, e: Entry, g: Group)
    ensures EarliestRecover(es + [e], g) == EarlierNonZero(EarliestRecover(es, g), Boundary(e, g))
  {
    assert (es + [e])[..|es|] == es;
  }

  lemma {:induction false} TableLookup(es: seq<Entry>)
    ensures forall e :: e in es ==> KeyOf(e) in Table(es)
    ensures forall k :: k in Table(es) ==> Table(es)[k] in es && KeyOf(Table(es)[k]) == k
  {
    if es != [] {
      var n := |es| - 1;
      TableLookup(es[..n]);
      assert es == es[..n] + [es[n]];
      forall k | k in Table(es) ensures Table(es)[k] in es && KeyOf(Table(es)[k]) == k {
        if k != KeyOf(es[n]) {
          assert Table(es[..n])[k] in es[..n];
        }
      }
      forall e | e in es ensures KeyOf(e) in Table(es) {
        assert e in es[..n] || e == es[n];
      }
    }
  }

  lemma {:induction false} IDTableLookup(es: seq<Entry>)
    ensures forall e :: e in es ==> e.authID in IDTable(es)
    ensures forall id :: id in IDTable(es) ==> exists e :: e in es && e.authID == id && e.authIndex == IDTable(es)[id]
  {
    if es != [] {
      var n := |es| - 1;
      IDTableLookup(es[..n]);
      assert es == es[..n] + [es[n]];
      forall id | id in IDTable(es) ensures exists e :: e in es && e.authID == id && e.authIndex == IDTable(es)[id] {
        if id == es[n].authID {
          assert es[n] in es;
        } else {
          assert id in IDTable(es[..n]) && IDTable(es)[id] == IDTable(es[..n])[id];
          var e :| e in es[..n] && e.authID == id && e.authIndex == IDTable(es[..n])[id];
          assert e in es;
        }
      }
      forall e | e in es ensures e.authID in IDTable(es) {
        assert e in es[..n] || e == es[n];
      }
    }
  }

  lemma ListedTable(es: seq<Entry>, entries: map<Key, Entry>)
    requires Lists(es, entries) && forall k :: k in entries ==> KeyOf(entries[k]) == k
    ensures Table(es) == entries
  {
    TableLookup(es);
    forall k ensures (k in Table(es) <==> k in entries) && (k in entries ==> Table(es)[k] == entries[k]) {
      if k in entries {
        var e := entries[k];
        assert e in es;
      }
      if k in Table(es) {
        var i :| 0 <= i < |es| && es[i] == Table(es)[k];
      }
    }
  }

  lemma {:induction false} TableOfDistinct(es: seq<Entry>)
    requires forall i, j :: 0 <= i < j < |es| ==> KeyOf(es[i]) != KeyOf(es[j])
    ensures forall i :: 0 <= i < |es| ==> KeyOf(es[i]) in Table(es) && Table(es)[KeyOf(es[i])] == es[i]
  {
    if es != [] {
      TableOfDistinct(es[..|es| - 1]);
    }
  }

  /** A valid document lists the table it loads as. */
  lemma ValidLists(es: seq<Entry>)
    requires ValidEntries(es)
    ensures Lists(es, Table(es))
  {
    forall i, j | 0 <= i < j < |es| ensures KeyOf(es[i]) != KeyOf(es[j]) {
      assert Compatible(es[i], es[j]);
    }
    TableOfDistinct(es);
    TableLookup(es);
  }

  // ----------------------------------------------------------- what can be stored

  predicate EntryFiled(entries: map<Key, Entry>, ids: map<string, string>, k: Key)
    requires k in entries
  {
    var e := entries[k];
    && KeyOf(e) == k && ValidEntry(e)
    && (Twin(k) in entries ==> IdentityOf(e) == IdentityOf(entries[Twin(k)]))
    && e.authID in ids && ids[e.authID] == e.authIndex
  }

  predicate IDFiledIn(entries: map<Key, Entry>, ids: map<string, string>, id: string, g: Group)
    requires id in ids
  {
    Key(ids[id], g) in entries && entries[Key(ids[id], g)].authID == id
  }

  predicate IDFiled(entries: map<Key, Entry>, ids: map<string, string>, id: string)
    requires id in ids
  {
    IDFiledIn(entries, ids, id, Gemini) || IDFiledIn(entries, ids, id, ClaudeGPT)
  }

  /** What the tables of an engine keep from any valid document they were loaded from, one group missing or not. */
  predicate Storable(s: EngineState) {
    && (forall k {:trigger EntryFiled(s.entries, s.authByID, k)} :: k in s.entries ==> EntryFiled(s.entries, s.authByID, k))
    && (forall id {:trigger IDFiled(s.entries, s.authByID, id)} :: id in s.authByID ==> IDFiled(s.entries, s.authByID, id))
  }

  lemma SoundIsStorable(s: EngineState)
    requires Sound(s)
    ensures Storable(s)
  {
    forall k | k in s.entries ensures EntryFiled(s.entries, s.authByID, k) {
      assert EntryPlaced(s.entries, s.authByID, k);
      assert EntrySound(s.entries[k]);
    }
    forall id | id in s.authByID ensures IDFiled(s.entries, s.authByID, id) {
      assert IDPlaced(s.entries, s.authByID, id);
    }
  }

  lemma ReloadIsStorable(s: EngineState, c: Settings)
    requires Storable(s)
    ensures Storable(Reloaded(s, c))
  {
    var r := Reloaded(s, c);
    forall k | k in r.entries ensures EntryFiled(r.entries, r.authByID, k) {
      assert EntryFiled(s.entries, s.authByID, k);
    }
    forall id | id in r.authByID ensures IDFiled(r.entries, r.authByID, id) {
      assert IDFiled(s.entries, s.authByID, id);
    }
  }

  lemma LoadedEntryFiled(es: seq<Entry>, k: Key)
    requires ValidEntries(es) && k in Table(es)
    ensures EntryFiled(Table(es), IDTable(es), k)
  {
    TableLookup(es);
    IDTableLookup(es);
    var e := Table(es)[k];
    SameIndexSameIdentity(es, e.authIndex);
    SameIDSameIndex(es, e.authID);
    assert e in es;
    hide ValidEntries, Table, IDTable, Compatible;
    var i :| 0 <= i < |es| && es[i] == e;
    assert ValidEntry(e) by { ValidAt(es, i); }
  }

  lemma ValidAt(es: seq<Entry>, i: nat)
    requires ValidEntries(es) && i < |es|
    ensures ValidEntry(es[i])
  {
  }

  lemma LoadedIDFiled(es: seq<Entry>, id: string)
    requires ValidEntries(es) && id in IDTable(es)
    ensures IDFiled(Table(es), IDTable(es), id)
  {
    IDTableLookup(es);
    hide ValidEntries, Table, IDTable, IDFiledIn;
    var e :| e in es && e.authID == id && e.authIndex == IDTable(es)[id];
    var i :| 0 <= i < |es| && es[i] == e;
    TableHolds(es, i);
    assert IDFiledIn(Table(es), IDTable(es), id, e.group) by { HeldIsFiled(Table(es), IDTable(es), id, e); }
    assert e.group == Gemini || e.group == ClaudeGPT;
  }

  lemma HeldIsFiled(entries: map<Key, Entry>, ids: map<string, string>, id: string, e: Entry)
    requires id in ids && ids[id] == e.authIndex && e.authID == id
    requires KeyOf(e) in entries && entries[KeyOf(e)] == e
    ensures IDFiledIn(entries, ids, id, e.group)
  {
  }

  lemma TableHolds(es: seq<Entry>, i: nat)
    requires ValidEntries(es) && i < |es|
    ensures KeyOf(es[i]) in Table(es) && Table(es)[KeyOf(es[i])] == es[i]
  {
    ValidLists(es);
    TableLookup(es);
    hide ValidEntries, Table;
    assert es[i] in es;
    var t := Table(es)[KeyOf(es[i])];
    var j :| 0 <= j < |es| && es[j] == t;
    assert KeyOf(es[j]) == KeyOf(es[i]);
  }

  /** Whatever valid document is loaded, its tables can be stored again. */
  lemma LoadedIsStorable(c: Settings, d: Document)
    requires ValidDocument(d)
    ensures Storable(Loaded(c, d))
  {
    hide ValidEntries, Table, IDTable, EntryFiled, IDFiled;
    forall k | k in Table(d.entries) ensures EntryFiled(Table(d.entries), IDTable(d.entries), k) {
      LoadedEntryFiled(d.entries, k);
    }
    forall id | id in IDTable(d.entries) ensures IDFiled(Table(d.entries), IDTable(d.entries), id) {
      LoadedIDFiled(d.entries, id);
    }
  }

  /** In a loaded engine every name given resolves to the one breaker of the group that carries it. */
  lemma LoadedResolves(c: Settings, d: Document, authIndex: string, authID: string, g: Group, k: Key)
    requires ValidDocument(d) && (authIndex != "" || authID != "")
    ensures var s := Loaded(c, d);
            Lookup(s, authIndex, authID, g) == Some(k)
            <==> && k in s.entries && k.group == g
                 && (authIndex != "" ==> s.entries[k].authIndex == authIndex)
                 && (authID != "" ==> s.entries[k].authID == authID)
  {
    var s := Loaded(c, d);
    LoadedIsStorable(c, d);
    if k in s.entries {
      assert EntryFiled(s.entries, s.authByID, k);
    }
    hide Table, IDTable, ValidEntries;
    var found := Lookup(s, authIndex, authID, g);
    if found.Some? {
      assert EntryFiled(s.entries, s.authByID, found.value);
    }
  }

  /** What every loaded breaker is, wherever its file came from. */
  lemma LoadedIsProper(c: Settings, d: Document, k: Key)
    requires ValidDocument(d) && k in Loaded(c, d).entries
    ensures var s, other := Loaded(c, d), k.(group := if k.group == Gemini then ClaudeGPT else Gemini);
            var e := s.entries[k];
            && e in d.entries && e.authIndex == k.authIndex != "" && e.group == k.group
            && e.authID != "" && e.fingerprint != "" && e.failureCount >= 0
            && (e.remaining.Some? ==> 0.0 <= e.remaining.value <= 100.0)
            && (other in s.entries ==>
                  var o := s.entries[other];
                  o.authID == e.authID && o.fingerprint == e.fingerprint && o.provider == e.provider && o.priority == e.priority)
  {
    LoadedIsStorable(c, d);
    TableLookup(d.entries);
    assert EntryFiled(Loaded(c, d).entries, Loaded(c, d).authByID, k);
    hide Table, IDTable, ValidEntries;
  }

  lemma FiledAreCompatible(s: EngineState, a: Key, b: Key)
    requires Storable(s) && a in s.entries && b in s.entries && a != b
    ensures Compatible(s.entries[a], s.entries[b])
  {
    assert EntryFiled(s.entries, s.authByID, a) && EntryFiled(s.entries, s.authByID, b);
    if a.authIndex == b.authIndex {
      assert b == Twin(a);
    }
  }

  /** Every listing of what can be stored is a valid document. */
  lemma ListedAreValid(s: EngineState, es: seq<Entry>)
    requires Storable(s) && Lists(es, s.entries)
    ensures ValidEntries(es)
  {
    hide Compatible, ValidEntry;
    forall i | 0 <= i < |es| ensures ValidEntry(es[i]) {
      assert EntryFiled(s.entries, s.authByID, KeyOf(es[i]));
    }
    forall i, j | 0 <= i < j < |es| ensures Compatible(es[i], es[j]) {
      FiledAreCompatible(s, KeyOf(es[i]), KeyOf(es[j]));
    }
  }

  lemma ListedID(s: EngineState, es: seq<Entry>, id: string)
    requires Storable(s) && Lists(es, s.entries)
    ensures id in IDTable(es) <==> id in s.authByID
    ensures id in IDTable(es) ==> IDTable(es)[id] == s.authByID[id]
  {
    IDTableLookup(es);
    hide IDTable, ValidEntry;
    if id in s.authByID {
      assert IDFiled(s.entries, s.authByID, id);
      var g := if IDFiledIn(s.entries, s.authByID, id, Gemini) then Gemini else ClaudeGPT;
      assert s.entries[Key(s.authByID[id], g)] in es;
    }
    if id in IDTable(es) {
      var e :| e in es && e.authID == id && e.authIndex == IDTable(es)[id];
      var i :| 0 <= i < |es| && es[i] == e;
      assert EntryFiled(s.entries, s.authByID, KeyOf(es[i]));
    }
  }

  lemma ListedIDs(s: EngineState, es: seq<Entry>)
    requires Storable(s) && Lists(es, s.entries)
    ensures IDTable(es) == s.authByID
  {
    hide IDTable, Storable, Lists;
    forall id ensures (id in IDTable(es) <==> id in s.authByID)
                      && (id in IDTable(es) ==> IDTable(es)[id] == s.authByID[id]) {
      ListedID(s, es, id);
    }
  }

  /** A new engine after loading a document. */
  function Loaded(config: Config, d: Document): EngineState {
    EngineState(config, Table(d.entries), IDTable(d.entries), map[], d.updated, 0, 1)
  }

  /**
    Whatever run led to this state, a document listing its entries, in any
    order and without lease holders, is accepted, and loading it under any
    configuration gives back the engine with only the lease holders (and the
    cursors) forgotten.
   */
  lemma SaveLoadRoundTrip(config: Settings, steps: seq<Step>, d: Document, next: Settings)
    requires d.version == SCHEMA_VERSION && Lists(d.entries, ErasedEntries(Run(Initial(config), steps).entries))
    ensures ValidDocument(d)
    ensures Loaded(next, d) == Reloaded(Run(Initial(config), steps), next).(updated := d.updated)
    ensures var s, loaded := Run(Initial(config), steps), Loaded(next, d);
            && loaded.config == next && loaded.authByID == s.authByID && loaded.dirty == 0
            && (forall k :: k in loaded.entries <==> k in s.entries)
            && (forall k :: k in s.entries ==> loaded.entries[k] == s.entries[k].(requestID := ""))
  {
    ReachableIsSound(config, steps);
    SoundIsStorable(Run(Initial(config), steps));
    SavedLoads(Run(Initial(config), steps), d, next);
  }

  /** The same from any state that can be stored. */
  lemma SavedLoads(s: EngineState, d: Document, next: Settings)
    requires Storable(s) && d.version == SCHEMA_VERSION && Lists(d.entries, ErasedEntries(s.entries))
    ensures ValidDocument(d)
    ensures Table(d.entries) == ErasedEntries(s.entries)
    ensures Loaded(next, d) == Reloaded(s, next).(updated := d.updated)
  {
    var r := Reloaded(s, next);
    ReloadIsStorable(s, next);
    ListedAreValid(r, d.entries);
    ListedIDs(r, d.entries);
    forall k | k in r.entries ensures KeyOf(r.entries[k]) == k {
      assert EntryFiled(r.entries, r.authByID, k);
    }
    hide Storable, ValidEntries, Lists, Table, IDTable, ErasedEntries;
    ListedTable(d.entries, r.entries);
  }
}
