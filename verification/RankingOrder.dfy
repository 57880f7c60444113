/** The order of a ranking and of a whole plan down to the last tie-breaker. */
module RankingOrder {
  import opened GuardTypes
  import opened Tiers
  import opened Planner
  import opened Plans
  import QuotaWindows
  import Sorting

  // ---------------------------------------------------------------------- text

  /** Up to n the texts agree, and there the first ends or is smaller. */
  predicate DiffersAt(a: string, b: string, n: nat) {
    n <= |a| && n < |b| && a[..n] == b[..n] && (n == |a| || a[n] < b[n])
  }

  ghost predicate Lexicographic(a: string, b: string) {
    exists n: nat :: DiffersAt(a, b, n)
  }

  lemma {:induction false} TextIsLexicographic(a: string, b: string)
    ensures TextBefore(a, b) <==> Lexicographic(a, b)
    decreases |a|
  {
    if a == [] || b == [] || a[0] != b[0] {
      FirstDecides(a, b);
    } else {
      TextIsLexicographic(a[1..], b[1..]);
      if n: nat :| DiffersAt(a, b, n) {
        assert n > 0;
        assert a[1..][..n - 1] == a[..n][1..] && b[1..][..n - 1] == b[..n][1..];
        assert DiffersAt(a[1..], b[1..], n - 1);
      }
      if n: nat :| DiffersAt(a[1..], b[1..], n) {
        var m := n + 1;
        assert a[..m] == [a[0]] + a[1..][..n] && b[..m] == [b[0]] + b[1..][..n];
        assert DiffersAt(a, b, m);
      }
    }
  }

  lemma FirstDecides(a: string, b: string)
    requires a == [] || b == [] || a[0] != b[0]
    ensures TextBefore(a, b) <==> Lexicographic(a, b)
  {
    if TextBefore(a, b) {
      assert DiffersAt(a, b, 0);
    }
    if n: nat :| DiffersAt(a, b, n) {
      assert n == 0;
    }
  }

  lemma {:induction false} TextIsTotal(a: string, b: string)
    ensures a == b || TextBefore(a, b) || TextBefore(b, a)
    ensures !(TextBefore(a, b) && TextBefore(b, a)) && (a == b ==> !TextBefore(a, b))
    decreases |a|
  {
    if a != [] && b != [] {
      TextIsTotal(a[1..], b[1..]);
      assert a == [a[0]] + a[1..] && b == [b[0]] + b[1..];
    }
  }

  lemma {:induction false} TextIsTransitive(a: string, b: string, c: string)
    requires TextBefore(a, b) && TextBefore(b, c)
    ensures TextBefore(a, c)
    decreases |a|
  {
    if a != [] && a[0] == b[0] == c[0] {
      TextIsTransitive(a[1..], b[1..], c[1..]);
    }
  }

  predicate TextUpTo(a: string, b: string) {
    a == b || TextBefore(a, b)
  }

  lemma UpToIsTransitive(a: string, b: string, c: string)
    requires TextUpTo(a, b) && TextUpTo(b, c)
    ensures TextUpTo(a, c)
  {
    if a != b && b != c {
      TextIsTransitive(a, b, c);
    }
  }

  // ------------------------------------------------------------------- rankings

  /** The more urgent, then the sooner reset, then the smaller index. */
  predicate Leads(a: Item, b: Item) {
    a.urgency > b.urgency
    || (a.urgency == b.urgency
        && (a.t5h < b.t5h || (a.t5h == b.t5h && TextUpTo(a.credential.authIndex, b.credential.authIndex))))
  }

  /** Urgencies and reset times are equal or too far apart to be taken for equal. */
  ghost predicate Distinguishable(items: seq<Item>, o: Options, boosted: bool) {
    forall a, b :: a in items && b in items && Ranked(a, o, boosted) && Ranked(b, o, boosted) ==>
      && (a.urgency == b.urgency || Distance(a.urgency, b.urgency) > EPSILON)
      && (a.t5h == b.t5h || Distance(a.t5h, b.t5h) > EPSILON)
  }

  lemma LeadsIsTransitive(a: Item, b: Item, c: Item)
    requires Leads(a, b) && Leads(b, c)
    ensures Leads(a, c)
  {
    hide TextUpTo;
    if TextUpTo(a.credential.authIndex, b.credential.authIndex) && TextUpTo(b.credential.authIndex, c.credential.authIndex) {
      UpToIsTransitive(a.credential.authIndex, b.credential.authIndex, c.credential.authIndex);
    }
  }

  lemma ComparisonLeads(a: Item, b: Item)
    requires a.urgency == b.urgency || Distance(a.urgency, b.urgency) > EPSILON
    requires a.t5h == b.t5h || Distance(a.t5h, b.t5h) > EPSILON
    ensures if RanksBefore(a, b) then Leads(a, b) else Leads(b, a)
  {
    TextIsTotal(a.credential.authIndex, b.credential.authIndex);
    hide TextBefore;
  }

  const NOBODY := Untouched(Credential("", 0, false, false))

  function ItemAt(items: seq<Item>, i: nat): Item {
    if i < |items| then items[i] else NOBODY
  }

  /** Where nothing is merely close, a ranking goes by urgency, then five-hour reset, then index. */
  lemma RankingIsExact(items: seq<Item>, o: Options, boosted: bool)
    requires Distinguishable(items, o, boosted)
    ensures var order := Ranking(items, o, boosted);
            && (forall k :: 0 <= k < |order| ==> order[k] < |items|)
            && forall i, j :: 0 <= i < j < |order| ==> Leads(items[order[i]], items[order[j]])
  {
    var ps, order := Positions(items, o, boosted, |items|), Ranking(items, o, boosted);
    var le := (a: nat, b: nat) => Leads(ItemAt(items, a), ItemAt(items, b));
    PositionsOfRanked(items, o, boosted, |items|);
    RankingOfRanked(items, o, boosted);
    hide RanksBefore, Leads, Ranked, Positions;
    forall a, b | a in ps && b in ps ensures if PositionLess(items)(a, b) then le(a, b) else le(b, a) {
      assert items[a] in items && items[b] in items;
      ComparisonLeads(items[a], items[b]);
    }
    forall a, b, c | le(a, b) && le(b, c) ensures le(a, c) {
      LeadsIsTransitive(ItemAt(items, a), ItemAt(items, b), ItemAt(items, c));
    }
    Sorting.SortedOrdered(ps, PositionLess(items), le);
    assert forall i, j :: 0 <= i < j < |order| ==> le(order[i], order[j]);
  }

  // ---------------------------------------------------------------------- plans

  /** Fresh first, then the higher priority, then the enabled, then the smaller index. */
  predicate ComesFirst(a: Item, b: Item) {
    if a.evidenceFresh != b.evidenceFresh then a.evidenceFresh
    else if a.priority != b.priority then a.priority > b.priority
    else if a.disabled != b.disabled then b.disabled
    else TextUpTo(a.credential.authIndex, b.credential.authIndex)
  }

  lemma FirstIsTransitive(a: Item, b: Item, c: Item)
    requires ComesFirst(a, b) && ComesFirst(b, c)
    ensures ComesFirst(a, c)
  {
    hide TextUpTo;
    if TextUpTo(a.credential.authIndex, b.credential.authIndex) && TextUpTo(b.credential.authIndex, c.credential.authIndex) {
      UpToIsTransitive(a.credential.authIndex, b.credential.authIndex, c.credential.authIndex);
    }
  }

  lemma ComparisonComesFirst(a: Item, b: Item)
    ensures if ItemBefore(a, b) then ComesFirst(a, b) else ComesFirst(b, a)
  {
    TextIsTotal(a.credential.authIndex, b.credential.authIndex);
    hide TextBefore;
  }

  predicate ComeInOrder(items: seq<Item>) {
    forall i, j :: 0 <= i < j < |items| ==> ComesFirst(items[i], items[j])
  }

  /** The items of a plan are in this order throughout. */
  lemma PlanIsInOrder(cs: seq<Credential>, eligible: seq<QuotaWindows.Quota>, past: seq<QuotaWindows.Quota>, o: Options,
                      items: seq<Item>, changes: seq<Change>)
    requires IsPlan(cs, eligible, past, o, items, changes)
    ensures ComeInOrder(items)
  {
    hide Planned, ComeInOrder;
    var ranked: seq<Item> :| Planned(ItemsFor(cs, eligible, past, o), ranked, o) && items == Sorting.Sorted(MarkedAll(ranked), ItemBefore);
    SortedComesFirst(MarkedAll(ranked));
  }

  lemma SortedComesFirst(s: seq<Item>)
    ensures ComeInOrder(Sorting.Sorted(s, ItemBefore))
  {
    hide ItemBefore, ComesFirst;
    var le := (a: Item, b: Item) => ComesFirst(a, b);
    forall a, b ensures if ItemBefore(a, b) then le(a, b) else le(b, a) {
      ComparisonComesFirst(a, b);
    }
    forall a, b, c | le(a, b) && le(b, c) ensures le(a, c) {
      FirstIsTransitive(a, b, c);
    }
    Sorting.SortedOrdered(s, ItemBefore, le);
    var items := Sorting.Sorted(s, ItemBefore);
    forall i, j | 0 <= i < j < |items| ensures ComesFirst(items[i], items[j]) {
      assert le(items[i], items[j]);
    }
  }
}
