/** A stable sort by straight insertion, and what it guarantees for any comparison. */
module Sorting {

  /** Moves a new element left past every element it must precede. */
  function Inserted<T(!new)>(s: seq<T>, x: T, less: (T, T) -> bool): seq<T> {
    if s == [] || !less(x, s[|s| - 1]) then s + [x]
    else Inserted(s[..|s| - 1], x, less) + [s[|s| - 1]]
  }

  function Sorted<T(!new)>(s: seq<T>, less: (T, T) -> bool): seq<T> {
    if s == [] then [] else Inserted(Sorted(s[..|s| - 1], less), s[|s| - 1], less)
  }

  lemma {:induction false} InsertedElements<T(!new)>(s: seq<T>, x: T, less: (T, T) -> bool)
    ensures multiset(Inserted(s, x, less)) == multiset(s) + multiset{x}
  {
    if s != [] && less(x, s[|s| - 1]) {
      InsertedElements(s[..|s| - 1], x, less);
      assert s == s[..|s| - 1] + [s[|s| - 1]];
    }
  }

  lemma {:induction false} SortedElements<T(!new)>(s: seq<T>, less: (T, T) -> bool)
    ensures multiset(Sorted(s, less)) == multiset(s)
  {
    if s != [] {
      SortedElements(s[..|s| - 1], less);
      InsertedElements(Sorted(s[..|s| - 1], less), s[|s| - 1], less);
      assert s == s[..|s| - 1] + [s[|s| - 1]];
    }
  }

  lemma SameElements<T(!new)>(a: seq<T>, b: seq<T>)
    requires multiset(a) == multiset(b)
    ensures |a| == |b|
    ensures forall x :: x in a <==> x in b
  {
    assert |a| == |multiset(a)| && |b| == |multiset(b)|;
    forall x ensures x in a <==> x in b {
      assert x in a <==> x in multiset(a);
      assert x in b <==> x in multiset(b);
    }
  }

  ghost predicate Ordered<T(!new)>(s: seq<T>, le: (T, T) -> bool) {
    forall i, j :: 0 <= i < j < |s| ==> le(s[i], s[j])
  }

  ghost predicate Transitive<T(!new)>(le: (T, T) -> bool) {
    forall x, y, z :: le(x, y) && le(y, z) ==> le(x, z)
  }

  /** The comparison never contradicts the order among these elements. */
  ghost predicate Respects<T(!new)>(s: seq<T>, less: (T, T) -> bool, le: (T, T) -> bool) {
    forall x, y :: x in s && y in s ==> if less(x, y) then le(x, y) else le(y, x)
  }

  lemma {:induction false} InsertedOrdered<T(!new)>(s: seq<T>, x: T, less: (T, T) -> bool, le: (T, T) -> bool)
    requires Transitive(le) && Ordered(s, le) && Respects(s + [x], less, le)
    ensures Ordered(Inserted(s, x, less), le)
  {
    if s != [] {
      var n := |s| - 1;
      var front, last := s[..n], s[n];
      assert s == front + [last];
      assert x in s + [x] && forall y :: y in s ==> y in s + [x];
      if less(x, last) {
        assert Respects(front + [x], less, le) by {
          assert forall y :: y in front + [x] ==> y in s + [x];
        }
        InsertedOrdered(front, x, less, le);
        InsertedElements(front, x, less);
        assert multiset(Inserted(front, x, less)) == multiset(front + [x]);
        SameElements(Inserted(front, x, less), front + [x]);
        forall y | y in Inserted(front, x, less) ensures le(y, last) {
          if y != x {
            assert y in front;
          }
        }
      } else {
        forall i | 0 <= i < |s| ensures le(s[i], x) {
          assert le(last, x);
        }
      }
    }
  }

  lemma {:induction false} SortedOrdered<T(!new)>(s: seq<T>, less: (T, T) -> bool, le: (T, T) -> bool)
    requires Transitive(le) && Respects(s, less, le)
    ensures Ordered(Sorted(s, less), le)
  {
    if s != [] {
      var front, last := s[..|s| - 1], s[|s| - 1];
      assert s == front + [last];
      SortedOrdered(front, less, le);
      SortedElements(front, less);
      SameElements(Sorted(front, less), front);
      assert Respects(Sorted(front, less) + [last], less, le) by {
        assert forall y :: y in Sorted(front, less) + [last] ==> y in s;
      }
      InsertedOrdered(Sorted(front, less), last, less, le);
    }
  }

  lemma {:induction false} InsertedAlike<T(!new)>(s: seq<T>, x: T, less: (T, T) -> bool, other: (T, T) -> bool)
    requires forall y :: y in s ==> less(x, y) == other(x, y)
    ensures Inserted(s, x, less) == Inserted(s, x, other)
  {
    if s != [] {
      assert s[|s| - 1] in s;
      InsertedAlike(s[..|s| - 1], x, less, other);
    }
  }

  /** Comparisons that agree on the elements sort them alike. */
  lemma {:induction false} SortedAlike<T(!new)>(s: seq<T>, less: (T, T) -> bool, other: (T, T) -> bool)
    requires forall x, y :: x in s && y in s ==> less(x, y) == other(x, y)
    ensures Sorted(s, less) == Sorted(s, other)
  {
    if s != [] {
      var front, last := s[..|s| - 1], s[|s| - 1];
      assert s == front + [last];
      SortedAlike(front, less, other);
      SortedElements(front, less);
      SameElements(Sorted(front, less), front);
      InsertedAlike(Sorted(front, less), last, less, other);
    }
  }

  lemma SortedPair<T(!new)>(a: T, b: T, less: (T, T) -> bool)
    ensures Sorted([a, b], less) == if less(b, a) then [b, a] else [a, b]
  {
    var none: seq<T> := [];
    assert [a][..0] == none && [a, b][..1] == [a];
    assert Sorted(none, less) == none;
    assert Inserted(none, a, less) == [a];
    assert Sorted([a], less) == [a];
    assert Inserted(none, b, less) == [b];
  }

  lemma {:induction false} ImageSize<A(!new), B>(domain: set<A>, image: set<B>, f: A -> B)
    requires forall b :: b in image ==> exists a :: a in domain && b == f(a)
    ensures |image| <= |domain|
  {
    if image != {} {
      var b :| b in image;
      var a :| a in domain && b == f(a);
      ImageSize(domain - {a}, image - {b}, f);
    }
  }
}
