/**
  LINQ's `OrderBy`/`OrderByDescending`/`ThenBy` are stable sorts by a key. They are modelled
  by one insertion sort over a total preorder `le` ("may come before"), with three facts
  proved: the result is sorted, it is a rearrangement of the input, and elements that the
  order cannot tell apart keep their input order (stability).
*/
module Sorting {
  import opened Sequences


  ghost predicate IsTotalPreorder<T(!new)>(le: (T, T) -> bool) {
    && (forall a, b :: le(a, b) || le(b, a))
    && (forall a, b, c :: le(a, b) && le(b, c) ==> le(a, c))
  }

  predicate SortedBy<T>(s: seq<T>, le: (T, T) -> bool) {
    forall i, j :: 0 <= i < j < |s| ==> le(s[i], s[j])
  }

  /** Inserts `x` after every element that may come before it. */
  function Insert<T>(t: seq<T>, x: T, le: (T, T) -> bool): (r: seq<T>)
    ensures multiset(r) == multiset(t) + multiset{x}
  {
    if t == [] then [x]
    else
      assert t == [t[0]] + t[1..];
      if le(t[0], x) then [t[0]] + Insert(t[1..], x, le) else [x] + t
  }

  /** Stable insertion sort: each element is inserted behind the ones before it that it ties with. */
  function InsertionSort<T>(s: seq<T>, le: (T, T) -> bool): (r: seq<T>)
    ensures multiset(r) == multiset(s)
    ensures |r| == |s|
  {
    if s == [] then []
    else
      var n := |s| - 1;
      assert s == s[..n] + [s[n]];
      var r := Insert(InsertionSort(s[..n], le), s[n], le);
      assert |r| == |multiset(r)|;
      r
  }

  lemma {:induction false} InsertSorted<T(!new)>(t: seq<T>, x: T, le: (T, T) -> bool)
    requires IsTotalPreorder(le) && SortedBy(t, le)
    ensures SortedBy(Insert(t, x, le), le)
  {
    if t != [] {
      if le(t[0], x) {
        var rest := Insert(t[1..], x, le);
        InsertSorted(t[1..], x, le);
        forall j | 0 <= j < |rest|
          ensures le(t[0], rest[j])
        {
          assert rest[j] in multiset(rest);
          if rest[j] != x {
            assert rest[j] in t[1..];
          }
        }
      } else {
        assert le(x, t[0]);
      }
    }
  }

  lemma {:induction false} InsertionSortSorted<T(!new)>(s: seq<T>, le: (T, T) -> bool)
    requires IsTotalPreorder(le)
    ensures SortedBy(InsertionSort(s, le), le)
  {
    if s != [] {
      var n := |s| - 1;
      InsertionSortSorted(s[..n], le);
      InsertSorted(InsertionSort(s[..n], le), s[n], le);
    }
  }

  /** `a` and `b` are tied: neither has to come first. */
  predicate Tied<T>(a: T, b: T, le: (T, T) -> bool) {
    le(a, b) && le(b, a)
  }

  /** The elements of `s`, in order, that are tied with `p`. */
  function TiesWith<T>(s: seq<T>, p: T, le: (T, T) -> bool): (r: seq<T>)
    ensures |r| <= |s|
  {
    if s == [] then []
    else (if Tied(s[0], p, le) then [s[0]] else []) + TiesWith(s[1..], p, le)
  }

  lemma {:induction false} TiesWithConcat<T>(a: seq<T>, b: seq<T>, p: T, le: (T, T) -> bool)
    ensures TiesWith(a + b, p, le) == TiesWith(a, p, le) + TiesWith(b, p, le)
  {
    if a == [] {
      assert a + b == b;
    } else {
      assert (a + b)[0] == a[0];
      assert (a + b)[1..] == a[1..] + b;
      TiesWithConcat(a[1..], b, p, le);
      var head := if Tied(a[0], p, le) then [a[0]] else [];
      assert TiesWith(a + b, p, le) == head + (TiesWith(a[1..], p, le) + TiesWith(b, p, le));
      AppendAssoc(head, TiesWith(a[1..], p, le), TiesWith(b, p, le));
    }
  }

  /** If `x` must come strictly before `t[0]`, nothing in sorted `t` ties with anything tied to `x`. */
  lemma {:induction false} NoTiesBelow<T(!new)>(t: seq<T>, x: T, p: T, le: (T, T) -> bool)
    requires IsTotalPreorder(le) && SortedBy(t, le)
    requires t != [] && !le(t[0], x) && Tied(x, p, le)
    ensures TiesWith(t, p, le) == []
  {
    if |t| > 1 {
      assert SortedBy(t[1..], le);
      assert le(t[0], t[1]);
      NoTiesBelow(t[1..], x, p, le);
    }
    assert le(p, x);
  }

  lemma {:induction false} InsertStable<T(!new)>(t: seq<T>, x: T, p: T, le: (T, T) -> bool)
    requires IsTotalPreorder(le) && SortedBy(t, le)
    ensures TiesWith(Insert(t, x, le), p, le) == TiesWith(t, p, le) + TiesWith([x], p, le)
  {
    if t == [] {
    } else if le(t[0], x) {
      assert SortedBy(t[1..], le);
      InsertStable(t[1..], x, p, le);
      TiesWithConcat([t[0]], Insert(t[1..], x, le), p, le);
      TiesWithConcat([t[0]], t[1..], p, le);
      assert [t[0]] + t[1..] == t;
      AppendAssoc(TiesWith([t[0]], p, le), TiesWith(t[1..], p, le), TiesWith([x], p, le));
    } else {
      assert Insert(t, x, le) == [x] + t;
      TiesWithConcat([x], t, p, le);
      if Tied(x, p, le) {
        NoTiesBelow(t, x, p, le);
        assert TiesWith([x], p, le) + [] == [] + TiesWith([x], p, le);
      } else {
        assert TiesWith([x], p, le) == [];
        assert [] + TiesWith(t, p, le) == TiesWith(t, p, le) + [];
      }
    }
  }

  /** Stability: the elements tied with any `p` appear in the same order before and after sorting. */
  lemma {:induction false} InsertionSortStable<T(!new)>(s: seq<T>, p: T, le: (T, T) -> bool)
    requires IsTotalPreorder(le)
    ensures TiesWith(InsertionSort(s, le), p, le) == TiesWith(s, p, le)
  {
    if s != [] {
      var n := |s| - 1;
      InsertionSortStable(s[..n], p, le);
      InsertionSortSorted(s[..n], le);
      InsertStable(InsertionSort(s[..n], le), s[n], p, le);
      assert s == s[..n] + [s[n]];
      TiesWithConcat(s[..n], [s[n]], p, le);
    }
  }
}
