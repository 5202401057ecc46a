/**
  List operations the plug-in performs on ordered collections: finding an element
  (`IndexOf`), removing one (`Remove`), moving one (`ObservableCollection.Move`) and
  keeping or dropping the members of a selection in list order.
*/
module Sequences {

  /** No element occurs twice. */
  predicate Distinct<T(==)>(s: seq<T>) {
    forall i, j :: 0 <= i < j < |s| ==> s[i] != s[j]
  }

  /** `List.IndexOf`: the first position of `x`, or -1 when `x` is absent. */
  function IndexOf<T(==)>(s: seq<T>, x: T): (i: int)
    ensures -1 <= i < |s|
    ensures i == -1 <==> x !in s
    ensures 0 <= i ==> s[i] == x && x !in s[..i]
  {
    if s == [] then -1
    else if s[0] == x then 0
    else
      var j := IndexOf(s[1..], x);
      assert s[1..][..j + 1] == s[1..j + 2] by { }
      if j == -1 then -1 else j + 1
  }

  /** `x` sits strictly before `y` in `s`. */
  predicate Precedes<T(==)>(s: seq<T>, x: T, y: T) {
    x in s && y in s && IndexOf(s, x) < IndexOf(s, y)
  }

  /** `List.Remove`: drops the first occurrence of `x`, if there is one. */
  function RemoveFirst<T(==)>(s: seq<T>, x: T): (r: seq<T>)
    ensures x !in s ==> r == s
    ensures x in s ==> r == s[..IndexOf(s, x)] + s[IndexOf(s, x) + 1..]
  {
    if s == [] then []
    else if s[0] == x then s[1..]
    else
      var k := IndexOf(s[1..], x);
      assert x in s[1..] ==> s[..k + 1] == [s[0]] + s[1..][..k] && s[k + 2..] == s[1..][k + 1..];
      [s[0]] + RemoveFirst(s[1..], x)
  }

  /**
    The elements of `s`, in order, whose membership in `sel` equals `keep`:
    `Sieve(s, sel, true)` keeps the selected ones, `Sieve(s, sel, false)` drops them.
  */
  function Sieve<T(==)>(s: seq<T>, sel: seq<T>, keep: bool): (r: seq<T>)
    ensures |r| <= |s|
    ensures forall x :: x in r ==> x in s && (x in sel) == keep
    ensures forall x :: x in s && (x in sel) == keep ==> x in r
  {
    if s == [] then []
    else if (s[0] in sel) == keep then [s[0]] + Sieve(s[1..], sel, keep)
    else Sieve(s[1..], sel, keep)
  }

  lemma {:induction false} SieveConcat<T>(a: seq<T>, b: seq<T>, sel: seq<T>, keep: bool)
    ensures Sieve(a + b, sel, keep) == Sieve(a, sel, keep) + Sieve(b, sel, keep)
  {
    if a == [] {
      assert a + b == b;
    } else {
      assert (a + b)[0] == a[0];
      assert (a + b)[1..] == a[1..] + b;
      SieveConcat(a[1..], b, sel, keep);
      var head := if (a[0] in sel) == keep then [a[0]] else [];
      assert Sieve(a + b, sel, keep) == head + (Sieve(a[1..], sel, keep) + Sieve(b, sel, keep));
      assert Sieve(a, sel, keep) == head + Sieve(a[1..], sel, keep);
      AppendAssoc(head, Sieve(a[1..], sel, keep), Sieve(b, sel, keep));
    }
  }

  /** Sieving only looks at which elements of `s` are selected. */
  lemma {:induction false} SieveSameSelection<T>(s: seq<T>, sel: seq<T>, sel': seq<T>, keep: bool)
    requires forall x :: x in s ==> (x in sel <==> x in sel')
    ensures Sieve(s, sel, keep) == Sieve(s, sel', keep)
  {
    if s != [] {
      SieveSameSelection(s[1..], sel, sel', keep);
    }
  }

  /** The two halves of a sieve together are a rearrangement of the whole. */
  lemma {:induction false} SieveSplits<T>(s: seq<T>, sel: seq<T>)
    ensures multiset(Sieve(s, sel, false)) + multiset(Sieve(s, sel, true)) == multiset(s)
    ensures |Sieve(s, sel, false)| + |Sieve(s, sel, true)| == |s|
  {
    if s != [] {
      SieveSplits(s[1..], sel);
      assert s == [s[0]] + s[1..];
    }
  }

  lemma {:induction false} SieveDistinct<T>(s: seq<T>, sel: seq<T>, keep: bool)
    requires Distinct(s)
    ensures Distinct(Sieve(s, sel, keep))
  {
    if s != [] {
      assert Distinct(s[1..]);
      SieveDistinct(s[1..], sel, keep);
      assert s[0] !in s[1..];
    }
  }

  /** Sieving keeps the relative order of the surviving elements. */
  lemma {:induction false} SieveKeepsOrder<T>(s: seq<T>, sel: seq<T>, keep: bool, x: T, y: T)
    requires Distinct(s)
    requires x in Sieve(s, sel, keep) && y in Sieve(s, sel, keep)
    ensures Precedes(Sieve(s, sel, keep), x, y) <==> Precedes(s, x, y)
  {
    var r := Sieve(s, sel, keep);
    assert s[0] !in s[1..];
    assert Distinct(s[1..]);
    if (s[0] in sel) == keep {
      assert r == [s[0]] + Sieve(s[1..], sel, keep);
      if x != s[0] && y != s[0] {
        SieveKeepsOrder(s[1..], sel, keep, x, y);
      }
    } else {
      SieveKeepsOrder(s[1..], sel, keep, x, y);
    }
  }

  /** A sieve whose selection meets nothing in `s` drops nothing, and keeps nothing. */
  lemma {:induction false} SieveAllOut<T>(s: seq<T>, sel: seq<T>)
    requires forall x :: x in s ==> x !in sel
    ensures Sieve(s, sel, false) == s
  {
    if s != [] {
      SieveAllOut(s[1..], sel);
    }
  }

  lemma {:induction false} SieveNoneIn<T>(s: seq<T>, sel: seq<T>)
    requires forall x :: x in s ==> x !in sel
    ensures Sieve(s, sel, true) == []
  {
    if s != [] {
      SieveNoneIn(s[1..], sel);
    }
  }

  /** In a distinct list, removing the first occurrence of `x` from a sieve widens the selection by `x`. */
  lemma {:induction false} RemoveFromSieve<T>(s: seq<T>, sel: seq<T>, x: T)
    requires Distinct(s)
    ensures RemoveFirst(Sieve(s, sel, false), x) == Sieve(s, sel + [x], false)
  {
    if s == [] {
    } else if x in sel {
      SieveSameSelection(s, sel, sel + [x], false);
    } else {
      assert Distinct(s[1..]);
      RemoveFromSieve(s[1..], sel, x);
      if s[0] == x {
        assert x !in s[1..];
        SieveSameSelection(s[1..], sel, sel + [x], false);
      }
    }
  }

  lemma {:induction false} IndexOfConcat<T>(a: seq<T>, b: seq<T>, x: T)
    requires x in a + b
    ensures x in a ==> IndexOf(a + b, x) == IndexOf(a, x)
    ensures x !in a ==> IndexOf(a + b, x) == |a| + IndexOf(b, x)
  {
    if a == [] {
      assert a + b == b;
    } else if a[0] != x {
      assert (a + b)[0] == a[0];
      assert (a + b)[1..] == a[1..] + b;
      IndexOfConcat(a[1..], b, x);
    }
  }

  lemma {:induction false} DistinctConcat<T>(a: seq<T>, b: seq<T>)
    requires Distinct(a) && Distinct(b)
    requires forall x :: x in a ==> x !in b
    ensures Distinct(a + b)
  {
    forall i, j | 0 <= i < j < |a + b|
      ensures (a + b)[i] != (a + b)[j]
    {
      if i < |a| && j >= |a| {
        assert (a + b)[i] in a;
        assert (a + b)[j] in b;
      }
    }
  }

  /** Removing an element from a distinct list keeps it distinct and leaves exactly the other elements. */
  lemma RemoveFirstDistinct<T>(s: seq<T>, x: T)
    requires Distinct(s)
    ensures Distinct(RemoveFirst(s, x))
    ensures forall y :: y in RemoveFirst(s, x) <==> y in s && y != x
  {
    if x in s {
      var i := IndexOf(s, x);
      var a, b := s[..i], s[i + 1..];
      assert s == a + [x] + b;
      forall p, q | 0 <= p < |a| && 0 <= q < |b| ensures a[p] != b[q] {
        assert a[p] == s[p] && b[q] == s[i + 1 + q];
      }
      DistinctConcat(a, b);
    }
  }

  /** In a distinct list every element occurs exactly once. */
  lemma {:induction false} DistinctCounts<T>(s: seq<T>, x: T)
    requires Distinct(s)
    ensures multiset(s)[x] <= 1
  {
    if s != [] {
      var n := |s| - 1;
      assert s == s[..n] + [s[n]];
      assert Distinct(s[..n]);
      DistinctCounts(s[..n], x);
      if s[n] == x {
        assert x !in s[..n];
      }
    }
  }

  /** Any rearrangement of a distinct list is distinct. */
  lemma {:induction false} PermutationDistinct<T>(s: seq<T>, t: seq<T>)
    requires Distinct(t) && multiset(s) == multiset(t)
    ensures Distinct(s)
  {
    forall i, j | 0 <= i < j < |s|
      ensures s[i] != s[j]
    {
      if s[i] == s[j] {
        assert s == s[..j] + [s[j]] + s[j + 1..];
        assert s[i] in s[..j];
        assert multiset(s)[s[j]] >= 2;
        DistinctCounts(t, s[j]);
      }
    }
  }

  /**
    `ObservableCollection.Move(from, to)`: the element at `from` is removed and then
    inserted at `to` of the shortened list.
  */
  function Moved<T>(s: seq<T>, from: nat, to: nat): (r: seq<T>)
    requires from < |s| && to < |s|
  {
    var rest := s[..from] + s[from + 1..];
    rest[..to] + [s[from]] + rest[to..]
  }

  lemma MovedIsPermutation<T>(s: seq<T>, from: nat, to: nat)
    requires from < |s| && to < |s|
    ensures |Moved(s, from, to)| == |s|
    ensures Moved(s, from, to)[to] == s[from]
    ensures multiset(Moved(s, from, to)) == multiset(s)
  {
    var rest := s[..from] + s[from + 1..];
    assert s == s[..from] + [s[from]] + s[from + 1..];
    assert multiset(s) == multiset(rest) + multiset{s[from]};
    assert rest == rest[..to] + rest[to..];
    assert multiset(Moved(s, from, to)) == multiset(rest[..to]) + multiset{s[from]} + multiset(rest[to..]);
  }

  /** A move keeps the same elements, and keeps a list without repetitions so. */
  lemma MovedMembers<T>(s: seq<T>, from: nat, to: nat)
    requires from < |s| && to < |s|
    ensures forall x :: x in Moved(s, from, to) <==> x in s
    ensures Distinct(s) ==> Distinct(Moved(s, from, to))
  {
    MovedIsPermutation(s, from, to);
    var m := Moved(s, from, to);
    forall x
      ensures x in m <==> x in s
    {
      assert x in m <==> x in multiset(m);
    }
    if Distinct(s) {
      PermutationDistinct(m, s);
    }
  }

  /** Moving back from `to` to `from` undoes a move. */
  lemma MovedRoundTrip<T>(s: seq<T>, from: nat, to: nat)
    requires from < |s| && to < |s|
    ensures Moved(Moved(s, from, to), to, from) == s
  {
    var m := Moved(s, from, to);
    var rest := s[..from] + s[from + 1..];
    assert m[..to] + m[to + 1..] == rest;
    assert s == rest[..from] + [s[from]] + rest[from..];
  }

  /** The other elements keep their relative order: only the moved one changes place. */
  lemma MovedLeavesOthersInOrder<T>(s: seq<T>, from: nat, to: nat)
    requires from < |s| && to < |s|
    ensures var m := Moved(s, from, to); m[..to] + m[to + 1..] == s[..from] + s[from + 1..]
  {
  }

  lemma AppendAssoc<T>(a: seq<T>, b: seq<T>, c: seq<T>)
    ensures (a + b) + c == a + (b + c)
  {
  }
}
