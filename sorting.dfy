/** Python's `sorted`: a stable sort by a total preorder, written as insertion sort. */
module Sorting {

  ghost predicate TotalPreorder<T(!new)>(le: (T, T) -> bool) {
    && (forall a, b :: le(a, b) || le(b, a))
    && (forall a, b, c :: le(a, b) && le(b, c) ==> le(a, c))
  }

  ghost predicate Sorted<T>(s: seq<T>, le: (T, T) -> bool) {
    forall i, j :: 0 <= i < j < |s| ==> le(s[i], s[j])
  }

  /** Insert x before the first element it is `le` to: equal keys keep their input order. */
  function Insert<T>(x: T, s: seq<T>, le: (T, T) -> bool): (r: seq<T>)
    ensures multiset(r) == multiset(s) + multiset{x}
  {
    if s == [] || le(x, s[0]) then [x] + s
    else
      assert s == [s[0]] + s[1..];
      [s[0]] + Insert(x, s[1..], le)
  }

  function Sort<T>(s: seq<T>, le: (T, T) -> bool): (r: seq<T>)
    ensures multiset(r) == multiset(s) && |r| == |s|
  {
    if s == [] then []
    else
      assert s == [s[0]] + s[1..];
      Insert(s[0], Sort(s[1..], le), le)
  }

  lemma {:induction false} InsertSorted<T(!new)>(x: T, s: seq<T>, le: (T, T) -> bool)
    requires TotalPreorder(le) && Sorted(s, le)
    ensures Sorted(Insert(x, s, le), le)
  {
    if s == [] || le(x, s[0]) {
    } else {
      var t := s[1..];
      assert Sorted(t, le);
      InsertSorted(x, t, le);
      var r := Insert(x, t, le);
      assert le(s[0], x);
      forall y | y in multiset(r) ensures le(s[0], y) {
        assert y in multiset(t) + multiset{x};
        if y in multiset(t) {
          var k :| 0 <= k < |t| && t[k] == y;
          assert s[k + 1] == y;
        }
      }
      forall i | 0 <= i < |r| ensures le(s[0], r[i]) {
        assert r[i] in multiset(r);
      }
    }
  }

  /** The result of Sort is ordered by `le` and is a permutation of the input. */
  lemma {:induction false} SortSorted<T(!new)>(s: seq<T>, le: (T, T) -> bool)
    requires TotalPreorder(le)
    ensures Sorted(Sort(s, le), le)
    ensures multiset(Sort(s, le)) == multiset(s)
  {
    if s != [] {
      SortSorted(s[1..], le);
      InsertSorted(s[0], Sort(s[1..], le), le);
    }
  }

  /** Elements that `le` ranks equal appear in `tie` order. */
  ghost predicate TiesOrdered<T>(s: seq<T>, le: (T, T) -> bool, tie: (T, T) -> bool) {
    forall i, j :: 0 <= i < j < |s| && le(s[i], s[j]) && le(s[j], s[i]) ==> tie(s[i], s[j])
  }

  lemma {:induction false} InsertTiesOrdered<T(!new)>(x: T, s: seq<T>, le: (T, T) -> bool, tie: (T, T) -> bool)
    requires TotalPreorder(le) && Sorted(s, le) && TiesOrdered(s, le, tie)
    requires forall y :: y in s && le(x, y) && le(y, x) ==> tie(x, y)
    ensures TiesOrdered(Insert(x, s, le), le, tie)
  {
    if s == [] || le(x, s[0]) {
      var r := Insert(x, s, le);
      forall i, j | 0 <= i < j < |r| && le(r[i], r[j]) && le(r[j], r[i]) ensures tie(r[i], r[j]) {
        if i == 0 {
          assert r[j] == s[j - 1] && r[j] in s;
        } else {
          assert r[i] == s[i - 1] && r[j] == s[j - 1];
        }
      }
    } else {
      var t := s[1..];
      InsertTiesOrdered(x, t, le, tie);
      InsertSorted(x, t, le);
      var u := Insert(x, t, le);
      var r := [s[0]] + u;
      assert r == Insert(x, s, le);
      forall i, j | 0 <= i < j < |r| && le(r[i], r[j]) && le(r[j], r[i]) ensures tie(r[i], r[j]) {
        if i == 0 {
          assert r[j] in multiset(u);
          assert r[j] in multiset(t) + multiset{x};
          if r[j] in multiset(t) {
            var k :| 0 <= k < |t| && t[k] == r[j];
            assert s[k + 1] == r[j];
          }
        }
      }
    }
  }

  /** Sort is stable: equal elements keep the order they had in the input. */
  lemma {:induction false} SortTiesOrdered<T(!new)>(s: seq<T>, le: (T, T) -> bool, tie: (T, T) -> bool)
    requires TotalPreorder(le) && TiesOrdered(s, le, tie)
    ensures TiesOrdered(Sort(s, le), le, tie)
  {
    if s != [] {
      var t := s[1..];
      assert TiesOrdered(t, le, tie) by {
        forall i, j | 0 <= i < j < |t| && le(t[i], t[j]) && le(t[j], t[i]) ensures tie(t[i], t[j]) {
          assert t[i] == s[i + 1] && t[j] == s[j + 1];
        }
      }
      SortTiesOrdered(t, le, tie);
      SortSorted(t, le);
      forall y | y in Sort(t, le) && le(s[0], y) && le(y, s[0]) ensures tie(s[0], y) {
        assert y in multiset(Sort(t, le));
        var k :| 0 <= k < |t| && t[k] == y;
        assert s[k + 1] == y;
      }
      InsertTiesOrdered(s[0], Sort(t, le), le, tie);
    }
  }

  /** f applied to every element. */
  function Apply<T>(s: seq<T>, f: T -> T): (r: seq<T>)
    ensures |r| == |s| && forall i :: 0 <= i < |s| ==> r[i] == f(s[i])
  {
    seq(|s|, i requires 0 <= i < |s| => f(s[i]))
  }

  lemma {:induction false} InsertApply<T>(x: T, s: seq<T>, le: (T, T) -> bool, f: T -> T)
    requires forall a, b :: le(f(a), f(b)) == le(a, b)
    ensures Insert(f(x), Apply(s, f), le) == Apply(Insert(x, s, le), f)
  {
    if s == [] || le(x, s[0]) {
      assert [f(x)] + Apply(s, f) == Apply([x] + s, f);
    } else {
      assert Apply(s, f)[1..] == Apply(s[1..], f);
      InsertApply(x, s[1..], le, f);
      assert [f(s[0])] + Apply(Insert(x, s[1..], le), f) == Apply([s[0]] + Insert(x, s[1..], le), f);
    }
  }

  /** Sorting commutes with a map that keeps the order between any two elements. */
  lemma {:induction false} SortApply<T>(s: seq<T>, le: (T, T) -> bool, f: T -> T)
    requires forall a, b :: le(f(a), f(b)) == le(a, b)
    ensures Sort(Apply(s, f), le) == Apply(Sort(s, le), f)
  {
    if s != [] {
      assert Apply(s, f)[1..] == Apply(s[1..], f);
      SortApply(s[1..], le, f);
      InsertApply(s[0], Sort(s[1..], le), le, f);
    }
  }

  /** A sequence without repeats holds each value at most once. */
  lemma {:induction false} CountDistinct<T>(s: seq<T>, x: T)
    requires forall i, j :: 0 <= i < j < |s| ==> s[i] != s[j]
    ensures multiset(s)[x] <= 1
  {
    if s != [] {
      var t := s[..|s| - 1];
      assert s == t + [s[|s| - 1]];
      CountDistinct(t, x);
      if x == s[|s| - 1] {
        assert x !in t;
      }
    }
  }

  /** A value at two positions is counted at least twice. */
  lemma CountTwice<T>(s: seq<T>, i: int, j: int)
    requires 0 <= i < j < |s| && s[i] == s[j]
    ensures multiset(s)[s[i]] >= 2
  {
    assert s == s[..j] + s[j..];
    assert s[i] in multiset(s[..j]);
    assert s[j] in multiset(s[j..]);
  }
}
