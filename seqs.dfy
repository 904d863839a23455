/** The array built-ins the application relies on, over Dafny sequences:
    `filter`, `find`, and `Array.from(new Set(...))` (distinct elements in first-appearance order). */
module Seqs {

  datatype Option<+T> = None | Some(value: T)

  /** `a` is obtained from `b` by deleting elements: `a` keeps `b`'s order. */
  predicate IsSubseq<T(==)>(a: seq<T>, b: seq<T>)
    decreases |b|
  {
    a == [] || (b != [] && ((a[0] == b[0] && IsSubseq(a[1..], b[1..])) || IsSubseq(a, b[1..])))
  }

  predicate NoDup<T(==)>(s: seq<T>) {
    forall i, j :: 0 <= i < j < |s| ==> s[i] != s[j]
  }

  /** `s.filter(p)`: the elements of `s` that satisfy `p`, and only those. */
  function Filter<T(!new)>(s: seq<T>, p: T -> bool): (r: seq<T>)
    ensures |r| <= |s|
    ensures forall x :: x in r <==> x in s && p(x)
  {
    if s == [] then []
    else (if p(s[0]) then [s[0]] else []) + Filter(s[1..], p)
  }

  /** Filtering keeps the order of the elements it keeps. */
  lemma {:induction false} FilterIsSubseq<T(!new)>(s: seq<T>, p: T -> bool)
    ensures IsSubseq(Filter(s, p), s)
  {
    if s != [] {
      FilterIsSubseq(s[1..], p);
      var rest := Filter(s[1..], p);
      if p(s[0]) {
        assert Filter(s, p) == [s[0]] + rest;
        assert ([s[0]] + rest)[1..] == rest;
      } else {
        assert Filter(s, p) == rest;
        SubseqOfTail(rest, s);
      }
    }
  }

  lemma SubseqOfTail<T>(a: seq<T>, b: seq<T>)
    requires b != [] && IsSubseq(a, b[1..])
    ensures IsSubseq(a, b)
  {
  }

  /** Filtering keeps every occurrence of a kept element and drops every occurrence of a dropped one. */
  lemma {:induction false} FilterCounts<T(!new)>(s: seq<T>, p: T -> bool, x: T)
    ensures multiset(Filter(s, p))[x] == if p(x) then multiset(s)[x] else 0
  {
    if s != [] {
      FilterCounts(s[1..], p, x);
      assert s == [s[0]] + s[1..];
      assert multiset(s) == multiset([s[0]]) + multiset(s[1..]);
    }
  }

  /** `FilterCounts` for every element at once. */
  lemma FilterCountsAll<T(!new)>(s: seq<T>, p: T -> bool)
    ensures forall x :: multiset(Filter(s, p))[x] == if p(x) then multiset(s)[x] else 0
  {
    forall x ensures multiset(Filter(s, p))[x] == if p(x) then multiset(s)[x] else 0 {
      FilterCounts(s, p, x);
    }
  }

  /** A filter that every element passes changes nothing. */
  lemma {:induction false} FilterKeepsAll<T(!new)>(s: seq<T>, p: T -> bool)
    requires forall i :: 0 <= i < |s| ==> p(s[i])
    ensures Filter(s, p) == s
  {
    if s != [] {
      FilterKeepsAll(s[1..], p);
      assert [s[0]] + s[1..] == s;
    }
  }

  /** A subsequence of a duplicate-free sequence is duplicate-free. */
  lemma {:induction false} SubseqNoDup<T>(a: seq<T>, b: seq<T>)
    requires IsSubseq(a, b) && NoDup(b)
    ensures NoDup(a)
    decreases |b|
  {
    if a != [] {
      assert b != [];
      assert NoDup(b[1..]) by {
        forall i, j | 0 <= i < j < |b[1..]| ensures b[1..][i] != b[1..][j] {
          assert b[1..][i] == b[i + 1] && b[1..][j] == b[j + 1];
        }
      }
      if a[0] == b[0] && IsSubseq(a[1..], b[1..]) {
        SubseqNoDup(a[1..], b[1..]);
        SubseqMembers(a[1..], b[1..]);
        forall j | 0 < j < |a| ensures a[0] != a[j] {
          assert a[j] == a[1..][j - 1];
          assert a[j] in b[1..];
          var k :| 0 <= k < |b[1..]| && b[1..][k] == a[j];
          assert b[k + 1] == a[j];
        }
        forall i, j | 0 <= i < j < |a| ensures a[i] != a[j] {
          if i > 0 {
            assert a[i] == a[1..][i - 1] && a[j] == a[1..][j - 1];
          }
        }
      } else {
        SubseqNoDup(a, b[1..]);
      }
    }
  }

  lemma {:induction false} SubseqMembers<T>(a: seq<T>, b: seq<T>)
    requires IsSubseq(a, b)
    ensures forall x :: x in a ==> x in b
    decreases |b|
  {
    if a != [] {
      if a[0] == b[0] && IsSubseq(a[1..], b[1..]) {
        SubseqMembers(a[1..], b[1..]);
        assert a == [a[0]] + a[1..];
      } else {
        SubseqMembers(a, b[1..]);
      }
    }
  }

  /** Index of the first element of `s` that satisfies `p` (`findIndex`), `None` when there is none. */
  function FindFirst<T>(s: seq<T>, p: T -> bool): (r: Option<nat>)
    ensures r.Some? ==> r.value < |s| && p(s[r.value])
    ensures r.Some? ==> forall j :: 0 <= j < r.value ==> !p(s[j])
    ensures r.None? <==> forall j :: 0 <= j < |s| ==> !p(s[j])
  {
    if s == [] then None
    else if p(s[0]) then Some(0)
    else match FindFirst(s[1..], p)
      case None => None
      case Some(k) => Some(k + 1)
  }

  /** Index of the first occurrence of `x` in `s`. */
  function IndexOf<T(==)>(s: seq<T>, x: T): (k: nat)
    requires x in s
    ensures k < |s| && s[k] == x
    ensures forall j :: 0 <= j < k ==> s[j] != x
  {
    if s[0] == x then 0 else 1 + IndexOf(s[1..], x)
  }

  /** `Array.from(new Set(s))`: each element once, in the order of its first appearance. */
  function Distinct<T(==,!new)>(s: seq<T>): (r: seq<T>)
    ensures forall x :: x in r <==> x in s
    ensures NoDup(r)
  {
    if s == [] then []
    else
      var d := Distinct(s[..|s| - 1]);
      var x := s[|s| - 1];
      assert forall y :: y in s <==> y in s[..|s| - 1] || y == x by {
        assert s == s[..|s| - 1] + [x];
      }
      if x in d then d else d + [x]
  }

  /** The elements of `Distinct(s)` appear in the order in which they first appear in `s`. */
  lemma {:induction false} DistinctFirstAppearance<T(!new)>(s: seq<T>)
    ensures forall i, j :: 0 <= i < j < |Distinct(s)| ==>
      IndexOf(s, Distinct(s)[i]) < IndexOf(s, Distinct(s)[j])
  {
    if s != [] {
      var init := s[..|s| - 1];
      var x := s[|s| - 1];
      DistinctFirstAppearance(init);
      assert s == init + [x];
      if x in Distinct(init) {
        OrderSurvivesAppend(init, Distinct(init), x);
      } else {
        OrderExtends(init, Distinct(init), x);
      }
    }
  }

  /** Appending to `a` does not move the first appearance of anything already in `a`. */
  lemma OrderSurvivesAppend<T>(a: seq<T>, d: seq<T>, x: T)
    requires forall y :: y in d ==> y in a
    requires forall i, j :: 0 <= i < j < |d| ==> IndexOf(a, d[i]) < IndexOf(a, d[j])
    ensures forall i, j :: 0 <= i < j < |d| ==> IndexOf(a + [x], d[i]) < IndexOf(a + [x], d[j])
  {
    forall i, j | 0 <= i < j < |d| ensures IndexOf(a + [x], d[i]) < IndexOf(a + [x], d[j]) {
      IndexOfPrefix(a, [x], d[i]);
      IndexOfPrefix(a, [x], d[j]);
    }
  }

  /** An element new to `a`, appended to both, first appears after everything already in `a`. */
  lemma OrderExtends<T>(a: seq<T>, d: seq<T>, x: T)
    requires forall y :: y in d ==> y in a
    requires forall i, j :: 0 <= i < j < |d| ==> IndexOf(a, d[i]) < IndexOf(a, d[j])
    requires x !in a
    ensures forall i, j :: 0 <= i < j < |d + [x]| ==> IndexOf(a + [x], (d + [x])[i]) < IndexOf(a + [x], (d + [x])[j])
  {
    OrderSurvivesAppend(a, d, x);
    IndexOfFresh(a, x);
    var r := d + [x];
    forall i, j | 0 <= i < j < |r| ensures IndexOf(a + [x], r[i]) < IndexOf(a + [x], r[j]) {
      assert r[i] == d[i];
      if j == |d| {
        assert r[j] == x;
        IndexOfPrefix(a, [x], d[i]);
      } else {
        assert r[j] == d[j];
      }
    }
  }

  /** An element new to `a` is found at the end of `a + [x]`. */
  lemma IndexOfFresh<T>(a: seq<T>, x: T)
    requires x !in a
    ensures IndexOf(a + [x], x) == |a|
  {
    var s := a + [x];
    assert s[|a|] == x;
    forall j | 0 <= j < |a| ensures s[j] != x { assert s[j] == a[j]; }
  }

  lemma IndexOfPrefix<T>(a: seq<T>, b: seq<T>, y: T)
    requires y in a
    ensures IndexOf(a + b, y) == IndexOf(a, y)
  {
    var k := IndexOf(a, y);
    assert (a + b)[k] == y;
    var m := IndexOf(a + b, y);
    assert m <= k;
    assert a[m] == (a + b)[m];
  }
}
