// Sequence helpers shared by the model: Array.prototype.filter, the
// subsequence relation, Array.prototype.find/findIndex, and the distinct
// values of a list in first-appearance order ([...new Set(xs)]).

module Seqs {
  import opened Wrappers

  /** r is s with some elements left out, the rest in their original order. */
  ghost predicate IsSubsequence<T>(r: seq<T>, s: seq<T>)
    decreases |s|
  {
    r == [] || (s != [] && ((r[0] == s[0] && IsSubsequence(r[1..], s[1..])) || IsSubsequence(r, s[1..])))
  }

  lemma {:induction false} SubsequenceOfSelf<T>(s: seq<T>)
    ensures IsSubsequence(s, s)
    decreases |s|
  {
    if s != [] {
      SubsequenceOfSelf(s[1..]);
    }
  }

  lemma {:induction false} SubsequenceTransitive<T>(a: seq<T>, b: seq<T>, c: seq<T>)
    requires IsSubsequence(a, b) && IsSubsequence(b, c)
    ensures IsSubsequence(a, c)
    decreases |c|
  {
    if a != [] {
      if b[0] == c[0] && IsSubsequence(b[1..], c[1..]) {
        if a[0] == b[0] && IsSubsequence(a[1..], b[1..]) {
          SubsequenceTransitive(a[1..], b[1..], c[1..]);
        } else {
          SubsequenceTransitive(a, b[1..], c[1..]);
        }
      } else {
        SubsequenceTransitive(a, b, c[1..]);
      }
    }
  }

  lemma {:induction false} SubsequenceLength<T>(r: seq<T>, s: seq<T>)
    requires IsSubsequence(r, s)
    ensures |r| <= |s|
    ensures multiset(r) <= multiset(s)
    decreases |s|
  {
    if r != [] {
      if r[0] == s[0] && IsSubsequence(r[1..], s[1..]) {
        SubsequenceLength(r[1..], s[1..]);
        assert r == [r[0]] + r[1..];
        assert s == [s[0]] + s[1..];
      } else {
        SubsequenceLength(r, s[1..]);
        assert s == [s[0]] + s[1..];
      }
    }
  }

  /** Array.prototype.filter. */
  function Filter<T(!new)>(s: seq<T>, p: T -> bool): (r: seq<T>)
    ensures |r| <= |s|
    ensures forall x :: x in r <==> x in s && p(x)
    ensures multiset(r) <= multiset(s)
    decreases |s|
  {
    if s == [] then []
    else
      assert s == [s[0]] + s[1..];
      if p(s[0]) then [s[0]] + Filter(s[1..], p) else Filter(s[1..], p)
  }

  lemma {:induction false} FilterIsSubsequence<T(!new)>(s: seq<T>, p: T -> bool)
    ensures IsSubsequence(Filter(s, p), s)
    decreases |s|
  {
    if s != [] {
      FilterIsSubsequence(s[1..], p);
    }
  }

  lemma {:induction false} FilterAppend<T(!new)>(a: seq<T>, b: seq<T>, p: T -> bool)
    ensures Filter(a + b, p) == Filter(a, p) + Filter(b, p)
    decreases |a|
  {
    if a != [] {
      assert (a + b)[0] == a[0];
      assert (a + b)[1..] == a[1..] + b;
      FilterAppend(a[1..], b, p);
    } else {
      assert a + b == b;
    }
  }

  /** Filtering keeps everything when everything passes. */
  lemma {:induction false} FilterAll<T(!new)>(s: seq<T>, p: T -> bool)
    requires forall x :: x in s ==> p(x)
    ensures Filter(s, p) == s
    decreases |s|
  {
    if s != [] {
      FilterAll(s[1..], p);
    }
  }

  /** Two filters in a row are one filter by the conjunction. */
  lemma {:induction false} FilterFilter<T(!new)>(s: seq<T>, p: T -> bool, q: T -> bool, pq: T -> bool)
    requires forall x :: pq(x) == (p(x) && q(x))
    ensures Filter(Filter(s, p), q) == Filter(s, pq)
    decreases |s|
  {
    if s != [] {
      FilterFilter(s[1..], p, q, pq);
    }
  }

  /** Filtering by two predicates that agree on s gives the same list. */
  lemma {:induction false} FilterExtensional<T(!new)>(s: seq<T>, p: T -> bool, q: T -> bool)
    requires forall x :: x in s ==> p(x) == q(x)
    ensures Filter(s, p) == Filter(s, q)
    decreases |s|
  {
    if s != [] {
      FilterExtensional(s[1..], p, q);
    }
  }

  /** Array.prototype.map. */
  function Map<T, U>(s: seq<T>, f: T -> U): (r: seq<U>)
    ensures |r| == |s| && forall i :: 0 <= i < |s| ==> r[i] == f(s[i])
  {
    seq(|s|, i requires 0 <= i < |s| => f(s[i]))
  }

  /** Array.prototype.findIndex: the first index whose element passes, if any. */
  function FindIndex<T>(s: seq<T>, p: T -> bool): (r: int)
    ensures -1 <= r < |s|
    ensures r >= 0 ==> p(s[r]) && forall j :: 0 <= j < r ==> !p(s[j])
    ensures r == -1 <==> forall j :: 0 <= j < |s| ==> !p(s[j])
    decreases |s|
  {
    if s == [] then -1
    else if p(s[0]) then 0
    else
      var k := FindIndex(s[1..], p);
      if k == -1 then -1 else k + 1
  }

  /** Array.prototype.find. */
  function Find<T>(s: seq<T>, p: T -> bool): (r: Option<T>)
    ensures r.None? <==> forall j :: 0 <= j < |s| ==> !p(s[j])
    ensures r.Some? ==> exists i :: 0 <= i < |s| && s[i] == r.value && p(r.value)
                                    && forall j :: 0 <= j < i ==> !p(s[j])
  {
    var i := FindIndex(s, p);
    if i == -1 then None else Some(s[i])
  }

  /** The last index whose element passes, if any. */
  function FindLastIndex<T>(s: seq<T>, p: T -> bool): (r: int)
    ensures -1 <= r < |s|
    ensures r >= 0 ==> p(s[r]) && forall j :: r < j < |s| ==> !p(s[j])
    ensures r == -1 <==> forall j :: 0 <= j < |s| ==> !p(s[j])
    decreases |s|
  {
    if s == [] then -1
    else if p(s[|s| - 1]) then |s| - 1
    else FindLastIndex(s[..|s| - 1], p)
  }

  /** The lists of ss, one after another. */
  function Concat<T(!new)>(ss: seq<seq<T>>): (r: seq<T>)
    ensures forall x :: x in r <==> exists i :: 0 <= i < |ss| && x in ss[i]
    decreases |ss|
  {
    if ss == [] then []
    else
      var rest := Concat(ss[1..]);
      assert forall i :: 1 <= i < |ss| ==> ss[i] == ss[1..][i - 1];
      ss[0] + rest
  }

  predicate NoDuplicates<T(==)>(s: seq<T>) {
    forall i, j :: 0 <= i < j < |s| ==> s[i] != s[j]
  }

  /** The distinct elements of s in the order they first appear. */
  function Distinct<T(==,!new)>(s: seq<T>): (r: seq<T>)
    ensures forall x :: x in r <==> x in s
    ensures NoDuplicates(r)
    ensures |r| <= |s|
    ensures s != [] ==> r != [] && r[0] == s[0]
    decreases |s|
  {
    if s == [] then []
    else
      var f := Filter(s[1..], x => x != s[0]);
      var rest := Distinct(f);
      assert s == [s[0]] + s[1..];
      assert s[0] !in rest;
      [s[0]] + rest
  }

  /** The index where x first appears in s. */
  function FirstIndexOf<T(==)>(s: seq<T>, x: T): (k: nat)
    requires x in s
    ensures k < |s| && s[k] == x && x !in s[..k]
    decreases |s|
  {
    if s[0] == x then 0
    else
      var k := FirstIndexOf(s[1..], x);
      assert s[..k + 1] == [s[0]] + s[1..][..k];
      k + 1
  }

  /** Filtering keeps the order in which two passing elements first appear. */
  lemma {:induction false} FilterFirstIndexOrder<T(!new)>(t: seq<T>, p: T -> bool, a: T, b: T)
    requires a in t && b in t && p(a) && p(b)
    requires FirstIndexOf(Filter(t, p), a) < FirstIndexOf(Filter(t, p), b)
    ensures FirstIndexOf(t, a) < FirstIndexOf(t, b)
    decreases |t|
  {
    var f := Filter(t, p);
    var f' := Filter(t[1..], p);
    if p(t[0]) {
      assert f == [t[0]] + f';
      if a != t[0] {
        assert b != t[0];
        assert f[1..] == f';
        FilterFirstIndexOrder(t[1..], p, a, b);
      }
    } else {
      assert f == f';
      FilterFirstIndexOrder(t[1..], p, a, b);
    }
  }

  /** Distinct lists the elements in the order they first appear in s. */
  lemma {:induction false} DistinctInFirstAppearanceOrder<T(!new)>(s: seq<T>)
    ensures forall i, j :: 0 <= i < j < |Distinct(s)| ==>
              FirstIndexOf(s, Distinct(s)[i]) < FirstIndexOf(s, Distinct(s)[j])
    decreases |s|
  {
    if s != [] {
      var f := Filter(s[1..], x => x != s[0]);
      var rest := Distinct(f);
      var r := Distinct(s);
      assert r == [s[0]] + rest;
      DistinctInFirstAppearanceOrder(f);
      forall i, j | 0 <= i < j < |r|
        ensures FirstIndexOf(s, r[i]) < FirstIndexOf(s, r[j])
      {
        assert r[j] == rest[j - 1] && r[j] != s[0];
        if i > 0 {
          assert r[i] == rest[i - 1] && r[i] != s[0];
          FilterFirstIndexOrder(s[1..], x => x != s[0], r[i], r[j]);
        }
      }
    }
  }

  /**
   * r lists values in the order they first appear as f of the rows: for each
   * value, some row gives it before any row gives a value listed after it.
   */
  ghost predicate InFirstAppearanceOrder<T, U>(r: seq<U>, rows: seq<T>, f: T -> U) {
    forall i, j :: 0 <= i < j < |r| ==>
      exists p :: 0 <= p < |rows| && f(rows[p]) == r[i] && forall q :: 0 <= q <= p ==> f(rows[q]) != r[j]
  }

  /** The distinct values of f over the rows come in their first-appearance order. */
  lemma DistinctValuesInOrder<T, U(!new)>(rows: seq<T>, f: T -> U)
    ensures InFirstAppearanceOrder(Distinct(Map(rows, f)), rows, f)
  {
    var values := Map(rows, f);
    var r := Distinct(values);
    DistinctInFirstAppearanceOrder(values);
    forall i, j | 0 <= i < j < |r|
      ensures exists p :: 0 <= p < |rows| && f(rows[p]) == r[i] && forall q :: 0 <= q <= p ==> f(rows[q]) != r[j]
    {
      var p := FirstIndexOf(values, r[i]);
      var k := FirstIndexOf(values, r[j]);
      forall q | 0 <= q <= p ensures f(rows[q]) != r[j] {
        assert values[q] == values[..k][q];
      }
      assert f(rows[p]) == r[i];
    }
  }

  lemma {:induction false} DistinctIsSubsequence<T(!new)>(s: seq<T>)
    ensures IsSubsequence(Distinct(s), s)
    decreases |s|
  {
    if s != [] {
      var f := Filter(s[1..], x => x != s[0]);
      DistinctIsSubsequence(f);
      FilterIsSubsequence(s[1..], x => x != s[0]);
      SubsequenceTransitive(Distinct(f), f, s[1..]);
    }
  }

  /** A list without duplicates has as many elements as its set. */
  lemma {:induction false} NoDuplicatesCardinality<T>(s: seq<T>)
    requires NoDuplicates(s)
    ensures |set x | x in s| == |s|
    decreases |s|
  {
    if s != [] {
      NoDuplicatesCardinality(s[1..]);
      assert (set x | x in s) == {s[0]} + (set x | x in s[1..]);
      assert s[0] !in s[1..];
    }
  }

  /** The first element a filter keeps is the first element that passes. */
  lemma {:induction false} FilterFirst<T(!new)>(s: seq<T>, p: T -> bool, i: nat)
    requires i < |s| && p(s[i]) && forall j :: 0 <= j < i ==> !p(s[j])
    ensures Filter(s, p) != [] && Filter(s, p)[0] == s[i]
    decreases i
  {
    assert s == [s[0]] + s[1..];
    if i > 0 {
      FilterFirst(s[1..], p, i - 1);
    }
  }

  /** The number of different elements of s. */
  function CountDistinct<T(==)>(s: seq<T>): nat {
    |set x | x in s|
  }

  /** Deduplicating keeps one element per different value. */
  lemma DistinctCount<T(!new)>(s: seq<T>)
    ensures |Distinct(s)| == CountDistinct(s)
  {
    NoDuplicatesCardinality(Distinct(s));
    assert (set x | x in Distinct(s)) == set x | x in s;
  }

  /** A list has at most as many different elements as it has elements. */
  lemma {:induction false} CountDistinctAtMostLength<T>(s: seq<T>)
    ensures CountDistinct(s) <= |s|
    decreases |s|
  {
    if s != [] {
      CountDistinctAtMostLength(s[1..]);
      assert (set x | x in s) == {s[0]} + set x | x in s[1..];
    }
  }

  /** A list has no duplicates iff every element occurs in it at most once. */
  lemma {:induction false} NoDuplicatesCount<T>(s: seq<T>)
    ensures NoDuplicates(s) <==> forall x :: multiset(s)[x] <= 1
    decreases |s|
  {
    if s != [] {
      var t := s[1..];
      assert s == [s[0]] + t;
      NoDuplicatesCount(t);
      if NoDuplicates(s) {
        forall i, j | 0 <= i < j < |t| ensures t[i] != t[j] {
          assert s[i + 1] == t[i] && s[j + 1] == t[j];
        }
      }
      if s[0] !in t && NoDuplicates(t) {
        forall i, j | 0 <= i < j < |s| ensures s[i] != s[j] {
          if i == 0 {
            assert s[j] == t[j - 1];
          } else {
            assert s[i] == t[i - 1] && s[j] == t[j - 1];
          }
        }
      }
      assert forall x :: multiset(s)[x] == multiset(t)[x] + (if x == s[0] then 1 else 0);
      assert s[0] in t <==> multiset(t)[s[0]] >= 1;
    }
  }

  /** A permutation of a list without duplicates has none either. */
  lemma PermutationNoDuplicates<T>(a: seq<T>, b: seq<T>)
    requires multiset(a) == multiset(b) && NoDuplicates(a)
    ensures NoDuplicates(b)
  {
    NoDuplicatesCount(a);
    NoDuplicatesCount(b);
  }

  /** The elements of s for which f gives a value, in order. */
  function Defined<S, T>(f: S -> Option<T>): S -> bool {
    x => f(x).Some?
  }

  /** `.map(f).filter(Boolean)`: the values f gives, in order, dropping the missing ones. */
  function MapPresent<S(!new), T>(s: seq<S>, f: S -> Option<T>): (r: seq<T>)
    ensures |r| == |Filter(s, Defined(f))|
    ensures forall i :: 0 <= i < |r| ==> f(Filter(s, Defined(f))[i]) == Some(r[i])
    decreases |s|
  {
    if s == [] then []
    else
      var rest := MapPresent(s[1..], f);
      if f(s[0]).Some? then
        assert Filter(s, Defined(f)) == [s[0]] + Filter(s[1..], Defined(f));
        [f(s[0]).value] + rest
      else rest
  }
}
