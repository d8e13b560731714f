// Array.prototype.sort with a comparator, as the source uses it: every
// comparator in the source compares one key of the two elements, so it is a
// total preorder `leq`, and the sort is stable (ECMAScript 2019 requires it).
// The model is insertion sort; the lemmas show that its result is sorted, a
// permutation of the input, and stable: the elements tied with any given
// element appear in the same order as in the input.

module Sorting {
  import opened Seqs

  ghost predicate Total<T(!new)>(leq: (T, T) -> bool) {
    forall a, b :: leq(a, b) || leq(b, a)
  }

  ghost predicate Transitive<T(!new)>(leq: (T, T) -> bool) {
    forall a, b, c :: leq(a, b) && leq(b, c) ==> leq(a, c)
  }

  ghost predicate TotalPreorder<T(!new)>(leq: (T, T) -> bool) {
    Total(leq) && Transitive(leq)
  }

  ghost predicate SortedBy<T>(s: seq<T>, leq: (T, T) -> bool) {
    forall i, j :: 0 <= i < j < |s| ==> leq(s[i], s[j])
  }

  /** Inserts x before the first element it does not exceed. */
  function Insert<T(!new)>(x: T, s: seq<T>, leq: (T, T) -> bool): (r: seq<T>)
    requires TotalPreorder(leq) && SortedBy(s, leq)
    ensures |r| == |s| + 1
    ensures multiset(r) == multiset(s) + multiset{x}
    ensures SortedBy(r, leq)
    decreases |s|
  {
    if s == [] then [x]
    else if leq(x, s[0]) then
      BelowHead(x, s, leq);
      ConsSorted(x, s, leq);
      [x] + s
    else
      var t := Insert(x, s[1..], leq);
      assert s == [s[0]] + s[1..];
      HeadBelowInserted(x, s, t, leq);
      ConsSorted(s[0], t, leq);
      [s[0]] + t
  }

  /** An element below every element of a sorted list can go in front of it. */
  lemma ConsSorted<T>(h: T, t: seq<T>, leq: (T, T) -> bool)
    requires SortedBy(t, leq) && forall k :: 0 <= k < |t| ==> leq(h, t[k])
    ensures SortedBy([h] + t, leq)
  {
    var r := [h] + t;
    forall i, j | 0 <= i < j < |r|
      ensures leq(r[i], r[j])
    {
      assert r[j] == t[j - 1];
      if i > 0 {
        assert r[i] == t[i - 1];
      }
    }
  }

  /** An element below the head of a sorted list is below all of it. */
  lemma BelowHead<T(!new)>(x: T, s: seq<T>, leq: (T, T) -> bool)
    requires Transitive(leq) && SortedBy(s, leq) && s != [] && leq(x, s[0])
    ensures forall k :: 0 <= k < |s| ==> leq(x, s[k])
  {
    forall k | 0 < k < |s|
      ensures leq(x, s[k])
    {
      assert leq(s[0], s[k]);
    }
  }

  /** The head of a sorted list is below the tail with an element above the head inserted. */
  lemma HeadBelowInserted<T(!new)>(x: T, s: seq<T>, t: seq<T>, leq: (T, T) -> bool)
    requires Total(leq) && SortedBy(s, leq) && s != [] && !leq(x, s[0])
    requires multiset(t) == multiset(s[1..]) + multiset{x}
    ensures forall k :: 0 <= k < |t| ==> leq(s[0], t[k])
  {
    forall k | 0 <= k < |t|
      ensures leq(s[0], t[k])
    {
      assert t[k] in multiset(t);
      if t[k] != x {
        assert t[k] in multiset(s[1..]);
        var j :| 0 <= j < |s[1..]| && s[1..][j] == t[k];
        assert s[j + 1] == t[k];
      }
    }
  }

  /** The stable sort of s by leq. */
  function SortBy<T(!new)>(s: seq<T>, leq: (T, T) -> bool): (r: seq<T>)
    requires TotalPreorder(leq)
    ensures |r| == |s|
    ensures multiset(r) == multiset(s)
    ensures SortedBy(r, leq)
    decreases |s|
  {
    if s == [] then []
    else
      assert s == [s[0]] + s[1..];
      Insert(s[0], SortBy(s[1..], leq), leq)
  }

  /** The elements of s that leq ties with z, in their order in s. */
  function Ties<T(!new)>(s: seq<T>, z: T, leq: (T, T) -> bool): seq<T>
  {
    Filter(s, y => leq(y, z) && leq(z, y))
  }

  lemma TiesCons<T(!new)>(h: T, t: seq<T>, z: T, leq: (T, T) -> bool)
    ensures Ties([h] + t, z, leq)
         == (if leq(h, z) && leq(z, h) then [h] + Ties(t, z, leq) else Ties(t, z, leq))
  {
    var s := [h] + t;
    assert s[0] == h && s[1..] == t;
  }

  lemma {:induction false} InsertTies<T(!new)>(x: T, s: seq<T>, z: T, leq: (T, T) -> bool)
    requires TotalPreorder(leq) && SortedBy(s, leq)
    ensures Ties(Insert(x, s, leq), z, leq)
         == (if leq(x, z) && leq(z, x) then [x] + Ties(s, z, leq) else Ties(s, z, leq))
    decreases |s|
  {
    if s == [] {
      TiesCons(x, s, z, leq);
      assert [x] + s == [x];
    } else if leq(x, s[0]) {
      TiesCons(x, s, z, leq);
    } else {
      var t := Insert(x, s[1..], leq);
      InsertTies(x, s[1..], z, leq);
      TiesCons(s[0], t, z, leq);
      TiesCons(s[0], s[1..], z, leq);
      assert s == [s[0]] + s[1..];
      if leq(x, z) && leq(z, x) {
        assert !(leq(s[0], z) && leq(z, s[0]));
      }
    }
  }

  /** The ties of a concatenation are the ties of each part, in order. */
  lemma TiesAppend<T(!new)>(a: seq<T>, b: seq<T>, z: T, leq: (T, T) -> bool)
    ensures Ties(a + b, z, leq) == Ties(a, z, leq) + Ties(b, z, leq)
  {
    FilterAppend(a, b, y => leq(y, z) && leq(z, y));
  }

  /** Sorting is stable: ties keep their relative order. */
  lemma {:induction false} SortByStable<T(!new)>(s: seq<T>, z: T, leq: (T, T) -> bool)
    requires TotalPreorder(leq)
    ensures Ties(SortBy(s, leq), z, leq) == Ties(s, z, leq)
    decreases |s|
  {
    if s != [] {
      SortByStable(s[1..], z, leq);
      InsertTies(s[0], SortBy(s[1..], leq), z, leq);
    }
  }

  /** A list that is already sorted is left as it is. */
  lemma {:induction false} SortBySorted<T(!new)>(s: seq<T>, leq: (T, T) -> bool)
    requires TotalPreorder(leq) && SortedBy(s, leq)
    ensures SortBy(s, leq) == s
    decreases |s|
  {
    if s != [] {
      SortBySorted(s[1..], leq);
    }
  }

  /** The reverse of leq orders from largest to smallest. */
  function Reverse<T>(leq: (T, T) -> bool): (T, T) -> bool
  {
    (a, b) => leq(b, a)
  }

  lemma ReverseTotalPreorder<T(!new)>(leq: (T, T) -> bool)
    requires TotalPreorder(leq)
    ensures TotalPreorder(Reverse(leq))
  {
  }
}
