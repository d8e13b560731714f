// The in-memory resource store of src/lib/server/db.js: a document of named
// resources loaded once, where most resources are collections of records
// and two names are singleton objects. getAll filters by dot-path equality,
// sorts by a field and paginates; create, replace, update and remove change
// one collection in place.

module Db {
  import opened Wrappers
  import opened Seqs
  import opened Sorting
  import opened Strs

  /** The values a record field can hold. */
  datatype Value = VStr(s: string) | VInt(n: int) | VObj(fields: map<string, Value>)

  type Record = map<string, Value>

  /** A top-level entry of the document: a collection or a single object. */
  datatype Resource = Collection(items: seq<Record>) | Object(fields: Record)

  /** The search parameters of a request, in order; a key may repeat. */
  type Query = seq<(string, string)>

  /** What getAll answers: a singleton verbatim, a list, or one page of it. */
  datatype Listing =
    | ObjectData(resource: Resource)
    | Whole(items: seq<Record>)
    | Paged(items: seq<Record>, total: nat)

  const SingletonResources: seq<string> := ["paretoViewModes", "vendorColors"]

  const ReservedParams: seq<string> := ["_sort", "_order", "_page", "_limit"]

  predicate IsSingleton(resource: string) {
    resource in SingletonResources
  }

  // ----- search parameters -----

  /** URLSearchParams.get: the first value given for key. */
  function Get(q: Query, key: string): (r: Option<string>)
    ensures r.Some? <==> exists i :: 0 <= i < |q| && q[i].0 == key
    ensures r.Some? ==> exists i :: 0 <= i < |q| && q[i] == (key, r.value)
                                    && forall j :: 0 <= j < i ==> q[j].0 != key
  {
    var i := FindIndex(q, (p: (string, string)) => p.0 == key);
    if i == -1 then None else Some(q[i].1)
  }

  /** The parameters that act as field filters, in order. */
  function FilterParams(q: Query): (r: Query)
    ensures forall p :: p in r <==> p in q && p.0 !in ReservedParams
  {
    Filter(q, (p: (string, string)) => p.0 !in ReservedParams)
  }

  /** `_order` other than "asc" sorts descending; absent or empty means "asc". */
  predicate IsAscending(q: Query) {
    var o := Get(q, "_order");
    o.None? || o.value == "" || o.value == "asc"
  }

  /** The field to sort by, when `_sort` is given and non-empty. */
  function SortKey(q: Query): Option<string> {
    var s := Get(q, "_sort");
    if s.Some? && s.value != "" then s else None
  }

  predicate HasPaging(q: Query) {
    var p := Get(q, "_page");
    var l := Get(q, "_limit");
    p.Some? && p.value != "" && l.Some? && l.value != ""
  }

  /**
   * parseInt(s, 10) on text without leading blanks: an optional sign, then
   * the digits up to the first other character; None is NaN.
   */
  function ParseInt(s: string): (r: Option<int>)
    ensures s != [] && AllDigits(s) ==> r == Some(DigitsValue(s))
    ensures s == [] || (!IsDigit(s[0]) && s[0] != '-' && s[0] != '+') ==> r.None?
    ensures s != [] && (s[0] == '-' || s[0] == '+') && (|s| == 1 || !IsDigit(s[1])) ==> r.None?
  {
    var signed := s != [] && (s[0] == '-' || s[0] == '+');
    var body := if signed then s[1..] else s;
    var d := LeadingDigits(body);
    var v: int := if d == [] then 0 else DigitsValue(d);
    assert s != [] && AllDigits(s) ==> !signed && d == s;
    if d == [] then None
    else if signed && s[0] == '-' then Some(-v)
    else Some(v)
  }

  /**
   * parseInt reads the digits up to the first other character, and ignores
   * the rest of the text.
   */
  lemma ParseIntOfDigitsThen(d: string, rest: string)
    requires d != [] && AllDigits(d)
    requires rest == [] || !IsDigit(rest[0])
    ensures ParseInt(d + rest) == Some(DigitsValue(d))
  {
    LeadingDigitsOfPrefix(d, rest);
  }

  /** The same after a leading `+` or `-`, which gives the value's sign. */
  lemma ParseIntOfSignedDigitsThen(sign: char, d: string, rest: string)
    requires sign == '+' || sign == '-'
    requires d != [] && AllDigits(d)
    requires rest == [] || !IsDigit(rest[0])
    ensures ParseInt([sign] + d + rest) == Some(if sign == '-' then -(DigitsValue(d) as int) else DigitsValue(d))
  {
    LeadingDigitsOfPrefix(d, rest);
    assert [sign] + d + rest == [sign] + (d + rest);
    ParseIntOfSigned(sign, d + rest);
  }

  lemma ParseIntOfSigned(sign: char, body: string)
    requires sign == '+' || sign == '-'
    requires LeadingDigits(body) != []
    ensures ParseInt([sign] + body)
            == Some(if sign == '-' then -(DigitsValue(LeadingDigits(body)) as int) else DigitsValue(LeadingDigits(body)))
  {
    assert ([sign] + body)[1..] == body;
  }

  lemma {:induction false} LeadingDigitsOfPrefix(d: string, rest: string)
    requires AllDigits(d)
    requires rest == [] || !IsDigit(rest[0])
    ensures LeadingDigits(d + rest) == d
    decreases |d|
  {
    if d != [] {
      assert (d + rest)[1..] == d[1..] + rest;
      LeadingDigitsOfPrefix(d[1..], rest);
    } else {
      assert d + rest == rest;
    }
  }

  /** parseInt reads back the text String() gives for every integer. */
  lemma ParseIntOfString(n: int)
    ensures ParseInt(IntToString(n)) == Some(n)
  {
    if n >= 0 {
      DigitsValueOfNatToString(n);
    } else {
      var s := IntToString(n);
      assert s[1..] == NatToString(-n);
      ParseIntOfNegated(s);
      DigitsValueOfNatToString(-n);
    }
  }

  /** A minus sign followed by digits reads as the negated decimal value. */
  lemma ParseIntOfNegated(s: string)
    requires |s| >= 2 && s[0] == '-' && AllDigits(s[1..])
    ensures ParseInt(s) == Some(-(DigitsValue(s[1..]) as int))
  {
    LeadingDigitsOfDigits(s[1..]);
  }

  lemma LeadingDigitsOfDigits(d: string)
    requires AllDigits(d)
    ensures LeadingDigits(d) == d
  {
  }

  /** The page number and limit as parseInt reads them, when both `_page` and `_limit` are given. */
  function Paging(q: Query): (r: Option<(Option<int>, Option<int>)>)
    ensures r.Some? <==> HasPaging(q)
    ensures r.Some? ==> r.value == (ParseInt(Get(q, "_page").value), ParseInt(Get(q, "_limit").value))
  {
    if HasPaging(q) then Some((ParseInt(Get(q, "_page").value), ParseInt(Get(q, "_limit").value)))
    else None
  }

  /** `start = (page - 1) * limit` and `start + limit`, where NaN spreads. */
  function PageBounds(page: Option<int>, limit: Option<int>): (Option<int>, Option<int>) {
    if page.Some? && limit.Some? then
      var start := (page.value - 1) * limit.value;
      (Some(start), Some(start + limit.value))
    else (None, None)
  }

  /**
   * The position an argument of Array.prototype.slice stands for: NaN is 0,
   * a negative argument counts back from the end, and both stay inside the list.
   */
  function SliceIndex(x: Option<int>, len: nat): (k: nat)
    ensures k <= len
    ensures x.Some? && 0 <= x.value <= len ==> k == x.value
    ensures x.Some? && x.value < 0 && len + x.value >= 0 ==> k == len + x.value
    ensures x.None? || len + x.value < 0 ==> k == 0
    ensures x.Some? && x.value > len ==> k == len
  {
    if x.None? then 0
    else if x.value < 0 then (if len + x.value < 0 then 0 else len + x.value)
    else if x.value > len then len
    else x.value
  }

  /** Array.prototype.slice(start, end). */
  function JsSlice<T>(s: seq<T>, start: Option<int>, end: Option<int>): (r: seq<T>)
    ensures var lo := SliceIndex(start, |s|);
            var hi := SliceIndex(end, |s|);
            r == if lo < hi then s[lo..hi] else []
  {
    var lo := SliceIndex(start, |s|);
    var hi := SliceIndex(end, |s|);
    if lo < hi then s[lo..hi] else []
  }

  /** On one side of zero, a later argument never stands for an earlier position, nor jumps further. */
  lemma SliceIndexMonotone(a: int, b: int, len: nat)
    requires a <= b && (b < 0 || 0 <= a)
    ensures SliceIndex(Some(a), len) <= SliceIndex(Some(b), len)
    ensures SliceIndex(Some(b), len) - SliceIndex(Some(a), len) <= b - a
  {
  }

  /**
   * A page holds at most limit records for a limit that is not negative,
   * and none when the page number or the limit is NaN.
   */
  lemma PageSize<T>(s: seq<T>, page: Option<int>, limit: Option<int>)
    ensures var (start, end) := PageBounds(page, limit);
            && (limit.Some? && limit.value >= 0 ==> |JsSlice(s, start, end)| <= limit.value)
            && (page.None? || limit.None? ==> JsSlice(s, start, end) == [])
  {
    if page.Some? && limit.Some? && limit.value >= 0 {
      var a := (page.value - 1) * limit.value;
      assert PageBounds(page, limit) == (Some(a), Some(a + limit.value));
      StartOfPage(page.value, limit.value);
      SliceWidth(s, a, limit.value);
    }
  }

  /** A start below zero can only come from a page before the first, whose end is then not past zero. */
  lemma StartOfPage(page: int, limit: nat)
    ensures var a := (page - 1) * limit;
            a < 0 ==> a + limit <= 0
  {
    if limit > 0 && (page - 1) * limit < 0 {
      assert page - 1 < 0;
      assert page * limit <= 0;
    }
  }

  /** slice(a, a + l) is at most l long when the range does not straddle zero. */
  lemma SliceWidth<T>(s: seq<T>, a: int, l: nat)
    requires a < 0 ==> a + l <= 0
    ensures |JsSlice(s, Some(a), Some(a + l))| <= l
  {
    if a + l < 0 || 0 <= a {
      SliceIndexMonotone(a, a + l, |s|);
    }
  }

  /** For a page counted from 1 and a limit that is a count, the slice is that page. */
  lemma PageBoundsOfCount<T>(s: seq<T>, page: nat, limit: nat)
    requires page >= 1
    ensures var (start, end) := PageBounds(Some(page), Some(limit));
            JsSlice(s, start, end) == PageOf(s, page, limit)
  {
    var start: nat := (page - 1) * limit;
    var st: int := start;
    assert PageBounds(Some(page), Some(limit)) == (Some(st), Some(st + limit));
    SliceOfRange(s, start, limit);
  }

  /** slice(start, start + len) with a start and length that are counts is the clamped slice. */
  lemma SliceOfRange<T>(s: seq<T>, start: nat, len: nat)
    ensures JsSlice(s, Some(start), Some(start + len)) == Slice(s, start, len)
  {
  }

  /** Array.prototype.slice(start, start + len), which clamps at the end. */
  function Slice<T>(s: seq<T>, start: nat, len: nat): (r: seq<T>)
    ensures |r| <= len
    ensures start <= |s| ==> r == s[start..if start + len <= |s| then start + len else |s|]
    ensures start >= |s| ==> r == []
  {
    var lo := if start <= |s| then start else |s|;
    var hi := if start + len <= |s| then start + len else |s|;
    s[lo..hi]
  }

  // ----- dot paths and field values -----

  function Step(v: Option<Value>, key: string): Option<Value> {
    if v.Some? && v.value.VObj? && key in v.value.fields then Some(v.value.fields[key]) else None
  }

  function Lookup(v: Option<Value>, keys: seq<string>): Option<Value>
    decreases |keys|
  {
    if keys == [] then v else Lookup(Step(v, keys[0]), keys[1..])
  }

  /** The value at a dot-separated path of a record, or None (undefined). */
  function GetNestedValue(item: Record, path: string): Option<Value> {
    Lookup(Some(VObj(item)), Split(path, '.'))
  }

  /** Once a path runs off the data it stays undefined. */
  lemma {:induction false} LookupOfNone(keys: seq<string>)
    ensures Lookup(None, keys) == None
    decreases |keys|
  {
    if keys != [] {
      LookupOfNone(keys[1..]);
    }
  }

  /** A path without dots reads one field of the record. */
  lemma NestedValueOfPlainKey(item: Record, key: string)
    requires '.' !in key
    ensures GetNestedValue(item, key) == if key in item then Some(item[key]) else None
  {
    SplitNoSeparator(key, '.');
    var v := Some(VObj(item));
    assert Lookup(v, [key]) == Lookup(Step(v, key), []);
  }

  /** A dotted path reads its last segment from the value at the rest. */
  lemma NestedValueOfDottedPath(item: Record, path: string, key: string)
    requires '.' !in key
    ensures GetNestedValue(item, path + "." + key) == Step(GetNestedValue(item, path), key)
  {
    SplitAppend(path, '.', key);
    SplitNoSeparator(key, '.');
    LookupAppend(Some(VObj(item)), Split(path, '.'), [key]);
  }

  lemma {:induction false} LookupAppend(v: Option<Value>, a: seq<string>, b: seq<string>)
    ensures Lookup(v, a + b) == Lookup(Lookup(v, a), b)
    decreases |a|
  {
    if a != [] {
      assert (a + b)[0] == a[0] && (a + b)[1..] == a[1..] + b;
      LookupAppend(Step(v, a[0]), a[1..], b);
    } else {
      assert a + b == b;
    }
  }

  /** JavaScript's String() of a field value; undefined reads "undefined". */
  function JsString(v: Option<Value>): string {
    match v
    case None => "undefined"
    case Some(VStr(s)) => s
    case Some(VInt(n)) => IntToString(n)
    case Some(VObj(_)) => "[object Object]"
  }

  /** The filter of one search parameter: the path is defined and reads as the value. */
  predicate Matches(item: Record, param: (string, string)) {
    var v := GetNestedValue(item, param.0);
    v.Some? && JsString(v) == param.1
  }

  function MatchesP(param: (string, string)): Record -> bool {
    item => Matches(item, param)
  }

  predicate MatchesAll(item: Record, params: Query) {
    forall k :: 0 <= k < |params| ==> Matches(item, params[k])
  }

  function MatchesAllP(params: Query): Record -> bool {
    item => MatchesAll(item, params)
  }

  /** The filters applied one after another, as the loop of getAll does. */
  function ApplyFilters(items: seq<Record>, params: Query): seq<Record>
    decreases |params|
  {
    if params == [] then items
    else Filter(ApplyFilters(items, params[..|params| - 1]), MatchesP(params[|params| - 1]))
  }

  /** Applying the filters in turn keeps exactly the records matching all of them. */
  lemma {:induction false} ApplyFiltersIsFilter(items: seq<Record>, params: Query)
    ensures ApplyFilters(items, params) == Filter(items, MatchesAllP(params))
    decreases |params|
  {
    if params == [] {
      FilterAll(items, MatchesAllP(params));
    } else {
      var init := params[..|params| - 1];
      ApplyFiltersIsFilter(items, init);
      forall x
        ensures MatchesAllP(params)(x) == (MatchesAllP(init)(x) && MatchesP(params[|params| - 1])(x))
      {
        if MatchesAll(x, init) && Matches(x, params[|params| - 1]) {
          forall k | 0 <= k < |params| ensures Matches(x, params[k]) {
            if k < |params| - 1 {
              assert params[k] == init[k];
            }
          }
        }
        if MatchesAll(x, params) {
          forall k | 0 <= k < |init| ensures Matches(x, init[k]) {
            assert init[k] == params[k];
          }
        }
      }
      FilterFilter(items, MatchesAllP(init), MatchesP(params[|params| - 1]), MatchesAllP(params));
    }
  }

  // ----- ordering -----

  function Rank(v: Option<Value>): nat {
    match v
    case None => 0
    case Some(VInt(_)) => 1
    case Some(VStr(_)) => 2
    case Some(VObj(_)) => 3
  }

  /**
   * The order used to sort by a field: numbers by value, strings
   * lexicographically, objects all tied, and kinds ordered
   * undefined < number < string < object.
   */
  predicate ValueLeq(a: Option<Value>, b: Option<Value>) {
    if Rank(a) != Rank(b) then Rank(a) < Rank(b)
    else match (a, b)
      case (Some(VInt(x)), Some(VInt(y))) => x <= y
      case (Some(VStr(x)), Some(VStr(y))) => StrLeq(x, y)
      case _ => true
  }

  function KeyOrder(key: string): (Record, Record) -> bool {
    (a, b) => ValueLeq(GetNestedValue(a, key), GetNestedValue(b, key))
  }

  /** The comparator getAll passes to sort for `_sort` and `_order`. */
  function Comparator(key: string, ascending: bool): (Record, Record) -> bool {
    if ascending then KeyOrder(key) else Reverse(KeyOrder(key))
  }

  lemma ValueLeqTotalPreorder(a: Option<Value>, b: Option<Value>, c: Option<Value>)
    ensures ValueLeq(a, b) || ValueLeq(b, a)
    ensures ValueLeq(a, b) && ValueLeq(b, c) ==> ValueLeq(a, c)
  {
    if a.Some? && b.Some? && a.value.VStr? && b.value.VStr? {
      StrLeqTotal(a.value.s, b.value.s);
      if c.Some? && c.value.VStr? && ValueLeq(a, b) && ValueLeq(b, c) {
        StrLeqTransitive(a.value.s, b.value.s, c.value.s);
      }
    }
  }

  lemma ComparatorTotalPreorder(key: string, ascending: bool)
    ensures TotalPreorder(Comparator(key, ascending))
  {
    var leq := KeyOrder(key);
    forall a: Record, b: Record, c: Record
      ensures leq(a, b) || leq(b, a)
      ensures leq(a, b) && leq(b, c) ==> leq(a, c)
    {
      ValueLeqTotalPreorder(GetNestedValue(a, key), GetNestedValue(b, key), GetNestedValue(c, key));
    }
    if !ascending {
      ReverseTotalPreorder(leq);
    }
  }

  // ----- getAll -----

  /** The filtered list, sorted when `_sort` is given: everything before paging. */
  function Ordered(items: seq<Record>, q: Query): seq<Record> {
    var filtered := ApplyFilters(items, FilterParams(q));
    match SortKey(q)
    case None => filtered
    case Some(key) =>
      ComparatorTotalPreorder(key, IsAscending(q));
      SortBy(filtered, Comparator(key, IsAscending(q)))
  }

  /** getAll on a collection with search parameters. */
  function Select(items: seq<Record>, q: Query): Listing {
    var ordered := Ordered(items, q);
    match Paging(q)
    case Some((page, limit)) =>
      var (start, end) := PageBounds(page, limit);
      Paged(JsSlice(ordered, start, end), |ordered|)
    case None => Whole(ordered)
  }

  /** getAll over the whole document. */
  function GetAllOf(document: map<string, Resource>, resource: string, query: Option<Query>): (r: Option<Listing>)
    ensures r.None? <==> resource !in document || (!IsSingleton(resource) && !document[resource].Collection?)
    ensures resource in document && IsSingleton(resource) ==> r == Some(ObjectData(document[resource]))
    ensures r.Some? && !IsSingleton(resource) ==> !r.value.ObjectData?
  {
    if resource !in document then None
    else if IsSingleton(resource) then Some(ObjectData(document[resource]))
    else if !document[resource].Collection? then None
    else if query.None? then Some(Whole(document[resource].items))
    else Some(Select(document[resource].items, query.value))
  }

  /**
   * The records before paging are exactly the records of the collection
   * that match every filter parameter, each as often as it occurs there.
   */
  lemma OrderedContents(items: seq<Record>, q: Query)
    ensures forall x :: x in Ordered(items, q) <==> x in items && MatchesAll(x, FilterParams(q))
    ensures multiset(Ordered(items, q)) == multiset(Filter(items, MatchesAllP(FilterParams(q))))
  {
    var filtered := ApplyFilters(items, FilterParams(q));
    ApplyFiltersIsFilter(items, FilterParams(q));
    if SortKey(q).Some? {
      ComparatorTotalPreorder(SortKey(q).value, IsAscending(q));
    }
    assert multiset(Ordered(items, q)) == multiset(filtered);
    forall x ensures x in Ordered(items, q) <==> x in filtered {
      assert x in Ordered(items, q) <==> x in multiset(Ordered(items, q));
      assert x in filtered <==> x in multiset(filtered);
    }
  }

  /** Without `_sort` the records keep the collection's order. */
  lemma OrderedUnsorted(items: seq<Record>, q: Query)
    requires SortKey(q).None?
    ensures IsSubsequence(Ordered(items, q), items)
  {
    ApplyFiltersIsFilter(items, FilterParams(q));
    FilterIsSubsequence(items, MatchesAllP(FilterParams(q)));
  }

  /**
   * With `_sort` the records are sorted by that field, ascending unless
   * `_order` says otherwise, and records with equal keys keep their order.
   */
  lemma OrderedSorted(items: seq<Record>, q: Query, z: Record)
    requires SortKey(q).Some?
    ensures var leq := Comparator(SortKey(q).value, IsAscending(q));
            && SortedBy(Ordered(items, q), leq)
            && Ties(Ordered(items, q), z, leq) == Ties(ApplyFilters(items, FilterParams(q)), z, leq)
  {
    ComparatorTotalPreorder(SortKey(q).value, IsAscending(q));
    SortByStable(ApplyFilters(items, FilterParams(q)), z, Comparator(SortKey(q).value, IsAscending(q)));
  }

  /** Page `page` of `limit` records, counting pages from 1. */
  function PageOf<T>(s: seq<T>, page: nat, limit: nat): seq<T>
    requires page >= 1
  {
    Slice(s, (page - 1) * limit, limit)
  }

  /**
   * A page holds at most limit records, exactly limit when the list goes
   * on past it, and is the part of the list starting at (page - 1) * limit.
   */
  lemma PageOfContents<T>(s: seq<T>, page: nat, limit: nat)
    requires page >= 1
    ensures var start := (page - 1) * limit;
            var r := PageOf(s, page, limit);
            && |r| <= limit
            && (start <= |s| ==> s[start..] == r + s[start + |r|..])
            && (start >= |s| ==> r == [])
            && (start + limit <= |s| ==> |r| == limit)
  {
    var start := (page - 1) * limit;
    var r := PageOf(s, page, limit);
    if start <= |s| {
      assert s[start..] == r + s[start + |r|..];
    }
  }

  /** Consecutive pages follow each other in the list. */
  lemma ConsecutivePages<T>(s: seq<T>, page: nat, limit: nat)
    requires page >= 1
    ensures PageOf(s, page, limit) + PageOf(s, page + 1, limit) == Slice(s, (page - 1) * limit, 2 * limit)
  {
    var a := (page - 1) * limit;
    assert (page + 1 - 1) * limit == a + limit;
    SliceSplit(s, a, limit, limit);
  }

  /** Two adjacent clamped slices make up the clamped slice of their joint length. */
  lemma SliceSplit<T>(s: seq<T>, a: nat, l1: nat, l2: nat)
    ensures Slice(s, a, l1) + Slice(s, a + l1, l2) == Slice(s, a, l1 + l2)
  {
    if a + l1 < |s| {
      var m := if a + l1 + l2 <= |s| then a + l1 + l2 else |s|;
      assert Slice(s, a, l1) == s[a..a + l1];
      assert Slice(s, a + l1, l2) == s[a + l1..m];
      assert Slice(s, a, l1 + l2) == s[a..m];
      assert s[a..m] == s[a..a + l1] + s[a + l1..m];
    } else {
      assert Slice(s, a + l1, l2) == [];
    }
  }

  /**
   * getAll's answer on a collection: without both `_page` and `_limit` the
   * whole ordered list; with them a page whose total is the number of
   * records that pass the filters, and which is page `page` of `limit`
   * records when both read as counts.
   */
  lemma SelectPages(items: seq<Record>, q: Query)
    ensures Paging(q).None? ==> Select(items, q) == Whole(Ordered(items, q))
    ensures Paging(q).Some? ==>
              && Select(items, q).Paged?
              && Select(items, q).total == |Filter(items, MatchesAllP(FilterParams(q)))|
    ensures Paging(q).Some? ==>
              var (page, limit) := Paging(q).value;
              page.Some? && page.value >= 1 && limit.Some? && limit.value >= 0 ==>
                Select(items, q).items == PageOf(Ordered(items, q), page.value, limit.value)
  {
    OrderedContents(items, q);
    assert |Ordered(items, q)| == |multiset(Ordered(items, q))|;
    if Paging(q).Some? {
      var (page, limit) := Paging(q).value;
      if page.Some? && page.value >= 1 && limit.Some? && limit.value >= 0 {
        PageBoundsOfCount(Ordered(items, q), page.value, limit.value);
      }
    }
  }

  // ----- ids -----

  function IdOf(item: Record): Option<Value> {
    if "id" in item then Some(item["id"]) else None
  }

  /** `item.id === id` for an id given as text. */
  predicate HasId(item: Record, id: string) {
    IdOf(item) == Some(VStr(id))
  }

  function HasIdP(id: string): Record -> bool {
    item => HasId(item, id)
  }

  /** `!item.id`: the id is missing, empty or zero. */
  predicate IdIsFalsy(item: Record) {
    var v := IdOf(item);
    v.None? || v == Some(VStr("")) || v == Some(VInt(0))
  }

  /** The number matched by /\d+$/ in a text, if any. */
  function TrailingNumber(s: string): Option<nat> {
    var d := TrailingDigits(s);
    if d == [] then None else Some(DigitsValue(d))
  }

  /** The number at the end of String(item.id), if any. */
  function IdNumber(item: Record): Option<nat> {
    TrailingNumber(JsString(IdOf(item)))
  }

  /** The largest of the numbers present, 0 when there is none. */
  function MaxNumber(ns: seq<Option<nat>>): (m: nat)
    ensures forall i :: 0 <= i < |ns| && ns[i].Some? ==> ns[i].value <= m
    ensures m == 0 || exists i :: 0 <= i < |ns| && ns[i] == Some(m)
    decreases |ns|
  {
    if ns == [] then 0
    else
      var m := MaxNumber(ns[..|ns| - 1]);
      var last := ns[|ns| - 1];
      if last.Some? && last.value > m then last.value else m
  }

  /** The largest id number of the collection, 0 when there is none. */
  function MaxIdNumber(items: seq<Record>): (m: nat)
    ensures forall i :: 0 <= i < |items| && IdNumber(items[i]).Some? ==> IdNumber(items[i]).value <= m
  {
    var ns := Map(items, IdNumber);
    assert forall i :: 0 <= i < |items| ==> ns[i] == IdNumber(items[i]);
    MaxNumber(ns)
  }

  /** resource.slice(0, 3). */
  function Prefix(resource: string): string {
    if |resource| <= 3 then resource else resource[..3]
  }

  /** The id create gives a record that has none: prefix-NNN, one past the largest number. */
  function GenerateId(resource: string, items: seq<Record>): string {
    Prefix(resource) + "-" + PadStart(NatToString(MaxIdNumber(items) + 1), 3, '0')
  }

  /** The number of a generated id is one more than the largest in use. */
  lemma GenerateIdNumber(resource: string, items: seq<Record>)
    ensures TrailingNumber(GenerateId(resource, items)) == Some(MaxIdNumber(items) + 1)
  {
    var digits := PadStart(NatToString(MaxIdNumber(items) + 1), 3, '0');
    PaddedNumeralValue(MaxIdNumber(items) + 1, 3);
    TrailingDigitsAfterSeparator(Prefix(resource), '-', digits);
    assert GenerateId(resource, items) == Prefix(resource) + ['-'] + digits;
  }

  /** A generated id differs from the id of every record already stored. */
  lemma GenerateIdFresh(resource: string, items: seq<Record>)
    ensures forall x :: x in items ==> !HasId(x, GenerateId(resource, items))
  {
    var id := GenerateId(resource, items);
    GenerateIdNumber(resource, items);
    forall i | 0 <= i < |items|
      ensures !HasId(items[i], id)
    {
      assert TrailingNumber(JsString(Some(VStr(id)))) == Some(MaxIdNumber(items) + 1);
    }
  }

  /** The record create stores: an id is generated when the given one is falsy. */
  function WithId(resource: string, items: seq<Record>, item: Record): (r: Record)
    ensures !IdIsFalsy(item) ==> r == item
    ensures IdIsFalsy(item) ==> r.Keys == item.Keys + {"id"} && r["id"] == VStr(GenerateId(resource, items))
    ensures forall k :: k in item && k != "id" ==> k in r && r[k] == item[k]
    ensures IdIsFalsy(item) ==> "id" in r && r["id"].VStr? && forall x :: x in items ==> !HasId(x, r["id"].s)
  {
    if IdIsFalsy(item) then
      GenerateIdFresh(resource, items);
      item["id" := VStr(GenerateId(resource, items))]
    else item
  }

  /** The list without its element at index i, as splice(i, 1) leaves it. */
  function RemoveAt<T>(s: seq<T>, i: nat): (r: seq<T>)
    requires i < |s|
    ensures |r| == |s| - 1
    ensures forall j :: 0 <= j < i ==> r[j] == s[j]
    ensures forall j :: i <= j < |r| ==> r[j] == s[j + 1]
  {
    s[..i] + s[i + 1..]
  }

  /**
   * Removing the first record with an id removes the only one when the id
   * is unique, so a second remove finds nothing.
   */
  lemma RemoveUniqueId(items: seq<Record>, id: string)
    requires FindIndex(items, HasIdP(id)) >= 0
    requires forall i, j :: 0 <= i < j < |items| && HasId(items[i], id) ==> !HasId(items[j], id)
    ensures FindIndex(RemoveAt(items, FindIndex(items, HasIdP(id))), HasIdP(id)) == -1
  {
    var p := HasIdP(id);
    assert forall i, j :: 0 <= i < j < |items| && p(items[i]) ==> !p(items[j]);
    RemoveFirstUnique(items, p);
  }

  /** Removing the first element that passes leaves none that passes, when at most one does. */
  lemma RemoveFirstUnique<T>(s: seq<T>, p: T -> bool)
    requires FindIndex(s, p) >= 0
    requires forall i, j :: 0 <= i < j < |s| && p(s[i]) ==> !p(s[j])
    ensures FindIndex(RemoveAt(s, FindIndex(s, p)), p) == -1
  {
    var i := FindIndex(s, p);
    var r := RemoveAt(s, i);
    forall j | 0 <= j < |r|
      ensures !p(r[j])
    {
      if j >= i {
        assert r[j] == s[j + 1];
      }
    }
  }

  /** The filtering loop of getAll: one filter parameter after another. */
  method FilterRecords(items: seq<Record>, params: Query) returns (result: seq<Record>)
    ensures result == ApplyFilters(items, params)
  {
    result := items;
    var i := 0;
    while i < |params|
      invariant 0 <= i <= |params|
      invariant result == ApplyFilters(items, params[..i])
    {
      assert params[..i + 1][..i] == params[..i];
      result := Filter(result, MatchesP(params[i]));
      i := i + 1;
    }
    assert params[..i] == params;
  }

  /** getAll on a collection with search parameters: filter, sort, then page. */
  method SelectRecords(items: seq<Record>, q: Query) returns (r: Listing)
    ensures r == Select(items, q)
  {
    var result := FilterRecords(items, FilterParams(q));
    var sort := Get(q, "_sort");
    if sort.Some? && sort.value != "" {
      ComparatorTotalPreorder(sort.value, IsAscending(q));
      result := SortBy(result, Comparator(sort.value, IsAscending(q)));
    }
    assert result == Ordered(items, q);
    var total := |result|;
    var page := Get(q, "_page");
    var limit := Get(q, "_limit");
    if page.Some? && page.value != "" && limit.Some? && limit.value != "" {
      var pageNum := ParseInt(page.value);
      var limitNum := ParseInt(limit.value);
      var (start, end) := PageBounds(pageNum, limitNum);
      return Paged(JsSlice(result, start, end), total);
    }
    return Whole(result);
  }

  /** The store: the loaded document, changed in place by the write operations. */
  class Store {
    var data: map<string, Resource>
    /** The resource names of the document as loaded. */
    const resources: set<string>

    ghost predicate Valid()
      reads this
    {
      data.Keys == resources
    }

    constructor (document: map<string, Resource>)
      ensures Valid() && data == document && resources == document.Keys
    {
      data := document;
      resources := document.Keys;
    }

    predicate IsValidResource(resource: string) {
      resource in resources
    }

    /** A resource that the write operations and getById accept. */
    predicate IsWritable(resource: string)
      reads this
    {
      resource in resources && !IsSingleton(resource) && resource in data && data[resource].Collection?
    }

    /** getAll: reads the document, never changes it. */
    method GetAll(resource: string, query: Option<Query>) returns (r: Option<Listing>)
      requires Valid()
      ensures r == GetAllOf(data, resource, query)
    {
      if !IsValidResource(resource) {
        return None;
      }
      var collection := data[resource];
      if IsSingleton(resource) {
        return Some(ObjectData(collection));
      }
      if !collection.Collection? {
        return None;
      }
      if query.None? {
        return Some(Whole(collection.items));
      }
      var listing := SelectRecords(collection.items, query.value);
      return Some(listing);
    }

    /** getById: the first record with the id, or None. */
    function GetById(resource: string, id: string): (r: Option<Record>)
      requires Valid()
      reads this
      ensures !IsWritable(resource) ==> r.None?
      ensures IsWritable(resource) ==>
                var items := data[resource].items;
                && (r.None? <==> forall j :: 0 <= j < |items| ==> !HasId(items[j], id))
                && (r.Some? ==> exists i :: 0 <= i < |items| && items[i] == r.value && HasId(r.value, id)
                                  && forall j :: 0 <= j < i ==> !HasId(items[j], id))
    {
      if !IsWritable(resource) then None
      else
        var items := data[resource].items;
        var i := FindIndex(items, HasIdP(id));
        if i == -1 then None else Some(items[i])
    }

    /** create: appends the record, with a generated id when it has none. */
    method Create(resource: string, item: Record) returns (r: Option<Record>)
      requires Valid()
      modifies this
      ensures Valid()
      ensures !old(IsWritable(resource)) ==> r.None? && data == old(data)
      ensures old(IsWritable(resource)) ==>
                var items := old(data)[resource].items;
                && r == Some(WithId(resource, items, item))
                && data == old(data)[resource := Collection(items + [r.value])]
    {
      if !IsWritable(resource) {
        return None;
      }
      var items := data[resource].items;
      var stored := item;
      if IdIsFalsy(item) {
        stored := item["id" := VStr(GenerateId(resource, items))];
      }
      data := data[resource := Collection(items + [stored])];
      return Some(stored);
    }

    /** replace: puts the record, with its id forced, at the first match. */
    method Replace(resource: string, id: string, item: Record) returns (r: Option<Record>)
      requires Valid()
      modifies this
      ensures Valid()
      ensures !old(IsWritable(resource)) ==> r.None? && data == old(data)
      ensures old(IsWritable(resource)) ==>
                var items := old(data)[resource].items;
                var i := FindIndex(items, HasIdP(id));
                && (i == -1 ==> r.None? && data == old(data))
                && (i >= 0 ==> r == Some(item["id" := VStr(id)])
                               && data == old(data)[resource := Collection(items[i := r.value])])
    {
      if !IsWritable(resource) {
        return None;
      }
      var items := data[resource].items;
      var index := FindIndex(items, HasIdP(id));
      if index == -1 {
        return None;
      }
      var stored := item["id" := VStr(id)];
      data := data[resource := Collection(items[index := stored])];
      return Some(stored);
    }

    /** update: merges the patch into the first match, keeping its id. */
    method Update(resource: string, id: string, updates: Record) returns (r: Option<Record>)
      requires Valid()
      modifies this
      ensures Valid()
      ensures !old(IsWritable(resource)) ==> r.None? && data == old(data)
      ensures old(IsWritable(resource)) ==>
                var items := old(data)[resource].items;
                var i := FindIndex(items, HasIdP(id));
                && (i == -1 ==> r.None? && data == old(data))
                && (i >= 0 ==> r == Some(Merge(items[i], updates, id))
                               && data == old(data)[resource := Collection(items[i := r.value])])
    {
      if !IsWritable(resource) {
        return None;
      }
      var items := data[resource].items;
      var index := FindIndex(items, HasIdP(id));
      if index == -1 {
        return None;
      }
      var updated := Merge(items[index], updates, id);
      data := data[resource := Collection(items[index := updated])];
      return Some(updated);
    }

    /** remove: splices out the first match; false when there is none. */
    method Remove(resource: string, id: string) returns (removed: bool)
      requires Valid()
      modifies this
      ensures Valid()
      ensures !old(IsWritable(resource)) ==> !removed && data == old(data)
      ensures old(IsWritable(resource)) ==>
                var items := old(data)[resource].items;
                var i := FindIndex(items, HasIdP(id));
                && (i == -1 ==> !removed && data == old(data))
                && (i >= 0 ==> removed && data == old(data)[resource := Collection(RemoveAt(items, i))])
    {
      if !IsWritable(resource) {
        return false;
      }
      var items := data[resource].items;
      var index := FindIndex(items, HasIdP(id));
      if index == -1 {
        return false;
      }
      data := data[resource := Collection(RemoveAt(items, index))];
      return true;
    }
  }

  /** `{ ...old, ...updates, id }`. */
  function Merge(old_: Record, updates: Record, id: string): (r: Record)
    ensures r.Keys == old_.Keys + updates.Keys + {"id"}
    ensures HasId(r, id)
    ensures forall k :: k in updates && k != "id" ==> r[k] == updates[k]
    ensures forall k :: k in old_ && k !in updates && k != "id" ==> r[k] == old_[k]
  {
    (old_ + updates)["id" := VStr(id)]
  }
}
