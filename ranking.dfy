/** Kotlin's `sortedByDescending { it.second }` and `take(n)` on lists of pairs.
    The Kotlin sort is stable, so entries with equal counts keep their input order;
    the model sorts by insertion, placing each entry before the entries of equal count
    that follow it in the input. */
module Ranking {
  import opened Collections

  /** Counts never increase along the sequence. */
  predicate SortedDesc<T>(s: seq<(T, int)>)
  {
    forall i, j :: 0 <= i < j < |s| ==> s[i].1 >= s[j].1
  }

  /** No two entries share their first component. */
  predicate DistinctFirsts<T(==)>(s: seq<(T, int)>)
  {
    forall i, j :: 0 <= i < j < |s| ==> s[i].0 != s[j].0
  }

  /** Some entry of `s` has first component `a`. */
  predicate HasFirst<T(==)>(s: seq<(T, int)>, a: T)
  {
    exists i :: 0 <= i < |s| && s[i].0 == a
  }

  /** The entries with count `k`. */
  function WithCount<T>(k: int): ((T, int)) -> bool
  {
    (e: (T, int)) => e.1 == k
  }

  /** Places `x` after the entries of larger count and before the rest. */
  function Insert<T>(x: (T, int), r: seq<(T, int)>): (res: seq<(T, int)>)
    ensures |res| == |r| + 1
    ensures multiset(res) == multiset(r) + multiset{x}
  {
    if r == [] || x.1 >= r[0].1 then [x] + r
    else
      assert r == [r[0]] + r[1..];
      [r[0]] + Insert(x, r[1..])
  }

  lemma InsertMember<T>(x: (T, int), r: seq<(T, int)>, e: (T, int))
    ensures e in Insert(x, r) <==> e == x || e in r
  {
    assert e in Insert(x, r) <==> e in multiset(Insert(x, r));
    assert e in r <==> e in multiset(r);
  }

  /** Inserting into a ranking gives a ranking. */
  lemma {:induction false} InsertSorted<T>(x: (T, int), r: seq<(T, int)>)
    requires SortedDesc(r)
    ensures SortedDesc(Insert(x, r))
  {
    if r != [] && x.1 < r[0].1 {
      var rest := Insert(x, r[1..]);
      InsertSorted(x, r[1..]);
      forall i | 0 <= i < |rest|
        ensures rest[i].1 <= r[0].1
      {
        InsertMember(x, r[1..], rest[i]);
        if rest[i] != x {
          var j :| 0 <= j < |r[1..]| && r[1..][j] == rest[i];
          assert r[0].1 >= r[j + 1].1;
        }
      }
      assert Insert(x, r) == [r[0]] + rest;
    }
  }

  /** Kotlin's stable `sortedByDescending { it.second }`. */
  function SortDesc<T>(s: seq<(T, int)>): (r: seq<(T, int)>)
    ensures |r| == |s|
    ensures multiset(r) == multiset(s)
    ensures SortedDesc(r)
  {
    if s == [] then []
    else
      assert s == [s[0]] + s[1..];
      InsertSorted(s[0], SortDesc(s[1..]));
      Insert(s[0], SortDesc(s[1..]))
  }

  /** Kotlin's `take(n)`. */
  function Take<T>(s: seq<T>, n: nat): (r: seq<T>)
    ensures |r| == Min(n, |s|)
    ensures forall i :: 0 <= i < |r| ==> r[i] == s[i]
  {
    s[..Min(n, |s|)]
  }

  /** Kotlin's `indexOfFirst { it.first == a }`: -1 when no entry has first component `a`. */
  function IndexOfFirst<T(==)>(s: seq<(T, int)>, a: T): (k: int)
    ensures -1 <= k < |s|
    ensures k >= 0 ==> s[k].0 == a && forall j :: 0 <= j < k ==> s[j].0 != a
    ensures k == -1 ==> forall j :: 0 <= j < |s| ==> s[j].0 != a
  {
    if s == [] then -1
    else if s[0].0 == a then 0
    else
      var k := IndexOfFirst(s[1..], a);
      if k == -1 then -1 else k + 1
  }

  lemma MemberOfMultiset<T>(a: seq<T>, b: seq<T>, x: T)
    requires multiset(a) == multiset(b)
    ensures x in a <==> x in b
  {
    assert x in a <==> x in multiset(a);
    assert x in b <==> x in multiset(b);
  }

  /** One step of the insertion, without the insertion: an entry `y` of larger count than `x`
      put in front of both sides keeps the filtered sides related. */
  lemma StableStep<T>(y: (T, int), x: (T, int), rest: seq<(T, int)>, tail: seq<(T, int)>, k: int)
    requires y.1 > x.1
    requires Filter(rest, WithCount(k)) == (if x.1 == k then [x] else []) + Filter(tail, WithCount(k))
    ensures Filter([y] + rest, WithCount(k)) == (if x.1 == k then [x] else []) + Filter([y] + tail, WithCount(k))
  {
    var p := WithCount(k);
    FilterCons(y, rest, p);
    FilterCons(y, tail, p);
    var front := if x.1 == k then [x] else [];
    var fr, ft := Filter(rest, p), Filter(tail, p);
    if y.1 == k {
      assert front == [];
      assert fr == ft;
      assert Filter([y] + rest, p) == [y] + fr;
      assert Filter([y] + tail, p) == [y] + ft;
      assert front + Filter([y] + tail, p) == Filter([y] + tail, p);
    } else {
      assert Filter([y] + rest, p) == [] + fr;
      assert Filter([y] + tail, p) == [] + ft;
      assert [] + fr == fr && [] + ft == ft;
    }
  }

  /** Inserting has the same effect on the entries of count `k` as putting `x` in front. */
  lemma {:induction false} InsertStable<T>(x: (T, int), r: seq<(T, int)>, k: int)
    ensures Filter(Insert(x, r), WithCount(k)) == (if x.1 == k then [x] else []) + Filter(r, WithCount(k))
  {
    if r == [] || x.1 >= r[0].1 {
      assert Insert(x, r) == [x] + r;
      FilterCons(x, r, WithCount(k));
    } else {
      var rest := Insert(x, r[1..]);
      assert Insert(x, r) == [r[0]] + rest;
      InsertStable(x, r[1..], k);
      StableStep(r[0], x, rest, r[1..], k);
      assert [r[0]] + r[1..] == r;
    }
  }

  /** Inserting `x` into a sequence with the same entries of count `k` as `t` gives the entries
      of count `k` of `x` followed by `t`. */
  lemma InsertCons<T>(x: (T, int), r: seq<(T, int)>, t: seq<(T, int)>, k: int)
    requires Filter(r, WithCount(k)) == Filter(t, WithCount(k))
    ensures Filter(Insert(x, r), WithCount(k)) == Filter([x] + t, WithCount(k))
  {
    var p := WithCount(k);
    InsertStable(x, r, k);
    FilterCons(x, t, p);
    assert (if p(x) then [x] else []) == (if x.1 == k then [x] else []);
  }

  /** Stability: the entries of each count appear in the sorted result in their input order. */
  lemma {:induction false} SortDescStable<T>(s: seq<(T, int)>, k: int)
    ensures Filter(SortDesc(s), WithCount(k)) == Filter(s, WithCount(k))
  {
    if s != [] {
      var r := SortDesc(s[1..]);
      assert SortDesc(s) == Insert(s[0], r);
      SortDescStable(s[1..], k);
      InsertCons(s[0], r, s[1..], k);
      assert [s[0]] + s[1..] == s;
    }
  }

  /** Sorting loses no first component and adds none. */
  lemma SortDescHasFirst<T>(s: seq<(T, int)>, a: T)
    ensures HasFirst(SortDesc(s), a) <==> HasFirst(s, a)
  {
    var r := SortDesc(s);
    if HasFirst(r, a) {
      var i :| 0 <= i < |r| && r[i].0 == a;
      MemberOfMultiset(r, s, r[i]);
      var j :| 0 <= j < |s| && s[j] == r[i];
    }
    if HasFirst(s, a) {
      var i :| 0 <= i < |s| && s[i].0 == a;
      MemberOfMultiset(r, s, s[i]);
      var j :| 0 <= j < |r| && r[j] == s[i];
    }
  }

  lemma {:induction false} InsertDistinct<T>(x: (T, int), r: seq<(T, int)>)
    requires DistinctFirsts(r) && !HasFirst(r, x.0)
    ensures DistinctFirsts(Insert(x, r))
  {
    if r != [] && x.1 < r[0].1 {
      var rest := Insert(x, r[1..]);
      assert !HasFirst(r[1..], x.0) && DistinctFirsts(r[1..]) by {
        forall i | 0 <= i < |r[1..]| ensures r[1..][i] == r[i + 1] { }
      }
      InsertDistinct(x, r[1..]);
      forall i | 0 <= i < |rest| ensures rest[i].0 != r[0].0 {
        InsertMember(x, r[1..], rest[i]);
        if rest[i] != x {
          var j :| 0 <= j < |r[1..]| && r[1..][j] == rest[i];
          assert r[j + 1] == rest[i];
        } else {
          assert r[0].0 != x.0;
        }
      }
      assert Insert(x, r) == [r[0]] + rest;
    }
  }

  /** Sorting keeps first components distinct. */
  lemma {:induction false} SortDescDistinct<T>(s: seq<(T, int)>)
    requires DistinctFirsts(s)
    ensures DistinctFirsts(SortDesc(s))
  {
    if s != [] {
      assert DistinctFirsts(s[1..]) by {
        forall i | 0 <= i < |s[1..]| ensures s[1..][i] == s[i + 1] { }
      }
      SortDescDistinct(s[1..]);
      SortDescHasFirst(s[1..], s[0].0);
      assert !HasFirst(s[1..], s[0].0) by {
        forall j | 0 <= j < |s[1..]| ensures s[1..][j].0 != s[0].0 {
          assert s[1..][j] == s[j + 1];
        }
      }
      InsertDistinct(s[0], SortDesc(s[1..]));
    }
  }

  /** Every entry kept by `take(n)` of a ranking has a count at least that of every entry dropped. */
  lemma TakeDominates<T>(s: seq<(T, int)>, n: nat, i: int, j: int)
    requires SortedDesc(s)
    requires 0 <= i < |Take(s, n)| <= j < |s|
    ensures Take(s, n)[i].1 >= s[j].1
  {
  }

  /** With distinct first components, the first index of an entry's first component is its position. */
  lemma IndexOfFirstDistinct<T>(s: seq<(T, int)>, i: int)
    requires DistinctFirsts(s) && 0 <= i < |s|
    ensures IndexOfFirst(s, s[i].0) == i
  {
  }

  /** The sum of the counts of a list of pairs. */
  function SumCounts<T>(s: seq<(T, int)>): int
  {
    if s == [] then 0 else s[0].1 + SumCounts(s[1..])
  }

  lemma {:induction false} SumCountsSnoc<T>(s: seq<(T, int)>, x: (T, int))
    ensures SumCounts(s + [x]) == SumCounts(s) + x.1
  {
    if s != [] {
      assert (s + [x])[1..] == s[1..] + [x];
      SumCountsSnoc(s[1..], x);
    }
  }

  lemma {:induction false} SumCountsUpdate<T>(s: seq<(T, int)>, k: nat, e: (T, int))
    requires k < |s|
    ensures SumCounts(s[k := e]) == SumCounts(s) - s[k].1 + e.1
  {
    if k > 0 {
      assert s[k := e][1..] == s[1..][k - 1 := e];
      SumCountsUpdate(s[1..], k - 1, e);
    } else {
      assert s[k := e][1..] == s[1..];
    }
  }

  lemma {:induction false} SumCountsInsert<T>(x: (T, int), r: seq<(T, int)>)
    ensures SumCounts(Insert(x, r)) == x.1 + SumCounts(r)
  {
    if r != [] && x.1 < r[0].1 {
      SumCountsInsert(x, r[1..]);
      assert Insert(x, r)[1..] == Insert(x, r[1..]);
    } else {
      assert Insert(x, r)[1..] == r;
    }
  }

  /** Sorting keeps the sum of the counts. */
  lemma {:induction false} SumCountsSortDesc<T>(s: seq<(T, int)>)
    ensures SumCounts(SortDesc(s)) == SumCounts(s)
  {
    if s != [] {
      SumCountsSortDesc(s[1..]);
      SumCountsInsert(s[0], SortDesc(s[1..]));
    }
  }
}
