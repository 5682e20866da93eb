/** Small sequence and string vocabulary shared by the bakery model:
    Kotlin's `filter`, `count`, `find`-style lookups and `String.contains`. */
module Collections {

  datatype Option<T> = None | Some(value: T)

  function Min(a: int, b: int): int { if a <= b then a else b }

  function Last<T>(s: seq<T>): T
    requires |s| > 0
  {
    s[|s| - 1]
  }

  function Init<T>(s: seq<T>): seq<T>
    requires |s| > 0
  {
    s[..|s| - 1]
  }

  lemma InitLast<T>(s: seq<T>)
    requires |s| > 0
    ensures s == Init(s) + [Last(s)]
  {
  }

  lemma InitOfSnoc<T>(s: seq<T>, x: T)
    ensures Init(s + [x]) == s && Last(s + [x]) == x
  {
  }

  /** Kotlin's `filter`: the elements of `s` that satisfy `p`, in their original order. */
  function Filter<T>(s: seq<T>, p: T -> bool): (r: seq<T>)
    ensures |r| <= |s|
    ensures forall i :: 0 <= i < |r| ==> r[i] in s && p(r[i])
    ensures forall i :: 0 <= i < |s| && p(s[i]) ==> s[i] in r
  {
    if s == [] then []
    else
      InitLast(s);
      Filter(Init(s), p) + (if p(Last(s)) then [Last(s)] else [])
  }

  /** An element is in the filter's result exactly when it is in the input and satisfies `p`. */
  lemma FilterMember<T>(s: seq<T>, p: T -> bool, x: T)
    ensures x in Filter(s, p) <==> x in s && p(x)
  {
    var r := Filter(s, p);
    if x in r {
      var i :| 0 <= i < |r| && r[i] == x;
    }
    if x in s && p(x) {
      var i :| 0 <= i < |s| && s[i] == x;
    }
  }

  /** Kotlin's `count { p }`. */
  function Count<T>(s: seq<T>, p: T -> bool): nat
  {
    |Filter(s, p)|
  }

  /** Filtering distributes over concatenation: the filter keeps the input order. */
  lemma {:induction false} FilterConcat<T>(a: seq<T>, b: seq<T>, p: T -> bool)
    ensures Filter(a + b, p) == Filter(a, p) + Filter(b, p)
  {
    if b == [] {
      assert a + b == a;
    } else {
      InitOfSnoc(a + Init(b), Last(b));
      InitLast(b);
      assert a + b == (a + Init(b)) + [Last(b)];
      FilterConcat(a, Init(b), p);
    }
  }

  lemma FilterCons<T>(x: T, s: seq<T>, p: T -> bool)
    ensures Filter([x] + s, p) == (if p(x) then [x] else []) + Filter(s, p)
  {
    FilterConcat([x], s, p);
    InitOfSnoc([], x);
    assert [] + [x] == [x];
  }

  /** The filter keeps every satisfying element as often as the input holds it, and no other. */
  lemma {:induction false} FilterMultiset<T>(s: seq<T>, p: T -> bool, x: T)
    ensures multiset(Filter(s, p))[x] == if p(x) then multiset(s)[x] else 0
  {
    if s != [] {
      InitLast(s);
      FilterMultiset(Init(s), p, x);
    }
  }

  /** Two complementary filters split the input: their sizes add up to its size. */
  lemma {:induction false} FilterComplement<T>(s: seq<T>, p: T -> bool, q: T -> bool)
    requires forall x :: q(x) == !p(x)
    ensures |Filter(s, p)| + |Filter(s, q)| == |s|
  {
    if s != [] {
      FilterComplement(Init(s), p, q);
    }
  }

  /** Filtering by a stronger condition after a weaker one is filtering by the stronger one. */
  lemma {:induction false} FilterOfFilter<T>(s: seq<T>, p: T -> bool, q: T -> bool)
    requires forall x :: p(x) ==> q(x)
    ensures Filter(Filter(s, q), p) == Filter(s, p)
  {
    if s != [] {
      var x := Last(s);
      FilterOfFilter(Init(s), p, q);
      if q(x) {
        FilterConcat(Filter(Init(s), q), [x], p);
        assert Filter([x], p) == Filter([], p) + (if p(x) then [x] else []);
      } else {
        assert Filter(s, q) == Filter(Init(s), q);
        assert Filter(s, p) == Filter(Init(s), p);
      }
    }
  }

  /** A sequence is the part before position `i`, the element at `i`, and the part after. */
  lemma SplitAt<T>(s: seq<T>, i: nat)
    requires i < |s|
    ensures s == s[..i] + ([s[i]] + s[i + 1..])
  {
  }

  /** Replacing the element at `i` puts the new one between the same two parts. */
  lemma ReplaceSplit<T>(s: seq<T>, i: nat, c: T)
    requires i < |s|
    ensures s[i := c] == s[..i] + ([c] + s[i + 1..])
  {
  }

  lemma FilterAround<T>(a: seq<T>, x: T, b: seq<T>, p: T -> bool)
    ensures Filter(a + ([x] + b), p) == Filter(a, p) + ((if p(x) then [x] else []) + Filter(b, p))
  {
    FilterConcat(a, [x] + b, p);
    FilterCons(x, b, p);
  }

  /** Removing an element the filter drops does not change the filter's result. */
  lemma FilterRemoveAt<T>(s: seq<T>, i: nat, p: T -> bool)
    requires i < |s| && !p(s[i])
    ensures Filter(s[..i] + s[i + 1..], p) == Filter(s, p)
  {
    SplitAt(s, i);
    FilterAround(s[..i], s[i], s[i + 1..], p);
    FilterConcat(s[..i], s[i + 1..], p);
  }

  /** Replacing an element the filter drops by another one it drops changes nothing. */
  lemma FilterReplaceAt<T>(s: seq<T>, i: nat, c: T, p: T -> bool)
    requires i < |s| && !p(s[i]) && !p(c)
    ensures Filter(s[i := c], p) == Filter(s, p)
  {
    var t := s[i := c];
    assert t[..i] + t[i + 1..] == s[..i] + s[i + 1..];
    FilterRemoveAt(s, i, p);
    FilterRemoveAt(t, i, p);
  }

  /** Appending an element the filter drops changes nothing. */
  lemma FilterSnocDropped<T>(s: seq<T>, x: T, p: T -> bool)
    requires !p(x)
    ensures Filter(s + [x], p) == Filter(s, p)
  {
    InitOfSnoc(s, x);
  }

  /** A filter that every element passes returns its input. */
  lemma {:induction false} FilterAll<T>(s: seq<T>, p: T -> bool)
    requires forall i :: 0 <= i < |s| ==> p(s[i])
    ensures Filter(s, p) == s
  {
    if s != [] {
      InitLast(s);
      assert p(s[|s| - 1]);
      FilterAll(Init(s), p);
    }
  }

  /** Kotlin's `String.contains(sub)`. */
  predicate Contains(s: string, sub: string)
    decreases |s|
  {
    |sub| <= |s| && (s[..|sub|] == sub || (|s| > 0 && Contains(s[1..], sub)))
  }

  /** An occurrence of `sub` at position `i` makes `s` contain it. */
  lemma {:induction false} ContainsAt(s: string, sub: string, i: nat)
    requires i + |sub| <= |s| && s[i..i + |sub|] == sub
    ensures Contains(s, sub)
  {
    if i > 0 {
      assert s[1..][i - 1..i - 1 + |sub|] == s[i..i + |sub|];
      ContainsAt(s[1..], sub, i - 1);
    }
  }

  /** A string in which the first character of `sub` does not occur cannot contain `sub`. */
  lemma {:induction false} NotContainsFirst(s: string, sub: string)
    requires |sub| > 0 && sub[0] !in s
    ensures !Contains(s, sub)
    decreases |s|
  {
    if |sub| <= |s| {
      assert s[..|sub|][0] == s[0];
      if |s| > 0 {
        assert forall c :: c in s[1..] ==> c in s;
        NotContainsFirst(s[1..], sub);
      }
    }
  }

  /** `sub` occurs in `s` starting at position `i`. */
  predicate OccursAt(s: string, sub: string, i: int)
  {
    0 <= i && i + |sub| <= |s| && s[i..i + |sub|] == sub
  }

  /** `Contains` holds exactly when some position of `s` starts an occurrence of `sub`. */
  lemma {:induction false} ContainsSpec(s: string, sub: string)
    ensures Contains(s, sub) <==> exists i :: OccursAt(s, sub, i)
    decreases |s|
  {
    if Contains(s, sub) {
      if s[..|sub|] == sub {
        assert OccursAt(s, sub, 0);
      } else {
        ContainsSpec(s[1..], sub);
        var i :| OccursAt(s[1..], sub, i);
        assert s[i + 1..i + 1 + |sub|] == s[1..][i..i + |sub|];
        assert OccursAt(s, sub, i + 1);
      }
    }
    if exists i :: OccursAt(s, sub, i) {
      var i :| OccursAt(s, sub, i);
      ContainsAt(s, sub, i);
    }
  }
}
