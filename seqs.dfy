/** The optional value used for `string | null` fields and for values that may be absent. */
module Options {
  datatype Option<T> = None | Some(value: T)
}

/**
 * Sequence helpers shared by the cart, the validators and the catalogue:
 * the `Array.prototype.filter` of the storefront code, order-preserving
 * subsequences, and the left-to-right `reduce` sum over reals.
 */
module Seqs {

  /** `s.filter(p)`: the elements of `s` that satisfy `p`, in their original order. */
  function Filter<T(==)>(s: seq<T>, p: T -> bool): (r: seq<T>)
    ensures |r| <= |s|
    ensures forall i :: 0 <= i < |r| ==> r[i] in s && p(r[i])
    ensures forall i :: 0 <= i < |s| && p(s[i]) ==> s[i] in r
  {
    if |s| == 0 then []
    else if p(s[0]) then [s[0]] + Filter(s[1..], p)
    else Filter(s[1..], p)
  }

  /** `a` is `b` with some elements deleted and the rest kept in order. */
  predicate IsSubsequence<T(==)>(a: seq<T>, b: seq<T>)
    decreases |b|
  {
    if |a| == 0 then true
    else if |b| == 0 then false
    else if a[0] == b[0] then IsSubsequence(a[1..], b[1..])
    else IsSubsequence(a, b[1..])
  }

  /** Filtering keeps the surviving elements in their original order. */
  lemma {:induction false} FilterIsSubsequence<T>(s: seq<T>, p: T -> bool)
    ensures IsSubsequence(Filter(s, p), s)
  {
    if |s| > 0 {
      var rest := Filter(s[1..], p);
      FilterIsSubsequence(s[1..], p);
      if !p(s[0]) && |rest| > 0 {
        assert rest[0] in rest;
        assert rest[0] != s[0];
      }
    }
  }

  /** A filter whose predicate holds everywhere on `s` returns `s` itself. */
  lemma {:induction false} FilterAll<T>(s: seq<T>, p: T -> bool)
    requires forall i :: 0 <= i < |s| ==> p(s[i])
    ensures Filter(s, p) == s
  {
    if |s| > 0 {
      FilterAll(s[1..], p);
    }
  }

  /** Filtering only depends on the predicate's values on the elements of `s`. */
  lemma {:induction false} FilterExtensional<T>(s: seq<T>, p: T -> bool, q: T -> bool)
    requires forall i :: 0 <= i < |s| ==> p(s[i]) == q(s[i])
    ensures Filter(s, p) == Filter(s, q)
  {
    if |s| > 0 {
      FilterExtensional(s[1..], p, q);
    }
  }

  /** Two filters in a row are one filter by the conjunction of their predicates. */
  lemma {:induction false} FilterFilter<T>(s: seq<T>, p: T -> bool, q: T -> bool, both: T -> bool)
    requires forall i :: 0 <= i < |s| ==> both(s[i]) == (p(s[i]) && q(s[i]))
    ensures Filter(Filter(s, p), q) == Filter(s, both)
  {
    if |s| > 0 {
      FilterFilter(s[1..], p, q, both);
    }
  }

  /** Filtering a concatenation filters each part. */
  lemma {:induction false} FilterAppend<T>(a: seq<T>, b: seq<T>, p: T -> bool)
    ensures Filter(a + b, p) == Filter(a, p) + Filter(b, p)
  {
    if |a| > 0 {
      assert (a + b)[0] == a[0];
      assert (a + b)[1..] == a[1..] + b;
      FilterAppend(a[1..], b, p);
    } else {
      assert a + b == b;
    }
  }

  /** A filter that rejects some element of `s` returns a shorter list. */
  lemma {:induction false} FilterShorter<T>(s: seq<T>, p: T -> bool)
    requires exists i :: 0 <= i < |s| && !p(s[i])
    ensures |Filter(s, p)| < |s|
  {
    if p(s[0]) {
      var i :| 0 <= i < |s| && !p(s[i]);
      assert s[1..][i - 1] == s[i];
      FilterShorter(s[1..], p);
    }
  }

  /** No element occurs twice. */
  predicate Distinct<T(==)>(s: seq<T>)
  {
    forall i, j :: 0 <= i < j < |s| ==> s[i] != s[j]
  }

  /** Filtering a list without duplicates leaves a list without duplicates. */
  lemma {:induction false} FilterDistinct<T>(s: seq<T>, p: T -> bool)
    requires Distinct(s)
    ensures Distinct(Filter(s, p))
  {
    if |s| > 0 {
      var rest := Filter(s[1..], p);
      FilterDistinct(s[1..], p);
      if p(s[0]) {
        var r := Filter(s, p);
        assert r == [s[0]] + rest;
        forall b | 0 <= b < |rest| ensures s[0] != rest[b] {
          var tail := s[1..];
          assert rest[b] in tail;
          var k :| 0 <= k < |tail| && tail[k] == rest[b];
          assert s[k + 1] == rest[b];
        }
        forall a, b | 0 <= a < b < |r| ensures r[a] != r[b] {
          assert r[b] == rest[b - 1];
          if a > 0 {
            assert r[a] == rest[a - 1];
          }
        }
      }
    }
  }

  function Min(a: int, b: int): int
  {
    if a < b then a else b
  }

  /** The sum, in `reduce` order, of `f` over the elements of `s`. */
  function SumReal<T>(s: seq<T>, f: T -> real): real
  {
    if |s| == 0 then 0.0 else SumReal(s[..|s| - 1], f) + f(s[|s| - 1])
  }

  lemma {:induction false} SumRealAppend<T>(a: seq<T>, b: seq<T>, f: T -> real)
    ensures SumReal(a + b, f) == SumReal(a, f) + SumReal(b, f)
  {
    if |b| > 0 {
      assert (a + b)[..|a + b| - 1] == a + b[..|b| - 1];
      SumRealAppend(a, b[..|b| - 1], f);
    } else {
      assert a + b == a;
    }
  }

  /** The sum of one element is its term. */
  lemma SumRealSingle<T>(x: T, f: T -> real)
    ensures SumReal([x], f) == f(x)
  {
    assert [x][..0] == [];
  }

  /** Taking one element out lowers the sum by exactly its term. */
  lemma SumRealRemove<T>(s: seq<T>, j: int, f: T -> real)
    requires 0 <= j < |s|
    ensures SumReal(s, f) == SumReal(s[..j] + s[j + 1..], f) + f(s[j])
  {
    var upTo, after := s[..j + 1], s[j + 1..];
    assert s == upTo + after;
    SumRealAppend(upTo, after, f);
    assert upTo[..j] == s[..j];
    SumRealAppend(s[..j], after, f);
  }

  /** Replacing one element changes the sum by exactly the difference of the two terms. */
  lemma SumRealUpdate<T>(s: seq<T>, i: int, x: T, f: T -> real)
    requires 0 <= i < |s|
    ensures SumReal(s[i := x], f) == SumReal(s, f) - f(s[i]) + f(x)
  {
    SumRealRemove(s, i, f);
    SumRealRemove(s[i := x], i, f);
    assert s[i := x][..i] + s[i := x][i + 1..] == s[..i] + s[i + 1..];
  }

  /** The sum does not depend on the order of the elements. */
  lemma {:induction false} SumRealPermutation<T>(a: seq<T>, b: seq<T>, f: T -> real)
    requires multiset(a) == multiset(b)
    ensures SumReal(a, f) == SumReal(b, f)
    decreases |a|
  {
    if |a| == 0 {
      assert |multiset(b)| == 0;
    } else {
      var x := a[|a| - 1];
      var a' := a[..|a| - 1];
      assert a == a' + [x];
      assert x in multiset(b);
      var j :| 0 <= j < |b| && b[j] == x;
      var b' := b[..j] + b[j + 1..];
      assert b == b[..j] + [x] + b[j + 1..];
      assert multiset(b') == multiset(b) - multiset{x};
      assert multiset(a') == multiset(a) - multiset{x};
      SumRealPermutation(a', b', f);
      SumRealRemove(b, j, f);
    }
  }

  /** A sum of non-negative terms is non-negative. */
  lemma {:induction false} SumRealNonNegative<T>(s: seq<T>, f: T -> real)
    requires forall i :: 0 <= i < |s| ==> f(s[i]) >= 0.0
    ensures SumReal(s, f) >= 0.0
  {
    if |s| > 0 {
      SumRealNonNegative(s[..|s| - 1], f);
    }
  }
}
