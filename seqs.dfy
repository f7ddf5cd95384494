/** Order-preserving list operations used by several components (`Array.prototype.filter`, `.slice`, `.reverse`). */
module Seqs {

  /** `s.filter(p)`: the elements of `s` that satisfy `p`, in their original order. */
  function Filter<T>(s: seq<T>, p: T -> bool): (r: seq<T>)
    ensures |r| <= |s|
    ensures forall i :: 0 <= i < |r| ==> r[i] in s && p(r[i])
    ensures forall i :: 0 <= i < |s| && p(s[i]) ==> s[i] in r
  {
    if s == [] then [] else (if p(s[0]) then [s[0]] else []) + Filter(s[1..], p)
  }

  /** An element is kept by the filter exactly when it is in `s` and satisfies `p`. */
  lemma FilterMembers<T>(s: seq<T>, p: T -> bool)
    ensures forall x :: x in Filter(s, p) <==> x in s && p(x)
  {
    var r := Filter(s, p);
    forall x | x in r ensures x in s && p(x) {
      var k :| 0 <= k < |r| && r[k] == x;
    }
    forall x | x in s && p(x) ensures x in r {
      var i :| 0 <= i < |s| && s[i] == x;
    }
  }

  /** The filter keeps every element that satisfies `p` as often as `s` holds it, and no other. */
  lemma {:induction false} FilterMultiplicity<T>(s: seq<T>, p: T -> bool)
    ensures forall x :: multiset(Filter(s, p))[x] == if p(x) then multiset(s)[x] else 0
  {
    if s != [] {
      FilterMultiplicity(s[1..], p);
      assert s == [s[0]] + s[1..];
      assert multiset(s) == multiset([s[0]]) + multiset(s[1..]);
    }
  }

  /**
   * The filter keeps the order: its entries `k < l` come from two positions `i < j` of `s`.
   * The witnesses are returned.
   */
  lemma {:induction false} FilterKeepsOrder<T>(s: seq<T>, p: T -> bool, k: nat, l: nat) returns (i: nat, j: nat)
    requires k < l < |Filter(s, p)|
    ensures i < j < |s| && s[i] == Filter(s, p)[k] && s[j] == Filter(s, p)[l]
  {
    FilterStep(s, p, k);
    FilterStep(s, p, l);
    var rest := Filter(s[1..], p);
    if p(s[0]) && k == 0 {
      var m :| 0 <= m < |s[1..]| && s[1..][m] == rest[l - 1];
      i, j := 0, m + 1;
    } else {
      var d := if p(s[0]) then 1 else 0;
      var a, b := FilterKeepsOrder(s[1..], p, k - d, l - d);
      i, j := a + 1, b + 1;
    }
  }

  /** Entry `k` of a filter, read from the filter of the tail. */
  lemma FilterStep<T>(s: seq<T>, p: T -> bool, k: nat)
    requires k < |Filter(s, p)|
    ensures s != []
    ensures p(s[0]) && k == 0 ==> Filter(s, p)[k] == s[0]
    ensures p(s[0]) && k > 0 ==> k - 1 < |Filter(s[1..], p)| && Filter(s, p)[k] == Filter(s[1..], p)[k - 1]
    ensures !p(s[0]) ==> k < |Filter(s[1..], p)| && Filter(s, p)[k] == Filter(s[1..], p)[k]
  {
    var rest := Filter(s[1..], p);
    if p(s[0]) {
      assert Filter(s, p) == [s[0]] + rest;
    } else {
      assert Filter(s, p) == [] + rest;
    }
  }

  /** Reversing a filtered list: its entries `k < l` come from positions `j > i` of `s`. */
  lemma ReversedFilterOrder<T>(s: seq<T>, p: T -> bool, k: nat, l: nat) returns (i: nat, j: nat)
    requires k < l < |Reverse(Filter(s, p))|
    ensures i < j < |s| && s[j] == Reverse(Filter(s, p))[k] && s[i] == Reverse(Filter(s, p))[l]
  {
    var own := Filter(s, p);
    i, j := FilterKeepsOrder(s, p, |own| - 1 - l, |own| - 1 - k);
  }

  /** Sequences with the same multiset have the same elements. */
  lemma SameElements<T>(a: seq<T>, b: seq<T>)
    requires multiset(a) == multiset(b)
    ensures forall x :: x in a <==> x in b
  {
    forall x ensures x in a <==> x in b {
      assert x in a <==> x in multiset(a);
      assert x in b <==> x in multiset(b);
    }
  }

  /** Filtering distributes over concatenation: the filter keeps the relative order of what it keeps. */
  lemma {:induction false} FilterAppend<T>(a: seq<T>, b: seq<T>, p: T -> bool)
    ensures Filter(a + b, p) == Filter(a, p) + Filter(b, p)
  {
    if a == [] {
      assert a + b == b;
    } else {
      assert (a + b)[0] == a[0];
      assert (a + b)[1..] == a[1..] + b;
      FilterAppend(a[1..], b, p);
    }
  }

  /** Filtering twice with the same predicate changes nothing the second time. */
  lemma {:induction false} FilterIdempotent<T>(s: seq<T>, p: T -> bool)
    ensures Filter(Filter(s, p), p) == Filter(s, p)
  {
    if s != [] {
      FilterIdempotent(s[1..], p);
      var head := if p(s[0]) then [s[0]] else [];
      FilterAppend(head, Filter(s[1..], p), p);
    }
  }

  /** `s.reverse()` */
  function Reverse<T>(s: seq<T>): (r: seq<T>)
    ensures |r| == |s|
    ensures forall i :: 0 <= i < |s| ==> r[i] == s[|s| - 1 - i]
  {
    if s == [] then [] else Reverse(s[1..]) + [s[0]]
  }

  /** Reversing keeps every element as often as it was there. */
  lemma {:induction false} ReverseMultiset<T>(s: seq<T>)
    ensures multiset(Reverse(s)) == multiset(s)
  {
    if s != [] {
      ReverseMultiset(s[1..]);
      assert s == [s[0]] + s[1..];
    }
  }

  /** The first `n` elements (`.limit(n)` of a query, `.slice(0, n)`). */
  function Take<T>(s: seq<T>, n: nat): (r: seq<T>)
    ensures |r| == if n < |s| then n else |s|
    ensures r == s[..|r|]
  {
    if n < |s| then s[..n] else s
  }

  /** Number of elements satisfying `p`. */
  function Count<T>(s: seq<T>, p: T -> bool): nat
  {
    if s == [] then 0 else (if p(s[0]) then 1 else 0) + Count(s[1..], p)
  }

  /** Counting is the length of the filtered list. */
  lemma {:induction false} CountIsFilterLength<T>(s: seq<T>, p: T -> bool)
    ensures Count(s, p) == |Filter(s, p)|
  {
    if s != [] { CountIsFilterLength(s[1..], p); }
  }

  /** Counting distributes over concatenation. */
  lemma {:induction false} CountAppend<T>(a: seq<T>, b: seq<T>, p: T -> bool)
    ensures Count(a + b, p) == Count(a, p) + Count(b, p)
  {
    if a == [] {
      assert a + b == b;
    } else {
      assert (a + b)[1..] == a[1..] + b;
      CountAppend(a[1..], b, p);
    }
  }

  /** A count is positive exactly when some element satisfies the predicate. */
  lemma {:induction false} CountPositiveIff<T>(s: seq<T>, p: T -> bool)
    ensures Count(s, p) > 0 <==> exists i :: 0 <= i < |s| && p(s[i])
  {
    if s != [] {
      CountPositiveIff(s[1..], p);
      if exists i :: 0 <= i < |s[1..]| && p(s[1..][i]) {
        var i :| 0 <= i < |s[1..]| && p(s[1..][i]);
        assert p(s[i + 1]);
      }
      if exists i :: 0 <= i < |s| && p(s[i]) {
        var i :| 0 <= i < |s| && p(s[i]);
        if i > 0 { assert p(s[1..][i - 1]); }
      }
    }
  }
}
