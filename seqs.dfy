/** Array helpers the components use: `filter`, `filter(...).length`, `reduce` sums, `slice(0, n)`. */
module Seqs {

  /** `r` is `s` with some elements dropped and the rest in their original order. */
  predicate IsSubsequence<T(==)>(r: seq<T>, s: seq<T>)
    decreases |s|
  {
    if r == [] then true
    else if s == [] then false
    else if r[0] == s[0] then IsSubsequence(r[1..], s[1..])
    else IsSubsequence(r, s[1..])
  }

  /** `Array.prototype.filter`. */
  function Filter<T>(s: seq<T>, p: T -> bool): (r: seq<T>)
    ensures |r| <= |s|
    ensures forall i :: 0 <= i < |r| ==> p(r[i])
    decreases |s|
  {
    if s == [] then []
    else if p(s[|s| - 1]) then Filter(s[..|s| - 1], p) + [s[|s| - 1]]
    else Filter(s[..|s| - 1], p)
  }

  lemma {:induction false} FilterAppend<T>(s: seq<T>, t: seq<T>, p: T -> bool)
    ensures Filter(s + t, p) == Filter(s, p) + Filter(t, p)
    decreases |t|
  {
    if t == [] {
      assert s + t == s;
    } else {
      var u := t[..|t| - 1];
      assert (s + t)[..|s + t| - 1] == s + u;
      FilterAppend(s, u, p);
    }
  }

  /** An element is kept exactly when it occurs in the input and satisfies the predicate. */
  lemma {:induction false} FilterMembership<T>(s: seq<T>, p: T -> bool, x: T)
    ensures x in Filter(s, p) <==> x in s && p(x)
    decreases |s|
  {
    if s != [] {
      var u := s[..|s| - 1];
      FilterMembership(u, p, x);
      assert s == u + [s[|s| - 1]];
    }
  }

  /** The filter result is an order-preserving subsequence of the input. */
  lemma {:induction false} FilterIsSubsequence<T>(s: seq<T>, p: T -> bool)
    ensures IsSubsequence(Filter(s, p), s)
    decreases |s|
  {
    if s != [] {
      var u := s[..|s| - 1];
      FilterIsSubsequence(u, p);
      SubsequenceExtend(Filter(u, p), u, s[|s| - 1], p(s[|s| - 1]));
      assert s == u + [s[|s| - 1]];
    }
  }

  lemma {:induction false} SubsequenceExtend<T>(r: seq<T>, s: seq<T>, x: T, keep: bool)
    requires IsSubsequence(r, s)
    ensures IsSubsequence(if keep then r + [x] else r, s + [x])
    decreases |s|
  {
    if s == [] {
      assert r == [];
      if keep {
        assert ([] + [x])[1..] == [];
      }
    } else if r == [] {
      SubsequenceExtend(r, s[1..], x, keep);
      assert (s + [x])[1..] == s[1..] + [x];
      if keep {
        assert [] + [x] == [x];
        if x != s[0] {
          assert IsSubsequence([x], s[1..] + [x]);
        }
      }
    } else {
      assert (s + [x])[1..] == s[1..] + [x];
      if r[0] == s[0] {
        SubsequenceExtend(r[1..], s[1..], x, keep);
        if keep {
          assert (r + [x])[1..] == r[1..] + [x];
        }
      } else {
        SubsequenceExtend(r, s[1..], x, keep);
      }
    }
  }

  /** Every element is kept when the predicate holds throughout. */
  lemma {:induction false} FilterAll<T>(s: seq<T>, p: T -> bool)
    requires forall i :: 0 <= i < |s| ==> p(s[i])
    ensures Filter(s, p) == s
    decreases |s|
  {
    if s != [] {
      FilterAll(s[..|s| - 1], p);
      assert s == s[..|s| - 1] + [s[|s| - 1]];
    }
  }

  /** Every element is dropped when the predicate fails throughout. */
  lemma {:induction false} FilterNone<T>(s: seq<T>, p: T -> bool)
    requires forall i :: 0 <= i < |s| ==> !p(s[i])
    ensures Filter(s, p) == []
    decreases |s|
  {
    if s != [] {
      FilterNone(s[..|s| - 1], p);
    }
  }

  /** Filtering twice with the same predicate changes nothing more. */
  lemma FilterIdempotent<T>(s: seq<T>, p: T -> bool)
    ensures Filter(Filter(s, p), p) == Filter(s, p)
  {
    FilterAll(Filter(s, p), p);
  }

  /** `filter(p).length`. */
  function Count<T>(s: seq<T>, p: T -> bool): nat {
    |Filter(s, p)|
  }

  /** The count is positive exactly when some element satisfies the predicate. */
  lemma CountPositive<T>(s: seq<T>, p: T -> bool)
    ensures Count(s, p) > 0 <==> exists i :: 0 <= i < |s| && p(s[i])
  {
    if exists i :: 0 <= i < |s| && p(s[i]) {
      var i :| 0 <= i < |s| && p(s[i]);
      FilterMembership(s, p, s[i]);
    } else {
      FilterNone(s, p);
    }
  }

  /** `reduce((sum, x) => sum + f(x), 0)`. */
  function Sum<T>(s: seq<T>, f: T -> int): int
    decreases |s|
  {
    if s == [] then 0 else Sum(s[..|s| - 1], f) + f(s[|s| - 1])
  }

  lemma {:induction false} SumAppend<T>(s: seq<T>, t: seq<T>, f: T -> int)
    ensures Sum(s + t, f) == Sum(s, f) + Sum(t, f)
    decreases |t|
  {
    if t == [] {
      assert s + t == s;
    } else {
      assert (s + t)[..|s + t| - 1] == s + t[..|t| - 1];
      SumAppend(s, t[..|t| - 1], f);
    }
  }

  /** `slice(0, n)`: the first min(n, |s|) elements. */
  function Take<T>(s: seq<T>, n: nat): (r: seq<T>)
    ensures |r| == if n < |s| then n else |s|
    ensures forall i :: 0 <= i < |r| ==> r[i] == s[i]
  {
    if n < |s| then s[..n] else s
  }

  /** `x` occurs in `s` at an earlier position than `y`. */
  predicate Before<T(==)>(s: seq<T>, x: T, y: T) {
    exists i, j :: 0 <= i < j < |s| && s[i] == x && s[j] == y
  }

  /** An order seen in the filtered list was already there in the input. */
  lemma {:induction false} FilterBefore<T>(s: seq<T>, p: T -> bool, x: T, y: T)
    requires Before(Filter(s, p), x, y)
    ensures Before(s, x, y)
    decreases |s|
  {
    var u := s[..|s| - 1];
    var l := s[|s| - 1];
    var f := Filter(u, p);
    var i, j :| 0 <= i < j < |Filter(s, p)| && Filter(s, p)[i] == x && Filter(s, p)[j] == y;
    if p(l) && j == |f| {
      assert Filter(s, p) == f + [l];
      assert y == l && f[i] == x;
      FilterMembership(u, p, x);
      var a :| 0 <= a < |u| && u[a] == x;
      assert s[a] == x && s[|s| - 1] == y;
    } else {
      assert Before(f, x, y) by {
        assert f[i] == x && f[j] == y;
      }
      FilterBefore(u, p, x, y);
      var a, b :| 0 <= a < b < |u| && u[a] == x && u[b] == y;
      assert s[a] == x && s[b] == y;
    }
  }

  /** Filtering keeps the relative order of the elements it keeps. */
  lemma {:induction false} FilterKeepsBefore<T>(s: seq<T>, p: T -> bool, x: T, y: T)
    requires Before(s, x, y) && p(x) && p(y)
    ensures Before(Filter(s, p), x, y)
    decreases |s|
  {
    var u := s[..|s| - 1];
    var l := s[|s| - 1];
    var f := Filter(u, p);
    var i, j :| 0 <= i < j < |s| && s[i] == x && s[j] == y;
    if j == |s| - 1 {
      assert Filter(s, p) == f + [l];
      assert u[i] == x;
      FilterMembership(u, p, x);
      var a :| 0 <= a < |f| && f[a] == x;
      assert (f + [l])[a] == x && (f + [l])[|f|] == y;
    } else {
      assert Before(u, x, y) by {
        assert u[i] == x && u[j] == y;
      }
      FilterKeepsBefore(u, p, x, y);
      var a, b :| 0 <= a < b < |f| && f[a] == x && f[b] == y;
      if p(l) {
        assert (f + [l])[a] == x && (f + [l])[b] == y;
      }
    }
  }

  /** Sums of two functions that agree on every element are equal. */
  lemma {:induction false} SumCongruence<T>(s: seq<T>, f: T -> int, g: T -> int)
    requires forall i :: 0 <= i < |s| ==> f(s[i]) == g(s[i])
    ensures Sum(s, f) == Sum(s, g)
    decreases |s|
  {
    if s != [] {
      SumCongruence(s[..|s| - 1], f, g);
    }
  }

  function Masked<T>(p: T -> bool, f: T -> int): T -> int {
    (x: T) => if p(x) then f(x) else 0
  }

  /** `filter(p).reduce(f)` adds up `f` over exactly the elements satisfying `p`. */
  lemma {:induction false} SumFilter<T>(s: seq<T>, p: T -> bool, f: T -> int)
    ensures Sum(Filter(s, p), f) == Sum(s, Masked(p, f))
    decreases |s|
  {
    if s != [] {
      var u := s[..|s| - 1];
      var x := s[|s| - 1];
      SumFilter(u, p, f);
      if p(x) {
        var fu := Filter(u, p);
        assert (fu + [x])[..|fu + [x]| - 1] == fu;
      }
    }
  }

  function Both<T>(p: T -> bool, q: T -> bool): T -> bool {
    (x: T) => p(x) && q(x)
  }

  /** Filtering twice keeps the elements satisfying both predicates. */
  lemma {:induction false} FilterFilter<T>(s: seq<T>, p: T -> bool, q: T -> bool)
    ensures Filter(Filter(s, p), q) == Filter(s, Both(p, q))
    decreases |s|
  {
    if s != [] {
      var u := s[..|s| - 1];
      var x := s[|s| - 1];
      FilterFilter(u, p, q);
      if p(x) {
        var fu := Filter(u, p);
        assert (fu + [x])[..|fu + [x]| - 1] == fu;
      }
    }
  }

  /** Filters by two predicates that agree on every element keep the same elements. */
  lemma {:induction false} FilterCongruence<T>(s: seq<T>, p: T -> bool, q: T -> bool)
    requires forall i :: 0 <= i < |s| ==> p(s[i]) == q(s[i])
    ensures Filter(s, p) == Filter(s, q)
    decreases |s|
  {
    if s != [] {
      FilterCongruence(s[..|s| - 1], p, q);
    }
  }
}
