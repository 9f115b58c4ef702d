/**
 * Revenue rollups keyed by product or category, shared by the dashboard components:
 * a `Map` filled by `forEach` keeps its keys in first-insertion order, `Array.from(map.entries())`
 * lists them in that order, and `Array.prototype.sort` is stable.
 */
module Rollup {
  import opened Seqs

  /** One `[key, value]` pair: a contribution of one sale, or one entry of a revenue `Map`. */
  datatype Entry = Entry(key: string, amount: int)

  function KeysOf(c: seq<Entry>): (r: seq<string>)
    ensures |r| == |c| && forall i :: 0 <= i < |c| ==> r[i] == c[i].key
  {
    seq(|c|, i requires 0 <= i < |c| => c[i].key)
  }

  function AmountsOf(c: seq<Entry>): (r: seq<int>)
    ensures |r| == |c| && forall i :: 0 <= i < |c| ==> r[i] == c[i].amount
  {
    seq(|c|, i requires 0 <= i < |c| => c[i].amount)
  }

  predicate NoDuplicates(s: seq<string>) {
    forall i, j :: 0 <= i < j < |s| ==> s[i] != s[j]
  }

  predicate DistinctKeys(s: seq<Entry>) {
    forall i, j :: 0 <= i < j < |s| ==> s[i].key != s[j].key
  }

  /** The keys of `s` without repeats, in the order of their first occurrence (a `Map`'s key order). */
  function Distinct(s: seq<string>): (r: seq<string>)
    ensures forall k :: k in r <==> k in s
    ensures NoDuplicates(r)
    ensures |r| <= |s|
    decreases |s|
  {
    if s == [] then []
    else
      var d := Distinct(s[..|s| - 1]);
      if s[|s| - 1] in d then d else d + [s[|s| - 1]]
  }

  /** The elements of a list without repeats are as many as its length. */
  lemma {:induction false} NoDuplicatesCardinality(d: seq<string>)
    requires NoDuplicates(d)
    ensures |set x | x in d| == |d|
    decreases |d|
  {
    if d != [] {
      var u := d[..|d| - 1];
      var last := d[|d| - 1];
      NoDuplicatesCardinality(u);
      assert (set x | x in d) == (set x | x in u) + {last};
      assert last !in (set x | x in u);
    }
  }

  /** `new Set(s).size`: the number of different values in `s` is the length of `Distinct(s)`. */
  lemma DistinctCardinality(s: seq<string>)
    ensures |Distinct(s)| == |set x | x in s|
  {
    NoDuplicatesCardinality(Distinct(s));
    assert (set x | x in s) == (set x | x in Distinct(s));
  }

  /** The index of the first occurrence of `k` in `s`. */
  function FirstIndex(s: seq<string>, k: string): (i: nat)
    requires k in s
    ensures i < |s| && s[i] == k && forall j :: 0 <= j < i ==> s[j] != k
  {
    if s[0] == k then 0 else 1 + FirstIndex(s[1..], k)
  }

  lemma FirstIndexPrefix(s: seq<string>, n: nat, k: string)
    requires n <= |s| && k in s[..n]
    ensures k in s && FirstIndex(s, k) == FirstIndex(s[..n], k)
  {
    var i := FirstIndex(s[..n], k);
    assert s[i] == k;
    assert forall j :: 0 <= j < i ==> s[j] == s[..n][j];
  }

  /** `Distinct` lists keys in the order in which they first occur. */
  lemma {:induction false} DistinctOrder(s: seq<string>, i: nat, j: nat)
    requires i < j < |Distinct(s)|
    ensures FirstIndex(s, Distinct(s)[i]) < FirstIndex(s, Distinct(s)[j])
    decreases |s|
  {
    var u := s[..|s| - 1];
    var d := Distinct(u);
    var x := s[|s| - 1];
    var r := Distinct(s);
    assert r == (if x in d then d else d + [x]);
    assert r[i] == d[i] && d[i] in u;
    FirstIndexPrefix(s, |s| - 1, d[i]);
    var fi := FirstIndex(u, d[i]);
    if j < |d| {
      assert r[j] == d[j] && d[j] in u;
      DistinctOrder(u, i, j);
      FirstIndexPrefix(s, |s| - 1, d[j]);
      assert FirstIndex(s, r[j]) == FirstIndex(u, d[j]);
    } else {
      assert r[j] == x && x !in u;
      FirstIndexLast(s);
      assert FirstIndex(s, r[j]) == |u| && fi < |u|;
    }
    assert FirstIndex(s, r[i]) == fi;
  }

  /** A last element that does not occur earlier first occurs at the end. */
  lemma FirstIndexLast(s: seq<string>)
    requires |s| > 0 && s[|s| - 1] !in s[..|s| - 1]
    ensures FirstIndex(s, s[|s| - 1]) == |s| - 1
  {
  }

  /** The summed amount of every contribution made to key `k`. */
  function SumFor(c: seq<Entry>, k: string): int
    decreases |c|
  {
    if c == [] then 0
    else SumFor(c[..|c| - 1], k) + (if c[|c| - 1].key == k then c[|c| - 1].amount else 0)
  }

  /** The summed amount of all contributions. */
  function Total(c: seq<Entry>): int
    decreases |c|
  {
    if c == [] then 0 else Total(c[..|c| - 1]) + c[|c| - 1].amount
  }

  /** Appending one contribution adds it to its own key's sum and to the total. */
  lemma SumForSnoc(c: seq<Entry>, e: Entry, k: string)
    ensures SumFor(c + [e], k) == SumFor(c, k) + (if e.key == k then e.amount else 0)
    ensures Total(c + [e]) == Total(c) + e.amount
  {
    assert (c + [e])[..|c|] == c;
  }

  lemma {:induction false} SumForAbsent(c: seq<Entry>, k: string)
    requires k !in KeysOf(c)
    ensures SumFor(c, k) == 0
    decreases |c|
  {
    if c != [] {
      assert KeysOf(c[..|c| - 1]) == KeysOf(c)[..|c| - 1];
      SumForAbsent(c[..|c| - 1], k);
    }
  }

  /**
   * The `forEach` that fills a revenue `Map`: `map.set(k, (map.get(k) || 0) + amount)` for each
   * contribution. `order` is the map's key order, `totals` its contents.
   */
  method Accumulate(c: seq<Entry>) returns (order: seq<string>, totals: map<string, int>)
    ensures order == Distinct(KeysOf(c))
    ensures forall k :: k in totals <==> k in order
    ensures forall k :: k in totals ==> totals[k] == SumFor(c, k)
    ensures EntriesOf(order, totals) == Grouped(c)
  {
    order, totals := [], map[];
    for i := 0 to |c|
      invariant Accumulated(c[..i], order, totals)
    {
      var e := c[i];
      ghost var order0, totals0 := order, totals;
      if e.key in totals {
        totals := totals[e.key := totals[e.key] + e.amount];
      } else {
        order := order + [e.key];
        totals := totals[e.key := e.amount];
      }
      AccumulateStep(c, i, order0, totals0, order, totals);
    }
    assert c[..|c|] == c;
    EntriesOfAccumulated(c, order, totals);
  }

  /** `order` and `totals` are the key order and contents of the map after the contributions `c`. */
  ghost predicate Accumulated(c: seq<Entry>, order: seq<string>, totals: map<string, int>) {
    && order == Distinct(KeysOf(c))
    && (forall k :: k in totals <==> k in order)
    && (forall k :: k in totals ==> totals[k] == SumFor(c, k))
  }

  /** The map `Accumulate` fills, read in key order, is `Grouped(c)`. */
  lemma EntriesOfAccumulated(c: seq<Entry>, order: seq<string>, totals: map<string, int>)
    requires order == Distinct(KeysOf(c))
    requires forall k :: k in totals <==> k in order
    requires forall k :: k in totals ==> totals[k] == SumFor(c, k)
    ensures EntriesOf(order, totals) == Grouped(c)
  {
  }

  /** One `map.set(k, (map.get(k) || 0) + amount)` moves the map from `c[..i]` to `c[..i + 1]`. */
  lemma AccumulateStep(c: seq<Entry>, i: nat, order: seq<string>, totals: map<string, int>,
                       order': seq<string>, totals': map<string, int>)
    requires i < |c| && Accumulated(c[..i], order, totals)
    requires c[i].key in totals ==> order' == order && totals' == totals[c[i].key := totals[c[i].key] + c[i].amount]
    requires c[i].key !in totals ==> order' == order + [c[i].key] && totals' == totals[c[i].key := c[i].amount]
    ensures Accumulated(c[..i + 1], order', totals')
  {
    var e := c[i];
    var done, next := c[..i], c[..i + 1];
    assert next == done + [e];
    assert KeysOf(next)[..i] == KeysOf(done) && KeysOf(next)[i] == e.key;
    assert order' == Distinct(KeysOf(next));
    forall k | k in totals'
      ensures totals'[k] == SumFor(next, k)
    {
      SumForSnoc(done, e, k);
      if k == e.key && e.key !in totals {
        SumForAbsent(done, e.key);
      }
    }
  }

  /** One entry per key in `ks`, carrying that key's summed amount. */
  function Pairs(ks: seq<string>, c: seq<Entry>): (r: seq<Entry>)
    ensures |r| == |ks|
    ensures forall i :: 0 <= i < |ks| ==> r[i] == Entry(ks[i], SumFor(c, ks[i]))
    decreases |ks|
  {
    if ks == [] then [] else Pairs(ks[..|ks| - 1], c) + [Entry(ks[|ks| - 1], SumFor(c, ks[|ks| - 1]))]
  }

  /** `Array.from(map.entries())` for the map `Accumulate(c)` builds. */
  function Grouped(c: seq<Entry>): seq<Entry> {
    Pairs(Distinct(KeysOf(c)), c)
  }

  /** The map's entries, read in key order. */
  function EntriesOf(order: seq<string>, totals: map<string, int>): (r: seq<Entry>)
    requires forall k :: k in order ==> k in totals
    ensures |r| == |order|
    ensures forall i :: 0 <= i < |order| ==> r[i] == Entry(order[i], totals[order[i]])
  {
    seq(|order|, i requires 0 <= i < |order| => Entry(order[i], totals[order[i]]))
  }

  lemma GroupedKeys(c: seq<Entry>)
    ensures DistinctKeys(Grouped(c))
    ensures KeysOf(Grouped(c)) == Distinct(KeysOf(c))
  {
    assert KeysOf(Grouped(c)) == Distinct(KeysOf(c));
  }

  lemma {:induction false} PairsExtend(ks: seq<string>, c: seq<Entry>, e: Entry)
    requires NoDuplicates(ks)
    ensures Total(Pairs(ks, c + [e])) == Total(Pairs(ks, c)) + (if e.key in ks then e.amount else 0)
    decreases |ks|
  {
    if ks != [] {
      var u := ks[..|ks| - 1];
      var last := ks[|ks| - 1];
      PairsExtend(u, c, e);
      assert (c + [e])[..|c + [e]| - 1] == c;
      assert Pairs(ks, c + [e])[..|ks| - 1] == Pairs(u, c + [e]);
      assert Pairs(ks, c)[..|ks| - 1] == Pairs(u, c);
      assert e.key in ks <==> e.key in u || e.key == last;
      assert last !in u;
    }
  }

  /** The entries of the revenue map add up to the sum of all contributions. */
  lemma {:induction false} GroupedTotal(c: seq<Entry>)
    ensures Total(Grouped(c)) == Total(c)
    decreases |c|
  {
    if c != [] {
      var u := c[..|c| - 1];
      var e := c[|c| - 1];
      var ks := KeysOf(c);
      var d := Distinct(KeysOf(u));
      assert c == u + [e];
      assert Total(c) == Total(u) + e.amount;
      GroupedTotal(u);
      assert ks[..|ks| - 1] == KeysOf(u) && ks[|ks| - 1] == e.key;
      assert Distinct(ks) == if e.key in d then d else d + [e.key];
      PairsExtend(d, u, e);
      if e.key in d {
        assert Total(Grouped(c)) == Total(Pairs(d, c)) == Total(Pairs(d, u)) + e.amount;
      } else {
        SumForSnoc(u, e, e.key);
        SumForAbsent(u, e.key);
        var x := Entry(e.key, SumFor(c, e.key));
        PairsSnoc(d, e.key, c);
        SumForSnoc(Pairs(d, c), x, e.key);
        assert Total(Grouped(c)) == Total(Pairs(d, c) + [x]) == Total(Pairs(d, c)) + e.amount;
      }
    }
  }

  /** One more key adds its entry at the end. */
  lemma PairsSnoc(ks: seq<string>, k: string, c: seq<Entry>)
    ensures Pairs(ks + [k], c) == Pairs(ks, c) + [Entry(k, SumFor(c, k))]
  {
    assert (ks + [k])[..|ks|] == ks;
  }

  predicate SortedDesc(s: seq<Entry>) {
    forall i, j :: 0 <= i < j < |s| ==> s[i].amount >= s[j].amount
  }

  /** Stable insertion of a later element: it goes after every element whose amount is at least its own. */
  function InsertDesc(t: seq<Entry>, x: Entry): (r: seq<Entry>)
    ensures |r| == |t| + 1
    ensures multiset(r) == multiset(t) + multiset{x}
    decreases |t|
  {
    if t == [] then [x]
    else if t[0].amount >= x.amount then
      assert t == [t[0]] + t[1..];
      [t[0]] + InsertDesc(t[1..], x)
    else [x] + t
  }

  /** `sort((a, b) => b[1] - a[1])`: a stable sort by descending amount. */
  function SortDesc(s: seq<Entry>): (r: seq<Entry>)
    ensures |r| == |s|
    ensures multiset(r) == multiset(s)
    decreases |s|
  {
    if s == [] then []
    else
      assert s == s[..|s| - 1] + [s[|s| - 1]];
      InsertDesc(SortDesc(s[..|s| - 1]), s[|s| - 1])
  }

  /** Two lists with the same multiset of elements have the same members. */
  lemma SameElements(a: seq<Entry>, b: seq<Entry>, x: Entry)
    requires multiset(a) == multiset(b) && x in b
    ensures x in a
  {
    assert x in multiset(b);
  }

  lemma InMultiset(s: seq<Entry>, i: int)
    requires 0 <= i < |s|
    ensures s[i] in multiset(s)
  {
  }

  lemma {:induction false} InsertDescSorted(t: seq<Entry>, x: Entry)
    requires SortedDesc(t)
    ensures SortedDesc(InsertDesc(t, x))
    decreases |t|
  {
    if t != [] && t[0].amount >= x.amount {
      var rest := InsertDesc(t[1..], x);
      InsertDescSorted(t[1..], x);
      forall j | 0 <= j < |rest|
        ensures t[0].amount >= rest[j].amount
      {
        InMultiset(rest, j);
        assert rest[j] in multiset(t[1..]) + multiset{x};
        if rest[j] != x {
          assert rest[j] in t[1..];
        }
      }
    }
  }

  lemma {:induction false} SortDescSorted(s: seq<Entry>)
    ensures SortedDesc(SortDesc(s))
    decreases |s|
  {
    if s != [] {
      SortDescSorted(s[..|s| - 1]);
      InsertDescSorted(SortDesc(s[..|s| - 1]), s[|s| - 1]);
    }
  }

  function AmountIs(v: int): Entry -> bool {
    (e: Entry) => e.amount == v
  }

  /** The entries with amount `v`, in their order in `s`. */
  function WithAmount(s: seq<Entry>, v: int): seq<Entry> {
    Filter(s, AmountIs(v))
  }

  lemma FilterSingleton<T>(x: T, p: T -> bool)
    ensures Filter([x], p) == if p(x) then [x] else []
  {
    assert [x][..0] == [];
  }

  lemma FilterCons<T>(x: T, t: seq<T>, p: T -> bool)
    ensures Filter([x] + t, p) == (if p(x) then [x] else []) + Filter(t, p)
  {
    FilterSingleton(x, p);
    FilterAppend([x], t, p);
  }

  lemma {:induction false} InsertDescStable(t: seq<Entry>, x: Entry, v: int)
    requires SortedDesc(t)
    ensures WithAmount(InsertDesc(t, x), v) == WithAmount(t, v) + (if x.amount == v then [x] else [])
    decreases |t|
  {
    if t == [] {
      FilterSingleton(x, AmountIs(v));
    } else if t[0].amount >= x.amount {
      InsertDescStableSkip(t, x, v);
    } else {
      InsertDescStableFront(t, x, v);
    }
  }

  lemma AppendAssoc(a: seq<Entry>, b: seq<Entry>, c: seq<Entry>)
    ensures a + (b + c) == (a + b) + c
  {
  }

  lemma SortedTail(t: seq<Entry>)
    requires SortedDesc(t) && t != []
    ensures SortedDesc(t[1..])
  {
    assert forall i :: 0 <= i < |t| - 1 ==> t[1..][i] == t[i + 1];
  }

  lemma {:induction false} InsertDescStableSkip(t: seq<Entry>, x: Entry, v: int)
    requires SortedDesc(t) && t != [] && t[0].amount >= x.amount
    ensures WithAmount(InsertDesc(t, x), v) == WithAmount(t, v) + (if x.amount == v then [x] else [])
    decreases |t|, 0
  {
    var p := AmountIs(v);
    var rest := InsertDesc(t[1..], x);
    var head := if p(t[0]) then [t[0]] else [];
    var tail := if x.amount == v then [x] else [];
    assert InsertDesc(t, x) == [t[0]] + rest;
    assert t == [t[0]] + t[1..];
    SortedTail(t);
    InsertDescStable(t[1..], x, v);
    assert Filter(rest, p) == Filter(t[1..], p) + tail;
    FilterCons(t[0], rest, p);
    assert Filter(InsertDesc(t, x), p) == head + Filter(rest, p);
    FilterCons(t[0], t[1..], p);
    assert Filter(t, p) == head + Filter(t[1..], p);
    AppendAssoc(head, Filter(t[1..], p), tail);
  }

  lemma InsertDescStableFront(t: seq<Entry>, x: Entry, v: int)
    requires SortedDesc(t) && t != [] && t[0].amount < x.amount
    ensures WithAmount(InsertDesc(t, x), v) == WithAmount(t, v) + (if x.amount == v then [x] else [])
  {
    var p := AmountIs(v);
    assert InsertDesc(t, x) == [x] + t;
    FilterCons(x, t, p);
    if x.amount == v {
      assert forall i :: 0 <= i < |t| ==> !p(t[i]);
      FilterNone(t, p);
    }
  }

  /** The sort is stable: the entries of each amount keep their relative order. */
  lemma {:induction false} SortDescStable(s: seq<Entry>, v: int)
    ensures WithAmount(SortDesc(s), v) == WithAmount(s, v)
    decreases |s|
  {
    if s != [] {
      var u := s[..|s| - 1];
      SortDescStable(u, v);
      SortDescSorted(u);
      InsertDescStable(SortDesc(u), s[|s| - 1], v);
    }
  }

  /** The first key of `s` whose amount is maximal: the reference definition of the sort's head. */
  function FirstMax(s: seq<Entry>): (m: nat)
    requires |s| > 0
    ensures m < |s|
    ensures forall j :: 0 <= j < |s| ==> s[j].amount <= s[m].amount
    ensures forall j :: 0 <= j < m ==> s[j].amount < s[m].amount
    decreases |s|
  {
    if |s| == 1 then 0
    else
      var m := FirstMax(s[..|s| - 1]);
      if s[|s| - 1].amount > s[m].amount then |s| - 1 else m
  }

  lemma FilterHead<T>(s: seq<T>, p: T -> bool, i: nat)
    requires i < |s| && p(s[i])
    requires forall j :: 0 <= j < i ==> !p(s[j])
    ensures Filter(s, p) != [] && Filter(s, p)[0] == s[i]
  {
    var before, x, after := s[..i], s[i], s[i + 1..];
    assert s == before + ([x] + after);
    FilterNone(before, p);
    FilterAppend(before, [x] + after, p);
    FilterAppend([x], after, p);
    assert [x][..0] == [];
    assert Filter([x], p) == [x];
  }

  /** The head of the sorted list carries the largest amount. */
  lemma SortDescHeadAmount(s: seq<Entry>)
    requires |s| > 0
    ensures SortDesc(s)[0].amount == s[FirstMax(s)].amount
  {
    SortDescSorted(s);
    SortedHeadAmount(SortDesc(s), s);
  }

  /** A sorted rearrangement of `s` starts with an entry of the largest amount. */
  lemma SortedHeadAmount(r: seq<Entry>, s: seq<Entry>)
    requires |s| > 0 && SortedDesc(r) && multiset(r) == multiset(s)
    ensures |r| > 0 && r[0].amount == s[FirstMax(s)].amount
  {
    var m := FirstMax(s);
    SameElements(r, s, s[m]);
    var k :| 0 <= k < |r| && r[k] == s[m];
    SameElements(s, r, r[0]);
    var a :| 0 <= a < |s| && s[a] == r[0];
    assert r[0].amount >= r[k].amount;
  }

  /** The head of the stable descending sort is the first entry with the largest amount. */
  lemma SortDescHead(s: seq<Entry>)
    requires |s| > 0
    ensures SortDesc(s)[0] == s[FirstMax(s)]
  {
    var r := SortDesc(s);
    var m := FirstMax(s);
    var v := s[m].amount;
    SortDescHeadAmount(s);
    FilterHead(r, AmountIs(v), 0);
    FilterHead(s, AmountIs(v), m);
    SortDescStable(s, v);
  }

  lemma {:induction false} InsertDescKeys(t: seq<Entry>, x: Entry)
    requires DistinctKeys(t)
    requires forall i :: 0 <= i < |t| ==> t[i].key != x.key
    ensures DistinctKeys(InsertDesc(t, x))
    decreases |t|
  {
    if t != [] && t[0].amount >= x.amount {
      var rest := InsertDesc(t[1..], x);
      InsertDescKeys(t[1..], x);
      forall j | 0 <= j < |rest|
        ensures t[0].key != rest[j].key
      {
        InMultiset(rest, j);
        assert rest[j] in multiset(t[1..]) + multiset{x};
        if rest[j] != x {
          assert rest[j] in t[1..];
        }
      }
    }
  }

  /** Sorting a list of distinct keys keeps them distinct. */
  lemma {:induction false} SortDescKeys(s: seq<Entry>)
    requires DistinctKeys(s)
    ensures DistinctKeys(SortDesc(s))
    decreases |s|
  {
    if s != [] {
      var u := s[..|s| - 1];
      var x := s[|s| - 1];
      SortDescKeys(u);
      var r := SortDesc(u);
      forall i | 0 <= i < |r|
        ensures r[i].key != x.key
      {
        InMultiset(r, i);
        assert r[i] in u;
      }
      InsertDescKeys(r, x);
    }
  }

  /** Every entry the slice leaves out has an amount no larger than the last one kept. */
  lemma TopOmitted(s: seq<Entry>, n: nat, e: Entry)
    requires 0 < n <= |s| && e in s && e !in Take(SortDesc(s), n)
    ensures e.amount <= SortDesc(s)[n - 1].amount
  {
    var r := SortDesc(s);
    SameElements(r, s, e);
    SortDescSorted(s);
    OmittedFromSorted(r, n, e);
  }

  /** A key left out of the first `n` grouped entries collects no more than the `n`-th of them. */
  lemma OmittedKey(c: seq<Entry>, n: nat, key: string)
    requires n > 0 && |Take(SortDesc(Grouped(c)), n)| == n && key in KeysOf(c)
    requires forall i :: 0 <= i < n ==> Take(SortDesc(Grouped(c)), n)[i].key != key
    ensures SumFor(c, key) <= Take(SortDesc(Grouped(c)), n)[n - 1].amount
  {
    var g := Grouped(c);
    var d := Distinct(KeysOf(c));
    assert key in d;
    var j :| 0 <= j < |d| && d[j] == key;
    assert g[j] == Entry(key, SumFor(c, key));
    TopOmitted(g, n, g[j]);
  }

  /** In a list sorted by amount, an entry past the first `n` has an amount no larger than the `n`-th. */
  lemma OmittedFromSorted(r: seq<Entry>, n: nat, e: Entry)
    requires SortedDesc(r) && 0 < n <= |r| && e in r && e !in Take(r, n)
    ensures e.amount <= r[n - 1].amount
  {
    var k :| 0 <= k < |r| && r[k] == e;
    assert k >= n by {
      assert forall i :: 0 <= i < n ==> Take(r, n)[i] == r[i];
    }
  }

  /**
   * `sort(...).slice(0, n)` on a map's entries: at most `n` entries with distinct keys, in
   * non-increasing order, and every entry left out has an amount no larger than the last one kept.
   */
  lemma TopEntries(s: seq<Entry>, n: nat)
    requires DistinctKeys(s) && n > 0
    ensures var top := Take(SortDesc(s), n);
      && |top| <= n
      && DistinctKeys(top)
      && SortedDesc(top)
      && multiset(top) <= multiset(s)
      && (forall e :: e in s && e !in top && |top| == n ==> e.amount <= top[n - 1].amount)
  {
    var r := SortDesc(s);
    var top := Take(r, n);
    SortDescSorted(s);
    SortDescKeys(s);
    SortedPrefix(r, n);
    forall e | e in s && e !in top && |top| == n
      ensures e.amount <= top[n - 1].amount
    {
      TopOmitted(s, n, e);
    }
  }

  /** The first `n` entries of a sorted list with distinct keys are sorted, keyed apart and drawn from it. */
  lemma SortedPrefix(r: seq<Entry>, n: nat)
    requires SortedDesc(r) && DistinctKeys(r)
    ensures SortedDesc(Take(r, n)) && DistinctKeys(Take(r, n)) && multiset(Take(r, n)) <= multiset(r)
  {
    var top := Take(r, n);
    assert r == top + r[|top|..];
    assert multiset(r) == multiset(top) + multiset(r[|top|..]);
  }

  /** A key that collects the most, and among equal collectors the one that first occurs. */
  predicate IsTopKey(c: seq<Entry>, key: string) {
    && key in KeysOf(c)
    && forall k :: k in KeysOf(c) ==>
      && SumFor(c, k) <= SumFor(c, key)
      && (SumFor(c, k) == SumFor(c, key) ==> FirstIndex(KeysOf(c), key) <= FirstIndex(KeysOf(c), k))
  }

  /** There is at most one top key. */
  lemma TopKeyUnique(c: seq<Entry>, a: string, b: string)
    requires IsTopKey(c, a) && IsTopKey(c, b)
    ensures a == b
  {
    var ks := KeysOf(c);
    assert ks[FirstIndex(ks, a)] == a && ks[FirstIndex(ks, b)] == b;
  }

  lemma GroupedNonEmpty(c: seq<Entry>)
    requires |c| > 0
    ensures |Grouped(c)| > 0
  {
    assert KeysOf(c)[0] in KeysOf(c);
  }

  /**
   * `sort((a, b) => b[1] - a[1])[0]` over the entries of the map: the key with the largest total,
   * ties going to the key whose first contribution comes first.
   */
  lemma SortedHeadIsTopKey(c: seq<Entry>)
    requires |c| > 0
    ensures |SortDesc(Grouped(c))| > 0
    ensures var top := SortDesc(Grouped(c))[0];
      IsTopKey(c, top.key) && top.amount == SumFor(c, top.key)
  {
    var ks := KeysOf(c);
    var g := Grouped(c);
    GroupedNonEmpty(c);
    SortDescHead(g);
    var m := FirstMax(g);
    assert g[m].key in Distinct(ks);
    forall k | k in ks
      ensures SumFor(c, k) <= SumFor(c, g[m].key)
      ensures SumFor(c, k) == SumFor(c, g[m].key) ==> FirstIndex(ks, g[m].key) <= FirstIndex(ks, k)
    {
      FirstMaxBound(c, k);
    }
  }

  /** The first maximal entry of the grouped list bounds every key, and wins its ties. */
  lemma FirstMaxBound(c: seq<Entry>, k: string)
    requires k in KeysOf(c)
    ensures |Grouped(c)| > 0
    ensures var g := Grouped(c); var m := FirstMax(g);
      && g[m].key in KeysOf(c)
      && g[m].amount == SumFor(c, g[m].key)
      && SumFor(c, k) <= g[m].amount
      && (SumFor(c, k) == g[m].amount ==> FirstIndex(KeysOf(c), g[m].key) <= FirstIndex(KeysOf(c), k))
  {
    var ks := KeysOf(c);
    var d := Distinct(ks);
    var g := Grouped(c);
    assert k in d;
    var j :| 0 <= j < |d| && d[j] == k;
    var m := FirstMax(g);
    assert g[m] == Entry(d[m], SumFor(c, d[m]));
    assert d[m] in d;
    assert g[j] == Entry(k, SumFor(c, k));
    assert SumFor(c, k) <= g[m].amount;
    if SumFor(c, k) == g[m].amount {
      assert m <= j;
      if m < j {
        DistinctOrder(ks, m, j);
      }
    }
  }

  /**
   * Among the sorted entries, two with the same total keep the order of their keys' first
   * contributions: the sort is stable over the map's insertion order.
   */
  lemma SortedTiesKeepFirstOrder(c: seq<Entry>, i: nat, j: nat)
    requires i < j < |SortDesc(Grouped(c))|
    requires SortDesc(Grouped(c))[i].amount == SortDesc(Grouped(c))[j].amount
    ensures var r := SortDesc(Grouped(c));
      r[i].key in KeysOf(c) && r[j].key in KeysOf(c)
      && FirstIndex(KeysOf(c), r[i].key) < FirstIndex(KeysOf(c), r[j].key)
  {
    var g := Grouped(c);
    var r := SortDesc(g);
    var d := Distinct(KeysOf(c));
    var v := r[i].amount;
    var p := AmountIs(v);
    assert Before(r, r[i], r[j]);
    FilterKeepsBefore(r, p, r[i], r[j]);
    SortDescStable(g, v);
    FilterBefore(g, p, r[i], r[j]);
    var a, b :| 0 <= a < b < |g| && g[a] == r[i] && g[b] == r[j];
    assert g[a].key == d[a] && g[b].key == d[b];
    assert d[a] in d && d[b] in d;
    DistinctOrder(KeysOf(c), a, b);
  }
}
