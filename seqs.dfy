/** Sequence helpers standing in for the Python and pandas primitives the
    clients build on: slicing, `sum`, insertion-ordered dictionaries used as
    group-by accumulators, `sorted`, `max`, `Series.mode` and `sorted(set(..))`. */
module Seqs {
  import opened Strings

  datatype Option<+T> = None | Some(value: T) {
    function GetOr(default: T): T {
      match this
      case Some(v) => v
      case None => default
    }
  }

  datatype Result<+T, +E> = Ok(value: T) | Err(error: E)

  /** Python's `s[:n]`, which is also pandas' `head(n)`: a negative `n`
      drops the last `-n` items instead of keeping the first ones. */
  function Take<T>(s: seq<T>, n: int): (r: seq<T>)
    ensures |r| <= |s| && r == s[..|r|]
    ensures n >= 0 ==> |r| == (if n < |s| then n else |s|)
    ensures n < 0 ==> |r| == (if |s| + n > 0 then |s| + n else 0)
  {
    if n >= 0 then (if n < |s| then s[..n] else s)
    else if |s| + n > 0 then s[..|s| + n] else []
  }

  /** `[f(x) for x in s]`. */
  function Map<A, B>(s: seq<A>, f: A -> B): (r: seq<B>)
    ensures |r| == |s|
    ensures forall i :: 0 <= i < |s| ==> r[i] == f(s[i])
  {
    seq(|s|, i requires 0 <= i < |s| => f(s[i]))
  }

  /** Mapping one more element appends its image. */
  lemma MapSnoc<A, B>(s: seq<A>, f: A -> B, j: int)
    requires 0 <= j < |s|
    ensures Map(s[..j + 1], f) == Map(s[..j], f) + [f(s[j])]
  {
    var a, b := Map(s[..j + 1], f), Map(s[..j], f) + [f(s[j])];
    forall k | 0 <= k < |a| ensures a[k] == b[k] {
      assert s[..j + 1][k] == s[k];
      if k < j { assert s[..j][k] == s[k]; }
    }
  }

  /** `[x for x in s if p(x)]`. */
  function Filter<T(!new)>(s: seq<T>, p: T -> bool): (r: seq<T>)
    ensures |r| <= |s|
    ensures forall x :: x in r <==> x in s && p(x)
  {
    if s == [] then []
    else
      var init := Filter(s[..|s| - 1], p);
      var last := s[|s| - 1];
      assert s == s[..|s| - 1] + [last];
      if p(last) then init + [last] else init
  }

  /** Filtering distributes over concatenation, so it keeps the input's order
      and multiplicity. */
  lemma {:induction false} FilterAppend<T(!new)>(s: seq<T>, t: seq<T>, p: T -> bool)
    ensures Filter(s + t, p) == Filter(s, p) + Filter(t, p)
    decreases |t|
  {
    if t == [] {
      assert s + t == s;
    } else {
      var init := t[..|t| - 1];
      assert (s + t)[..|s + t| - 1] == s + init;
      assert t == init + [t[|t| - 1]];
      FilterAppend(s, init, p);
    }
  }

  /** The kept items are a subsequence: the `i`-th kept item sits at position
      `idx[i]` of the input, and these positions increase. */
  lemma {:induction false} FilterSubsequence<T(!new)>(s: seq<T>, p: T -> bool) returns (idx: seq<nat>)
    ensures |idx| == |Filter(s, p)|
    ensures forall i :: 0 <= i < |idx| ==> idx[i] < |s| && Filter(s, p)[i] == s[idx[i]]
    ensures forall i, j :: 0 <= i < j < |idx| ==> idx[i] < idx[j]
  {
    if s == [] {
      idx := [];
    } else {
      var init, last := s[..|s| - 1], s[|s| - 1];
      var pre := FilterSubsequence(init, p);
      var fi := Filter(init, p);
      assert forall i :: 0 <= i < |pre| ==> s[pre[i]] == init[pre[i]];
      if p(last) {
        idx := pre + [|s| - 1];
        assert Filter(s, p) == fi + [last];
        forall i | 0 <= i < |idx| ensures idx[i] < |s| && Filter(s, p)[i] == s[idx[i]] {
          if i < |pre| { assert (fi + [last])[i] == fi[i]; }
        }
      } else {
        idx := pre;
        assert Filter(s, p) == fi;
      }
    }
  }

  /** Filtering a list is filtering its two halves. */
  lemma FilterSplit<T(!new)>(s: seq<T>, k: int, p: T -> bool)
    requires 0 <= k <= |s|
    ensures Filter(s, p) == Filter(s[..k], p) + Filter(s[k..], p)
  {
    assert s == s[..k] + s[k..];
    FilterAppend(s[..k], s[k..], p);
  }

  /** Filtering a one-item list. */
  lemma FilterSingle<T(!new)>(x: T, p: T -> bool)
    ensures Filter([x], p) == if p(x) then [x] else []
  {
    assert [x][..0] == [];
  }

  /** Two tests that agree on every item keep the same items. */
  lemma {:induction false} FilterAgree<T(!new)>(s: seq<T>, p: T -> bool, q: T -> bool)
    requires forall x :: x in s ==> (p(x) <==> q(x))
    ensures Filter(s, p) == Filter(s, q)
  {
    if s != [] {
      var init := s[..|s| - 1];
      assert forall x :: x in init ==> x in s;
      FilterAgree(init, p, q);
    }
  }

  /** Filtering by `p` and then by a stricter `q` is filtering by `q`. */
  lemma {:induction false} FilterFilter<T(!new)>(s: seq<T>, p: T -> bool, q: T -> bool)
    requires forall x :: q(x) ==> p(x)
    ensures Filter(Filter(s, p), q) == Filter(s, q)
  {
    if s != [] {
      var init := s[..|s| - 1];
      var last := s[|s| - 1];
      FilterFilter(init, p, q);
      if p(last) {
        FilterAppend(Filter(init, p), [last], q);
        FilterSingle(last, q);
      }
    }
  }

  /** Filtering keeps nothing when no item passes. */
  lemma FilterNone<T(!new)>(s: seq<T>, p: T -> bool)
    requires forall i :: 0 <= i < |s| ==> !p(s[i])
    ensures Filter(s, p) == []
  {
  }

  /** `lstrip()` removes whitespace only. */
  lemma TrimStartKeeps(s: string, q: char -> bool)
    requires forall c :: q(c) ==> !IsSpace(c)
    ensures Filter(TrimStart(s), q) == Filter(s, q)
  {
    var r := TrimStart(s);
    var k := |s| - |r|;
    var pre := s[..k];
    assert forall i :: 0 <= i < |pre| ==> !q(pre[i]) by {
      forall i | 0 <= i < |pre| ensures !q(pre[i]) {
        assert pre[i] == s[i];
      }
    }
    FilterNone(pre, q);
    assert Filter(s, q) == Filter(pre, q) + Filter(r, q) by {
      assert s == pre + r;
      FilterAppend(pre, r, q);
    }
  }

  /** `rstrip()` removes whitespace only. */
  lemma {:induction false} TrimEndKeeps(s: string, q: char -> bool)
    requires forall c :: q(c) ==> !IsSpace(c)
    ensures Filter(TrimEnd(s), q) == Filter(s, q)
    decreases |s|
  {
    if |s| > 0 && IsSpace(s[|s| - 1]) {
      TrimEndKeeps(s[..|s| - 1], q);
    }
  }

  /** `strip()` removes whitespace only: every other character survives, in order. */
  lemma StripKeeps(s: string, q: char -> bool)
    requires forall c :: q(c) ==> !IsSpace(c)
    ensures Filter(Strip(s), q) == Filter(s, q)
  {
    TrimStartKeeps(s, q);
    TrimEndKeeps(TrimStart(s), q);
  }

  /** `s.replace(pat, rep)` touches only the characters of `pat` and `rep`: every
      other character survives, in order. */
  lemma {:induction false} ReplaceAllKeeps(s: string, pat: string, rep: string, q: char -> bool)
    requires |pat| > 0
    requires forall i :: 0 <= i < |pat| ==> !q(pat[i])
    requires forall i :: 0 <= i < |rep| ==> !q(rep[i])
    ensures Filter(ReplaceAll(s, pat, rep), q) == Filter(s, q)
    decreases |s|
  {
    if |s| >= |pat| {
      if s[..|pat|] == pat {
        var rest := s[|pat|..];
        ReplaceAllKeeps(rest, pat, rep, q);
        assert ReplaceAll(s, pat, rep) == rep + ReplaceAll(rest, pat, rep);
        FilterSplit(s, |pat|, q);
        FilterAppend(rep, ReplaceAll(rest, pat, rep), q);
        FilterNone(pat, q);
        FilterNone(rep, q);
      } else {
        var t := s[1..];
        ReplaceAllKeeps(t, pat, rep, q);
        FilterSplit(s, 1, q);
        assert ReplaceAll(s, pat, rep) == s[..1] + ReplaceAll(t, pat, rep);
        FilterAppend(s[..1], ReplaceAll(t, pat, rep), q);
      }
    }
  }

  /** `s.replace(pat, "")` drops only the characters of `pat`: every other
      character survives, in order. */
  lemma {:induction false} RemoveKeeps(s: string, pat: string, q: char -> bool)
    requires |pat| > 0
    requires forall i :: 0 <= i < |pat| ==> !q(pat[i])
    ensures Filter(Remove(s, pat), q) == Filter(s, q)
    decreases |s|
  {
    if |s| >= |pat| {
      if s[..|pat|] == pat {
        var rest := s[|pat|..];
        RemoveKeeps(rest, pat, q);
        FilterSplit(s, |pat|, q);
        FilterNone(pat, q);
      } else {
        var t := s[1..];
        RemoveKeeps(t, pat, q);
        FilterSplit(s, 1, q);
        assert Remove(s, pat) == s[..1] + Remove(t, pat);
        FilterAppend(s[..1], Remove(t, pat), q);
      }
    }
  }

  /** Python's `sum(s)`, adding from left to right. */
  function Sum(s: seq<real>): real {
    if s == [] then 0.0 else Sum(s[..|s| - 1]) + s[|s| - 1]
  }

  lemma {:induction false} SumAppend(s: seq<real>, t: seq<real>)
    ensures Sum(s + t) == Sum(s) + Sum(t)
    decreases |t|
  {
    if t == [] {
      assert s + t == s;
    } else {
      assert (s + t)[..|s + t| - 1] == s + t[..|t| - 1];
      SumAppend(s, t[..|t| - 1]);
    }
  }

  /** `x / total * 100` for every `x`: each item's share of `total`, in percent. */
  function Shares(s: seq<real>, total: real): (r: seq<real>)
    requires total != 0.0
    ensures |r| == |s|
  {
    seq(|s|, i requires 0 <= i < |s| => s[i] / total * 100.0)
  }

  lemma {:induction false} SharesSum(s: seq<real>, total: real)
    requires total != 0.0
    ensures Sum(Shares(s, total)) == Sum(s) / total * 100.0
    decreases |s|
  {
    if s != [] {
      var init := s[..|s| - 1];
      assert Shares(s, total)[..|s| - 1] == Shares(init, total);
      SharesSum(init, total);
      var a, b := Sum(init), s[|s| - 1];
      assert a / total * 100.0 + b / total * 100.0 == (a + b) / total * 100.0;
    }
  }

  /** Shares taken against the sum of the very items they are shares of add up to 100. */
  lemma SharesOfWholeSumTo100(s: seq<real>)
    requires Sum(s) != 0.0
    ensures Sum(Shares(s, Sum(s))) == 100.0
  {
    SharesSum(s, Sum(s));
    assert Sum(s) / Sum(s) == 1.0;
  }

  /** One key of a Python dictionary used as an accumulator, with its running amount. */
  datatype Entry<K> = Entry(key: K, amount: real)

  function Amounts<K>(s: seq<Entry<K>>): (r: seq<real>)
    ensures |r| == |s|
    ensures forall i :: 0 <= i < |s| ==> r[i] == s[i].amount
  {
    seq(|s|, i requires 0 <= i < |s| => s[i].amount)
  }

  predicate HasKey<K(==,!new)>(s: seq<Entry<K>>, k: K) {
    exists i :: 0 <= i < |s| && s[i].key == k
  }

  predicate DistinctKeys<K(==,!new)>(s: seq<Entry<K>>) {
    forall i, j :: 0 <= i < j < |s| ==> s[i].key != s[j].key
  }

  /** One more entry adds its amount to the sum of the amounts. */
  lemma SumAmountsSnoc<K>(d: seq<Entry<K>>, e: Entry<K>)
    ensures Sum(Amounts(d + [e])) == Sum(Amounts(d)) + e.amount
  {
    assert Amounts(d + [e])[..|d|] == Amounts(d);
  }

  function SumFor<K(==,!new)>(s: seq<Entry<K>>, k: K): real {
    if s == [] then 0.0
    else SumFor(s[..|s| - 1], k) + (if s[|s| - 1].key == k then s[|s| - 1].amount else 0.0)
  }

  lemma {:induction false} SumForCons<K(!new)>(x: Entry<K>, t: seq<Entry<K>>, k: K)
    ensures SumFor([x] + t, k) == (if x.key == k then x.amount else 0.0) + SumFor(t, k)
    decreases |t|
  {
    if t != [] {
      assert ([x] + t)[..|t|] == [x] + t[..|t| - 1];
      SumForCons(x, t[..|t| - 1], k);
    }
  }

  lemma HasKeyCons<K(!new)>(x: Entry<K>, t: seq<Entry<K>>, k: K)
    ensures HasKey([x] + t, k) <==> x.key == k || HasKey(t, k)
  {
    var s := [x] + t;
    if HasKey(s, k) && x.key != k {
      var i :| 0 <= i < |s| && s[i].key == k;
      assert t[i - 1].key == k;
    }
    if HasKey(t, k) {
      var i :| 0 <= i < |t| && t[i].key == k;
      assert s[i + 1].key == k;
    }
    assert s[0] == x;
  }

  lemma DistinctCons<K(!new)>(x: Entry<K>, t: seq<Entry<K>>)
    ensures DistinctKeys([x] + t) <==> !HasKey(t, x.key) && DistinctKeys(t)
  {
    var s := [x] + t;
    if DistinctKeys(s) {
      forall i, j | 0 <= i < j < |t| ensures t[i].key != t[j].key {
        assert s[i + 1] == t[i] && s[j + 1] == t[j];
      }
      forall i | 0 <= i < |t| ensures t[i].key != x.key {
        assert s[i + 1] == t[i] && s[0] == x;
      }
    }
    if !HasKey(t, x.key) && DistinctKeys(t) {
      forall i, j | 0 <= i < j < |s| ensures s[i].key != s[j].key {
        if i > 0 {
          assert s[i] == t[i - 1] && s[j] == t[j - 1];
        } else {
          assert s[j] == t[j - 1];
        }
      }
    }
  }

  /** What `d[k] = d.get(k, 0) + v` leaves behind: `r` is `d` with `e` accumulated. */
  ghost predicate Accumulated<K(!new)>(d: seq<Entry<K>>, e: Entry<K>, r: seq<Entry<K>>) {
    && |r| == (if HasKey(d, e.key) then |d| else |d| + 1)
    && (forall k :: HasKey(r, k) <==> HasKey(d, k) || k == e.key)
    && (DistinctKeys(d) ==> DistinctKeys(r))
    && (forall i :: 0 <= i < |d| ==> r[i].key == d[i].key)
    && (!HasKey(d, e.key) ==> r[|d|] == e)
    && (forall k :: SumFor(r, k) == SumFor(d, k) + (if k == e.key then e.amount else 0.0))
  }

  lemma AccumulateEmpty<K(!new)>(e: Entry<K>)
    ensures Accumulated([], e, [e])
  {
    assert SumFor([e], e.key) == SumFor([e][..0], e.key) + e.amount;
    assert [e][0].key == e.key;
  }

  lemma AccumulateAtHead<K(!new)>(d: seq<Entry<K>>, e: Entry<K>)
    requires d != [] && d[0].key == e.key
    ensures Accumulated(d, e, [Entry(e.key, d[0].amount + e.amount)] + d[1..])
  {
    var head, tail := Entry(e.key, d[0].amount + e.amount), d[1..];
    var r := [head] + tail;
    assert d == [d[0]] + tail;
    forall k ensures SumFor(r, k) == SumFor(d, k) + (if k == e.key then e.amount else 0.0) {
      SumForCons(head, tail, k);
      SumForCons(d[0], tail, k);
    }
    forall k ensures HasKey(r, k) <==> HasKey(d, k) || k == e.key {
      HasKeyCons(head, tail, k);
      HasKeyCons(d[0], tail, k);
    }
    assert HasKey(d, e.key);
    DistinctCons(head, tail);
    DistinctCons(d[0], tail);
  }

  lemma AccumulateBehind<K(!new)>(d: seq<Entry<K>>, e: Entry<K>, rest: seq<Entry<K>>)
    requires d != [] && d[0].key != e.key
    requires Accumulated(d[1..], e, rest)
    ensures Accumulated(d, e, [d[0]] + rest)
  {
    var tail := d[1..];
    var r := [d[0]] + rest;
    assert d == [d[0]] + tail;
    forall k ensures SumFor(r, k) == SumFor(d, k) + (if k == e.key then e.amount else 0.0) {
      SumForCons(d[0], rest, k);
      SumForCons(d[0], tail, k);
    }
    forall k ensures HasKey(r, k) <==> HasKey(d, k) || k == e.key {
      HasKeyCons(d[0], rest, k);
      HasKeyCons(d[0], tail, k);
    }
    HasKeyCons(d[0], tail, e.key);
    DistinctCons(d[0], rest);
    DistinctCons(d[0], tail);
  }

  /** `d[k] = d.get(k, 0) + v` on an insertion-ordered dictionary: an existing key
      keeps its place, a new key goes last. */
  function Accumulate<K(==,!new)>(d: seq<Entry<K>>, e: Entry<K>): (r: seq<Entry<K>>)
    ensures |r| == if HasKey(d, e.key) then |d| else |d| + 1
    ensures forall k :: HasKey(r, k) <==> HasKey(d, k) || k == e.key
    ensures DistinctKeys(d) ==> DistinctKeys(r)
    ensures forall i :: 0 <= i < |d| ==> r[i].key == d[i].key
    ensures !HasKey(d, e.key) ==> r[|d|] == e
    ensures forall k :: SumFor(r, k) == SumFor(d, k) + (if k == e.key then e.amount else 0.0)
  {
    if d == [] then
      AccumulateEmpty(e);
      [e]
    else if d[0].key == e.key then
      AccumulateAtHead(d, e);
      [Entry(e.key, d[0].amount + e.amount)] + d[1..]
    else
      var rest := Accumulate(d[1..], e);
      AccumulateBehind(d, e, rest);
      [d[0]] + rest
  }

  /** `groupby(key).sum()` done the dictionary way: one entry per distinct key,
      in order of first appearance, holding the sum of that key's amounts. */
  function GroupSum<K(==,!new)>(s: seq<Entry<K>>): (g: seq<Entry<K>>)
    ensures DistinctKeys(g)
    ensures forall k :: HasKey(g, k) <==> HasKey(s, k)
    ensures forall k :: SumFor(g, k) == SumFor(s, k)
  {
    if s == [] then []
    else
      var init := s[..|s| - 1];
      HasKeyInit(s);
      Accumulate(GroupSum(init), s[|s| - 1])
  }

  /** `dict.fromkeys(ks)`: each key once, in order of first appearance. */
  function FirstSeen<K(==)>(ks: seq<K>): seq<K> {
    if ks == [] then []
    else
      var init := FirstSeen(ks[..|ks| - 1]);
      if ks[|ks| - 1] in init then init else init + [ks[|ks| - 1]]
  }

  /** Accumulating leaves the keys in place and appends a new key. */
  lemma {:induction false} AccumulateKeys<K(!new)>(d: seq<Entry<K>>, e: Entry<K>)
    ensures Keys(Accumulate(d, e)) == if e.key in Keys(d) then Keys(d) else Keys(d) + [e.key]
  {
    var r := Accumulate(d, e);
    KeysHasKey(d, e.key);
    if HasKey(d, e.key) {
      assert forall i :: 0 <= i < |d| ==> Keys(r)[i] == Keys(d)[i];
    } else {
      assert forall i :: 0 <= i < |r| ==> Keys(r)[i] == (Keys(d) + [e.key])[i];
    }
  }

  /** The groups come in order of their keys' first appearance. */
  lemma {:induction false} GroupSumOrder<K(!new)>(s: seq<Entry<K>>)
    ensures Keys(GroupSum(s)) == FirstSeen(Keys(s))
  {
    if s != [] {
      var init := s[..|s| - 1];
      assert Keys(s)[..|s| - 1] == Keys(init);
      GroupSumOrder(init);
      AccumulateKeys(GroupSum(init), s[|s| - 1]);
    }
  }

  /** A key occurs in a non-empty list exactly when it occurs before the last
      entry or is the last entry's. */
  lemma HasKeyInit<K(!new)>(s: seq<Entry<K>>)
    requires s != []
    ensures forall k :: HasKey(s, k) <==> HasKey(s[..|s| - 1], k) || k == s[|s| - 1].key
  {
    var init := s[..|s| - 1];
    forall k | HasKey(s, k) ensures HasKey(init, k) || k == s[|s| - 1].key {
      var i :| 0 <= i < |s| && s[i].key == k;
      if i < |s| - 1 { assert init[i].key == k; }
    }
    forall k | HasKey(init, k) ensures HasKey(s, k) {
      var i :| 0 <= i < |init| && init[i].key == k;
      assert s[i].key == k;
    }
  }

  /** In a dictionary with distinct keys, the sum under a present key is its one amount. */
  lemma {:induction false} SumForDistinct<K(!new)>(d: seq<Entry<K>>, i: int)
    requires DistinctKeys(d) && 0 <= i < |d|
    ensures SumFor(d, d[i].key) == d[i].amount
    decreases |d|
  {
    var init := d[..|d| - 1];
    if i == |d| - 1 {
      SumForAbsent(init, d[i].key);
    } else {
      SumForDistinct(init, i);
    }
  }

  lemma {:induction false} SumForAbsent<K(!new)>(d: seq<Entry<K>>, k: K)
    requires !HasKey(d, k)
    ensures SumFor(d, k) == 0.0
    decreases |d|
  {
    if d != [] {
      var init := d[..|d| - 1];
      assert !HasKey(init, k) by {
        forall j | 0 <= j < |init| ensures init[j].key != k {
          assert init[j] == d[j];
        }
      }
      SumForAbsent(init, k);
    }
  }

  /** One more pair is accumulated into the groups of the pairs before it. */
  lemma GroupSumSnoc<K(!new)>(s: seq<Entry<K>>, e: Entry<K>)
    ensures GroupSum(s + [e]) == Accumulate(GroupSum(s), e)
  {
    assert (s + [e])[..|s|] == s;
  }

  /** Each group's amount is the sum of its key's amounts in the input. */
  lemma GroupSumAmounts<K(!new)>(s: seq<Entry<K>>)
    ensures forall i :: 0 <= i < |GroupSum(s)| ==> GroupSum(s)[i].amount == SumFor(s, GroupSum(s)[i].key)
  {
    var g := GroupSum(s);
    forall i | 0 <= i < |g| ensures g[i].amount == SumFor(s, g[i].key) {
      SumForDistinct(g, i);
    }
  }

  lemma SumCons(a: real, t: seq<real>)
    ensures Sum([a] + t) == a + Sum(t)
  {
    SumAppend([a], t);
    assert Sum([a]) == Sum([]) + a;
  }

  /** Ordered by `key`, smallest first. */
  predicate SortedBy<T>(s: seq<T>, key: T -> real) {
    forall i, j :: 0 <= i < j < |s| ==> key(s[i]) <= key(s[j])
  }

  /** An item no larger than a sorted run's head may go in front of it. */
  lemma SortedByFront<T>(x: T, s: seq<T>, key: T -> real)
    requires SortedBy(s, key)
    requires forall j :: 0 <= j < |s| ==> key(x) <= key(s[j])
    ensures SortedBy([x] + s, key)
  {
    var r := [x] + s;
    forall i, j | 0 <= i < j < |r| ensures key(r[i]) <= key(r[j]) {
      if i > 0 { assert r[i] == s[i - 1] && r[j] == s[j - 1]; }
      else { assert r[j] == s[j - 1]; }
    }
  }

  lemma InsertByBehind<T>(x: T, s: seq<T>, key: T -> real, rest: seq<T>)
    requires s != [] && SortedBy(s, key) && key(s[0]) <= key(x)
    requires SortedBy(rest, key) && multiset(rest) == multiset(s[1..]) + multiset{x}
    ensures SortedBy([s[0]] + rest, key)
    ensures multiset([s[0]] + rest) == multiset(s) + multiset{x}
  {
    forall j | 0 <= j < |rest| ensures key(s[0]) <= key(rest[j]) {
      var y := rest[j];
      assert y in multiset(rest);
      assert y in multiset(s[1..]) || y == x;
      if y != x {
        var m :| 0 <= m < |s[1..]| && s[1..][m] == y;
        assert s[m + 1] == y;
      }
    }
    SortedByFront(s[0], rest, key);
    assert s == [s[0]] + s[1..];
  }

  function InsertBy<T>(x: T, s: seq<T>, key: T -> real): (r: seq<T>)
    requires SortedBy(s, key)
    ensures SortedBy(r, key)
    ensures multiset(r) == multiset(s) + multiset{x}
  {
    if s == [] then [x]
    else if key(x) < key(s[0]) then
      SortedByFront(x, s, key);
      [x] + s
    else
      var rest := InsertBy(x, s[1..], key);
      InsertByBehind(x, s, key, rest);
      [s[0]] + rest
  }

  /** Python's stable `sorted(s, key=key)`. A descending sort is this sort on the
      negated key, which keeps equal items in input order as `reverse=True` does. */
  function SortBy<T>(s: seq<T>, key: T -> real): (r: seq<T>)
    ensures SortedBy(r, key)
    ensures multiset(r) == multiset(s)
    ensures |r| == |s|
  {
    if s == [] then []
    else
      var r := InsertBy(s[|s| - 1], SortBy(s[..|s| - 1], key), key);
      assert s == s[..|s| - 1] + [s[|s| - 1]];
      assert |multiset(r)| == |multiset(s)|;
      r
  }

  /** The test "the key is `v`". */
  function KeyIs<T>(key: T -> real, v: real): T -> bool {
    (x: T) => key(x) == v
  }

  /** An item in front of a run holding nothing that passes the test goes last
      among the kept items. */
  lemma {:induction false} FilterFront<T(!new)>(x: T, s: seq<T>, p: T -> bool)
    requires p(x) ==> forall i :: 0 <= i < |s| ==> !p(s[i])
    ensures Filter([x] + s, p) == Filter(s, p) + Filter([x], p)
  {
    FilterAppend([x], s, p);
    FilterSingle(x, p);
    if p(x) {
      FilterNone(s, p);
    }
  }

  lemma {:induction false} FilterBehind<T(!new)>(y: T, rest: seq<T>, t: seq<T>, fx: seq<T>, p: T -> bool)
    requires Filter(rest, p) == Filter(t, p) + fx
    ensures Filter([y] + rest, p) == Filter([y] + t, p) + fx
  {
    FilterAppend([y], rest, p);
    FilterAppend([y], t, p);
    Regroup(Filter([y] + rest, p), Filter([y], p), Filter(rest, p), Filter(t, p), fx);
  }

  /** Concatenation regrouped, stated over plain sequences. */
  lemma Regroup<T>(whole: seq<T>, front: seq<T>, back: seq<T>, mid: seq<T>, tail: seq<T>)
    requires whole == front + back && back == mid + tail
    ensures whole == (front + mid) + tail
  {
  }

  /** Inserting keeps the items of one key in order, with the new one last. */
  lemma {:induction false} InsertByStable<T(!new)>(x: T, s: seq<T>, key: T -> real, v: real)
    requires SortedBy(s, key)
    ensures Filter(InsertBy(x, s, key), KeyIs(key, v)) == Filter(s, KeyIs(key, v)) + Filter([x], KeyIs(key, v))
    decreases |s|
  {
    var p := KeyIs(key, v);
    if s == [] {
      assert InsertBy(x, s, key) == [] + [x];
      FilterAppend([], [x], p);
    } else if key(x) < key(s[0]) {
      assert InsertBy(x, s, key) == [x] + s;
      forall i | 0 <= i < |s| ensures key(x) < key(s[i]) {
        assert key(s[0]) <= key(s[i]);
      }
      FilterFront(x, s, p);
    } else {
      assert [s[0]] + s[1..] == s;
      var rest := InsertBy(x, s[1..], key);
      assert InsertBy(x, s, key) == [s[0]] + rest;
      InsertByStable(x, s[1..], key, v);
      FilterBehind(s[0], rest, s[1..], Filter([x], p), p);
    }
  }



  /** The sort is stable: the items of any one key come out in input order. */
  lemma {:induction false} SortByStable<T(!new)>(s: seq<T>, key: T -> real, v: real)
    ensures Filter(SortBy(s, key), KeyIs(key, v)) == Filter(s, KeyIs(key, v))
  {
    if s != [] {
      var init, last := s[..|s| - 1], s[|s| - 1];
      assert s == init + [last];
      var sorted := SortBy(init, key);
      assert SortBy(s, key) == InsertBy(last, sorted, key);
      SortByStable(init, key, v);
      InsertByStable(last, sorted, key, v);
      FilterAppend(init, [last], KeyIs(key, v));
    }
  }

  /** The same, for any test that holds exactly when the key is `v`. */
  lemma {:induction false} SortByStableAs<T(!new)>(s: seq<T>, key: T -> real, v: real, p: T -> bool)
    requires forall x :: p(x) == (key(x) == v)
    ensures Filter(SortBy(s, key), p) == Filter(s, p)
  {
    var q, sorted := KeyIs(key, v), SortBy(s, key);
    SortByStable(s, key, v);
    FilterAgree(sorted, p, q);
    FilterAgree(s, p, q);
  }

  /** The test "the amount is `v`". */
  function AmountIs<K>(v: real): Entry<K> -> bool {
    (e: Entry<K>) => e.amount == v
  }

  /** Entries with equal amounts keep their input order through the descending sort. */
  lemma {:induction false} DescendingStable<K(!new)>(s: seq<Entry<K>>, v: real)
    ensures Filter(Descending(s), AmountIs(v)) == Filter(s, AmountIs(v))
  {
    assert Descending(s) == SortBy(s, NegAmount);
    SortByStableAs(s, NegAmount, -v, AmountIs(v));
  }

  /** `sorted(…, reverse=True)[:n]` ties: the kept entries of any one amount are
      the first of that amount in input order. */
  lemma {:induction false} TopTies<K(!new)>(g: seq<Entry<K>>, n: int, v: real)
    ensures Filter(Take(Descending(g), n), AmountIs(v)) <= Filter(g, AmountIs(v))
  {
    var p := AmountIs(v);
    var d := Descending(g);
    var top := Take(d, n);
    assert top == d[..|top|];
    FilterSplit(d, |top|, p);
    DescendingStable(g, v);
    PrefixOf(Filter(g, p), Filter(top, p), Filter(d[|top|..], p));
  }

  /** A front part is a prefix of the whole. */
  lemma PrefixOf<T>(whole: seq<T>, front: seq<T>, back: seq<T>)
    requires whole == front + back
    ensures front <= whole
  {
  }

  /** Python's `max(s)`. */
  function Max(s: seq<int>): (m: int)
    requires |s| > 0
    ensures m in s
    ensures forall x :: x in s ==> x <= m
  {
    if |s| == 1 then s[0]
    else
      var m := Max(s[1..]);
      assert forall x :: x in s ==> x == s[0] || x in s[1..];
      if s[0] > m then s[0] else m
  }

  /** Strictly increasing in Python's string order. */
  predicate StrictlySorted(s: seq<string>) {
    forall i, j :: 0 <= i < j < |s| ==> Less(s[i], s[j])
  }

  function InsertUnique(x: string, s: seq<string>): (r: seq<string>)
    requires StrictlySorted(s)
    ensures StrictlySorted(r)
    ensures forall y :: y in r <==> y in s || y == x
  {
    if s == [] then [x]
    else if x == s[0] then s
    else if Less(x, s[0]) then
      BelowHead(x, s);
      ConsSorted(x, s);
      [x] + s
    else
      LessTotal(x, s[0]);
      var rest := InsertUnique(x, s[1..]);
      assert forall y :: y in s ==> y == s[0] || y in s[1..];
      assert forall j :: 0 <= j < |rest| ==> Less(s[0], rest[j]) by {
        forall j | 0 <= j < |rest| ensures Less(s[0], rest[j]) {
          var y := rest[j];
          assert y in rest;
          if y != x {
            var m :| 0 <= m < |s[1..]| && s[1..][m] == y;
            assert s[m + 1] == y;
          }
        }
      }
      ConsSorted(s[0], rest);
      [s[0]] + rest
  }

  /** Below the head of a strictly sorted sequence is below all of it. */
  lemma BelowHead(x: string, s: seq<string>)
    requires StrictlySorted(s) && |s| > 0 && Less(x, s[0])
    ensures forall j :: 0 <= j < |s| ==> Less(x, s[j])
  {
    forall j | 0 <= j < |s| ensures Less(x, s[j]) {
      if j > 0 { LessTransitive(x, s[0], s[j]); }
    }
  }

  /** An element below all of a strictly sorted sequence may go in front of it. */
  lemma ConsSorted(x: string, t: seq<string>)
    requires StrictlySorted(t) && forall j :: 0 <= j < |t| ==> Less(x, t[j])
    ensures StrictlySorted([x] + t)
  {
    var r := [x] + t;
    forall i, j | 0 <= i < j < |r| ensures Less(r[i], r[j]) {
      if i > 0 { assert r[i] == t[i - 1] && r[j] == t[j - 1]; }
      else { assert r[j] == t[j - 1]; }
    }
  }

  /** Python's `sorted(set(s))`. */
  function SortedUnique(s: seq<string>): (r: seq<string>)
    ensures StrictlySorted(r)
    ensures forall y :: y in r <==> y in s
  {
    if s == [] then []
    else
      assert forall y :: y in s ==> y in s[..|s| - 1] || y == s[|s| - 1];
      InsertUnique(s[|s| - 1], SortedUnique(s[..|s| - 1]))
  }

  /** A strictly sorted sequence repeats nothing. */
  lemma StrictlySortedDistinct(s: seq<string>)
    requires StrictlySorted(s)
    ensures forall i, j :: 0 <= i < j < |s| ==> s[i] != s[j]
  {
    forall i, j | 0 <= i < j < |s| ensures s[i] != s[j] {
      LessIrreflexive(s[i]);
    }
  }

  function ModeAmong(s: seq<string>, cands: seq<string>): (m: string)
    requires |cands| > 0
    ensures m in cands
    ensures forall x :: x in cands ==> multiset(s)[x] <= multiset(s)[m]
    ensures forall x :: x in cands && x != m && multiset(s)[x] == multiset(s)[m] ==> Less(m, x)
  {
    if |cands| == 1 then cands[0]
    else
      var b := ModeAmong(s, cands[1..]);
      var c := cands[0];
      assert forall x :: x in cands ==> x == c || x in cands[1..];
      if multiset(s)[c] > multiset(s)[b] || (multiset(s)[c] == multiset(s)[b] && Less(c, b)) then
        assert forall x :: x in cands[1..] && x != c && multiset(s)[x] == multiset(s)[c] ==> Less(c, x) by {
          forall x | x in cands[1..] && x != c && multiset(s)[x] == multiset(s)[c]
            ensures Less(c, x)
          {
            if x != b { LessTransitive(c, b, x); }
          }
        }
        c
      else
        assert c != b && multiset(s)[c] == multiset(s)[b] ==> Less(b, c) by {
          if c != b && multiset(s)[c] == multiset(s)[b] { LessTotal(c, b); }
        }
        b
  }

  /** `Series.mode().iloc[0]`: the most frequent value; pandas returns the modes
      sorted, so among equally frequent values the smallest string wins. */
  function Mode(s: seq<string>): (m: string)
    requires |s| > 0
    ensures m in s
    ensures forall x :: x in s ==> multiset(s)[x] <= multiset(s)[m]
    ensures forall x :: x in s && x != m && multiset(s)[x] == multiset(s)[m] ==> Less(m, x)
  {
    ModeAmong(s, s)
  }

  /** `[x for x in s if p(x)]` keeps everything when every item passes. */
  lemma {:induction false} FilterAll<T(!new)>(s: seq<T>, p: T -> bool)
    requires forall x :: x in s ==> p(x)
    ensures Filter(s, p) == s
  {
    if s != [] {
      var init := s[..|s| - 1];
      assert forall x :: x in init ==> x in s;
      FilterAll(init, p);
      assert s == init + [s[|s| - 1]];
    }
  }

  /** The keys of a list of entries, in order. */
  function Keys<K>(s: seq<Entry<K>>): (r: seq<K>)
    ensures |r| == |s|
    ensures forall i :: 0 <= i < |s| ==> r[i] == s[i].key
  {
    seq(|s|, i requires 0 <= i < |s| => s[i].key)
  }

  lemma KeysHasKey<K(!new)>(s: seq<Entry<K>>, k: K)
    ensures k in Keys(s) <==> HasKey(s, k)
  {
    if HasKey(s, k) {
      var i :| 0 <= i < |s| && s[i].key == k;
      assert Keys(s)[i] == k;
    }
  }

  /** pandas' `groupby(key).sum()` on string keys: one entry per distinct key,
      keys in ascending order, each holding the sum of its key's amounts. */
  function GroupBy(s: seq<Entry<string>>): (g: seq<Entry<string>>)
    ensures StrictlySorted(Keys(g))
    ensures DistinctKeys(g)
    ensures forall k :: HasKey(g, k) <==> HasKey(s, k)
    ensures forall i :: 0 <= i < |g| ==> g[i].amount == SumFor(s, g[i].key)
  {
    var keys := SortedUnique(Keys(s));
    var g := seq(|keys|, i requires 0 <= i < |keys| => Entry(keys[i], SumFor(s, keys[i])));
    assert Keys(g) == keys;
    StrictlySortedDistinct(keys);
    forall k ensures HasKey(g, k) <==> HasKey(s, k) {
      KeysHasKey(g, k);
      KeysHasKey(s, k);
    }
    g
  }

  /** Strictly increasing. */
  predicate Increasing(s: seq<int>) {
    forall i, j :: 0 <= i < j < |s| ==> s[i] < s[j]
  }

  lemma InsertIntBehind(x: int, s: seq<int>, rest: seq<int>)
    requires s != [] && Increasing(s) && s[0] < x
    requires Increasing(rest) && forall y :: y in rest <==> y in s[1..] || y == x
    ensures Increasing([s[0]] + rest)
    ensures forall y :: y in [s[0]] + rest <==> y in s || y == x
  {
    assert forall y :: y in s ==> y == s[0] || y in s[1..];
    var r := [s[0]] + rest;
    forall i, j | 0 <= i < j < |r| ensures r[i] < r[j] {
      assert r[j] == rest[j - 1];
      assert r[j] in rest;
      if i > 0 { assert r[i] == rest[i - 1]; }
    }
  }

  function InsertInt(x: int, s: seq<int>): (r: seq<int>)
    requires Increasing(s)
    ensures Increasing(r)
    ensures forall y :: y in r <==> y in s || y == x
  {
    if s == [] then [x]
    else if x == s[0] then s
    else if x < s[0] then [x] + s
    else
      var rest := InsertInt(x, s[1..]);
      InsertIntBehind(x, s, rest);
      [s[0]] + rest
  }

  /** Python's `sorted(set(s))` on integers. */
  function SortedUniqueInts(s: seq<int>): (r: seq<int>)
    ensures Increasing(r)
    ensures forall y :: y in r <==> y in s
  {
    if s == [] then []
    else
      assert forall y :: y in s ==> y in s[..|s| - 1] || y == s[|s| - 1];
      InsertInt(s[|s| - 1], SortedUniqueInts(s[..|s| - 1]))
  }

  /** pandas' `groupby(key).sum()` on integer keys, keys ascending. */
  function GroupByInt(s: seq<Entry<int>>): (g: seq<Entry<int>>)
    ensures Increasing(Keys(g))
    ensures forall k :: HasKey(g, k) <==> HasKey(s, k)
    ensures forall i :: 0 <= i < |g| ==> g[i].amount == SumFor(s, g[i].key)
  {
    var keys := SortedUniqueInts(Keys(s));
    var g := seq(|keys|, i requires 0 <= i < |keys| => Entry(keys[i], SumFor(s, keys[i])));
    assert Keys(g) == keys;
    forall k ensures HasKey(g, k) <==> HasKey(s, k) {
      KeysHasKey(g, k);
      KeysHasKey(s, k);
    }
    g
  }

  /** A list with distinct keys holds each entry at most once. */
  lemma {:induction false} DistinctAtMostOnce<K(!new)>(a: seq<Entry<K>>, x: Entry<K>)
    requires DistinctKeys(a)
    ensures multiset(a)[x] <= 1
    decreases |a|
  {
    if a != [] {
      var init := a[..|a| - 1];
      var last := a[|a| - 1];
      assert a == init + [last];
      DistinctAtMostOnce(init, x);
      if x == last {
        forall i | 0 <= i < |init| ensures init[i] != x {
          assert a[i] == init[i];
        }
      }
    }
  }

  /** Reordering a list keeps its keys distinct. */
  lemma DistinctKeysPerm<K(!new)>(a: seq<Entry<K>>, b: seq<Entry<K>>)
    requires multiset(a) == multiset(b) && DistinctKeys(a)
    ensures DistinctKeys(b)
  {
    forall i, j | 0 <= i < j < |b| ensures b[i].key != b[j].key {
      if b[i].key == b[j].key {
        assert b[i] in multiset(b) && b[j] in multiset(b);
        var p :| 0 <= p < |a| && a[p] == b[i];
        var q :| 0 <= q < |a| && a[q] == b[j];
        if p == q {
          assert b == b[..j] + b[j..];
          assert b[..j][i] == b[i] && b[j..][0] == b[i];
          assert multiset(b)[b[i]] >= 2;
          DistinctAtMostOnce(a, b[i]);
        }
      }
    }
  }

  /** No two items of the list share a key. */
  predicate DistinctBy<T, K(==)>(s: seq<T>, key: T -> K) {
    forall i, j :: 0 <= i < j < |s| ==> key(s[i]) != key(s[j])
  }

  /** A list whose items have distinct keys holds each item at most once. */
  lemma {:induction false} AtMostOnceBy<T, K>(a: seq<T>, key: T -> K, x: T)
    requires DistinctBy(a, key)
    ensures multiset(a)[x] <= 1
    decreases |a|
  {
    if a != [] {
      var init := a[..|a| - 1];
      assert a == init + [a[|a| - 1]];
      AtMostOnceBy(init, key, x);
      if x == a[|a| - 1] {
        forall i | 0 <= i < |init| ensures init[i] != x {
          assert a[i] == init[i];
        }
      }
    }
  }

  /** Reordering a list keeps its items' keys distinct. */
  lemma DistinctByPerm<T, K>(a: seq<T>, b: seq<T>, key: T -> K)
    requires multiset(a) == multiset(b) && DistinctBy(a, key)
    ensures DistinctBy(b, key)
  {
    forall i, j | 0 <= i < j < |b| ensures key(b[i]) != key(b[j]) {
      if key(b[i]) == key(b[j]) {
        assert b[i] in multiset(b) && b[j] in multiset(b);
        var p :| 0 <= p < |a| && a[p] == b[i];
        var q :| 0 <= q < |a| && a[q] == b[j];
        if p == q {
          assert b == b[..j] + b[j..];
          assert b[..j][i] == b[i] && b[j..][0] == b[i];
          assert multiset(b)[b[i]] >= 2;
          AtMostOnceBy(a, key, b[i]);
        }
      }
    }
  }

  /** Reordering a list keeps its set of keys. */
  lemma HasKeyPerm<K(!new)>(a: seq<Entry<K>>, b: seq<Entry<K>>, k: K)
    requires multiset(a) == multiset(b)
    ensures HasKey(a, k) <==> HasKey(b, k)
  {
    if HasKey(a, k) {
      var i :| 0 <= i < |a| && a[i].key == k;
      assert a[i] in multiset(b);
      var j :| 0 <= j < |b| && b[j] == a[i];
    }
    if HasKey(b, k) {
      var i :| 0 <= i < |b| && b[i].key == k;
      assert b[i] in multiset(a);
      var j :| 0 <= j < |a| && a[j] == b[i];
    }
  }

  /** Keeping some entries of a list with distinct keys keeps them distinct. */
  lemma {:induction false} FilterDistinct<K(!new)>(s: seq<Entry<K>>, p: Entry<K> -> bool)
    requires DistinctKeys(s)
    ensures DistinctKeys(Filter(s, p))
  {
    if s != [] {
      var init := s[..|s| - 1];
      var last := s[|s| - 1];
      var f := Filter(init, p);
      FilterDistinct(init, p);
      if p(last) {
        var r := f + [last];
        forall i, j | 0 <= i < j < |r| ensures r[i].key != r[j].key {
          if j == |f| {
            assert f[i] in init;
            var m :| 0 <= m < |init| && init[m] == f[i];
            assert s[m] == f[i];
          }
        }
      }
    }
  }

  /** The keys a filter keeps are the keys of the entries that pass it. */
  lemma FilterHasKey<K(!new)>(s: seq<Entry<K>>, p: Entry<K> -> bool, k: K)
    ensures HasKey(Filter(s, p), k) <==> exists i :: 0 <= i < |s| && s[i].key == k && p(s[i])
  {
    var f := Filter(s, p);
    if HasKey(f, k) {
      var i :| 0 <= i < |f| && f[i].key == k;
      assert f[i] in s;
      var j :| 0 <= j < |s| && s[j] == f[i];
    }
    if exists i :: 0 <= i < |s| && s[i].key == k && p(s[i]) {
      var i :| 0 <= i < |s| && s[i].key == k && p(s[i]);
      assert s[i] in f;
      var j :| 0 <= j < |f| && f[j] == s[i];
    }
  }

  function NegAmount<K>(e: Entry<K>): real { -e.amount }

  /** `sort_values(amount, ascending=False)`: the same entries, largest amount first. */
  function Descending<K>(s: seq<Entry<K>>): (r: seq<Entry<K>>)
    ensures multiset(r) == multiset(s) && |r| == |s|
    ensures forall i, j :: 0 <= i < j < |r| ==> r[i].amount >= r[j].amount
  {
    var r := SortBy(s, NegAmount);
    assert forall i, j :: 0 <= i < j < |r| ==> NegAmount(r[i]) <= NegAmount(r[j]);
    r
  }

  /** `groupby(key).sum().sort_values(ascending=False).head(n)`: each kept key
      holds the sum of its amounts, the keys are distinct and in descending order
      of their sums, and no key left out has a larger sum than a kept one. */
  lemma TopOfGroups(s: seq<Entry<string>>, n: int)
    ensures var top := Take(Descending(GroupBy(s)), n);
            (n >= 0 ==> |top| <= n)
            && (forall i, j :: 0 <= i < j < |top| ==> top[i].amount >= top[j].amount)
            && (forall i :: 0 <= i < |top| ==> HasKey(s, top[i].key) && top[i].amount == SumFor(s, top[i].key))
            && DistinctKeys(top)
            && (n >= 0 ==> |top| == n || forall k :: HasKey(s, k) ==> HasKey(top, k))
            && (forall k :: HasKey(s, k) && !HasKey(top, k) ==>
                  forall i :: 0 <= i < |top| ==> SumFor(s, k) <= top[i].amount)
  {
    var g := GroupBy(s);
    GroupsKept(s, g, n);
    GroupsLeft(s, g, n);
  }

  /** The same for `groupby(key).sum()` in first-appearance order. */
  lemma TopOfSums<K(!new)>(s: seq<Entry<K>>, n: int)
    ensures var top := Take(Descending(GroupSum(s)), n);
            (n >= 0 ==> |top| <= n)
            && (forall i, j :: 0 <= i < j < |top| ==> top[i].amount >= top[j].amount)
            && (forall i :: 0 <= i < |top| ==> HasKey(s, top[i].key) && top[i].amount == SumFor(s, top[i].key))
            && DistinctKeys(top)
            && (n >= 0 ==> |top| == n || forall k :: HasKey(s, k) ==> HasKey(top, k))
            && (forall k :: HasKey(s, k) && !HasKey(top, k) ==>
                  forall i :: 0 <= i < |top| ==> SumFor(s, k) <= top[i].amount)
  {
    var g := GroupSum(s);
    forall i | 0 <= i < |g| ensures g[i].amount == SumFor(s, g[i].key) {
      SumForDistinct(g, i);
    }
    GroupsKept(s, g, n);
    GroupsLeft(s, g, n);
  }

  /** Each group kept holds the sum of its key's amounts. */
  lemma GroupsKept<K(!new)>(s: seq<Entry<K>>, g: seq<Entry<K>>, n: int)
    requires forall k :: HasKey(g, k) <==> HasKey(s, k)
    requires forall i :: 0 <= i < |g| ==> g[i].amount == SumFor(s, g[i].key)
    ensures var top := Take(Descending(g), n);
            forall i :: 0 <= i < |top| ==> HasKey(s, top[i].key) && top[i].amount == SumFor(s, top[i].key)
  {
    var d := Descending(g);
    var top := Take(d, n);
    forall i | 0 <= i < |top|
      ensures HasKey(s, top[i].key) && top[i].amount == SumFor(s, top[i].key)
    {
      assert top[i] == d[i];
      assert d[i] in multiset(g);
      var m :| 0 <= m < |g| && g[m] == d[i];
      assert HasKey(g, d[i].key);
    }
  }

  /** The groups kept are distinct, and each one left out weighs no more than any kept. */
  lemma GroupsLeft<K(!new)>(s: seq<Entry<K>>, g: seq<Entry<K>>, n: int)
    requires DistinctKeys(g)
    requires forall k :: HasKey(g, k) <==> HasKey(s, k)
    requires forall i :: 0 <= i < |g| ==> g[i].amount == SumFor(s, g[i].key)
    ensures var top := Take(Descending(g), n);
            (n >= 0 ==> |top| <= n)
            && (forall i, j :: 0 <= i < j < |top| ==> top[i].amount >= top[j].amount)
            && DistinctKeys(top)
            && (n >= 0 ==> |top| == n || forall k :: HasKey(s, k) ==> HasKey(top, k))
            && (forall k :: HasKey(s, k) && !HasKey(top, k) ==>
                  forall i :: 0 <= i < |top| ==> SumFor(s, k) <= top[i].amount)
  {
    var top := Take(Descending(g), n);
    TopOfDescending(g, n);
    forall k | HasKey(s, k)
      ensures n >= |g| ==> HasKey(top, k)
      ensures !HasKey(top, k) ==> forall i :: 0 <= i < |top| ==> SumFor(s, k) <= top[i].amount
    {
      var m :| 0 <= m < |g| && g[m].key == k;
      assert g[m] in g;
      if n >= |g| {
        HasKeyPerm(g, top, k);
      }
    }
  }

  /** `sort_values(ascending=False).head(n)` over entries with distinct keys: the
      kept entries are distinct entries of the input, `n` of them when there are
      that many, and no entry left out outweighs any kept one. */
  lemma TopOfDescending<K(!new)>(s: seq<Entry<K>>, n: int)
    requires DistinctKeys(s)
    ensures var r := Take(Descending(s), n);
      && DistinctKeys(r)
      && (forall e :: e in r ==> e in s)
      && (n >= 0 ==> |r| == if n < |s| then n else |s|)
      && (n >= |s| ==> multiset(r) == multiset(s))
      && (forall e :: e in s && !HasKey(r, e.key) ==> forall i :: 0 <= i < |r| ==> e.amount <= r[i].amount)
  {
    TopOfSorted(s, Descending(s), n);
  }

  /** The first `n` of a descending permutation of `s`. */
  lemma TopOfSorted<K(!new)>(s: seq<Entry<K>>, d: seq<Entry<K>>, n: int)
    requires DistinctKeys(s) && multiset(d) == multiset(s) && |d| == |s|
    requires forall i, j :: 0 <= i < j < |d| ==> d[i].amount >= d[j].amount
    ensures var r := Take(d, n);
      && DistinctKeys(r)
      && (forall e :: e in r ==> e in s)
      && (n >= 0 ==> |r| == if n < |s| then n else |s|)
      && (n >= |s| ==> multiset(r) == multiset(s))
      && (forall e :: e in s && !HasKey(r, e.key) ==> forall i :: 0 <= i < |r| ==> e.amount <= r[i].amount)
  {
    var r := Take(d, n);
    assert DistinctKeys(r) by {
      DistinctKeysPerm(s, d);
    }
    assert n >= |s| ==> multiset(r) == multiset(s) by {
      if n >= |s| { assert r == d; }
    }
    assert forall e :: e in r ==> e in s by {
      forall e | e in r ensures e in s {
        assert e in multiset(d);
      }
    }
    forall e | e in s && !HasKey(r, e.key) ensures forall i :: 0 <= i < |r| ==> e.amount <= r[i].amount {
      assert e in multiset(d);
      PrefixOutweighed(d, |r|, e);
    }
  }

  /** An entry of a descending sequence outside its first `m` weighs no more
      than any of them. */
  lemma PrefixOutweighed<K(!new)>(d: seq<Entry<K>>, m: nat, e: Entry<K>)
    requires forall i, j :: 0 <= i < j < |d| ==> d[i].amount >= d[j].amount
    requires m <= |d| && e in d && !HasKey(d[..m], e.key)
    ensures forall i :: 0 <= i < m ==> e.amount <= d[i].amount
  {
    forall i | 0 <= i < m ensures d[i] != e {
      assert d[..m][i] == d[i];
    }
    var j :| 0 <= j < |d| && d[j] == e;
  }
}
