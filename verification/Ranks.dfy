/** `_average_ranks` and `spearman` of evals/_shared/metrics.py, over the reals. */
module Ranks {
  import opened Outcomes
  import opened Digests

  // ---------- the rank of a value ----------

  function Less(s: seq<real>, v: real): nat {
    if s == [] then 0 else (if s[0] < v then 1 else 0) + Less(s[1..], v)
  }

  function Same(s: seq<real>, v: real): nat {
    if s == [] then 0 else (if s[0] == v then 1 else 0) + Same(s[1..], v)
  }

  /** Number smaller, and the middle of the places that equal values share. */
  function Rank(s: seq<real>, v: real): real {
    Less(s, v) as real + (Same(s, v) as real + 1.0) / 2.0
  }

  function RanksOf(s: seq<real>): (r: seq<real>)
    ensures |r| == |s|
  {
    Map((v: real) => Rank(s, v), s)
  }

  lemma {:induction false} CountsAdd(a: seq<real>, b: seq<real>, v: real)
    ensures Less(a + b, v) == Less(a, v) + Less(b, v)
    ensures Same(a + b, v) == Same(a, v) + Same(b, v)
  {
    if a == [] {
      assert a + b == b;
    } else {
      assert (a + b)[1..] == a[1..] + b;
      CountsAdd(a[1..], b, v);
    }
  }

  lemma CountsWithout(b: seq<real>, j: nat, v: real)
    requires j < |b|
    ensures Less(b, v) == Less(b[..j] + b[j + 1..], v) + if b[j] < v then 1 else 0
    ensures Same(b, v) == Same(b[..j] + b[j + 1..], v) + if b[j] == v then 1 else 0
  {
    var low, high := b[..j], b[j + 1..];
    CountsAdd(low, high, v);
    CountsAdd(low, [b[j]] + high, v);
    assert b == low + ([b[j]] + high);
    assert ([b[j]] + high)[1..] == high;
  }

  lemma {:induction false} CountsPermute(a: seq<real>, b: seq<real>, v: real)
    requires multiset(a) == multiset(b)
    ensures Less(a, v) == Less(b, v) && Same(a, v) == Same(b, v)
    decreases |a|
  {
    SameLength(a, b);
    if a != [] {
      assert a[0] in multiset(b);
      var j :| 0 <= j < |b| && b[j] == a[0];
      var rest := b[..j] + b[j + 1..];
      assert multiset(a[1..]) == multiset(rest) by {
        Without(a, 0);
        Without(b, j);
      }
      CountsPermute(a[1..], rest, v);
      CountsWithout(b, j, v);
    }
  }

  lemma {:induction false} CountsBelow(s: seq<real>, v: real)
    requires forall i :: 0 <= i < |s| ==> s[i] < v
    ensures Less(s, v) == |s| && Same(s, v) == 0
  {
    if s != [] { CountsBelow(s[1..], v); }
  }

  lemma {:induction false} CountsEqual(s: seq<real>, v: real)
    requires forall i :: 0 <= i < |s| ==> s[i] == v
    ensures Less(s, v) == 0 && Same(s, v) == |s|
  {
    if s != [] { CountsEqual(s[1..], v); }
  }

  lemma {:induction false} CountsAbove(s: seq<real>, v: real)
    requires forall i :: 0 <= i < |s| ==> s[i] > v
    ensures Less(s, v) == 0 && Same(s, v) == 0
  {
    if s != [] { CountsAbove(s[1..], v); }
  }

  // ---------- sorting the indices ----------

  predicate Indices(s: seq<nat>, n: nat) {
    forall k :: 0 <= k < |s| ==> s[k] < n
  }

  predicate AscendingBy(values: seq<real>, s: seq<nat>)
    requires Indices(s, |values|)
  {
    forall i, j :: 0 <= i < j < |s| ==> values[s[i]] <= values[s[j]]
  }

  function InsertIndex(values: seq<real>, x: nat, s: seq<nat>): (r: seq<nat>)
    requires x < |values| && Indices(s, |values|)
    ensures multiset(r) == multiset(s) + multiset{x}
    decreases |s|
  {
    if s == [] then [x]
    else
      assert s == [s[0]] + s[1..];
      if values[x] < values[s[0]] then [x] + s else [s[0]] + InsertIndex(values, x, s[1..])
  }

  lemma InsertIndices(values: seq<real>, x: nat, s: seq<nat>)
    requires x < |values| && Indices(s, |values|)
    ensures Indices(InsertIndex(values, x, s), |values|)
  {
    var r := InsertIndex(values, x, s);
    forall k | 0 <= k < |r| ensures r[k] < |values| {
      assert r[k] in multiset(r);
      if r[k] != x { assert r[k] in s; }
    }
  }

  lemma {:induction false} InsertAscends(values: seq<real>, x: nat, s: seq<nat>)
    requires x < |values| && Indices(s, |values|) && AscendingBy(values, s)
    ensures Indices(InsertIndex(values, x, s), |values|) && AscendingBy(values, InsertIndex(values, x, s))
    decreases |s|
  {
    InsertIndices(values, x, s);
    if s != [] && values[x] >= values[s[0]] {
      var tail := InsertIndex(values, x, s[1..]);
      InsertAscends(values, x, s[1..]);
      forall j | 0 <= j < |tail| ensures values[s[0]] <= values[tail[j]] {
        assert tail[j] in multiset(tail);
        if tail[j] != x { assert tail[j] in s[1..]; }
      }
    }
  }

  function Range(n: nat): (r: seq<nat>)
    ensures |r| == n && forall i :: 0 <= i < n ==> r[i] == i
  {
    seq(n, i => i)
  }

  function SortIndices(values: seq<real>, n: nat): (r: seq<nat>)
    requires n <= |values|
    ensures multiset(r) == multiset(Range(n)) && Indices(r, |values|) && AscendingBy(values, r)
  {
    if n == 0 then []
    else
      assert Range(n) == Range(n - 1) + [n - 1];
      var before := SortIndices(values, n - 1);
      InsertAscends(values, n - 1, before);
      InsertIndex(values, n - 1, before)
  }

  /** `sorted(range(len(values)), key=values.__getitem__)`. */
  function Ordered(values: seq<real>): (r: seq<nat>)
    ensures |r| == |values| && Indices(r, |values|) && AscendingBy(values, r)
  {
    var r := SortIndices(values, |values|);
    SameLength(r, Range(|values|));
    r
  }

  lemma OrderedHasAll(values: seq<real>, i: nat)
    requires i < |values|
    ensures i in Ordered(values)
  {
    assert Range(|values|)[i] in multiset(Range(|values|));
    assert i in multiset(Ordered(values));
  }

  /** The values in sorted order. */
  function Sorted(values: seq<real>): (r: seq<real>)
    ensures |r| == |values| && forall k :: 0 <= k < |r| ==> r[k] == values[Ordered(values)[k]]
  {
    var ordered := Ordered(values);
    seq(|values|, k requires 0 <= k < |values| => values[ordered[k]])
  }

  lemma SortedIsPermutation(values: seq<real>)
    ensures multiset(Sorted(values)) == multiset(values)
    ensures forall i, j :: 0 <= i < j < |values| ==> Sorted(values)[i] <= Sorted(values)[j]
  {
    SameValues(Ordered(values), Range(|values|), Sorted(values), values, (i: nat) => if i < |values| then values[i] else 0.0);
  }

  lemma SameValues<A, B>(s: seq<A>, t: seq<A>, x: seq<B>, y: seq<B>, f: A -> B)
    requires multiset(s) == multiset(t) && |x| == |s| && |y| == |t|
    requires forall i :: 0 <= i < |s| ==> x[i] == f(s[i])
    requires forall i :: 0 <= i < |t| ==> y[i] == f(t[i])
    ensures multiset(x) == multiset(y)
  {
    MapMultiset(f, s, t);
    MapsTo(f, s, x);
    MapsTo(f, t, y);
  }

  lemma MapsTo<A, B>(f: A -> B, s: seq<A>, r: seq<B>)
    requires |r| == |s| && forall i :: 0 <= i < |s| ==> r[i] == f(s[i])
    ensures Map(f, s) == r
  {
  }

  lemma SplitCounts(sorted: seq<real>, v: real, start: nat, end: nat)
    requires start <= end <= |sorted|
    requires forall i :: 0 <= i < start ==> sorted[i] < v
    requires forall i :: start <= i < end ==> sorted[i] == v
    requires forall i :: end <= i < |sorted| ==> sorted[i] > v
    ensures Less(sorted, v) == start && Same(sorted, v) == end - start
  {
    var low, mid, high := sorted[..start], sorted[start..end], sorted[end..];
    assert sorted == low + (mid + high);
    CountsAdd(low, mid + high, v);
    CountsAdd(mid, high, v);
    CountsBelow(low, v);
    CountsEqual(mid, v);
    CountsAbove(high, v);
  }

  /** In sorted order, a whole group of equal values between smaller and larger ones. */
  lemma GroupRank(values: seq<real>, sorted: seq<real>, start: nat, end: nat)
    requires multiset(sorted) == multiset(values) && start < end <= |sorted|
    requires forall i, j :: 0 <= i < j < |sorted| ==> sorted[i] <= sorted[j]
    requires forall i :: start <= i < end ==> sorted[i] == sorted[start]
    requires start > 0 ==> sorted[start - 1] < sorted[start]
    requires end < |sorted| ==> sorted[end] != sorted[start]
    ensures Rank(values, sorted[start]) == (start + 1 + end) as real / 2.0
  {
    CountsPermute(values, sorted, sorted[start]);
    SplitCounts(sorted, sorted[start], start, end);
  }

  /** `_average_ranks`. */
  method AverageRanks(values: seq<real>) returns (ranks: seq<real>)
    ensures ranks == RanksOf(values)
  {
    var ordered := Ordered(values);
    ghost var sorted, want := Sorted(values), RanksOf(values);
    SortedIsPermutation(values);
    var cells := new real[|values|];
    var start := 0;
    while start < |ordered|
      invariant 0 <= start <= |ordered|
      invariant Filled(cells, ordered, want, start)
      invariant 0 < start < |ordered| ==> sorted[start - 1] < sorted[start]
    {
      var end := start + 1;
      while end < |ordered| && values[ordered[end]] == values[ordered[start]]
        invariant start < end <= |ordered|
        invariant forall k :: start <= k < end ==> sorted[k] == sorted[start]
      {
        end := end + 1;
      }
      GroupRank(values, sorted, start, end);
      Fill(cells, ordered, want, start, end);
      start := end;
    }
    forall i | 0 <= i < |values| ensures cells[i] == want[i] {
      OrderedHasAll(values, i);
      var k :| 0 <= k < |ordered| && ordered[k] == i;
      assert AtRank(cells, ordered[k], want);
    }
    ranks := cells[..];
  }

  /** The first `k` places in order have their ranks. */
  ghost predicate Filled(cells: array<real>, ordered: seq<nat>, want: seq<real>, k: nat)
    reads cells
  {
    cells.Length == |want| && k <= |ordered| && forall i :: 0 <= i < k ==> AtRank(cells, ordered[i], want)
  }

  ghost predicate AtRank(cells: array<real>, i: nat, want: seq<real>)
    reads cells
  {
    i < |want| && i < cells.Length && cells[i] == want[i]
  }

  /** The same rank for a whole group. */
  method Fill(cells: array<real>, ordered: seq<nat>, ghost want: seq<real>, start: nat, end: nat)
    requires start < end <= |ordered| && Filled(cells, ordered, want, start)
    requires forall k :: start <= k < end ==> ordered[k] < |want| && want[ordered[k]] == (start + 1 + end) as real / 2.0
    modifies cells
    ensures Filled(cells, ordered, want, end)
  {
    var rank := (start + 1 + end) as real / 2.0;
    for k := start to end
      invariant Filled(cells, ordered, want, k)
    {
      cells[ordered[k]] := rank;
    }
  }
}
