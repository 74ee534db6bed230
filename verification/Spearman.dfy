/** What average ranks promise, and the rank correlation made of them. */
module Spearman {
  import opened Outcomes
  import opened Digests
  import opened Ranks

  // ---------- the ranks add up ----------

  function Sum(s: seq<real>): real {
    if s == [] then 0.0 else s[0] + Sum(s[1..])
  }

  /** One half for each equal value, one for each smaller: a rank is this plus a half. */
  function Weight(s: seq<real>, v: real): real {
    Less(s, v) as real + Same(s, v) as real / 2.0
  }

  /** How much `x` weighs for each value of `s`. */
  function Share(s: seq<real>, x: real): real {
    if s == [] then 0.0 else Weight([x], s[0]) + Share(s[1..], x)
  }

  /** Of two values one is smaller or they are equal: their shares add up to one each. */
  lemma {:induction false} SharesBalance(s: seq<real>, x: real)
    ensures Share(s, x) + Weight(s, x) == |s| as real
  {
    if s != [] {
      SharesBalance(s[1..], x);
      CountsAdd([s[0]], s[1..], x);
      assert s == [s[0]] + s[1..];
      OneShareEach(x, s[0]);
    }
  }

  lemma OneShareEach(x: real, y: real)
    ensures Weight([x], y) + Weight([y], x) == 1.0
  {
    CountsOne(x, y);
    CountsOne(y, x);
    if x == y {
    } else if x < y {
    } else {
      assert y < x;
    }
  }

  lemma CountsOne(x: real, v: real)
    ensures Less([x], v) == (if x < v then 1 else 0) && Same([x], v) == (if x == v then 1 else 0)
  {
    assert [x][1..] == [];
  }

  lemma {:induction false} SumOfRanksOver(s: seq<real>, all: seq<real>, x: real)
    ensures Sum(Map((v: real) => Rank([x] + all, v), s)) == Sum(Map((v: real) => Rank(all, v), s)) + Share(s, x)
    decreases |s|
  {
    var f, g := (v: real) => Rank([x] + all, v), (v: real) => Rank(all, v);
    if s != [] {
      SumOfRanksOver(s[1..], all, x);
      MapTail(f, s);
      MapTail(g, s);
      CountsAdd([x], all, s[0]);
    }
  }

  lemma MapTail(f: real -> real, s: seq<real>)
    requires s != []
    ensures Map(f, s)[1..] == Map(f, s[1..]) && Map(f, s)[0] == f(s[0])
  {
  }

  /** Ranks add up to 1 + 2 + ... + n, whatever the ties. */
  lemma {:induction false} RanksAddUp(s: seq<real>)
    ensures Sum(RanksOf(s)) == (|s| * (|s| + 1)) as real / 2.0
  {
    if s != [] {
      var x, rest := s[0], s[1..];
      RanksAddUp(rest);
      assert s == [x] + rest;
      SumOfRanksOver(rest, rest, x);
      SharesBalance(rest, x);
      MapTail((v: real) => Rank(s, v), s);
      RankOfFirst(x, rest);
      Triangle(|rest|);
    }
  }

  lemma RankOfFirst(x: real, rest: seq<real>)
    ensures Rank([x] + rest, x) == Weight(rest, x) + 1.0
  {
    CountsAdd([x], rest, x);
  }

  lemma Triangle(n: nat)
    ensures ((n + 1) * (n + 2)) as real == (n * (n + 1)) as real + 2.0 * (n + 1) as real
  {
    assert (n + 1) * (n + 2) == n * (n + 1) + 2 * (n + 1);
  }

  // ---------- only the order matters ----------

  /** `g` keeps the order of these values. */
  ghost predicate Increasing(g: real -> real, s: seq<real>, v: real) {
    forall i :: 0 <= i < |s| ==> (s[i] < v <==> g(s[i]) < g(v)) && (s[i] == v <==> g(s[i]) == g(v))
  }

  lemma {:induction false} CountsOnlyOrder(g: real -> real, s: seq<real>, v: real)
    requires Increasing(g, s, v)
    ensures Less(Map(g, s), g(v)) == Less(s, v) && Same(Map(g, s), g(v)) == Same(s, v)
  {
    if s != [] {
      MapTail(g, s);
      CountsOnlyOrder(g, s[1..], v);
    }
  }

  /** A strictly increasing map leaves every rank as it is. */
  lemma RanksOnlyOrder(g: real -> real, s: seq<real>)
    requires forall x, y :: x < y ==> g(x) < g(y)
    ensures RanksOf(Map(g, s)) == RanksOf(s)
  {
    forall i | 0 <= i < |s| ensures RanksOf(Map(g, s))[i] == RanksOf(s)[i] {
      forall j | 0 <= j < |s| ensures (s[j] < s[i] <==> g(s[j]) < g(s[i])) && (s[j] == s[i] <==> g(s[j]) == g(s[i])) {
        assert s[j] < s[i] || s[j] == s[i] || s[i] < s[j];
      }
      CountsOnlyOrder(g, s, s[i]);
    }
  }

  /** A larger value has a larger rank. */
  lemma LargerRanksHigher(s: seq<real>, i: nat, j: nat)
    requires i < |s| && j < |s| && s[i] < s[j]
    ensures Rank(s, s[i]) < Rank(s, s[j])
  {
    LessAndSame(s, s[i], s[j]);
    SameAtLeastOne(s, i);
    SameAtLeastOne(s, j);
  }

  lemma {:induction false} LessAndSame(s: seq<real>, v: real, w: real)
    requires v < w
    ensures Less(s, v) + Same(s, v) <= Less(s, w)
  {
    if s != [] { LessAndSame(s[1..], v, w); }
  }

  lemma {:induction false} SameAtLeastOne(s: seq<real>, i: nat)
    requires i < |s|
    ensures Same(s, s[i]) >= 1
  {
    if i > 0 {
      assert s[1..][i - 1] == s[i];
      SameAtLeastOne(s[1..], i - 1);
    }
  }

  // ---------- products ----------

  function Times(x: real, y: real): real {
    x * y
  }

  function Dot(a: seq<real>, b: seq<real>): real
    requires |a| == |b|
  {
    if a == [] then 0.0 else Times(a[0], b[0]) + Dot(a[1..], b[1..])
  }

  lemma Square(x: real)
    ensures Times(x, x) >= 0.0
    ensures x != 0.0 ==> Times(x, x) > 0.0
    ensures x == 0.0 ==> Times(x, x) == 0.0
  {
    if x > 0.0 { Positive(x, x); }
    if x < 0.0 { Positive(-x, -x); }
  }

  lemma Positive(x: real, y: real)
    requires x > 0.0 && y > 0.0
    ensures Times(x, y) > 0.0
  {
  }

  lemma ZeroRoot(d: real)
    requires Times(d, d) <= 0.0
    ensures d == 0.0
  {
    Square(d);
  }

  lemma SumZero(x: real, rest: real)
    requires rest >= 0.0
    ensures Times(x, x) + rest >= 0.0
    ensures Times(x, x) + rest == 0.0 <==> x == 0.0 && rest == 0.0
  {
    Square(x);
  }

  lemma {:induction false} DotOfItself(a: seq<real>)
    ensures Dot(a, a) >= 0.0
    ensures Dot(a, a) == 0.0 <==> forall i :: 0 <= i < |a| ==> a[i] == 0.0
  {
    if a != [] {
      DotOfItself(a[1..]);
      SumZero(a[0], Dot(a[1..], a[1..]));
      assert forall i :: 1 <= i < |a| ==> a[i] == a[1..][i - 1];
      assert forall i :: 0 <= i < |a[1..]| ==> a[1..][i] == a[i + 1];
    }
  }

  /** The step of Cauchy-Schwarz: a quadratic form with this determinant is not negative. */
  lemma Quadratic(p: real, q: real, d: real, x: real, y: real)
    requires p >= 0.0 && q >= 0.0 && d * d <= p * q
    ensures 2.0 * d * (x * y) <= p * (y * y) + q * (x * x)
  {
    if p == 0.0 {
      assert p * q == 0.0;
      ZeroRoot(d);
      Square(x);
    } else {
      var e := p * y - d * x;
      Square(e);
      Square(x);
      assert e * e == p * (p * (y * y)) - 2.0 * (p * (d * (x * y))) + (d * d) * (x * x);
      assert (d * d) * (x * x) <= (p * q) * (x * x);
      var slack := p * (y * y) + q * (x * x) - 2.0 * d * (x * y);
      assert p * slack >= e * e;
      assert slack >= 0.0;
    }
  }

  /** Cauchy-Schwarz. */
  lemma {:induction false} DotBound(a: seq<real>, b: seq<real>)
    requires |a| == |b|
    ensures Times(Dot(a, b), Dot(a, b)) <= Times(Dot(a, a), Dot(b, b))
  {
    if a != [] {
      DotBound(a[1..], b[1..]);
      DotOfItself(a[1..]);
      DotOfItself(b[1..]);
      BoundStep(Dot(a[1..], b[1..]), Dot(a[1..], a[1..]), Dot(b[1..], b[1..]), a[0], b[0]);
    }
  }

  lemma BoundStep(d: real, p: real, q: real, x: real, y: real)
    requires p >= 0.0 && q >= 0.0 && Times(d, d) <= Times(p, q)
    ensures Times(Times(x, y) + d, Times(x, y) + d) <= Times(Times(x, x) + p, Times(y, y) + q)
  {
    Quadratic(p, q, d, x, y);
    Expand(d, p, q, x, y);
  }

  lemma Expand(d: real, p: real, q: real, x: real, y: real)
    requires d * d <= p * q && 2.0 * d * (x * y) <= p * (y * y) + q * (x * x)
    ensures (x * y + d) * (x * y + d) <= (x * x + p) * (y * y + q)
  {
    assert (x * y + d) * (x * y + d) == (x * y) * (x * y) + 2.0 * d * (x * y) + d * d;
    assert (x * x + p) * (y * y + q) == (x * x) * (y * y) + q * (x * x) + p * (y * y) + p * q;
    assert (x * y) * (x * y) == (x * x) * (y * y);
  }

  // ---------- the correlation ----------

  /** The number `num / sqrt(radicand)`. */
  datatype Ratio = Ratio(num: real, radicand: real)

  function Lefts(pairs: seq<(real, real)>): seq<real> {
    Map((p: (real, real)) => p.0, pairs)
  }

  function Rights(pairs: seq<(real, real)>): seq<real> {
    Map((p: (real, real)) => p.1, pairs)
  }

  predicate Constant(s: seq<real>) {
    forall i :: 0 <= i < |s| ==> s[i] == s[0]
  }

  /** Ranks, measured from their mean. */
  function Centred(s: seq<real>): (r: seq<real>)
    ensures |r| == |s|
  {
    Map((rank: real) => rank - (|s| + 1) as real / 2.0, RanksOf(s))
  }

  lemma CentredAt(s: seq<real>, i: nat)
    requires i < |s|
    ensures Centred(s)[i] == Rank(s, s[i]) - (|s| + 1) as real / 2.0
  {
  }

  /** The centred ranks vanish exactly when the values are all the same. */
  lemma CentredVanish(s: seq<real>)
    ensures Dot(Centred(s), Centred(s)) == 0.0 <==> Constant(s)
  {
    DotOfItself(Centred(s));
    if Constant(s) {
      forall i | 0 <= i < |s| ensures Centred(s)[i] == 0.0 {
        CentredAt(s, i);
        CountsEqual(s, s[i]);
      }
    } else {
      var i :| 0 <= i < |s| && s[i] != s[0];
      CentredAt(s, i);
      CentredAt(s, 0);
      if s[i] < s[0] { LargerRanksHigher(s, i, 0); } else { LargerRanksHigher(s, 0, i); }
      assert Centred(s)[i] != Centred(s)[0];
    }
  }

  lemma ProductZero(x: real, y: real)
    ensures Times(x, y) == 0.0 <==> x == 0.0 || y == 0.0
  {
  }

  /** The correlation of the centred ranks, before the clamp. */
  function Correlation(l: seq<real>, r: seq<real>): Ratio
    requires |l| == |r|
  {
    RatioOf(Centred(l), Centred(r))
  }

  function RatioOf(x: seq<real>, y: seq<real>): Ratio
    requires |x| == |y|
  {
    Ratio(Dot(x, y), Times(Dot(x, x), Dot(y, y)))
  }

  /** A number `num / sqrt(radicand)` lies between -1 and 1. */
  predicate WithinOne(c: Ratio) {
    Times(c.num, c.num) <= c.radicand
  }

  /** `max(-1.0, min(1.0, ...))`. */
  function Clamped(c: Ratio): Ratio {
    if WithinOne(c) then c else if c.num > 0.0 then Ratio(1.0, 1.0) else Ratio(-1.0, 1.0)
  }

  method Products(x: seq<real>, y: seq<real>) returns (sum: real)
    requires |x| == |y|
    ensures sum == Dot(x, y)
  {
    sum := 0.0;
    for i := 0 to |x|
      invariant sum + Dot(x[i..], y[i..]) == Dot(x, y)
    {
      assert x[i..][1..] == x[i + 1..] && y[i..][1..] == y[i + 1..];
      sum := sum + Times(x[i], y[i]);
    }
  }

  method Centre(values: seq<real>) returns (r: seq<real>)
    ensures r == Centred(values)
  {
    var ranks := AverageRanks(values);
    var centre := (|values| + 1) as real / 2.0;
    r := seq(|ranks|, i requires 0 <= i < |ranks| => ranks[i] - centre);
    assert r == Centred(values);
  }

  /** `spearman`: undefined exactly for fewer than two pairs or a constant side, and
      otherwise the correlation of the ranks, which the clamp never changes. */
  method Spearman(pairs: seq<(real, real)>) returns (c: Option<Ratio>)
    ensures c.None? <==> |pairs| < 2 || Constant(Lefts(pairs)) || Constant(Rights(pairs))
    ensures c.Some? ==> c.value == Correlation(Lefts(pairs), Rights(pairs))
    ensures c.Some? ==> c.value.radicand > 0.0 && WithinOne(c.value)
  {
    if |pairs| < 2 { return None; }
    c := Correlate(Lefts(pairs), Rights(pairs));
  }

  method Correlate(l: seq<real>, r: seq<real>) returns (c: Option<Ratio>)
    requires |l| == |r|
    ensures c.None? <==> Constant(l) || Constant(r)
    ensures c.Some? ==> c.value == Correlation(l, r) && c.value.radicand > 0.0 && WithinOne(c.value)
  {
    var left := Centre(l);
    var right := Centre(r);
    CorrelationFacts(l, r);
    var ratio := Divide(left, right);
    c := Finish(ratio);
  }

  /** No value over a zero denominator; the clamp has nothing to cut. */
  method Finish(ratio: Ratio) returns (c: Option<Ratio>)
    requires WithinOne(ratio) && ratio.radicand >= 0.0
    ensures c == if ratio.radicand == 0.0 then None else Some(ratio)
  {
    c := if ratio.radicand == 0.0 then None else Some(Clamped(ratio));
  }

  method Divide(x: seq<real>, y: seq<real>) returns (r: Ratio)
    requires |x| == |y|
    ensures r == RatioOf(x, y)
  {
    var a := Products(x, x);
    var b := Products(y, y);
    var num := Products(x, y);
    r := Ratio(num, Times(a, b));
  }

  /** Defined unless a side is constant, and between -1 and 1. */
  lemma CorrelationFacts(l: seq<real>, r: seq<real>)
    requires |l| == |r|
    ensures var c := Correlation(l, r);
            && WithinOne(c) && c.radicand >= 0.0
            && (c.radicand == 0.0 <==> Constant(l) || Constant(r))
  {
    RatioFacts(Centred(l), Centred(r));
    CentredVanish(l);
    CentredVanish(r);
  }

  lemma RatioFacts(x: seq<real>, y: seq<real>)
    requires |x| == |y|
    ensures WithinOne(RatioOf(x, y)) && RatioOf(x, y).radicand >= 0.0
    ensures RatioOf(x, y).radicand == 0.0 <==> Dot(x, x) == 0.0 || Dot(y, y) == 0.0
  {
    DotFacts(x, y);
  }

  lemma DotFacts(x: seq<real>, y: seq<real>)
    requires |x| == |y|
    ensures Times(Dot(x, y), Dot(x, y)) <= Times(Dot(x, x), Dot(y, y))
    ensures Times(Dot(x, x), Dot(y, y)) >= 0.0
    ensures Times(Dot(x, x), Dot(y, y)) == 0.0 <==> Dot(x, x) == 0.0 || Dot(y, y) == 0.0
  {
    DotOfItself(x);
    DotOfItself(y);
    DotBound(x, y);
    ProductZero(Dot(x, x), Dot(y, y));
    NotNegative(Dot(x, x), Dot(y, y));
  }

  lemma NotNegative(x: real, y: real)
    requires x >= 0.0 && y >= 0.0
    ensures Times(x, y) >= 0.0
  {
  }

  /** Only the order of either side matters. */
  lemma CorrelationOnlyOrder(g: real -> real, l: seq<real>, r: seq<real>)
    requires |l| == |r| && forall x, y :: x < y ==> g(x) < g(y)
    ensures Correlation(Map(g, l), r) == Correlation(l, r)
    ensures Correlation(r, Map(g, l)) == Correlation(r, l)
  {
    RanksOnlyOrder(g, l);
  }

  /** Sides in the same order correlate at exactly one. */
  lemma SameOrderIsOne(g: real -> real, l: seq<real>)
    requires forall x, y :: x < y ==> g(x) < g(y)
    requires !Constant(l)
    ensures var c := Correlation(Map(g, l), l); c.num > 0.0 && Times(c.num, c.num) == c.radicand
  {
    RanksOnlyOrder(g, l);
    CentredVanish(l);
    DotOfItself(Centred(l));
  }
}
