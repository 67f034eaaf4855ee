/** TextRank over a Jaccard similarity graph: the damped walk. */
module TextRank {
  import opened Collections
  import opened Reals

  type Tokens = set<string>

  const DAMPING := 0.85
  const MAX_ROUNDS := 50
  const TOLERANCE := 0.000001

  // ---- Similarity graph ------------------------------------------------------------

  function Jaccard(a: Tokens, b: Tokens): real {
    if a == {} || b == {} then 0.0
    else SharedSize(a, b); |a * b| as real / (|a| + |b| - |a * b|) as real
  }

  lemma SharedSize(a: Tokens, b: Tokens)
    ensures |a * b| <= |a| && |a * b| <= |b|
    ensures a != {} || b != {} ==> |a| + |b| - |a * b| > 0
  {
    SubsetSize(a * b, a);
    SubsetSize(a * b, b);
  }

  lemma JaccardBounds(a: Tokens, b: Tokens)
    ensures 0.0 <= Jaccard(a, b) <= 1.0
    ensures Jaccard(a, b) == Jaccard(b, a)
  {
    SharedSize(a, b);
    assert a * b == b * a;
    if a != {} && b != {} {
      DivideBounds(|a * b| as real, (|a| + |b| - |a * b|) as real);
    }
  }

  /** The words two messages share, out of the words either has. */
  lemma JaccardExactly(a: Tokens, b: Tokens)
    ensures Jaccard(a, b) * |a + b| as real == |a * b| as real
    ensures Jaccard(a, b) == 0.0 <==> a * b == {}
    ensures Jaccard(a, b) == 1.0 <==> a == b && a != {}
  {
    UnionSize(a, b);
    SharedSize(a, b);
    if a == {} || b == {} {
      assert a * b == {};
    } else {
      QuotientIs(|a * b| as real, |a + b| as real);
      if |a * b| == |a + b| {
        SameSize(a * b, a + b);
        forall x ensures x in a <==> x in b { assert x in a * b <==> x in a + b; }
      }
      assert a == b ==> a * b == a == a + b;
    }
  }

  lemma UnionSize(a: Tokens, b: Tokens)
    ensures |a + b| == |a| + |b| - |a * b|
  {
  }

  lemma SameSize(a: Tokens, b: Tokens)
    requires a <= b && |a| == |b|
    ensures a == b
  {
    if x :| x in b && x !in a {
      SubsetSize(a + {x}, b);
    }
  }

  lemma QuotientIs(x: real, y: real)
    requires y > 0.0
    ensures (x / y) * y == x && (x / y == 0.0 <==> x == 0.0) && (x / y == 1.0 <==> x == y)
  {
  }

  lemma DivideBounds(x: real, y: real)
    requires 0.0 <= x <= y && y > 0.0
    ensures 0.0 <= x / y <= 1.0
  {
  }

  function Sim(ts: seq<Tokens>, i: int, j: int): real {
    if 0 <= i < |ts| && 0 <= j < |ts| && i != j then Jaccard(ts[i], ts[j]) else 0.0
  }

  lemma SimBounds(ts: seq<Tokens>, i: int, j: int)
    ensures 0.0 <= Sim(ts, i, j) <= 1.0 && Sim(ts, i, j) == Sim(ts, j, i)
  {
    if 0 <= i < |ts| && 0 <= j < |ts| { JaccardBounds(ts[i], ts[j]); }
  }

  function SimRow(ts: seq<Tokens>, i: int): int -> real { j => Sim(ts, i, j) }

  function OutWeight(ts: seq<Tokens>, i: int): real { Sum(|ts|, SimRow(ts, i)) }

  /** The share of `j`'s rank that flows to `i`. */
  function Share(ts: seq<Tokens>, j: int, i: int): real {
    if Sim(ts, j, i) > 0.0 && OutWeight(ts, j) > 0.0 then Sim(ts, j, i) / OutWeight(ts, j) else 0.0
  }

  lemma ShareNonNegative(ts: seq<Tokens>, j: int, i: int)
    ensures 0.0 <= Share(ts, j, i)
  {
    if Sim(ts, j, i) > 0.0 && OutWeight(ts, j) > 0.0 {
      Quotient(Sim(ts, j, i), OutWeight(ts, j));
    }
  }

  lemma Quotient(x: real, y: real)
    requires 0.0 <= x && y > 0.0
    ensures 0.0 <= x / y && Times(y, x / y) == x
  {
  }

  /** A message gives away at most its whole rank. */
  lemma SharesSum(ts: seq<Tokens>, j: int)
    ensures Sum(|ts|, i => Share(ts, j, i)) <= 1.0
  {
    var w := OutWeight(ts, j);
    var shares := i => Share(ts, j, i);
    if w > 0.0 {
      forall i | 0 <= i < |ts| ensures Times(w, Share(ts, j, i)) == Sim(ts, j, i) {
        SimBounds(ts, j, i);
        Quotient(Sim(ts, j, i), w);
      }
      SumTimes(|ts|, w, shares);
      SumCongruent(|ts|, i => Times(w, shares(i)), SimRow(ts, j));
      UnitFactor(w, Sum(|ts|, shares));
    } else {
      SumCongruent(|ts|, shares, i => 0.0);
      SumConstant(|ts|, 0.0);
    }
  }

  lemma UnitFactor(w: real, s: real)
    requires w > 0.0 && Times(w, s) == w
    ensures s == 1.0
  {
    TimesOne(w);
    if s > 1.0 {
      TimesAdd(w, 1.0, s - 1.0);
      TimesPositive(w, s - 1.0);
    } else if s < 1.0 {
      TimesAdd(w, s, 1.0 - s);
      TimesPositive(w, 1.0 - s);
    }
  }

  // ---- The damped walk ------------------------------------------------------------------

  function At(r: seq<real>, i: int): real { if 0 <= i < |r| then r[i] else 0.0 }

  function Ranks(r: seq<real>): int -> real { i => At(r, i) }

  function Flow(ts: seq<Tokens>, r: seq<real>, i: int): int -> real {
    j => Times(Share(ts, j, i), At(r, j))
  }

  function Inflow(ts: seq<Tokens>, r: seq<real>, i: int): real { Sum(|ts|, Flow(ts, r, i)) }

  function Floor(n: nat): real
    requires n > 0
  {
    (1.0 - DAMPING) / n as real
  }

  function Next(ts: seq<Tokens>, r: seq<real>): (next: seq<real>)
    requires |r| == |ts|
    ensures |next| == |ts|
  {
    seq(|ts|, i requires 0 <= i < |ts| => Floor(|ts|) + DAMPING * Inflow(ts, r, i))
  }

  function Iterate(ts: seq<Tokens>, k: nat): (r: seq<real>)
    requires |ts| > 0
    ensures |r| == |ts|
  {
    if k == 0 then seq(|ts|, i => 1.0 / |ts| as real) else Next(ts, Iterate(ts, k - 1))
  }

  function Total(r: seq<real>): real { Sum(|r|, Ranks(r)) }

  function Gap(r: seq<real>, q: seq<real>): real { Sum(|r|, i => Abs(At(r, i) - At(q, i))) }

  ghost predicate NonNegative(r: seq<real>) { forall i :: 0 <= i < |r| ==> r[i] >= 0.0 }

  lemma InflowNonNegative(ts: seq<Tokens>, r: seq<real>, i: int)
    requires |r| == |ts| && NonNegative(r)
    ensures 0.0 <= Inflow(ts, r, i)
  {
    forall j | 0 <= j < |ts| ensures 0.0 <= Flow(ts, r, i)(j) {
      ShareNonNegative(ts, j, i);
    }
    SumNonNegative(|ts|, Flow(ts, r, i));
  }

  lemma FloorIsPositive(n: nat)
    requires n > 0
    ensures Floor(n) == 0.15 / n as real && Floor(n) > 0.0 && n as real * Floor(n) == 0.15
  {
  }

  /** Every new rank is at least the teleport floor. */
  lemma NextAboveFloor(ts: seq<Tokens>, r: seq<real>)
    requires |r| == |ts| > 0 && NonNegative(r)
    ensures forall i :: 0 <= i < |ts| ==> Next(ts, r)[i] >= 0.15 / |ts| as real
    ensures NonNegative(Next(ts, r))
  {
    FloorIsPositive(|ts|);
    forall i | 0 <= i < |ts| ensures Next(ts, r)[i] >= Floor(|ts|) {
      InflowNonNegative(ts, r, i);
    }
  }

  /** All inflows together are at most what flowed out of each message. */
  lemma TotalInflow(ts: seq<Tokens>, v: seq<real>)
    requires |v| == |ts| && NonNegative(v)
    ensures Sum(|ts|, i => Inflow(ts, v, i)) <= Total(v)
  {
    var n := |ts|;
    var f := (i, j) => Times(Share(ts, j, i), At(v, j));
    SumSwap(n, n, f);
    forall i | 0 <= i < n ensures Sum(n, j => f(i, j)) == Inflow(ts, v, i) {
      SumCongruent(n, j => f(i, j), Flow(ts, v, i));
    }
    SumCongruent(n, i => Sum(n, j => f(i, j)), i => Inflow(ts, v, i));
    forall j | 0 <= j < n ensures Sum(n, i => f(i, j)) <= At(v, j) {
      OutflowBounded(ts, v, j);
      SumCongruent(n, i => f(i, j), i => Times(At(v, j), Share(ts, j, i)));
    }
    SumMonotone(n, j => Sum(n, i => f(i, j)), Ranks(v));
  }

  lemma OutflowBounded(ts: seq<Tokens>, v: seq<real>, j: int)
    requires |v| == |ts| && NonNegative(v) && 0 <= j < |ts|
    ensures Sum(|ts|, i => Times(At(v, j), Share(ts, j, i))) <= At(v, j)
    ensures forall i :: Times(At(v, j), Share(ts, j, i)) == Times(Share(ts, j, i), At(v, j))
  {
    SumTimes(|ts|, At(v, j), i => Share(ts, j, i));
    SumCongruent(|ts|, i => Times(At(v, j), (i => Share(ts, j, i))(i)), i => Times(At(v, j), Share(ts, j, i)));
    SharesSum(ts, j);
    TimesMonotone(At(v, j), Sum(|ts|, i => Share(ts, j, i)), 1.0);
    forall i ensures Times(At(v, j), Share(ts, j, i)) == Times(Share(ts, j, i), At(v, j)) {
      TimesCommutes(At(v, j), Share(ts, j, i));
    }
  }

  lemma AffineSum(n: nat, c: real, f: int -> real, g: int -> real)
    requires forall i :: 0 <= i < n ==> g(i) == c + Times(DAMPING, f(i))
    ensures Sum(n, g) == n as real * c + DAMPING * Sum(n, f)
  {
    var damped := i => Times(DAMPING, f(i));
    SumCongruent(n, g, i => (i => c)(i) + damped(i));
    SumAdd(n, i => c, damped);
    SumConstant(n, c);
    SumTimes(n, DAMPING, f);
  }

  lemma TotalOfNext(ts: seq<Tokens>, r: seq<real>)
    requires |r| == |ts| > 0
    ensures Total(Next(ts, r)) == 0.15 + DAMPING * Sum(|ts|, i => Inflow(ts, r, i))
  {
    AffineSum(|ts|, Floor(|ts|), i => Inflow(ts, r, i), Ranks(Next(ts, r)));
    FloorIsPositive(|ts|);
  }

  /** Total rank never exceeds one. */
  lemma {:induction false} IterateBounds(ts: seq<Tokens>, k: nat)
    requires |ts| >= 1
    ensures forall i :: 0 <= i < |ts| ==> Iterate(ts, k)[i] >= 0.15 / |ts| as real
    ensures NonNegative(Iterate(ts, k)) && Total(Iterate(ts, k)) <= 1.0
  {
    var n := |ts|;
    FloorIsPositive(n);
    if k == 0 {
      StartBounds(n);
      SumConstant(n, 1.0 / n as real);
      SumCongruent(n, Ranks(Iterate(ts, 0)), i => 1.0 / n as real);
    } else {
      var r := Iterate(ts, k - 1);
      IterateBounds(ts, k - 1);
      NextAboveFloor(ts, r);
      TotalInflow(ts, r);
      TotalOfNext(ts, r);
    }
  }

  lemma StartBounds(n: nat)
    requires n >= 1
    ensures 1.0 / n as real >= 0.15 / n as real && n as real * (1.0 / n as real) == 1.0
  {
  }

  lemma InflowDifference(ts: seq<Tokens>, r: seq<real>, q: seq<real>, i: int)
    requires |r| == |q| == |ts|
    ensures Abs(Inflow(ts, r, i) - Inflow(ts, q, i)) <= Inflow(ts, Distance(r, q), i)
  {
    var diff := Change(ts, r, q, i);
    forall j | 0 <= j < |ts| ensures Flow(ts, r, i)(j) == Flow(ts, q, i)(j) + diff(j) {
      TimesAdd(Share(ts, j, i), At(q, j), At(r, j) - At(q, j));
      assert At(q, j) + (At(r, j) - At(q, j)) == At(r, j);
    }
    SumAdd(|ts|, Flow(ts, q, i), diff);
    SumCongruent(|ts|, Flow(ts, r, i), j => Flow(ts, q, i)(j) + diff(j));
    ChangeBounded(ts, r, q, i);
  }

  /** What each message's rank change does to the inflow of `i`. */
  function Change(ts: seq<Tokens>, r: seq<real>, q: seq<real>, i: int): int -> real {
    j => Times(Share(ts, j, i), At(r, j) - At(q, j))
  }

  lemma ChangeBounded(ts: seq<Tokens>, r: seq<real>, q: seq<real>, i: int)
    requires |r| == |q| == |ts|
    ensures Abs(Sum(|ts|, Change(ts, r, q, i))) <= Inflow(ts, Distance(r, q), i)
  {
    var diff := Change(ts, r, q, i);
    SumAbs(|ts|, diff);
    forall j | 0 <= j < |ts| ensures Abs(diff(j)) == Flow(ts, Distance(r, q), i)(j) {
      ShareNonNegative(ts, j, i);
      TimesAbs(Share(ts, j, i), At(r, j) - At(q, j));
    }
    SumCongruent(|ts|, j => Abs(diff(j)), Flow(ts, Distance(r, q), i));
  }

  /** Pointwise distance of two rank vectors. */
  function Distance(r: seq<real>, q: seq<real>): (d: seq<real>)
    requires |r| == |q|
    ensures |d| == |r|
  {
    seq(|r|, i => Abs(At(r, i) - At(q, i)))
  }

  lemma GapIsTotalDistance(r: seq<real>, q: seq<real>)
    requires |r| == |q|
    ensures Gap(r, q) == Total(Distance(r, q)) && NonNegative(Distance(r, q)) && Gap(r, q) >= 0.0
  {
    SumCongruent(|r|, i => Abs(At(r, i) - At(q, i)), Ranks(Distance(r, q)));
    SumNonNegative(|r|, Ranks(Distance(r, q)));
  }

  /** One round brings any two rank vectors closer by the damping factor. */
  lemma NextContracts(ts: seq<Tokens>, r: seq<real>, q: seq<real>)
    requires |r| == |q| == |ts| > 0
    ensures Gap(Next(ts, r), Next(ts, q)) <= DAMPING * Gap(r, q)
  {
    var n, d := |ts|, Distance(r, q);
    GapIsTotalDistance(r, q);
    forall i | 0 <= i < n
      ensures Abs(At(Next(ts, r), i) - At(Next(ts, q), i)) <= Times(DAMPING, Inflow(ts, d, i))
    {
      InflowDifference(ts, r, q, i);
      assert At(Next(ts, r), i) - At(Next(ts, q), i) == DAMPING * (Inflow(ts, r, i) - Inflow(ts, q, i));
    }
    SumMonotone(n, i => Abs(At(Next(ts, r), i) - At(Next(ts, q), i)), i => Times(DAMPING, Inflow(ts, d, i)));
    SumTimes(n, DAMPING, i => Inflow(ts, d, i));
    SumCongruent(n, i => Times(DAMPING, (i => Inflow(ts, d, i))(i)), i => Times(DAMPING, Inflow(ts, d, i)));
    TotalInflow(ts, d);
  }

  /** What is left of a distance after `k` rounds at the damping factor. */
  function Damped(distance: real, k: nat): real {
    if k == 0 then distance else DAMPING * Damped(distance, k - 1)
  }

  /** Successive iterates close in on each other geometrically. */
  lemma {:induction false} IteratesContract(ts: seq<Tokens>, k: nat)
    requires |ts| > 0
    ensures Gap(Iterate(ts, k + 2), Iterate(ts, k + 1)) <= DAMPING * Gap(Iterate(ts, k + 1), Iterate(ts, k))
    ensures Gap(Iterate(ts, k + 1), Iterate(ts, k)) <= Damped(Gap(Iterate(ts, 1), Iterate(ts, 0)), k)
  {
    NextContracts(ts, Iterate(ts, k + 1), Iterate(ts, k));
    if k > 0 { IteratesContract(ts, k - 1); }
  }
}
