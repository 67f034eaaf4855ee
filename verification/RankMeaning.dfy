/** What a rank says. */
module RankMeaning {
  import opened Collections
  import opened Reals
  import opened TextRank
  import opened TextRankProgram

  // ---- Similarity --------------------------------------------------------------------

  /** Two different messages that share a word. */
  predicate Linked(ts: seq<Tokens>, i: int, j: int) {
    0 <= i < |ts| && 0 <= j < |ts| && i != j && ts[i] * ts[j] != {}
  }

  lemma SimLinks(ts: seq<Tokens>, i: int, j: int)
    ensures Sim(ts, i, j) > 0.0 <==> Linked(ts, i, j)
    ensures Linked(ts, i, j) ==> Sim(ts, i, j) * |ts[i] + ts[j]| as real == |ts[i] * ts[j]| as real
    ensures !Linked(ts, i, j) ==> Sim(ts, i, j) == 0.0
  {
    SimBounds(ts, i, j);
    if 0 <= i < |ts| && 0 <= j < |ts| { JaccardExactly(ts[i], ts[j]); }
  }

  /** Some other message shares a word with this one. */
  predicate Social(ts: seq<Tokens>, i: int) { exists j :: 0 <= j < |ts| && Linked(ts, i, j) }

  lemma WeightIff(ts: seq<Tokens>, i: int)
    ensures OutWeight(ts, i) >= 0.0 && (OutWeight(ts, i) > 0.0 <==> Social(ts, i))
  {
    forall j | 0 <= j < |ts| ensures 0.0 <= SimRow(ts, i)(j) { SimBounds(ts, i, j); }
    SumNonNegative(|ts|, SimRow(ts, i));
    if j :| 0 <= j < |ts| && Linked(ts, i, j) {
      SimLinks(ts, i, j);
      assert SimRow(ts, i)(j) <= OutWeight(ts, i);
    } else {
      forall j | 0 <= j < |ts| ensures SimRow(ts, i)(j) == 0.0 { SimLinks(ts, i, j); }
      SumCongruent(|ts|, SimRow(ts, i), j => 0.0);
      SumConstant(|ts|, 0.0);
    }
  }

  /** Each neighbour gets its part of the rank in proportion to its similarity. */
  lemma ShareExactly(ts: seq<Tokens>, j: int, i: int)
    ensures Share(ts, j, i) * OutWeight(ts, j) == Sim(ts, j, i)
    ensures Share(ts, j, i) >= 0.0 && (Share(ts, j, i) > 0.0 <==> Linked(ts, j, i))
  {
    WeightIff(ts, j);
    SimLinks(ts, j, i);
    if Linked(ts, j, i) {
      assert Social(ts, j);
      QuotientIs(Sim(ts, j, i), OutWeight(ts, j));
      Quotient(Sim(ts, j, i), OutWeight(ts, j));
    }
  }

  lemma SocialSharesSum(ts: seq<Tokens>, j: int)
    requires Social(ts, j)
    ensures Sum(|ts|, i => Share(ts, j, i)) == 1.0
  {
    var w, shares := OutWeight(ts, j), i => Share(ts, j, i);
    WeightIff(ts, j);
    forall i | 0 <= i < |ts| ensures Times(w, shares(i)) == SimRow(ts, j)(i) {
      ShareExactly(ts, j, i);
      TimesCommutes(w, shares(i));
    }
    SumTimes(|ts|, w, shares);
    SumCongruent(|ts|, i => Times(w, shares(i)), SimRow(ts, j));
    UnitFactor(w, Sum(|ts|, shares));
  }

  lemma LonerSharesSum(ts: seq<Tokens>, j: int)
    requires !Social(ts, j)
    ensures Sum(|ts|, i => Share(ts, j, i)) == 0.0
  {
    var shares := i => Share(ts, j, i);
    forall i | 0 <= i < |ts| ensures shares(i) == 0.0 { ShareExactly(ts, j, i); }
    SumCongruent(|ts|, shares, i => 0.0);
    SumConstant(|ts|, 0.0);
  }

  /** A message hands out exactly its whole rank when it shares a word with another, else nothing. */
  lemma SharesSumExactly(ts: seq<Tokens>, j: int)
    ensures Sum(|ts|, i => Share(ts, j, i)) == if Social(ts, j) then 1.0 else 0.0
  {
    if Social(ts, j) { SocialSharesSum(ts, j); } else { LonerSharesSum(ts, j); }
  }

  // ---- Ranks -------------------------------------------------------------------------

  /** One round: the teleport share, and 0.85 of what the neighbours pass on. */
  lemma NextExactly(ts: seq<Tokens>, r: seq<real>, i: nat)
    requires |r| == |ts| && i < |ts|
    ensures Next(ts, r)[i] == 0.15 / |ts| as real + 0.85 * Sum(|ts|, j => Share(ts, j, i) * At(r, j))
  {
    FloorIsPositive(|ts|);
    SumCongruent(|ts|, Flow(ts, r, i), j => Share(ts, j, i) * At(r, j));
  }

  lemma InflowIff(ts: seq<Tokens>, r: seq<real>, i: nat)
    requires |r| == |ts| && i < |ts| && forall j :: 0 <= j < |r| ==> r[j] > 0.0
    ensures Inflow(ts, r, i) >= 0.0 && (Inflow(ts, r, i) > 0.0 <==> Social(ts, i))
  {
    forall j | 0 <= j < |ts| ensures 0.0 <= Flow(ts, r, i)(j) { ShareNonNegative(ts, j, i); }
    SumNonNegative(|ts|, Flow(ts, r, i));
    if j :| 0 <= j < |ts| && Linked(ts, i, j) {
      assert Linked(ts, j, i) by { assert ts[i] * ts[j] == ts[j] * ts[i]; }
      ShareExactly(ts, j, i);
      TimesPositive(Share(ts, j, i), At(r, j));
      assert Flow(ts, r, i)(j) <= Inflow(ts, r, i);
    } else {
      forall j | 0 <= j < |ts| ensures Flow(ts, r, i)(j) == 0.0 { UnlinkedFlow(ts, r, i, j); }
      SumCongruent(|ts|, Flow(ts, r, i), j => 0.0);
      SumConstant(|ts|, 0.0);
    }
  }

  lemma UnlinkedFlow(ts: seq<Tokens>, r: seq<real>, i: nat, j: nat)
    requires i < |ts| && j < |ts| && !Linked(ts, i, j)
    ensures Flow(ts, r, i)(j) == 0.0
  {
    assert ts[i] * ts[j] == ts[j] * ts[i];
    ShareExactly(ts, j, i);
    assert Times(0.0, At(r, j)) == 0.0;
  }

  /** From the first round on, a message has the least possible rank exactly when it shares no word with another. */
  lemma IsolatedRankIff(ts: seq<Tokens>, k: nat, i: nat)
    requires i < |ts| && k >= 1
    ensures Iterate(ts, k)[i] >= 0.15 / |ts| as real
    ensures Iterate(ts, k)[i] == 0.15 / |ts| as real <==> !Social(ts, i)
  {
    var r := Iterate(ts, k - 1);
    RanksArePositive(ts, r, k - 1);
    FloorIsPositive(|ts|);
    InflowIff(ts, r, i);
  }

  /** What all messages receive is what those that share a word with another had. */
  lemma TotalInflowExactly(ts: seq<Tokens>, v: seq<real>)
    requires |v| == |ts|
    ensures Sum(|ts|, i => Inflow(ts, v, i)) == Sum(|ts|, j => if Social(ts, j) then At(v, j) else 0.0)
  {
    var n := |ts|;
    var f := (i, j) => Times(Share(ts, j, i), At(v, j));
    SumSwap(n, n, f);
    forall i | 0 <= i < n ensures Sum(n, j => f(i, j)) == Inflow(ts, v, i) {
      SumCongruent(n, j => f(i, j), Flow(ts, v, i));
    }
    SumCongruent(n, i => Sum(n, j => f(i, j)), i => Inflow(ts, v, i));
    forall j | 0 <= j < n ensures Sum(n, i => f(i, j)) == if Social(ts, j) then At(v, j) else 0.0 {
      OutflowExactly(ts, v, j);
      SumCongruent(n, i => f(i, j), i => Times(At(v, j), Share(ts, j, i)));
    }
    SumCongruent(n, j => Sum(n, i => f(i, j)), j => if Social(ts, j) then At(v, j) else 0.0);
  }

  lemma OutflowExactly(ts: seq<Tokens>, v: seq<real>, j: int)
    ensures Sum(|ts|, i => Times(At(v, j), Share(ts, j, i))) == if Social(ts, j) then At(v, j) else 0.0
    ensures forall i :: Times(At(v, j), Share(ts, j, i)) == Times(Share(ts, j, i), At(v, j))
  {
    SumTimes(|ts|, At(v, j), i => Share(ts, j, i));
    SumCongruent(|ts|, i => Times(At(v, j), (i => Share(ts, j, i))(i)), i => Times(At(v, j), Share(ts, j, i)));
    SharesSumExactly(ts, j);
    TimesOne(At(v, j));
    assert Times(At(v, j), 0.0) == 0.0;
    forall i ensures Times(At(v, j), Share(ts, j, i)) == Times(Share(ts, j, i), At(v, j)) {
      TimesCommutes(At(v, j), Share(ts, j, i));
    }
  }

  predicate AllSocial(ts: seq<Tokens>) { forall i :: 0 <= i < |ts| ==> Social(ts, i) }

  lemma TotalNext(ts: seq<Tokens>, r: seq<real>)
    requires |r| == |ts| > 0
    ensures Total(Next(ts, r)) == 0.15 + 0.85 * Sum(|ts|, j => if Social(ts, j) then At(r, j) else 0.0)
  {
    TotalOfNext(ts, r);
    TotalInflowExactly(ts, r);
  }

  lemma {:induction false} SumStrictly(n: nat, f: int -> real, g: int -> real, k: nat)
    requires k < n && f(k) < g(k) && forall i :: 0 <= i < n ==> f(i) <= g(i)
    ensures Sum(n, f) < Sum(n, g)
  {
    if k == n - 1 { SumMonotone(n - 1, f, g); } else { SumStrictly(n - 1, f, g, k); }
  }

  /** Total rank stays one for ever exactly when every message shares a word with another. */
  lemma {:induction false} TotalStaysOneIff(ts: seq<Tokens>, k: nat)
    requires |ts| > 0 && k >= 1
    ensures Total(Iterate(ts, k)) == 1.0 <==> AllSocial(ts)
    ensures Total(Iterate(ts, k)) <= 1.0
    decreases k
  {
    var n, r := |ts|, Iterate(ts, k - 1);
    var passed := j => if Social(ts, j) then At(r, j) else 0.0;
    TotalNext(ts, r);
    TotalAtMostOne(ts, k);
    TotalAtMostOne(ts, k - 1);
    RanksArePositive(ts, r, k - 1);
    if AllSocial(ts) {
      SumCongruent(n, passed, Ranks(r));
      if k == 1 { StartIsOne(ts); } else { TotalStaysOneIff(ts, k - 1); }
    } else {
      var i :| 0 <= i < n && !Social(ts, i);
      SumStrictly(n, passed, Ranks(r), i);
    }
  }

  lemma TotalAtMostOne(ts: seq<Tokens>, k: nat)
    requires |ts| > 0
    ensures Total(Iterate(ts, k)) <= 1.0
  {
    IterateBounds(ts, k);
  }

  lemma StartIsOne(ts: seq<Tokens>)
    requires |ts| > 0
    ensures Total(Iterate(ts, 0)) == 1.0
  {
    StartBounds(|ts|);
    SumConstant(|ts|, 1.0 / |ts| as real);
    SumCongruent(|ts|, Ranks(Iterate(ts, 0)), i => 1.0 / |ts| as real);
  }

  // ---- Where the loop stops ------------------------------------------------------------

  lemma {:induction false} MaxDeltaIsLargest(a: seq<real>, b: seq<real>, n: nat, c: real)
    requires n <= |a| == |b| && c > 0.0
    ensures MaxDelta(a, b, n) < c <==> forall i :: 0 <= i < n ==> -c < a[i] - b[i] < c
  {
    if n > 0 { MaxDeltaIsLargest(a, b, n - 1, c); }
  }

  /** No rank moved by a millionth or more in round `k`. */
  ghost predicate Still(ts: seq<Tokens>, k: nat)
    requires |ts| > 0 && k >= 1
  {
    forall i :: 0 <= i < |ts| ==> -0.000001 < Iterate(ts, k)[i] - Iterate(ts, k - 1)[i] < 0.000001
  }

  lemma StillIff(ts: seq<Tokens>, k: nat)
    requires |ts| > 0 && k >= 1
    ensures MaxDelta(Iterate(ts, k), Iterate(ts, k - 1), |ts|) < TOLERANCE <==> Still(ts, k)
  {
    MaxDeltaIsLargest(Iterate(ts, k), Iterate(ts, k - 1), |ts|, 0.000001);
  }

  /** The loop stops after the first still round, or after the fiftieth. */
  lemma StopsIff(ts: seq<Tokens>, k: nat)
    requires |ts| > 0
    ensures StopsAt(ts, k) <==>
      1 <= k <= 50 && (k == 50 || Still(ts, k)) && forall j :: 1 <= j < k ==> !Still(ts, j)
  {
    if k >= 1 { StillIff(ts, k); }
    if StopsAt(ts, k) {
      forall j | 1 <= j < k ensures !Still(ts, j) {
        StillIff(ts, j);
        assert MaxDelta(Iterate(ts, j), Iterate(ts, j - 1), |ts|) >= TOLERANCE;
      }
    } else if 1 <= k <= 50 && forall j :: 1 <= j < k ==> !Still(ts, j) {
      forall j | 1 <= j < k ensures MaxDelta(Iterate(ts, j), Iterate(ts, j - 1), |ts|) >= TOLERANCE {
        StillIff(ts, j);
      }
    }
  }

  // ---- The scores ------------------------------------------------------------------------

  /** No rank is larger than that of message `m`. */
  predicate Tops(r: seq<real>, m: int) { 0 <= m < |r| && forall i :: 0 <= i < |r| ==> r[i] <= r[m] }

  /** `score` is `rank` over `top`. */
  predicate InRatio(score: real, rank: real, top: real) { score * top == rank }

  lemma RatioIs(score: real, rank: real, top: real)
    requires top > 0.0
    ensures InRatio(rank / top, rank, top)
    ensures InRatio(score, rank, top) ==> score == rank / top
  {
  }

  lemma RatiosCompare(a: real, b: real, x: real, y: real, top: real)
    requires top > 0.0 && InRatio(a, x, top) && InRatio(b, y, top)
    ensures (a < b <==> x < y) && (a == b <==> x == y)
  {
  }

  /** The score of an id is the rank of the last message with that id over the given rank. */
  predicate Proportional(ids: seq<string>, r: seq<real>, top: real, scores: map<string, real>) {
    forall i :: 0 <= i < |r| && LastAt(ids, i) ==> ids[i] in scores && InRatio(scores[ids[i]], r[i], top)
  }

  lemma KeyedProportional(ids: seq<string>, r: seq<real>, top: real)
    requires |ids| == |r| && top > 0.0
    ensures Proportional(ids, r, top, Keyed(ids, Normalised(r, top)))
  {
    var vals := Normalised(r, top);
    forall i | 0 <= i < |r| && LastAt(ids, i)
      ensures ids[i] in Keyed(ids, vals) && InRatio(Keyed(ids, vals)[ids[i]], r[i], top)
    {
      KeyedAtLast(ids, vals, i);
      RatioIs(vals[i], r[i], top);
    }
  }

  lemma TopExists(r: seq<real>) returns (m: nat)
    requires r != [] && forall i :: 0 <= i < |r| ==> r[i] > 0.0
    ensures Tops(r, m) && r[m] == MaxRank(r) > 0.0
  {
    MaxRankIsMax(r);
    m :| 0 <= m < |r| && r[m] == MaxRank(r);
  }

  /** The scores of two or more messages are the ranks at which the loop stops, over the largest of them. */
  lemma RankScoresAre(ids: seq<string>, ts: seq<Tokens>, scores: map<string, real>) returns (k: nat, m: nat)
    requires |ids| == |ts| >= 2 && AreRankScores(ids, ts, scores)
    ensures StopsAt(ts, k) && Tops(Iterate(ts, k), m) && Iterate(ts, k)[m] > 0.0
    ensures Proportional(ids, Iterate(ts, k), Iterate(ts, k)[m], scores)
  {
    var r :| FinalRanks(ts, r) && scores == Keyed(ids, Normalised(r, MaxRank(r)));
    k :| StopsAt(ts, k) && r == Iterate(ts, k);
    RanksArePositive(ts, r, k);
    m := TopExists(r);
    KeyedProportional(ids, r, r[m]);
  }

  predicate ScoresBelow(a: string, b: string, scores: map<string, real>, strictly: bool) {
    a in scores && b in scores && if strictly then scores[a] < scores[b] else scores[a] == scores[b]
  }

  /** Among the last messages with their ids, one that shares no word scores below every one that does. */
  predicate LonersScoreLeast(ids: seq<string>, ts: seq<Tokens>, scores: map<string, real>)
    requires |ids| == |ts|
  {
    forall i, j :: 0 <= i < |ts| && 0 <= j < |ts| && LastAt(ids, i) && LastAt(ids, j) && !Social(ts, i) ==>
      ScoresBelow(ids[i], ids[j], scores, Social(ts, j))
  }

  lemma RanksCompare(
    ids: seq<string>, r: seq<real>, top: real, scores: map<string, real>, i: nat, j: nat, strictly: bool)
    requires top > 0.0 && Proportional(ids, r, top, scores) && i < |r| && j < |r| && LastAt(ids, i) && LastAt(ids, j)
    requires if strictly then r[i] < r[j] else r[i] == r[j]
    ensures ScoresBelow(ids[i], ids[j], scores, strictly)
  {
    RatiosCompare(scores[ids[i]], scores[ids[j]], r[i], r[j], top);
  }

  lemma LonersRankLeast(ids: seq<string>, ts: seq<Tokens>, scores: map<string, real>)
    requires |ids| == |ts| >= 2 && AreRankScores(ids, ts, scores)
    ensures LonersScoreLeast(ids, ts, scores)
  {
    var k, m := RankScoresAre(ids, ts, scores);
    var r := Iterate(ts, k);
    forall i, j | 0 <= i < |ts| && 0 <= j < |ts| && LastAt(ids, i) && LastAt(ids, j) && !Social(ts, i)
      ensures ScoresBelow(ids[i], ids[j], scores, Social(ts, j))
    {
      IsolatedRankIff(ts, k, i);
      IsolatedRankIff(ts, k, j);
      RanksCompare(ids, r, r[m], scores, i, j, Social(ts, j));
    }
  }

  /** The score of a message that shares no word with another: the least rank over the largest. */
  lemma LonerScore(ids: seq<string>, ts: seq<Tokens>, scores: map<string, real>, i: nat) returns (k: nat, m: nat)
    requires |ids| == |ts| >= 2 && AreRankScores(ids, ts, scores)
    requires i < |ts| && !Social(ts, i) && LastAt(ids, i)
    ensures StopsAt(ts, k) && Tops(Iterate(ts, k), m) && Iterate(ts, k)[m] > 0.0
    ensures ids[i] in scores && scores[ids[i]] == 0.15 / |ts| as real / Iterate(ts, k)[m]
  {
    k, m := RankScoresAre(ids, ts, scores);
    IsolatedRankIff(ts, k, i);
    RatioIs(scores[ids[i]], 0.15 / |ts| as real, Iterate(ts, k)[m]);
  }
}
