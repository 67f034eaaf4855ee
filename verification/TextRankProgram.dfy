/** The array program behind TextRank, and the scores it returns. */
module TextRankProgram {
  import opened Collections
  import opened Reals
  import opened TextRank

  // ---- Scores ------------------------------------------------------------------------

  function MaxRank(r: seq<real>): real {
    if r == [] then 0.0
    else
      var rest := MaxRank(r[..|r| - 1]);
      if r[|r| - 1] > rest then r[|r| - 1] else rest
  }

  lemma {:induction false} MaxRankIsMax(r: seq<real>)
    requires forall i :: 0 <= i < |r| ==> r[i] > 0.0
    ensures forall i :: 0 <= i < |r| ==> r[i] <= MaxRank(r)
    ensures r != [] ==> MaxRank(r) > 0.0 && exists i :: 0 <= i < |r| && r[i] == MaxRank(r)
  {
    if r != [] {
      var front := r[..|r| - 1];
      MaxRankIsMax(front);
      if r[|r| - 1] <= MaxRank(front) && front != [] {
        var i :| 0 <= i < |front| && front[i] == MaxRank(front);
        assert r[i] == MaxRank(r);
      } else {
        assert r[|r| - 1] == MaxRank(r) || front != [];
      }
    }
  }

  predicate LastAt(ids: seq<string>, i: int) {
    0 <= i < |ids| && forall j :: i < j < |ids| ==> ids[j] != ids[i]
  }

  /** Values written id by id: a repeated id keeps its last value. */
  function Keyed(ids: seq<string>, vals: seq<real>): map<string, real>
    requires |ids| == |vals|
  {
    if ids == [] then map[]
    else
      var k := |ids| - 1;
      Keyed(ids[..k], vals[..k])[ids[k] := vals[k]]
  }

  lemma {:induction false} LastExists(ids: seq<string>, id: string)
    requires id in ids
    ensures exists i :: LastAt(ids, i) && ids[i] == id
  {
    var k := |ids| - 1;
    if id == ids[k] {
      assert LastAt(ids, k);
    } else {
      assert ids == ids[..k] + [ids[k]];
      LastExists(ids[..k], id);
      var i :| LastAt(ids[..k], i) && ids[..k][i] == id;
      assert LastAt(ids, i);
    }
  }

  lemma {:induction false} KeyedAtLast(ids: seq<string>, vals: seq<real>, i: int)
    requires |ids| == |vals| && LastAt(ids, i)
    ensures ids[i] in Keyed(ids, vals) && Keyed(ids, vals)[ids[i]] == vals[i]
  {
    var k := |ids| - 1;
    if i != k {
      assert LastAt(ids[..k], i);
      KeyedAtLast(ids[..k], vals[..k], i);
    }
  }

  lemma {:induction false} KeyedKeys(ids: seq<string>, vals: seq<real>)
    requires |ids| == |vals|
    ensures Keyed(ids, vals).Keys == ToSet(ids)
  {
    if ids != [] {
      var k := |ids| - 1;
      KeyedKeys(ids[..k], vals[..k]);
      assert ids == ids[..k] + [ids[k]];
    }
  }

  lemma KeyedByLast(ids: seq<string>, vals: seq<real>)
    requires |ids| == |vals|
    ensures Keyed(ids, vals).Keys == ToSet(ids)
    ensures forall i :: LastAt(ids, i) ==> Keyed(ids, vals)[ids[i]] == vals[i]
    ensures forall id :: id in ids ==> exists i :: LastAt(ids, i) && ids[i] == id
  {
    KeyedKeys(ids, vals);
    forall i | LastAt(ids, i) ensures Keyed(ids, vals)[ids[i]] == vals[i] { KeyedAtLast(ids, vals, i); }
    forall id | id in ids ensures exists i :: LastAt(ids, i) && ids[i] == id { LastExists(ids, id); }
  }

  function Normalised(r: seq<real>, top: real): (v: seq<real>)
    requires top > 0.0
    ensures |v| == |r|
  {
    seq(|r|, i requires 0 <= i < |r| => r[i] / top)
  }

  lemma DivideByTop(x: real, top: real)
    requires 0.0 < x <= top
    ensures 0.0 < x / top <= 1.0
    ensures x / top == 1.0 <==> x == top
  {
    DivideBounds(x, top);
    assert (x / top) * top == x;
  }

  lemma NormalisedBounds(r: seq<real>)
    requires r != [] && forall i :: 0 <= i < |r| ==> r[i] > 0.0
    ensures MaxRank(r) > 0.0
    ensures forall i :: 0 <= i < |r| ==>
      0.0 < Normalised(r, MaxRank(r))[i] <= 1.0 && (Normalised(r, MaxRank(r))[i] == 1.0 <==> r[i] == MaxRank(r))
  {
    MaxRankIsMax(r);
    forall i | 0 <= i < |r|
      ensures 0.0 < r[i] / MaxRank(r) <= 1.0 && (r[i] / MaxRank(r) == 1.0 <==> r[i] == MaxRank(r))
    {
      DivideByTop(r[i], MaxRank(r));
    }
  }

  /** Final scores lie in (0, 1]; the maximum is 1 exactly when a top rank is its id's last. */
  lemma FinalScores(ids: seq<string>, r: seq<real>)
    requires |ids| == |r| && r != [] && forall i :: 0 <= i < |r| ==> r[i] > 0.0
    ensures MaxRank(r) > 0.0
    ensures var scores := Keyed(ids, Normalised(r, MaxRank(r)));
      && scores.Keys == ToSet(ids)
      && (forall id :: id in scores ==> 0.0 < scores[id] <= 1.0)
      && ((exists id :: id in scores && scores[id] == 1.0)
            <==> exists i :: LastAt(ids, i) && r[i] == MaxRank(r))
  {
    NormalisedBounds(r);
    var vals := Normalised(r, MaxRank(r));
    KeyedScores(ids, r, vals, MaxRank(r));
  }

  lemma KeyedScores(ids: seq<string>, r: seq<real>, vals: seq<real>, top: real)
    requires |ids| == |r| == |vals|
    requires forall i :: 0 <= i < |r| ==> 0.0 < vals[i] <= 1.0 && (vals[i] == 1.0 <==> r[i] == top)
    ensures Keyed(ids, vals).Keys == ToSet(ids)
    ensures forall id :: id in Keyed(ids, vals) ==> 0.0 < Keyed(ids, vals)[id] <= 1.0
    ensures (exists id :: id in Keyed(ids, vals) && Keyed(ids, vals)[id] == 1.0)
      <==> exists i :: LastAt(ids, i) && r[i] == top
  {
    KeyedByLast(ids, vals);
    forall id | id in Keyed(ids, vals) ensures 0.0 < Keyed(ids, vals)[id] <= 1.0 {
      assert id in ToSet(ids);
      var i :| LastAt(ids, i) && ids[i] == id;
    }
    if id :| id in Keyed(ids, vals) && Keyed(ids, vals)[id] == 1.0 {
      assert id in ToSet(ids);
      var i :| LastAt(ids, i) && ids[i] == id;
      assert r[i] == top;
    }
    if i :| LastAt(ids, i) && r[i] == top {
      assert ids[i] in ToSet(ids);
      assert Keyed(ids, vals)[ids[i]] == 1.0;
    }
  }

  lemma DistinctIdsReachOne(ids: seq<string>, r: seq<real>)
    requires |ids| == |r| && r != [] && Distinct(ids) && forall i :: 0 <= i < |r| ==> r[i] > 0.0
    ensures exists i :: LastAt(ids, i) && r[i] == MaxRank(r)
  {
    MaxRankIsMax(r);
    var i :| 0 <= i < |r| && r[i] == MaxRank(r);
    assert LastAt(ids, i);
  }

  // ---- Stopping rule -----------------------------------------------------------------

  function MaxDelta(a: seq<real>, b: seq<real>, n: nat): real {
    if n == 0 then 0.0
    else
      var rest := MaxDelta(a, b, n - 1);
      var d := Abs(At(a, n - 1) - At(b, n - 1));
      if d > rest then d else rest
  }

  lemma MaxDeltaStep(a: seq<real>, b: seq<real>, i: nat, d: real)
    requires i < |a| == |b| && d == Abs(a[i] - b[i])
    ensures MaxDelta(a, b, i + 1) == if d > MaxDelta(a, b, i) then d else MaxDelta(a, b, i)
  {
  }

  /** The loop ends after the first round whose largest change is below the tolerance, or at the cap. */
  ghost predicate StopsAt(ts: seq<Tokens>, k: nat)
    requires |ts| > 0
  {
    && 1 <= k <= MAX_ROUNDS
    && (k == MAX_ROUNDS || MaxDelta(Iterate(ts, k), Iterate(ts, k - 1), |ts|) < TOLERANCE)
    && forall j :: 1 <= j < k ==> MaxDelta(Iterate(ts, j), Iterate(ts, j - 1), |ts|) >= TOLERANCE
  }

  /** The iterate at which the loop ends. */
  ghost predicate Converged(ts: seq<Tokens>, r: seq<real>)
    requires |ts| > 0
  {
    exists k :: StopsAt(ts, k) && r == Iterate(ts, k)
  }

  lemma ConvergedAt(ts: seq<Tokens>, r: seq<real>, k: nat)
    requires |ts| > 0 && StopsAt(ts, k) && r == Iterate(ts, k)
    ensures Converged(ts, r)
  {
  }

  // ---- The program -------------------------------------------------------------------

  type Weight = (int, int) -> real

  /** The pair loop standing at (i, j) has written exactly the pairs before it. */
  ghost predicate Symmetrised(w: Weight, n: nat, sim: array2<real>, i: nat, j: nat)
    reads sim
  {
    && sim.Length0 == sim.Length1 == n
    && forall a, b :: 0 <= a < n && 0 <= b < n ==>
         sim[a, b] == if a < i || b < i || (a == i && b < j) || (b == i && a < j) then w(a, b) else 0.0
  }

  /** How much of `a`'s row has been added up when the pair loop stands at (i, j). */
  function Added(i: nat, j: nat, a: nat, n: nat): nat {
    if a < i then n else if a == i then j else if a < j then i + 1 else i
  }

  function RowOf(w: Weight, a: int): int -> real { b => w(a, b) }

  ghost predicate WeightsAt(w: Weight, n: nat, out: array<real>, i: nat, j: nat)
    reads out
  {
    && out.Length == n
    && forall a :: 0 <= a < n ==> out[a] == Sum(Added(i, j, a, n), RowOf(w, a))
  }

  method WritePair(ghost w: Weight, n: nat, sim: array2<real>, i: nat, j: nat, v: real)
    requires i < j < n && v == w(i, j) == w(j, i) && Symmetrised(w, n, sim, i, j)
    modifies sim
    ensures Symmetrised(w, n, sim, i, j + 1)
  {
    sim[i, j] := v;
    sim[j, i] := v;
  }

  method AddWeights(ghost w: Weight, n: nat, out: array<real>, i: nat, j: nat, v: real)
    requires i < j < n && v == w(i, j) == w(j, i) && WeightsAt(w, n, out, i, j)
    modifies out
    ensures WeightsAt(w, n, out, i, j + 1)
  {
    assert Sum(j + 1, RowOf(w, i)) == Sum(j, RowOf(w, i)) + v;
    assert Sum(i + 1, RowOf(w, j)) == Sum(i, RowOf(w, j)) + v;
    out[i] := out[i] + v;
    out[j] := out[j] + v;
  }

  method AddPair(ghost w: Weight, n: nat, sim: array2<real>, out: array<real>, i: nat, j: nat, v: real)
    requires i < j < n && v == w(i, j) == w(j, i)
    requires Symmetrised(w, n, sim, i, j) && WeightsAt(w, n, out, i, j)
    modifies sim, out
    ensures Symmetrised(w, n, sim, i, j + 1) && WeightsAt(w, n, out, i, j + 1)
  {
    WritePair(w, n, sim, i, j, v);
    AddWeights(w, n, out, i, j, v);
  }

  function SimOf(ts: seq<Tokens>): Weight { (a, b) => Sim(ts, a, b) }

  /** The similarity of two messages; an empty token set makes it zero. */
  method PairSimilarity(ts: seq<Tokens>, i: nat, j: nat) returns (v: real)
    requires i < j < |ts|
    ensures v == Sim(ts, i, j) == Sim(ts, j, i)
    ensures v * |ts[i] + ts[j]| as real == |ts[i] * ts[j]| as real
  {
    SimBounds(ts, i, j);
    JaccardExactly(ts[i], ts[j]);
    v := 0.0;
    if ts[i] != {} && ts[j] != {} {
      SharedSize(ts[i], ts[j]);
      var shared := |ts[i] * ts[j]|;
      v := shared as real / (|ts[i]| + |ts[j]| - shared) as real;
    }
  }

  function Later(ts: seq<Tokens>, i: nat): seq<real>
    requires i < |ts|
  {
    seq(|ts| - i - 1, k => Sim(ts, i, i + 1 + k))
  }

  /** The similarities of message `i` to the later ones. */
  method LaterSimilarities(ts: seq<Tokens>, i: nat) returns (vals: seq<real>)
    requires i < |ts|
    ensures vals == Later(ts, i)
  {
    ghost var later := Later(ts, i);
    vals := [];
    for j := i + 1 to |ts|
      invariant |vals| == j - i - 1 && vals == later[..|vals|]
    {
      var v := PairSimilarity(ts, i, j);
      assert later[|vals|] == Sim(ts, i, j);
      vals := vals + [v];
    }
  }

  /** The values are the weights between `i` and the later messages, both ways. */
  ghost predicate RowValues(w: Weight, i: nat, vals: seq<real>) {
    forall k :: 0 <= k < |vals| ==> vals[k] == w(i, i + 1 + k) == w(i + 1 + k, i)
  }

  lemma LaterValues(ts: seq<Tokens>, i: nat)
    requires i < |ts|
    ensures RowValues(SimOf(ts), i, Later(ts, i))
  {
    var vals := Later(ts, i);
    forall k | 0 <= k < |vals| ensures vals[k] == SimOf(ts)(i, i + 1 + k) == SimOf(ts)(i + 1 + k, i) {
      LaterValue(ts, i, k);
    }
  }

  lemma LaterValue(ts: seq<Tokens>, i: nat, k: nat)
    requires i < |ts| && k < |Later(ts, i)|
    ensures Later(ts, i)[k] == Sim(ts, i, i + 1 + k) == Sim(ts, i + 1 + k, i)
  {
    SimBounds(ts, i, i + 1 + k);
  }

  method ScoreRow(ghost w: Weight, n: nat, sim: array2<real>, out: array<real>, i: nat, vals: seq<real>)
    requires i < n && |vals| == n - i - 1 && w(i, i) == 0.0
    requires RowValues(w, i, vals)
    requires Symmetrised(w, n, sim, i, i) && WeightsAt(w, n, out, i, i)
    modifies sim, out
    ensures Symmetrised(w, n, sim, i + 1, i + 1) && WeightsAt(w, n, out, i + 1, i + 1)
  {
    RowStart(w, n, sim, out, i);
    for j := i + 1 to n
      invariant Symmetrised(w, n, sim, i, j) && WeightsAt(w, n, out, i, j)
    {
      AddPair(w, n, sim, out, i, j, vals[j - i - 1]);
    }
    RowEnd(w, n, sim, out, i);
  }

  lemma RowStart(w: Weight, n: nat, sim: array2<real>, out: array<real>, i: nat)
    requires i < n && w(i, i) == 0.0 && Symmetrised(w, n, sim, i, i) && WeightsAt(w, n, out, i, i)
    ensures Symmetrised(w, n, sim, i, i + 1) && WeightsAt(w, n, out, i, i + 1)
  {
    assert Sum(i + 1, RowOf(w, i)) == Sum(i, RowOf(w, i));
  }

  lemma RowEnd(w: Weight, n: nat, sim: array2<real>, out: array<real>, i: nat)
    requires i < n && Symmetrised(w, n, sim, i, n) && WeightsAt(w, n, out, i, n)
    ensures Symmetrised(w, n, sim, i + 1, i + 1) && WeightsAt(w, n, out, i + 1, i + 1)
  {
  }

  method BuildSimilarity(ts: seq<Tokens>) returns (sim: array2<real>, out: array<real>)
    ensures fresh(sim) && fresh(out)
    ensures SimilarityBuilt(ts, sim, out)
  {
    var n := |ts|;
    ghost var w := SimOf(ts);
    sim := new real[n, n]((_, _) => 0.0);
    out := new real[n](_ => 0.0);
    for i := 0 to n
      invariant fresh(sim) && fresh(out)
      invariant Symmetrised(w, n, sim, i, i) && WeightsAt(w, n, out, i, i)
    {
      var vals := LaterSimilarities(ts, i);
      LaterValues(ts, i);
      ScoreRow(w, n, sim, out, i, vals);
    }
    forall a | 0 <= a < n ensures out[a] == OutWeight(ts, a) {
      SumCongruent(n, RowOf(w, a), SimRow(ts, a));
    }
  }

  ghost predicate SimilarityBuilt(ts: seq<Tokens>, sim: array2<real>, out: array<real>)
    reads sim, out
  {
    && sim.Length0 == sim.Length1 == out.Length == |ts|
    && (forall a, b :: 0 <= a < |ts| && 0 <= b < |ts| ==> sim[a, b] == Sim(ts, a, b))
    && (forall a :: 0 <= a < |ts| ==> out[a] == OutWeight(ts, a))
  }

  /** One entry of the next rank vector. */
  method RankOf(
    ts: seq<Tokens>, sim: array2<real>, out: array<real>, ranks: array<real>, i: nat, ghost r: seq<real>)
    returns (rank: real)
    requires i < |ts| == ranks.Length && SimilarityBuilt(ts, sim, out) && ranks[..] == r
    ensures rank == Next(ts, r)[i]
  {
    var n := |ts|;
    var ws := 0.0;
    for j := 0 to n
      invariant ws == Sum(j, Flow(ts, r, i))
    {
      if i != j && sim[j, i] > 0.0 && out[j] > 0.0 {
        ws := ws + Times(sim[j, i] / out[j], ranks[j]);
      } else {
        assert Share(ts, j, i) == 0.0;
        assert Flow(ts, r, i)(j) == Times(0.0, At(r, j)) == 0.0;
      }
    }
    rank := (1.0 - DAMPING) / n as real + DAMPING * ws;
  }

  method RankAndDelta(
    ts: seq<Tokens>, sim: array2<real>, out: array<real>, ranks: array<real>, i: nat, ghost r: seq<real>,
    maxDelta: real)
    returns (rank: real, delta: real)
    requires i < |ts| == ranks.Length && SimilarityBuilt(ts, sim, out) && ranks[..] == r
    ensures rank == Next(ts, r)[i]
    ensures delta == if Abs(rank - r[i]) > maxDelta then Abs(rank - r[i]) else maxDelta
  {
    rank := RankOf(ts, sim, out, ranks, i, r);
    var d := Abs(rank - ranks[i]);
    delta := if d > maxDelta then d else maxDelta;
  }

  method NextRanks(ts: seq<Tokens>, sim: array2<real>, out: array<real>, ranks: array<real>)
    returns (newRanks: seq<real>, maxDelta: real)
    requires ranks.Length == |ts| > 0 && SimilarityBuilt(ts, sim, out)
    ensures newRanks == Next(ts, ranks[..])
    ensures maxDelta == MaxDelta(newRanks, ranks[..], |ts|)
  {
    ghost var r := ranks[..];
    ghost var next := Next(ts, r);
    newRanks := [];
    maxDelta := 0.0;
    for i := 0 to |ts|
      invariant newRanks == next[..i]
      invariant maxDelta == MaxDelta(next, r, i)
    {
      var rank, delta := RankAndDelta(ts, sim, out, ranks, i, r, maxDelta);
      MaxDeltaStep(next, r, i, Abs(rank - r[i]));
      newRanks, maxDelta := newRanks + [rank], delta;
    }
  }

  method Round(ts: seq<Tokens>, sim: array2<real>, out: array<real>, ranks: array<real>) returns (maxDelta: real)
    requires ranks.Length == |ts| > 0 && ranks != out && SimilarityBuilt(ts, sim, out)
    modifies ranks
    ensures ranks[..] == Next(ts, old(ranks[..]))
    ensures maxDelta == MaxDelta(ranks[..], old(ranks[..]), |ts|)
  {
    var newRanks, delta := NextRanks(ts, sim, out, ranks);
    maxDelta := delta;
    for i := 0 to |ts|
      invariant ranks[..i] == newRanks[..i]
    {
      ranks[i] := newRanks[i];
    }
    assert ranks[..] == newRanks;
  }

  /** Iterate until the largest change is below the tolerance, or for the capped number of rounds. */
  method Converge(ts: seq<Tokens>) returns (r: seq<real>, ghost k: nat)
    requires |ts| > 0
    ensures Converged(ts, r) && StopsAt(ts, k) && r == Iterate(ts, k)
  {
    var n := |ts|;
    var sim, out := BuildSimilarity(ts);
    var ranks := new real[n](_ => 1.0 / n as real);
    k := 0;
    var iter := 0;
    var done := false;
    assert ranks[..] == Iterate(ts, 0);
    while iter < MAX_ROUNDS && !done
      invariant k == iter <= MAX_ROUNDS && ranks[..] == Iterate(ts, k) && SimilarityBuilt(ts, sim, out)
      invariant forall j :: 1 <= j < k ==> MaxDelta(Iterate(ts, j), Iterate(ts, j - 1), n) >= TOLERANCE
      invariant k > 0 ==> (done <==> MaxDelta(Iterate(ts, k), Iterate(ts, k - 1), n) < TOLERANCE)
      invariant k == 0 ==> !done
    {
      var maxDelta := Round(ts, sim, out, ranks);
      iter, k := iter + 1, k + 1;
      done := maxDelta < TOLERANCE;
    }
    r := ranks[..];
    ConvergedAt(ts, r, k);
  }

  method Largest(r: seq<real>) returns (maxRank: real)
    ensures maxRank == MaxRank(r)
  {
    maxRank := 0.0;
    for i := 0 to |r|
      invariant maxRank == MaxRank(r[..i])
    {
      assert r[..i + 1][..i] == r[..i];
      if r[i] > maxRank { maxRank := r[i]; }
    }
    assert r[..|r|] == r;
  }

  method WriteScores(ids: seq<string>, r: seq<real>, top: real) returns (scores: map<string, real>)
    requires |ids| == |r| && top > 0.0
    ensures scores == Keyed(ids, Normalised(r, top))
  {
    ghost var vals := Normalised(r, top);
    scores := map[];
    for i := 0 to |ids|
      invariant scores == Keyed(ids[..i], vals[..i])
    {
      assert vals[..i + 1][..i] == vals[..i] && ids[..i + 1][..i] == ids[..i];
      scores := scores[ids[i] := r[i] / top];
    }
    assert vals[..|ids|] == vals && ids[..|ids|] == ids;
  }

  /** The rank vector the scores come from. */
  ghost predicate FinalRanks(ts: seq<Tokens>, r: seq<real>)
    requires |ts| > 0
  {
    |r| == |ts| && MaxRank(r) > 0.0 && Converged(ts, r)
  }

  /** No message, a single message with score 1, or the converged ranks over the largest one. */
  ghost predicate AreRankScores(ids: seq<string>, ts: seq<Tokens>, scores: map<string, real>)
    requires |ids| == |ts|
  {
    if |ts| == 0 then scores == map[]
    else if |ts| == 1 then scores == map[ids[0] := 1.0]
    else exists r :: FinalRanks(ts, r) && scores == Keyed(ids, Normalised(r, MaxRank(r)))
  }

  /** The loop has one place to stop, so the ranks and the scores are determined. */
  lemma FinalRanksUnique(ts: seq<Tokens>, r: seq<real>, s: seq<real>)
    requires |ts| > 0 && FinalRanks(ts, r) && FinalRanks(ts, s)
    ensures r == s
  {
    var i :| StopsAt(ts, i) && r == Iterate(ts, i);
    var j :| StopsAt(ts, j) && s == Iterate(ts, j);
    assert i == j;
  }

  lemma RankScoresUnique(ids: seq<string>, ts: seq<Tokens>, scores: map<string, real>, others: map<string, real>)
    requires |ids| == |ts| && AreRankScores(ids, ts, scores) && AreRankScores(ids, ts, others)
    ensures scores == others
  {
    if |ts| >= 2 {
      var r :| FinalRanks(ts, r) && scores == Keyed(ids, Normalised(r, MaxRank(r)));
      var s :| FinalRanks(ts, s) && others == Keyed(ids, Normalised(s, MaxRank(s)));
      FinalRanksUnique(ts, r, s);
    }
  }

  /**
   * The scores of two or more messages: the converged ranks over the largest one,
   * all in (0, 1], reaching 1 whenever the ids are distinct.
   */
  method TextRankMessages(ids: seq<string>, ts: seq<Tokens>) returns (scores: map<string, real>)
    requires |ids| == |ts|
    ensures AreRankScores(ids, ts, scores)
    ensures |ids| == 0 ==> scores == map[]
    ensures |ids| == 1 ==> scores == map[ids[0] := 1.0]
    ensures scores.Keys == ToSet(ids)
    ensures forall id :: id in scores ==> 0.0 < scores[id] <= 1.0
    ensures ids != [] && Distinct(ids) ==> exists id :: id in scores && scores[id] == 1.0
  {
    if |ts| == 0 { return map[]; }
    if |ts| == 1 {
      scores := map[ids[0] := 1.0];
      assert ids[0] in scores && scores[ids[0]] == 1.0;
      return;
    }
    var r, k := Converge(ts);
    RanksArePositive(ts, r, k);
    FinalScores(ids, r);
    var maxRank := Largest(r);
    scores := WriteScores(ids, r, maxRank);
    assert FinalRanks(ts, r);
    if Distinct(ids) { DistinctIdsReachOne(ids, r); }
  }

  lemma RanksArePositive(ts: seq<Tokens>, r: seq<real>, k: nat)
    requires |ts| > 0 && r == Iterate(ts, k)
    ensures forall i :: 0 <= i < |r| ==> r[i] > 0.0
  {
    IterateBounds(ts, k);
    FloorIsPositive(|ts|);
  }
}
