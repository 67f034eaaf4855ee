/** Pruning a conversation to a token budget, and the compaction built on it. */
module Compaction {
  import opened Collections
  import opened StableSort
  import opened Messages
  import opened NearDuplicates
  import opened Scoring
  import TextRank
  import TextRankProgram

  function ScoreOf(scores: Scores, m: Message): real { ScoreAt(scores, m.id) }

  // ---- What a pruning keeps ---------------------------------------------------------

  /** System messages, the first one and the last two are always kept. */
  predicate Forced(list: seq<Message>, i: int) {
    && 0 <= i < |list|
    && (list[i].role.System? || i == 0 || i == |list| - 1 || i == |list| - 2)
  }

  function ForcedSet(list: seq<Message>): set<int> { set i | 0 <= i < |list| && Forced(list, i) }

  function Cost(list: seq<Message>, i: int): nat
    requires 0 <= i < |list|
  {
    Tokens(list[i].content)
  }

  /** Tokens of the messages before `n` whose index is in `keep`. */
  function CostIn(list: seq<Message>, keep: set<int>, n: nat): nat
    requires n <= |list|
  {
    if n == 0 then 0 else CostIn(list, keep, n - 1) + if n - 1 in keep then Cost(list, n - 1) else 0
  }

  function TotalIn(list: seq<Message>, keep: set<int>): nat { CostIn(list, keep, |list|) }

  lemma {:induction false} CostAdd(list: seq<Message>, keep: set<int>, i: int, n: nat)
    requires n <= |list| && 0 <= i < |list| && i !in keep
    ensures CostIn(list, keep + {i}, n) == CostIn(list, keep, n) + if i < n then Cost(list, i) else 0
  {
    if n > 0 { CostAdd(list, keep, i, n - 1); }
  }

  lemma {:induction false} CostMonotone(list: seq<Message>, small: set<int>, large: set<int>, n: nat)
    requires n <= |list| && small <= large
    ensures CostIn(list, small, n) <= CostIn(list, large, n)
  {
    if n > 0 { CostMonotone(list, small, large, n - 1); }
  }

  /** Whether dropping `i` is considered only after dropping `j` was: a higher score, or the same and earlier. */
  predicate Outranks(list: seq<Message>, scores: Scores, j: int, i: int)
    requires 0 <= i < |list| && 0 <= j < |list|
  {
    || GivenScore(scores, list[j]) > GivenScore(scores, list[i])
    || (GivenScore(scores, list[j]) == GivenScore(scores, list[i]) && j < i)
  }

  /** The score given for the message's id; without one it counts as zero. */
  function GivenScore(scores: Scores, m: Message): real { if m.id in scores then scores[m.id] else 0.0 }

  datatype Candidate = Candidate(index: int, score: real)

  function ByScore(): (Candidate, Candidate) -> bool { (a: Candidate, b: Candidate) => a.score >= b.score }

  function Candidates(list: seq<Message>, scores: Scores, from: nat): seq<Candidate>
    requires from <= |list|
    decreases |list| - from
  {
    if from == |list| then []
    else
      var rest := Candidates(list, scores, from + 1);
      if Forced(list, from) then rest else [Candidate(from, ScoreOf(scores, list[from]))] + rest
  }

  function Ranked(list: seq<Message>, scores: Scores): seq<Candidate> {
    Sort(Candidates(list, scores, 0), ByScore())
  }

  /** Take the candidates in turn, each while it still fits. */
  function Greedy(list: seq<Message>, ranked: seq<Candidate>, keep: set<int>, target: int): set<int>
    requires forall c :: c in ranked ==> 0 <= c.index < |list|
  {
    if ranked == [] then keep
    else
      var before := Greedy(list, ranked[..|ranked| - 1], keep, target);
      var i := ranked[|ranked| - 1].index;
      assert ranked[|ranked| - 1] in ranked;
      if TotalIn(list, before) + Cost(list, i) <= target then before + {i} else before
  }

  // ---- Candidates are ranked by score, then position --------------------------------

  predicate IsCandidate(list: seq<Message>, scores: Scores, c: Candidate) {
    && 0 <= c.index < |list|
    && !Forced(list, c.index)
    && c.score == GivenScore(scores, list[c.index])
  }

  predicate StrictlyRanked(s: seq<Candidate>) {
    forall a, b :: 0 <= a < b < |s| ==> RankedBefore(s[a], s[b])
  }

  predicate RankedBefore(a: Candidate, b: Candidate) {
    a.score > b.score || (a.score == b.score && a.index < b.index)
  }

  lemma {:induction false} CandidatesListed(list: seq<Message>, scores: Scores, from: nat)
    requires from <= |list|
    ensures forall c :: c in Candidates(list, scores, from) <==> IsCandidate(list, scores, c) && from <= c.index
    decreases |list| - from
  {
    if from < |list| { CandidatesListed(list, scores, from + 1); }
  }

  lemma {:induction false} InsertKeepsRank(x: Candidate, s: seq<Candidate>)
    requires StrictlyRanked(s) && forall c :: c in s ==> x.index < c.index
    ensures StrictlyRanked(Insert(x, s, ByScore()))
    ensures forall c :: c in Insert(x, s, ByScore()) <==> c == x || c in s
  {
    if s != [] && x.score < s[0].score {
      InsertKeepsRank(x, s[1..]);
      var r := Insert(x, s[1..], ByScore());
      forall b | 0 <= b < |r| ensures RankedBefore(s[0], r[b]) {
        assert r[b] in r;
      }
    }
  }

  /** Inserting the next candidate into the ranking of the later ones. */
  lemma RankedOneMore(c: Candidate, rest: seq<Candidate>)
    requires StrictlyRanked(Sort(rest, ByScore())) && forall d :: d in rest ==> c.index < d.index
    requires forall d :: d in Sort(rest, ByScore()) <==> d in rest
    ensures StrictlyRanked(Sort([c] + rest, ByScore()))
    ensures forall d :: d in Sort([c] + rest, ByScore()) <==> d in [c] + rest
  {
    assert ([c] + rest)[1..] == rest;
    InsertKeepsRank(c, Sort(rest, ByScore()));
  }

  lemma {:induction false} RankedFrom(list: seq<Message>, scores: Scores, from: nat)
    requires from <= |list|
    ensures StrictlyRanked(Sort(Candidates(list, scores, from), ByScore()))
    ensures forall c :: c in Sort(Candidates(list, scores, from), ByScore()) <==>
      c in Candidates(list, scores, from)
    decreases |list| - from
  {
    if from < |list| {
      RankedFrom(list, scores, from + 1);
      if !Forced(list, from) {
        CandidatesListed(list, scores, from + 1);
        RankedOneMore(Candidate(from, ScoreOf(scores, list[from])), Candidates(list, scores, from + 1));
      }
    }
  }

  lemma RankedFacts(list: seq<Message>, scores: Scores)
    ensures StrictlyRanked(Ranked(list, scores))
    ensures forall c :: c in Ranked(list, scores) <==> IsCandidate(list, scores, c)
  {
    RankedFrom(list, scores, 0);
    CandidatesListed(list, scores, 0);
  }

  // ---- Which messages survive -------------------------------------------------------

  function Kept(list: seq<Message>, scores: Scores, target: int): set<int> {
    RankedFacts(list, scores);
    Greedy(list, Ranked(list, scores), ForcedSet(list), target)
  }

  predicate InRange(list: seq<Message>, ranked: seq<Candidate>) {
    forall c :: c in ranked ==> 0 <= c.index < |list|
  }

  predicate IndicesDiffer(ranked: seq<Candidate>) {
    forall a, b :: 0 <= a < b < |ranked| ==> ranked[a].index != ranked[b].index
  }

  /** Later candidates never change the verdict on an earlier one. */
  lemma {:induction false} GreedyDecides(
    list: seq<Message>, ranked: seq<Candidate>, keep: set<int>, target: int, k: nat, x: int)
    requires InRange(list, ranked) && k <= |ranked|
    requires forall a :: k <= a < |ranked| ==> ranked[a].index != x
    ensures x in Greedy(list, ranked[..k], keep, target) <==> x in Greedy(list, ranked, keep, target)
  {
    if k < |ranked| {
      var front := ranked[..|ranked| - 1];
      assert front[..k] == ranked[..k];
      GreedyDecides(list, front, keep, target, k, x);
    } else {
      assert ranked[..k] == ranked;
    }
  }

  lemma {:induction false} GreedyCovers(list: seq<Message>, ranked: seq<Candidate>, keep: set<int>, target: int)
    requires InRange(list, ranked)
    ensures keep <= Greedy(list, ranked, keep, target)
    ensures forall x :: x in Greedy(list, ranked, keep, target) ==> x in keep || HasIndex(ranked, x)
  {
    if ranked != [] {
      var front := ranked[..|ranked| - 1];
      GreedyCovers(list, front, keep, target);
      forall x | x in Greedy(list, front, keep, target) ensures x in keep || HasIndex(ranked, x) {
        if x !in keep {
          var a :| 0 <= a < |front| && front[a].index == x;
          assert ranked[a].index == x;
        }
      }
      assert ranked[|ranked| - 1].index == ranked[|ranked| - 1].index;
    }
  }

  predicate HasIndex(ranked: seq<Candidate>, x: int) {
    exists a :: 0 <= a < |ranked| && ranked[a].index == x
  }

  lemma RankedIndices(list: seq<Message>, scores: Scores)
    ensures InRange(list, Ranked(list, scores)) && IndicesDiffer(Ranked(list, scores))
    ensures forall x :: HasIndex(Ranked(list, scores), x) <==> 0 <= x < |list| && !Forced(list, x)
  {
    RankedFacts(list, scores);
    var r := Ranked(list, scores);
    forall a, b | 0 <= a < b < |r| ensures r[a].index != r[b].index {
      assert RankedBefore(r[a], r[b]) && r[a] in r && r[b] in r;
    }
    forall x ensures HasIndex(r, x) <==> 0 <= x < |list| && !Forced(list, x) {
      if 0 <= x < |list| && !Forced(list, x) {
        assert IsCandidate(list, scores, Candidate(x, ScoreOf(scores, list[x])));
        assert Candidate(x, ScoreOf(scores, list[x])) in r;
      }
      if HasIndex(r, x) {
        var a :| 0 <= a < |r| && r[a].index == x;
        assert r[a] in r;
      }
    }
  }

  lemma KeptFacts(list: seq<Message>, scores: Scores, target: int)
    ensures forall x :: x in Kept(list, scores, target) ==> 0 <= x < |list|
    ensures ForcedSet(list) <= Kept(list, scores, target)
    ensures forall x :: 0 <= x < |list| && (x == 0 || x >= |list| - 2 || list[x].role.System?) ==>
      x in Kept(list, scores, target)
  {
    RankedIndices(list, scores);
    GreedyCovers(list, Ranked(list, scores), ForcedSet(list), target);
  }

  /** The kept messages that were settled before `i`: the forced ones and the kept ones that outrank it. */
  function SettledBefore(list: seq<Message>, scores: Scores, target: int, i: int): set<int>
    requires 0 <= i < |list|
  {
    KeptFacts(list, scores, target);
    set j | j in Kept(list, scores, target) && (Forced(list, j) || Outranks(list, scores, j, i))
  }

  lemma RankOrder(s: seq<Candidate>, a: nat, k: nat)
    requires StrictlyRanked(s) && a < |s| && k < |s| && RankedBefore(s[a], s[k])
    ensures a < k
  {
  }

  lemma GreedyBefore(list: seq<Message>, scores: Scores, target: int, k: nat)
    requires k < |Ranked(list, scores)|
    requires 0 <= Ranked(list, scores)[k].index < |list| && InRange(list, Ranked(list, scores)[..k])
    ensures Greedy(list, Ranked(list, scores)[..k], ForcedSet(list), target)
      == SettledBefore(list, scores, target, Ranked(list, scores)[k].index)
  {
    RankedIndices(list, scores);
    RankedFacts(list, scores);
    KeptFacts(list, scores, target);
    var r, forced := Ranked(list, scores), ForcedSet(list);
    var i := r[k].index;
    var before := Greedy(list, r[..k], forced, target);
    GreedyCovers(list, r[..k], forced, target);
    assert r[k] in r;
    forall x ensures x in before <==> x in SettledBefore(list, scores, target, i) {
      if x in before && x !in forced {
        var a :| 0 <= a < k && r[..k][a].index == x;
        assert r[a] in r && RankedBefore(r[a], r[k]);
        assert Outranks(list, scores, x, i);
        GreedyDecides(list, r, forced, target, k, x);
      }
      if x in SettledBefore(list, scores, target, i) && x !in forced {
        GreedyCovers(list, r, forced, target);
        var a :| 0 <= a < |r| && r[a].index == x;
        assert r[a] in r;
        RankOrder(r, a, k);
        GreedyDecides(list, r, forced, target, k, x);
      }
    }
  }

  /**
   * A message that is neither a system message nor the first nor one of the last two is
   * kept exactly when it fits beside those and the kept messages that score higher, or as
   * high and come earlier.
   */
  lemma KeptIff(list: seq<Message>, scores: Scores, target: int, i: int)
    requires 0 < i < |list| - 2 && !list[i].role.System?
    ensures i in Kept(list, scores, target) <==>
      TotalIn(list, SettledBefore(list, scores, target, i)) + Cost(list, i) <= target
  {
    RankedIndices(list, scores);
    var r := Ranked(list, scores);
    assert HasIndex(r, i);
    var k :| 0 <= k < |r| && r[k].index == i;
    GreedyBefore(list, scores, target, k);
    GreedyAt(list, r, ForcedSet(list), target, k);
  }

  /** The greedy choice takes a candidate exactly when it fits after those before it. */
  lemma GreedyAt(list: seq<Message>, ranked: seq<Candidate>, keep: set<int>, target: int, k: nat)
    requires InRange(list, ranked) && IndicesDiffer(ranked) && k < |ranked|
    requires 0 <= ranked[k].index < |list| && ranked[k].index !in keep
    ensures ranked[k].index in Greedy(list, ranked, keep, target) <==>
      TotalIn(list, Greedy(list, ranked[..k], keep, target)) + Cost(list, ranked[k].index) <= target
  {
    var upTo := ranked[..k + 1];
    assert upTo[..k] == ranked[..k];
    GreedyDecides(list, ranked, keep, target, k + 1, ranked[k].index);
    GreedyCovers(list, ranked[..k], keep, target);
    assert ranked[k].index !in Greedy(list, ranked[..k], keep, target);
  }

  /** No message was dropped that would still fit. */
  lemma NothingDroppedFits(list: seq<Message>, scores: Scores, target: int, i: int)
    requires 0 <= i < |list| && i !in Kept(list, scores, target)
    ensures TotalIn(list, Kept(list, scores, target)) + Cost(list, i) > target
  {
    KeptFacts(list, scores, target);
    KeptIff(list, scores, target, i);
    CostMonotone(list, SettledBefore(list, scores, target, i), Kept(list, scores, target), |list|);
  }

  lemma {:induction false} GreedyWithinBudget(list: seq<Message>, ranked: seq<Candidate>, keep: set<int>, target: int)
    requires InRange(list, ranked) && IndicesDiffer(ranked)
    requires forall c :: c in ranked ==> c.index !in keep
    ensures TotalIn(list, Greedy(list, ranked, keep, target)) <= Max(target, TotalIn(list, keep))
  {
    if ranked != [] {
      var last := |ranked| - 1;
      GreedyWithinBudget(list, ranked[..last], keep, target);
      GreedyCovers(list, ranked[..last], keep, target);
      assert ranked[last] in ranked;
      var before := Greedy(list, ranked[..last], keep, target);
      CostAdd(list, before, ranked[last].index, |list|);
    }
  }

  /** The kept messages fit the budget, or the forced ones alone exceed it and cost as much. */
  lemma KeptWithinBudget(list: seq<Message>, scores: Scores, target: int)
    ensures TotalIn(list, Kept(list, scores, target)) <= Max(target, TotalIn(list, ForcedSet(list)))
  {
    RankedIndices(list, scores);
    var r := Ranked(list, scores);
    forall c | c in r ensures c.index !in ForcedSet(list) {
      var a :| 0 <= a < |r| && r[a] == c;
      assert HasIndex(r, c.index);
    }
    GreedyWithinBudget(list, r, ForcedSet(list), target);
  }

  // ---- The pruned list --------------------------------------------------------------

  /** The members of `keep` below `n`, ascending. */
  function InOrder(keep: set<int>, n: nat): seq<int> {
    if n == 0 then [] else InOrder(keep, n - 1) + if n - 1 in keep then [n - 1] else []
  }

  lemma {:induction false} InOrderFacts(keep: set<int>, n: nat)
    ensures Ascending(InOrder(keep, n)) && Within(InOrder(keep, n), n)
    ensures forall i :: i in InOrder(keep, n) <==> 0 <= i < n && i in keep
  {
    if n > 0 { InOrderFacts(keep, n - 1); }
  }

  lemma {:induction false} AscendingIsUnique(s: seq<int>, t: seq<int>)
    requires Ascending(s) && Ascending(t)
    requires forall x :: x in s <==> x in t
    ensures s == t
  {
    assert s != [] ==> s[0] in s;
    assert t != [] ==> t[0] in t;
    if s != [] {
      assert s[0] == t[0];
      forall x ensures x in s[1..] <==> x in t[1..] {
        assert s[0] !in s[1..] && t[0] !in t[1..];
        assert x in s[1..] <==> x in s && x != s[0];
        assert x in t[1..] <==> x in t && x != t[0];
      }
      AscendingIsUnique(s[1..], t[1..]);
    }
  }

  function KeptInOrder(list: seq<Message>, scores: Scores, target: int): (r: seq<int>)
    ensures Ascending(r) && Within(r, |list|)
    ensures forall i :: i in r <==> i in Kept(list, scores, target)
  {
    KeptFacts(list, scores, target);
    InOrderFacts(Kept(list, scores, target), |list|);
    InOrder(Kept(list, scores, target), |list|)
  }

  function Pruned(list: seq<Message>, scores: Scores, target: int): seq<Message> {
    At(list, KeptInOrder(list, scores, target))
  }

  function ListTokens(ms: seq<Message>): nat {
    if ms == [] then 0 else ListTokens(ms[..|ms| - 1]) + Tokens(ms[|ms| - 1].content)
  }

  lemma TokensOfOneMore(list: seq<Message>, indices: seq<int>, i: int)
    requires Within(indices, |list|) && 0 <= i < |list|
    ensures Within(indices + [i], |list|)
    ensures ListTokens(At(list, indices + [i])) == ListTokens(At(list, indices)) + Cost(list, i)
  {
    assert At(list, indices + [i])[..|indices|] == At(list, indices);
  }

  /** The kept messages before `n`, in order. */
  function KeptBefore(list: seq<Message>, keep: set<int>, n: nat): seq<Message>
    requires n <= |list|
  {
    InOrderFacts(keep, n);
    At(list, InOrder(keep, n))
  }

  lemma KeptBeforeNext(list: seq<Message>, keep: set<int>, n: nat)
    requires 0 < n <= |list|
    ensures ListTokens(KeptBefore(list, keep, n))
      == ListTokens(KeptBefore(list, keep, n - 1)) + if n - 1 in keep then Cost(list, n - 1) else 0
  {
    var before := InOrder(keep, n - 1);
    InOrderFacts(keep, n - 1);
    if n - 1 in keep {
      assert InOrder(keep, n) == before + [n - 1];
      TokensOfOneMore(list, before, n - 1);
    } else {
      assert InOrder(keep, n) == before;
    }
  }

  lemma {:induction false} TokensOfKept(list: seq<Message>, keep: set<int>, n: nat)
    requires n <= |list|
    ensures ListTokens(KeptBefore(list, keep, n)) == CostIn(list, keep, n)
  {
    if n > 0 {
      TokensOfKept(list, keep, n - 1);
      KeptBeforeNext(list, keep, n);
    }
  }

  /** The pruned list costs at most the target, or exactly what cannot be dropped. */
  lemma PrunedWithinBudget(list: seq<Message>, scores: Scores, target: int)
    ensures ListTokens(Pruned(list, scores, target)) <= Max(target, TotalIn(list, ForcedSet(list)))
  {
    KeptWithinBudget(list, scores, target);
    TokensOfKept(list, Kept(list, scores, target), |list|);
  }

  // ---- The pruning loop -------------------------------------------------------------

  method AddOnce(keep: seq<int>, i: int) returns (r: seq<int>)
    requires Distinct(keep)
    ensures Distinct(r) && ToSet(r) == ToSet(keep) + {i}
  {
    if i in keep { assert ToSet(keep) == ToSet(keep) + {i}; return keep; }
    r := keep + [i];
  }

  method ForceIndices(list: seq<Message>) returns (keep: seq<int>)
    ensures Distinct(keep) && ToSet(keep) == ForcedSet(list)
  {
    keep := [];
    for i := 0 to |list|
      invariant Distinct(keep)
      invariant ToSet(keep) == set j | 0 <= j < i && list[j].role.System?
    {
      if list[i].role.System? { keep := AddOnce(keep, i); }
    }
    if |list| > 0 { keep := AddOnce(keep, 0); }
    if |list| > 1 { keep := AddOnce(keep, |list| - 1); }
    if |list| > 2 { keep := AddOnce(keep, |list| - 2); }
  }

  method TokensOf(list: seq<Message>, keep: seq<int>) returns (tokens: nat)
    requires Distinct(keep) && Within(keep, |list|)
    ensures tokens == TotalIn(list, ToSet(keep))
  {
    tokens := 0;
    NothingCosts(list, |list|);
    for k := 0 to |keep|
      invariant tokens == TotalIn(list, ToSet(keep[..k]))
    {
      PrefixGrows(keep, k);
      CostAdd(list, ToSet(keep[..k]), keep[k], |list|);
      var cost := EstimatePartTokens(list[keep[k]].content);
      tokens := tokens + cost;
    }
    assert keep[..|keep|] == keep;
  }

  lemma {:induction false} NothingCosts(list: seq<Message>, n: nat)
    requires n <= |list|
    ensures CostIn(list, ToSet([]), n) == 0
  {
    if n > 0 { NothingCosts(list, n - 1); }
  }

  method ListCandidates(list: seq<Message>, scores: Scores, keep: seq<int>) returns (candidates: seq<Candidate>)
    requires ToSet(keep) == ForcedSet(list)
    ensures candidates == Candidates(list, scores, 0)
  {
    candidates := [];
    for i := 0 to |list|
      invariant Candidates(list, scores, 0) == candidates + Candidates(list, scores, i)
    {
      assert i in keep <==> i in ToSet(keep);
      if i !in keep { candidates := candidates + [Candidate(i, ScoreOf(scores, list[i]))]; }
    }
  }

  /** Fill the budget greedily by score, then restore the original order. */
  method Prune(list: seq<Message>, scores: Scores, target: int) returns (result: seq<Message>)
    ensures result == Pruned(list, scores, target)
  {
    var keep := ForceIndices(list);
    var candidates := ListCandidates(list, scores, keep);
    candidates := Sort(candidates, ByScore());
    RankedIndices(list, scores);
    assert Within(keep, |list|) by { KeepWithin(list, keep); }
    var tokens := TokensOf(list, keep);
    ghost var forced := ForcedSet(list);
    for k := 0 to |candidates|
      invariant Distinct(keep)
      invariant ToSet(keep) == Greedy(list, candidates[..k], forced, target)
      invariant tokens == TotalIn(list, ToSet(keep))
    {
      var i := candidates[k].index;
      var cost := EstimatePartTokens(list[i].content);
      assert candidates[..k + 1][..k] == candidates[..k];
      FreshCandidate(list, scores, target, k);
      if tokens + cost <= target {
        CostAdd(list, ToSet(keep), i, |list|);
        keep := AddOnce(keep, i);
        tokens := tokens + cost;
      }
    }
    assert candidates[..|candidates|] == candidates;
    var kept := Sort(keep, UpTo());
    SortAscends(keep);
    forall x ensures x in kept <==> x in KeptInOrder(list, scores, target) {
      assert x in keep <==> x in ToSet(keep);
    }
    AscendingIsUnique(kept, KeptInOrder(list, scores, target));
    result := At(list, kept);
  }

  lemma KeepWithin(list: seq<Message>, keep: seq<int>)
    requires ToSet(keep) == ForcedSet(list)
    ensures Within(keep, |list|)
  {
    forall k | 0 <= k < |keep| ensures 0 <= keep[k] < |list| {
      assert keep[k] in ToSet(keep);
    }
  }

  lemma FreshCandidate(list: seq<Message>, scores: Scores, target: int, k: nat)
    requires k < |Ranked(list, scores)| && InRange(list, Ranked(list, scores))
    ensures var i := Ranked(list, scores)[k].index;
      0 <= i < |list| && i !in Greedy(list, Ranked(list, scores)[..k], ForcedSet(list), target)
  {
    RankedIndices(list, scores);
    var r := Ranked(list, scores);
    assert r[k] in r && HasIndex(r, r[k].index);
    GreedyCovers(list, r[..k], ForcedSet(list), target);
  }

  // ---- Graph ranks as scores ---------------------------------------------------------

  function Ids(ms: seq<Message>): (ids: seq<string>)
    ensures |ids| == |ms|
  {
    seq(|ms|, i requires 0 <= i < |ms| => ms[i].id)
  }

  function WordSets(ms: seq<Message>, h: Hashing): (sets: seq<TextRank.Tokens>)
    ensures |sets| == |ms|
  {
    seq(|ms|, i requires 0 <= i < |ms| => ToSet(h.WordsOf(ms[i])))
  }

  /** The graph-rank scores of the messages, which their words determine. */
  ghost predicate RankScores(ms: seq<Message>, h: Hashing, scores: Scores) {
    TextRankProgram.AreRankScores(Ids(ms), WordSets(ms, h), scores)
  }

  method RankMessages(ms: seq<Message>, h: Hashing) returns (scores: Scores)
    ensures RankScores(ms, h, scores)
    ensures scores.Keys == ToSet(Ids(ms)) && PositiveScores(scores)
  {
    scores := TextRankProgram.TextRankMessages(Ids(ms), WordSets(ms, h));
  }

  predicate PositiveScores(scores: Scores) { forall id :: id in scores ==> 0.0 < scores[id] <= 1.0 }

  /** Pruning by graph rank alone; one or two messages are returned as they are. */
  method TextRankPrune(ms: seq<Message>, h: Hashing, target: int) returns (result: seq<Message>)
    ensures |ms| <= 2 ==> result == ms
    ensures |ms| > 2 ==> exists scores: Scores :: RankScores(ms, h, scores) && result == Pruned(ms, scores, target)
  {
    if |ms| <= 2 { return ms; }
    var scores := RankMessages(ms, h);
    result := Prune(ms, scores, target);
  }

  // ---- Deduplicate, collapse, prune -------------------------------------------------

  /** The deduplicated list, with the original last message put back when no survivor has its id. */
  function WithLast(ms: seq<Message>, similar: Similarity): seq<Message>
    requires ms != []
  {
    var deduped := Deduplicated(ms, similar);
    var last := ms[|ms| - 1];
    if HasId(deduped, last.id) then deduped else Sort(deduped + [last], Earlier())
  }

  predicate HasId(ms: seq<Message>, id: string) { exists k :: 0 <= k < |ms| && ms[k].id == id }

  function Compacted(ms: seq<Message>, similar: Similarity, composite: Scores, target: int): seq<Message> {
    if |ms| <= 3 then Collapse(ms) else Pruned(Collapse(WithLast(ms, similar)), composite, target)
  }

  /** The composite of the two given scores and the graph ranks. */
  ghost predicate CompositeOf(ms: seq<Message>, h: Hashing, tfidf: Scores, surprisal: Scores, composite: Scores) {
    exists ranks: Scores ::
      RankScores(ms, h, ranks) && composite == Composite(ToSet(Ids(ms)), tfidf, ranks, surprisal)
  }

  method InformationalCompact(ms: seq<Message>, h: Hashing, tfidf: Scores, surprisal: Scores, target: int)
    returns (result: seq<Message>)
    ensures |ms| <= 3 ==> result == Collapse(ms)
    ensures |ms| > 3 ==> exists composite :: (
      && CompositeOf(ms, h, tfidf, surprisal, composite)
      && result == Compacted(ms, BySlots(h, DEDUP_THRESHOLD), composite, target))
  {
    if |ms| <= 3 { return Collapse(ms); }
    var ranks := RankMessages(ms, h);
    var composite := CompositeScores(Ids(ms), tfidf, ranks, surprisal);
    assert CompositeOf(ms, h, tfidf, surprisal, composite);
    var lastOriginal := ms[|ms| - 1];
    var deduped := DeduplicateMessages(ms, h);
    if !HasId(deduped, lastOriginal.id) {
      deduped := Sort(deduped + [lastOriginal], Earlier());
    }
    result := Prune(Collapse(deduped), composite, target);
  }

  /** The original indices that reach the pruning step. */
  function Entering(ms: seq<Message>, similar: Similarity): seq<int>
    requires ms != []
  {
    WithTop(SurvivorsInOrder(ms, similar), |ms|)
  }

  function WithTop(kept: seq<int>, n: nat): seq<int> {
    if n - 1 in kept then kept else kept + [n - 1]
  }

  lemma WithTopFacts(kept: seq<int>, n: nat)
    requires Ascending(kept) && Within(kept, n) && n > 0
    ensures Ascending(WithTop(kept, n)) && Within(WithTop(kept, n), n)
    ensures WithTop(kept, n) != [] && WithTop(kept, n)[|WithTop(kept, n)| - 1] == n - 1
    ensures forall i :: i in WithTop(kept, n) <==> i == n - 1 || i in kept
  {
    if n - 1 in kept {
      LastOfAscending(kept, n);
    } else {
      forall k | 0 <= k < |kept| ensures kept[k] < n - 1 { assert kept[k] in kept; }
    }
  }

  lemma {:induction false} InsertLast(x: int, s: seq<int>, y: int)
    requires forall k :: 0 <= k < |s| ==> s[k] < y
    requires x < y
    ensures Insert(x, s + [y], UpTo()) == Insert(x, s, UpTo()) + [y]
  {
    if s != [] {
      assert (s + [y])[1..] == s[1..] + [y];
      InsertLast(x, s[1..], y);
    }
  }

  lemma EnteringFacts(ms: seq<Message>, similar: Similarity)
    requires ms != [] && TimesIncrease(ms)
    ensures Ascending(Entering(ms, similar)) && Within(Entering(ms, similar), |ms|)
    ensures Entering(ms, similar) != [] && Entering(ms, similar)[|Entering(ms, similar)| - 1] == |ms| - 1
    ensures forall i :: i in Entering(ms, similar) <==> i == |ms| - 1 || IsSurvivor(ms, similar, |ms|, i)
  {
    DedupIsSubsequence(ms, similar);
    WithTopFacts(SurvivorsInOrder(ms, similar), |ms|);
  }

  /** With distinct ids and increasing times the list to prune is the survivors and the last message, in order. */
  lemma WithLastIsSubsequence(ms: seq<Message>, similar: Similarity)
    requires ms != [] && TimesIncrease(ms) && IdsDiffer(ms)
    ensures Within(Entering(ms, similar), |ms|)
    ensures WithLast(ms, similar) == At(ms, Entering(ms, similar))
  {
    DedupIsSubsequence(ms, similar);
    EnteringFacts(ms, similar);
    var kept, n := SurvivorsInOrder(ms, similar), |ms| - 1;
    var deduped := Deduplicated(ms, similar);
    assert HasId(deduped, ms[n].id) <==> n in kept by {
      if n in kept { var k :| 0 <= k < |kept| && kept[k] == n; assert deduped[k].id == ms[n].id; }
    }
    if n !in kept {
      assert deduped + [ms[n]] == At(ms, kept + [n]);
      SortOfSorted(At(ms, kept + [n]), Earlier());
    }
  }

  /** Picking from a pick: order, range and membership. */
  lemma PickedTwice(outer: seq<int>, inner: seq<int>, n: nat)
    requires Ascending(outer) && Within(outer, n) && Ascending(inner) && Within(inner, |outer|)
    ensures Ascending(At(outer, inner)) && Within(At(outer, inner), n)
    ensures forall i :: i in At(outer, inner) ==> i in outer
    ensures forall a :: 0 <= a < |outer| && a in inner ==> outer[a] in At(outer, inner)
  {
    var r := At(outer, inner);
    forall a | 0 <= a < |outer| && a in inner ensures outer[a] in r {
      var k :| 0 <= k < |inner| && inner[k] == a;
      assert r[k] == outer[a];
    }
  }

  /** The original indices that compacting keeps. */
  function Remaining(ms: seq<Message>, similar: Similarity, composite: Scores, target: int): seq<int>
    requires ms != [] && TimesIncrease(ms) && IdsDiffer(ms)
  {
    WithLastIsSubsequence(ms, similar);
    At(Entering(ms, similar), KeptInOrder(Collapse(WithLast(ms, similar)), composite, target))
  }

  /** The list to prune and what the pruning keeps of it, by index. */
  lemma PruningPicks(ms: seq<Message>, similar: Similarity, composite: Scores, target: int)
    returns (e: seq<int>, list: seq<Message>, kept: seq<int>)
    requires ms != [] && TimesIncrease(ms) && IdsDiffer(ms)
    ensures e == Entering(ms, similar) && Ascending(e) && Within(e, |ms|) && e != [] && e[|e| - 1] == |ms| - 1
    ensures |list| == |e| && list == Collapse(At(ms, e)) == Collapse(WithLast(ms, similar))
    ensures Ascending(kept) && Within(kept, |e|) && kept == KeptInOrder(list, composite, target)
    ensures Remaining(ms, similar, composite, target) == At(e, kept)
    ensures forall a :: 0 <= a < |e| && Forced(list, a) ==> a in kept
  {
    EnteringFacts(ms, similar);
    WithLastIsSubsequence(ms, similar);
    e := Entering(ms, similar);
    list := Collapse(WithLast(ms, similar));
    kept := KeptInOrder(list, composite, target);
    forall a | 0 <= a < |e| && Forced(list, a) ensures a in kept {
      KeptFacts(list, composite, target);
      assert a in ForcedSet(list);
    }
  }

  /** Collapsing and then picking is picking and then collapsing. */
  lemma CollapseOfPick(ms: seq<Message>, e: seq<int>, kept: seq<int>)
    requires Within(e, |ms|) && Within(kept, |e|)
    ensures Within(At(e, kept), |ms|)
    ensures At(Collapse(At(ms, e)), kept) == Collapse(At(ms, At(e, kept)))
  {
  }

  lemma LastIsPicked(e: seq<int>, kept: seq<int>)
    requires e != [] && Ascending(kept) && Within(kept, |e|) && |e| - 1 in kept
    ensures At(e, kept) != [] && At(e, kept)[|kept| - 1] == e[|e| - 1]
  {
    LastOfAscending(kept, |e|);
  }

  /**
   * With distinct ids and increasing times, compacting more than three messages gives an
   * order-preserving subsequence of the collapsed originals: survivors and the last
   * message only, every system survivor, and the last message at the end.
   */
  lemma CompactedIsSubsequence(ms: seq<Message>, similar: Similarity, composite: Scores, target: int)
    requires |ms| > 3 && TimesIncrease(ms) && IdsDiffer(ms)
    ensures var r := Remaining(ms, similar, composite, target);
      && Ascending(r) && Within(r, |ms|)
      && Compacted(ms, similar, composite, target) == Collapse(At(ms, r))
      && r != [] && r[|r| - 1] == |ms| - 1
    ensures forall i :: i in Remaining(ms, similar, composite, target) ==>
      i == |ms| - 1 || IsSurvivor(ms, similar, |ms|, i)
    ensures forall i :: IsSurvivor(ms, similar, |ms|, i) && ms[i].role.System? ==>
      i in Remaining(ms, similar, composite, target)
  {
    var e, list, kept := PruningPicks(ms, similar, composite, target);
    PickedTwice(e, kept, |ms|);
    CollapseOfPick(ms, e, kept);
    assert Forced(list, |e| - 1);
    LastIsPicked(e, kept);
    EnteringFacts(ms, similar);
    forall i | IsSurvivor(ms, similar, |ms|, i) && ms[i].role.System? ensures i in At(e, kept) {
      var a :| 0 <= a < |e| && e[a] == i;
      assert Forced(list, a);
    }
  }

  lemma LastOfAscending(s: seq<int>, n: nat)
    requires Ascending(s) && Within(s, n) && n > 0 && n - 1 in s
    ensures s != [] && s[|s| - 1] == n - 1
  {
    var k :| 0 <= k < |s| && s[k] == n - 1;
    AscendingAtMostLast(s, k);
  }

  lemma AscendingAtMostLast(s: seq<int>, k: nat)
    requires Ascending(s) && k < |s|
    ensures s[k] <= s[|s| - 1]
    ensures k < |s| - 1 ==> s[k] < s[|s| - 1]
  {
  }
}
