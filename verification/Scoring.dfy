/** Min-max normalisation of scores and their weighted sum. */
module Scoring {
  import opened Collections

  type Scores = map<string, real>

  function ScoreAt(scores: Scores, id: string): real { if id in scores then scores[id] else 0.0 }

  // ---- Min-max normalisation ----------------------------------------------------------

  /** The least and the greatest of the scores. */
  ghost predicate Spans(scores: Scores, lo: real, hi: real) {
    && (exists id :: id in scores && scores[id] == lo)
    && (exists id :: id in scores && scores[id] == hi)
    && forall id :: id in scores ==> lo <= scores[id] <= hi
  }

  function Portion(x: real, span: real): real
    requires span != 0.0
  {
    x / span
  }

  function MinMax(v: real, lo: real, hi: real): real {
    if hi == lo then 0.5 else Portion(v - lo, hi - lo)
  }

  /** The scores of some ids only. */
  function Only(scores: Scores, keys: set<string>): Scores { map id | id in scores && id in keys :: scores[id] }

  lemma {:induction false} SpanExists(scores: Scores, keys: set<string>)
    requires keys != {} && keys <= scores.Keys
    ensures exists lo, hi :: Spans(Only(scores, keys), lo, hi)
    decreases keys
  {
    var id :| id in keys;
    var rest := keys - {id};
    var all := Only(scores, keys);
    if rest == {} {
      assert keys == {id} && id in all && all[id] == scores[id];
      assert Spans(all, scores[id], scores[id]);
    } else {
      SpanExists(scores, rest);
      var some := Only(scores, rest);
      var lo, hi :| Spans(some, lo, hi);
      WidenSpan(some, all, id, lo, hi);
    }
  }

  lemma WidenSpan(some: Scores, all: Scores, id: string, lo: real, hi: real)
    requires Spans(some, lo, hi) && id !in some && all.Keys == some.Keys + {id}
    requires forall x :: x in some ==> all[x] == some[x]
    ensures Spans(all, if all[id] < lo then all[id] else lo, if all[id] > hi then all[id] else hi)
  {
    var least :| least in some && some[least] == lo;
    var greatest :| greatest in some && some[greatest] == hi;
    assert all[least] == lo && all[greatest] == hi;
  }

  lemma SpanIsUnique(scores: Scores, lo: real, hi: real, lo': real, hi': real)
    requires Spans(scores, lo, hi) && Spans(scores, lo', hi')
    ensures lo == lo' && hi == hi'
  {
  }

  /** The scores stretched to the range from 0 to 1; all 0.5 when they are equal. */
  ghost function Stretched(scores: Scores): (r: Scores)
    ensures r.Keys == scores.Keys
  {
    if scores == map[] then map[]
    else
      SpanExists(scores, scores.Keys);
      assert Only(scores, scores.Keys) == scores;
      var lo, hi :| Spans(scores, lo, hi);
      map id | id in scores :: MinMax(scores[id], lo, hi)
  }

  lemma StretchedBySpan(scores: Scores, lo: real, hi: real)
    requires Spans(scores, lo, hi)
    ensures Stretched(scores) == map id | id in scores :: MinMax(scores[id], lo, hi)
  {
    forall a, b | Spans(scores, a, b) ensures a == lo && b == hi {
      SpanIsUnique(scores, lo, hi, a, b);
    }
  }

  lemma PortionMonotone(x: real, y: real, span: real)
    requires x <= y && span > 0.0
    ensures Portion(x, span) <= Portion(y, span)
    ensures x < y ==> Portion(x, span) < Portion(y, span)
    ensures Portion(0.0, span) == 0.0 && Portion(span, span) == 1.0
  {
    assert Portion(x, span) * span == x && Portion(y, span) * span == y;
    if Portion(x, span) > Portion(y, span) {
      Scale(Portion(y, span), Portion(x, span), span);
    }
  }

  lemma Scale(a: real, b: real, span: real)
    requires a < b && span > 0.0
    ensures a * span < b * span
  {
    assert (b - a) * span > 0.0;
    assert (b - a) * span == b * span - a * span;
  }

  lemma MinMaxFacts(v: real, lo: real, hi: real)
    requires lo <= v <= hi
    ensures 0.0 <= MinMax(v, lo, hi) <= 1.0
    ensures lo < hi ==> (MinMax(v, lo, hi) == 0.0 <==> v == lo) && (MinMax(v, lo, hi) == 1.0 <==> v == hi)
  {
    if lo < hi {
      PortionMonotone(0.0, v - lo, hi - lo);
      PortionMonotone(v - lo, hi - lo, hi - lo);
    }
  }

  /** Stretching stays within 0 and 1 and keeps the order of any two scores, equal ones included. */
  lemma StretchKeepsOrder(scores: Scores, a: string, b: string)
    requires a in scores && b in scores
    ensures 0.0 <= Stretched(scores)[a] <= 1.0
    ensures Stretched(scores)[a] <= Stretched(scores)[b] <==> scores[a] <= scores[b]
  {
    SpanExists(scores, scores.Keys);
    assert Only(scores, scores.Keys) == scores;
    var lo, hi :| Spans(scores, lo, hi);
    StretchedBySpan(scores, lo, hi);
    MinMaxFacts(scores[a], lo, hi);
    if lo < hi {
      if scores[a] <= scores[b] {
        PortionMonotone(scores[a] - lo, scores[b] - lo, hi - lo);
      } else {
        PortionMonotone(scores[b] - lo, scores[a] - lo, hi - lo);
      }
    }
  }

  /** A stretched score times the range is the distance from the least; without a range it is one half. */
  lemma StretchedIs(scores: Scores, lo: real, hi: real, id: string)
    requires Spans(scores, lo, hi) && id in scores
    ensures lo < hi ==> Stretched(scores)[id] * (hi - lo) == scores[id] - lo
    ensures lo == hi ==> Stretched(scores)[id] == 0.5
  {
    StretchedBySpan(scores, lo, hi);
    if lo < hi { PortionIs(scores[id] - lo, hi - lo); }
  }

  lemma PortionIs(x: real, span: real)
    requires span > 0.0
    ensures Portion(x, span) * span == x
  {
  }

  /** Find the range in one pass over the scores. */
  method RangeOf(scores: Scores) returns (lo: real, hi: real)
    requires scores != map[]
    ensures Spans(scores, lo, hi)
  {
    var first :| first in scores;
    lo, hi := scores[first], scores[first];
    var todo := scores.Keys - {first};
    ghost var seen := map[first := scores[first]];
    while todo != {}
      invariant todo <= scores.Keys && seen.Keys == scores.Keys - todo
      invariant forall x :: x in seen ==> seen[x] == scores[x]
      invariant Spans(seen, lo, hi)
      decreases todo
    {
      var id :| id in todo;
      WidenSpan(seen, seen[id := scores[id]], id, lo, hi);
      seen := seen[id := scores[id]];
      if scores[id] < lo { lo := scores[id]; }
      if scores[id] > hi { hi := scores[id]; }
      todo := todo - {id};
    }
    assert seen == scores;
  }

  method NormalizeScores(scores: Scores) returns (r: Scores)
    ensures r == Stretched(scores)
  {
    if scores == map[] { return map[]; }
    var lo, hi := RangeOf(scores);
    StretchedBySpan(scores, lo, hi);
    r := map id | id in scores :: MinMax(scores[id], lo, hi);
  }

  // ---- The composite ------------------------------------------------------------------

  function Weighted(tfidf: real, rank: real, surprisal: real): real {
    0.30 * tfidf + 0.35 * rank + 0.35 * surprisal
  }

  /** One composite score for every id: the weighted sum of its three normalised scores. */
  ghost function Composite(ids: set<string>, tfidf: Scores, ranks: Scores, surprisal: Scores): Scores {
    map id | id in ids ::
      Weighted(ScoreAt(Stretched(tfidf), id), ScoreAt(Stretched(ranks), id), ScoreAt(Stretched(surprisal), id))
  }

  /** The share of each of the three stretched scores; a missing one counts as zero. */
  lemma CompositeIs(ids: set<string>, tfidf: Scores, ranks: Scores, surprisal: Scores, id: string)
    requires id in ids
    ensures Composite(ids, tfidf, ranks, surprisal).Keys == ids
    ensures Composite(ids, tfidf, ranks, surprisal)[id]
      == 0.30 * (if id in tfidf then Stretched(tfidf)[id] else 0.0)
           + 0.35 * (if id in ranks then Stretched(ranks)[id] else 0.0)
           + 0.35 * (if id in surprisal then Stretched(surprisal)[id] else 0.0)
  {
  }

  method CompositeScores(ids: seq<string>, tfidf: Scores, ranks: Scores, surprisal: Scores) returns (composite: Scores)
    ensures composite == Composite(ToSet(ids), tfidf, ranks, surprisal)
  {
    var t := NormalizeScores(tfidf);
    var r := NormalizeScores(ranks);
    var s := NormalizeScores(surprisal);
    composite := map[];
    for i := 0 to |ids|
      invariant composite == Composite(ToSet(ids[..i]), tfidf, ranks, surprisal)
    {
      PrefixGrows(ids, i);
      composite := composite[ids[i] := Weighted(ScoreAt(t, ids[i]), ScoreAt(r, ids[i]), ScoreAt(s, ids[i]))];
    }
    assert ids[..|ids|] == ids;
  }

  lemma StretchedScores(scores: Scores, a: string, b: string)
    requires a in scores && b in scores && scores[a] <= scores[b]
    ensures 0.0 <= ScoreAt(Stretched(scores), a) <= ScoreAt(Stretched(scores), b) <= 1.0
  {
    StretchKeepsOrder(scores, a, b);
    StretchKeepsOrder(scores, b, a);
  }

  /** A message that is no lower in all three scores is no lower in the composite, which lies between 0 and 1. */
  lemma CompositeFollowsScores(
    ids: set<string>, tfidf: Scores, ranks: Scores, surprisal: Scores, a: string, b: string)
    requires a in ids && b in ids && ids <= tfidf.Keys && ids <= ranks.Keys && ids <= surprisal.Keys
    requires tfidf[a] <= tfidf[b] && ranks[a] <= ranks[b] && surprisal[a] <= surprisal[b]
    ensures var composite := Composite(ids, tfidf, ranks, surprisal);
      && 0.0 <= composite[a] <= composite[b] <= 1.0
      && (composite[a] == composite[b] <==>
            tfidf[a] == tfidf[b] && ranks[a] == ranks[b] && surprisal[a] == surprisal[b])
  {
    StretchedScores(tfidf, a, b);
    StretchedScores(ranks, a, b);
    StretchedScores(surprisal, a, b);
    StretchKeepsOrder(tfidf, b, a);
    StretchKeepsOrder(ranks, b, a);
    StretchKeepsOrder(surprisal, b, a);
  }
}
