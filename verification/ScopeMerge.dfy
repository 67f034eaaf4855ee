/** Merging duplicate project scopes, so each project is refined once per pass. */
module ScopeMerge {
  import opened Collections
  import opened Text
  import opened Budgets

  /** The name lists of a scope; an absent list is an empty one. */
  datatype Lists = Lists(
    sessionIds: seq<string>,
    lineageKeys: seq<string>,
    policyFingerprints: seq<string>,
    objectiveIds: seq<string>,
    stopConditionIds: seq<string>,
    stopConditionKinds: seq<string>)

  /** Everything a scope says about its project. */
  datatype Facts = Facts(
    lists: Lists,
    priorityScore: Limit,
    frontierBestScore: Limit,
    refinement: Option<RefinementBudget>,
    nidra: Option<NidraBudget>)

  datatype Scope = Scope(projectPath: string, facts: Facts)

  const NO_LISTS := Lists([], [], [], [], [], [])
  const NO_FACTS := Facts(NO_LISTS, None, None, None, None)

  // ---- Ordered sets of trimmed names ------------------------------------------------

  function Add(acc: seq<string>, x: string): seq<string> {
    if x == "" || x in acc then acc else acc + [x]
  }

  /** Add each name, trimmed, unless it is blank or already there. */
  function AddAll(acc: seq<string>, raw: seq<string>): seq<string>
    decreases raw
  {
    if raw == [] then acc else AddAll(Add(acc, Trim(raw[0])), raw[1..])
  }

  predicate Clean(s: seq<string>) {
    Distinct(s) && forall i :: 0 <= i < |s| ==> s[i] != "" && Trim(s[i]) == s[i]
  }

  /** The distinct non-blank names behind a raw list. */
  function Names(raw: seq<string>): set<string> { set r | r in raw && Trim(r) != "" :: Trim(r) }

  lemma {:induction false} AddAllElements(acc: seq<string>, raw: seq<string>)
    ensures ToSet(AddAll(acc, raw)) == ToSet(acc) + Names(raw)
    decreases raw
  {
    if raw != [] {
      var x := Trim(raw[0]);
      AddAllElements(Add(acc, x), raw[1..]);
      NamesFirst(raw);
      assert ToSet(Add(acc, x)) == ToSet(acc) + if x == "" then {} else {x};
    }
  }

  lemma NamesFirst(raw: seq<string>)
    requires raw != []
    ensures Names(raw) == Names(raw[1..]) + if Trim(raw[0]) == "" then {} else {Trim(raw[0])}
  {
    assert raw == [raw[0]] + raw[1..];
  }

  lemma {:induction false} AddAllClean(acc: seq<string>, raw: seq<string>)
    requires Clean(acc)
    ensures Clean(AddAll(acc, raw))
    decreases raw
  {
    if raw != [] {
      TrimIdempotent(raw[0]);
      AddAllClean(Add(acc, Trim(raw[0])), raw[1..]);
    }
  }

  lemma {:induction false} AddAllAppend(acc: seq<string>, r: seq<string>, s: seq<string>)
    ensures AddAll(acc, r + s) == AddAll(AddAll(acc, r), s)
    decreases r
  {
    if r == [] {
      assert r + s == s;
    } else {
      assert (r + s)[1..] == r[1..] + s;
      AddAllAppend(Add(acc, Trim(r[0])), r[1..], s);
    }
  }

  lemma AddAllAdd(a: seq<string>, b: seq<string>, x: string)
    requires Trim(x) == x
    ensures AddAll(a, Add(b, x)) == Add(AddAll(a, b), x)
  {
    AddAllElements(a, b);
    if x != "" {
      if x in b {
        assert x in Names(b);
        assert x in ToSet(AddAll(a, b));
      } else {
        AddAllAppend(a, b, [x]);
      }
    }
  }

  lemma {:induction false} AddAllAssociates(a: seq<string>, b: seq<string>, raw: seq<string>)
    ensures AddAll(a, AddAll(b, raw)) == AddAll(AddAll(a, b), raw)
    decreases raw
  {
    if raw != [] {
      var x := Trim(raw[0]);
      TrimIdempotent(raw[0]);
      AddAllAdd(a, b, x);
      AddAllAssociates(a, Add(b, x), raw[1..]);
    }
  }

  lemma {:induction false} AddAllIdle(acc: seq<string>, raw: seq<string>)
    requires Names(raw) <= ToSet(acc)
    ensures AddAll(acc, raw) == acc
  {
    if raw != [] {
      assert Trim(raw[0]) != "" ==> Trim(raw[0]) in Names(raw);
      assert forall r :: r in raw[1..] ==> r in raw;
      AddAllIdle(acc, raw[1..]);
    }
  }

  lemma {:induction false} AddAllNew(acc: seq<string>, b: seq<string>)
    requires Clean(acc + b)
    ensures AddAll(acc, b) == acc + b
    decreases b
  {
    if b == [] {
      assert acc + b == acc;
    } else {
      assert (acc + b)[|acc|] == b[0];
      assert b[0] !in acc by {
        forall i | 0 <= i < |acc| ensures acc[i] != b[0] { assert (acc + b)[i] == acc[i]; }
      }
      assert (acc + [b[0]]) + b[1..] == acc + b;
      AddAllNew(acc + [b[0]], b[1..]);
    }
  }

  // ---- Joining the facts of one project ---------------------------------------------

  /** The strongest score so far, never below zero; unusable scores are ignored. */
  function Peak(best: Limit, score: Limit): Limit {
    match Usable(score)
    case None => best
    case Some(v) =>
      var floor := Usable(best).GetOr(0.0);
      Some(Finite(if v >= floor then v else floor))
  }

  /** Merge two optional budgets; absent only when both are. */
  function MergeOption<T>(left: Option<T>, right: Option<T>, wider: (T, T) -> T, nothing: T): Option<T> {
    if left.None? && right.None? then None else Some(wider(left.GetOr(nothing), right.GetOr(nothing)))
  }

  function MergeRefinement(left: Option<RefinementBudget>, right: Option<RefinementBudget>): Option<RefinementBudget> {
    MergeOption(left, right, WiderRefinement, NO_REFINEMENT)
  }

  function MergeNidra(left: Option<NidraBudget>, right: Option<NidraBudget>): Option<NidraBudget> {
    MergeOption(left, right, WiderNidra, NO_NIDRA)
  }

  function AbsorbLists(b: Lists, f: Lists): Lists {
    Lists(
      AddAll(b.sessionIds, f.sessionIds),
      AddAll(b.lineageKeys, f.lineageKeys),
      AddAll(b.policyFingerprints, f.policyFingerprints),
      AddAll(b.objectiveIds, f.objectiveIds),
      AddAll(b.stopConditionIds, f.stopConditionIds),
      AddAll(b.stopConditionKinds, f.stopConditionKinds))
  }

  function Absorb(b: Facts, f: Facts): Facts {
    Facts(
      AbsorbLists(b.lists, f.lists),
      Peak(b.priorityScore, f.priorityScore),
      Peak(b.frontierBestScore, f.frontierBestScore),
      MergeRefinement(b.refinement, f.refinement),
      MergeNidra(b.nidra, f.nidra))
  }

  predicate ScoreSettled(l: Limit) { l.Some? ==> l.value.Finite? && l.value.value >= 0.0 }

  predicate LimitsSettled(l: Limits) {
    && Settled(l.candidateLimit) && Settled(l.minMdlScore)
    && Settled(l.minPriorityScore) && Settled(l.minSourceSessionCount)
  }

  predicate RefinementSettled(b: Option<RefinementBudget>) {
    b.Some? ==> LimitsSettled(b.value.daily) && LimitsSettled(b.value.project)
  }

  predicate NidraSettled(b: Option<NidraBudget>) {
    b.Some? ==> Settled(b.value.maxResearchProjectsPerCycle) && Settled(b.value.maxSemanticPressure)
  }

  predicate ListsClean(l: Lists) {
    && Clean(l.sessionIds) && Clean(l.lineageKeys) && Clean(l.policyFingerprints)
    && Clean(l.objectiveIds) && Clean(l.stopConditionIds) && Clean(l.stopConditionKinds)
  }

  /** What every merged bucket looks like. */
  predicate Normal(f: Facts) {
    && ListsClean(f.lists)
    && ScoreSettled(f.priorityScore) && ScoreSettled(f.frontierBestScore)
    && RefinementSettled(f.refinement) && NidraSettled(f.nidra)
  }

  lemma AbsorbListsClean(b: Lists, f: Lists)
    requires ListsClean(b)
    ensures ListsClean(AbsorbLists(b, f))
  {
    AddAllClean(b.sessionIds, f.sessionIds);
    AddAllClean(b.lineageKeys, f.lineageKeys);
    AddAllClean(b.policyFingerprints, f.policyFingerprints);
    AddAllClean(b.objectiveIds, f.objectiveIds);
    AddAllClean(b.stopConditionIds, f.stopConditionIds);
    AddAllClean(b.stopConditionKinds, f.stopConditionKinds);
  }

  lemma AbsorbNormal(b: Facts, f: Facts)
    requires Normal(b)
    ensures Normal(Absorb(b, f))
  {
    AbsorbListsClean(b.lists, f.lists);
  }

  lemma PeakAssociates(a: Limit, b: Limit, c: Limit)
    requires ScoreSettled(a) && ScoreSettled(b)
    ensures Peak(a, Peak(b, c)) == Peak(Peak(a, b), c)
  {
  }

  lemma MergeOptionAssociates<T>(a: Option<T>, b: Option<T>, c: Option<T>, wider: (T, T) -> T, nothing: T)
    requires wider(nothing, nothing) == nothing
    requires var x, y, z := a.GetOr(nothing), b.GetOr(nothing), c.GetOr(nothing);
      wider(x, wider(y, z)) == wider(wider(x, y), z)
    ensures MergeOption(a, MergeOption(b, c, wider, nothing), wider, nothing)
      == MergeOption(MergeOption(a, b, wider, nothing), c, wider, nothing)
  {
  }

  lemma WiderLimitsAssociates(a: Limits, b: Limits, c: Limits)
    ensures WiderLimits(a, WiderLimits(b, c)) == WiderLimits(WiderLimits(a, b), c)
  {
  }

  lemma WiderRefinementAssociates(a: RefinementBudget, b: RefinementBudget, c: RefinementBudget)
    ensures WiderRefinement(a, WiderRefinement(b, c)) == WiderRefinement(WiderRefinement(a, b), c)
  {
    WiderLimitsAssociates(a.daily, b.daily, c.daily);
    WiderLimitsAssociates(a.project, b.project, c.project);
  }

  lemma MergeRefinementAssociates(a: Option<RefinementBudget>, b: Option<RefinementBudget>, c: Option<RefinementBudget>)
    ensures MergeRefinement(a, MergeRefinement(b, c)) == MergeRefinement(MergeRefinement(a, b), c)
  {
    WiderRefinementAssociates(a.GetOr(NO_REFINEMENT), b.GetOr(NO_REFINEMENT), c.GetOr(NO_REFINEMENT));
    MergeOptionAssociates(a, b, c, WiderRefinement, NO_REFINEMENT);
  }

  lemma MergeNidraAssociates(a: Option<NidraBudget>, b: Option<NidraBudget>, c: Option<NidraBudget>)
    ensures MergeNidra(a, MergeNidra(b, c)) == MergeNidra(MergeNidra(a, b), c)
  {
    MergeOptionAssociates(a, b, c, WiderNidra, NO_NIDRA);
  }

  lemma AbsorbListsAssociates(a: Lists, b: Lists, c: Lists)
    ensures AbsorbLists(a, AbsorbLists(b, c)) == AbsorbLists(AbsorbLists(a, b), c)
  {
    AddAllAssociates(a.sessionIds, b.sessionIds, c.sessionIds);
    AddAllAssociates(a.lineageKeys, b.lineageKeys, c.lineageKeys);
    AddAllAssociates(a.policyFingerprints, b.policyFingerprints, c.policyFingerprints);
    AddAllAssociates(a.objectiveIds, b.objectiveIds, c.objectiveIds);
    AddAllAssociates(a.stopConditionIds, b.stopConditionIds, c.stopConditionIds);
    AddAllAssociates(a.stopConditionKinds, b.stopConditionKinds, c.stopConditionKinds);
  }

  /** Joining facts one bucket at a time is joining them all at once. */
  lemma AbsorbAssociates(a: Facts, b: Facts, c: Facts)
    requires Normal(a) && Normal(b)
    ensures Absorb(a, Absorb(b, c)) == Absorb(Absorb(a, b), c)
  {
    AbsorbListsAssociates(a.lists, b.lists, c.lists);
    PeakAssociates(a.priorityScore, b.priorityScore, c.priorityScore);
    PeakAssociates(a.frontierBestScore, b.frontierBestScore, c.frontierBestScore);
    MergeRefinementAssociates(a.refinement, b.refinement, c.refinement);
    MergeNidraAssociates(a.nidra, b.nidra, c.nidra);
  }

  lemma IdleNames(s: seq<string>)
    requires Clean(s)
    ensures AddAll(s, []) == s && AddAll([], s) == s && AddAll(s, s) == s
  {
    assert [] + s == s;
    AddAllNew([], s);
    AddAllIdle(s, s);
  }

  lemma IdleLists(a: Lists)
    requires ListsClean(a)
    ensures AbsorbLists(a, NO_LISTS) == a && AbsorbLists(NO_LISTS, a) == a && AbsorbLists(a, a) == a
  {
    IdleNames(a.sessionIds);
    IdleNames(a.lineageKeys);
    IdleNames(a.policyFingerprints);
    IdleNames(a.objectiveIds);
    IdleNames(a.stopConditionIds);
    IdleNames(a.stopConditionKinds);
  }

  lemma WiderLimitsIdle(a: Limits)
    requires LimitsSettled(a)
    ensures WiderLimits(a, NO_LIMITS) == a && WiderLimits(NO_LIMITS, a) == a && WiderLimits(a, a) == a
  {
  }

  lemma IdleBudgets(b: Option<RefinementBudget>)
    requires RefinementSettled(b)
    ensures MergeRefinement(b, None) == b && MergeRefinement(None, b) == b && MergeRefinement(b, b) == b
  {
    if b.Some? {
      WiderLimitsIdle(b.value.daily);
      WiderLimitsIdle(b.value.project);
    }
  }

  /** Absorbing nothing, or what is already there, changes nothing. */
  lemma AbsorbIdle(a: Facts)
    requires Normal(a)
    ensures Absorb(a, NO_FACTS) == a && Absorb(NO_FACTS, a) == a && Absorb(a, a) == a
  {
    IdleLists(a.lists);
    IdleBudgets(a.refinement);
  }

  // ---- The merge as a whole ---------------------------------------------------------

  function RawPaths(xs: seq<Scope>): (r: seq<string>)
    ensures |r| == |xs|
    ensures forall i :: 0 <= i < |xs| ==> r[i] == xs[i].projectPath
  {
    seq(|xs|, i requires 0 <= i < |xs| => xs[i].projectPath)
  }

  /** The projects mentioned, in order of first mention. */
  function Paths(xs: seq<Scope>): seq<string> { AddAll([], RawPaths(xs)) }

  /** What project `p`'s scopes add to `b`, in order. */
  function FactsFrom(b: Facts, xs: seq<Scope>, p: string): Facts
    decreases xs
  {
    if xs == [] then b
    else FactsFrom(if Trim(xs[0].projectPath) == p then Absorb(b, xs[0].facts) else b, xs[1..], p)
  }

  function Merged(xs: seq<Scope>): (r: seq<Scope>)
    ensures |r| == |Paths(xs)|
    ensures forall i :: 0 <= i < |r| ==> r[i] == Scope(Paths(xs)[i], FactsFrom(NO_FACTS, xs, Paths(xs)[i]))
  {
    seq(|Paths(xs)|, i requires 0 <= i < |Paths(xs)| => Scope(Paths(xs)[i], FactsFrom(NO_FACTS, xs, Paths(xs)[i])))
  }

  method AddNames(acc: seq<string>, raw: seq<string>) returns (names: seq<string>)
    ensures names == AddAll(acc, raw)
  {
    names := acc;
    for i := 0 to |raw|
      invariant AddAll(acc, raw) == AddAll(names, raw[i..])
    {
      var normalized := Trim(raw[i]);
      if normalized != "" && normalized !in names { names := names + [normalized]; }
    }
  }

  method AbsorbScope(bucket: Facts, scope: Facts) returns (r: Facts)
    ensures r == Absorb(bucket, scope)
  {
    var sessionIds := AddNames(bucket.lists.sessionIds, scope.lists.sessionIds);
    var lineageKeys := AddNames(bucket.lists.lineageKeys, scope.lists.lineageKeys);
    var policyFingerprints := AddNames(bucket.lists.policyFingerprints, scope.lists.policyFingerprints);
    var objectiveIds := AddNames(bucket.lists.objectiveIds, scope.lists.objectiveIds);
    var stopConditionIds := AddNames(bucket.lists.stopConditionIds, scope.lists.stopConditionIds);
    var stopConditionKinds := AddNames(bucket.lists.stopConditionKinds, scope.lists.stopConditionKinds);
    r := Facts(
      Lists(sessionIds, lineageKeys, policyFingerprints, objectiveIds, stopConditionIds, stopConditionKinds),
      Peak(bucket.priorityScore, scope.priorityScore),
      Peak(bucket.frontierBestScore, scope.frontierBestScore),
      MergeRefinement(bucket.refinement, scope.refinement),
      MergeNidra(bucket.nidra, scope.nidra));
  }

  /** Merge duplicate scopes through one bucket per project. */
  method MergeResearchRefinementScopes(xs: seq<Scope>) returns (result: seq<Scope>)
    ensures result == Merged(xs)
  {
    var order: seq<string> := [];
    var buckets: map<string, Facts> := map[];
    for i := 0 to |xs|
      invariant order == Paths(xs[..i])
      invariant Holds(order, buckets, xs[..i])
    {
      var path := Trim(xs[i].projectPath);
      PathsGrow(xs, i);
      if path != "" {
        var bucket := if path in buckets then buckets[path] else NO_FACTS;
        bucket := AbsorbScope(bucket, xs[i].facts);
        BucketStep(order, buckets, xs, i, path, bucket);
        if path !in buckets { order := order + [path]; }
        buckets := buckets[path := bucket];
      } else {
        BlankStep(order, buckets, xs, i);
      }
    }
    assert xs[..|xs|] == xs;
    result := Emit(order, buckets, xs);
  }

  method Emit(order: seq<string>, buckets: map<string, Facts>, ghost xs: seq<Scope>) returns (result: seq<Scope>)
    requires order == Paths(xs) && Holds(order, buckets, xs)
    ensures result == Merged(xs)
  {
    result := [];
    for k := 0 to |order|
      invariant result == Merged(xs)[..k]
    {
      result := result + [Scope(order[k], buckets[order[k]])];
    }
  }

  /** The buckets hold, for each project met, the facts gathered so far. */
  ghost predicate Holds(order: seq<string>, buckets: map<string, Facts>, xs: seq<Scope>) {
    && (forall p :: p in order <==> p in buckets)
    && (forall p :: p in buckets ==> p != "" && buckets[p] == FactsFrom(NO_FACTS, xs, p))
    && (forall p :: p != "" && p !in buckets ==> FactsFrom(NO_FACTS, xs, p) == NO_FACTS)
  }

  lemma PathsGrow(xs: seq<Scope>, i: nat)
    requires i < |xs|
    ensures Paths(xs[..i + 1]) == Add(Paths(xs[..i]), Trim(xs[i].projectPath))
  {
    assert RawPaths(xs[..i + 1]) == RawPaths(xs[..i]) + [xs[i].projectPath];
    AddAllAppend([], RawPaths(xs[..i]), [xs[i].projectPath]);
  }

  lemma FactsGrow(b: Facts, xs: seq<Scope>, i: nat, p: string)
    requires i < |xs|
    ensures FactsFrom(b, xs[..i + 1], p)
      == var before := FactsFrom(b, xs[..i], p);
        if Trim(xs[i].projectPath) == p then Absorb(before, xs[i].facts) else before
  {
    assert xs[..i + 1] == xs[..i] + [xs[i]];
    FactsFromAppend(b, xs[..i], [xs[i]], p);
  }

  lemma BucketStep(order: seq<string>, buckets: map<string, Facts>, xs: seq<Scope>, i: nat, path: string, bucket: Facts)
    requires i < |xs| && Holds(order, buckets, xs[..i])
    requires path == Trim(xs[i].projectPath) && path != ""
    requires bucket == Absorb(if path in buckets then buckets[path] else NO_FACTS, xs[i].facts)
    ensures Holds(Add(order, path), buckets[path := bucket], xs[..i + 1])
  {
    forall p ensures FactsFrom(NO_FACTS, xs[..i + 1], p)
      == if path == p then Absorb(FactsFrom(NO_FACTS, xs[..i], p), xs[i].facts) else FactsFrom(NO_FACTS, xs[..i], p)
    {
      FactsGrow(NO_FACTS, xs, i, p);
    }
  }

  lemma BlankStep(order: seq<string>, buckets: map<string, Facts>, xs: seq<Scope>, i: nat)
    requires i < |xs| && Holds(order, buckets, xs[..i]) && Trim(xs[i].projectPath) == ""
    ensures Holds(order, buckets, xs[..i + 1])
  {
    forall p | p != "" ensures FactsFrom(NO_FACTS, xs[..i + 1], p) == FactsFrom(NO_FACTS, xs[..i], p) {
      FactsGrow(NO_FACTS, xs, i, p);
    }
  }

  // ---- Laws of the merge ------------------------------------------------------------

  lemma {:induction false} FactsFromAppend(b: Facts, xs: seq<Scope>, ys: seq<Scope>, p: string)
    ensures FactsFrom(b, xs + ys, p) == FactsFrom(FactsFrom(b, xs, p), ys, p)
    decreases xs
  {
    if xs == [] {
      assert xs + ys == ys;
    } else {
      assert (xs + ys)[1..] == xs[1..] + ys;
      FactsFromAppend(if Trim(xs[0].projectPath) == p then Absorb(b, xs[0].facts) else b, xs[1..], ys, p);
    }
  }

  lemma {:induction false} FactsFromNormal(b: Facts, xs: seq<Scope>, p: string)
    requires Normal(b)
    ensures Normal(FactsFrom(b, xs, p))
    decreases xs
  {
    if xs != [] {
      AbsorbNormal(b, xs[0].facts);
      FactsFromNormal(if Trim(xs[0].projectPath) == p then Absorb(b, xs[0].facts) else b, xs[1..], p);
    }
  }

  lemma {:induction false} FactsFromAbsorbs(a: Facts, b: Facts, xs: seq<Scope>, p: string)
    requires Normal(a) && Normal(b)
    ensures FactsFrom(Absorb(a, b), xs, p) == Absorb(a, FactsFrom(b, xs, p))
    decreases xs
  {
    if xs != [] {
      if Trim(xs[0].projectPath) == p {
        AbsorbAssociates(a, b, xs[0].facts);
        AbsorbNormal(b, xs[0].facts);
        FactsFromAbsorbs(a, Absorb(b, xs[0].facts), xs[1..], p);
      } else {
        FactsFromAbsorbs(a, b, xs[1..], p);
      }
    }
  }

  lemma {:induction false} FactsOfAbsent(b: Facts, xs: seq<Scope>, p: string)
    requires forall i :: 0 <= i < |xs| ==> Trim(xs[i].projectPath) != p
    ensures FactsFrom(b, xs, p) == b
    decreases xs
  {
    if xs != [] { FactsOfAbsent(b, xs[1..], p); }
  }

  lemma FactsOfSingle(b: Facts, xs: seq<Scope>, p: string, k: nat)
    requires k < |xs|
    requires forall i :: 0 <= i < |xs| ==> (Trim(xs[i].projectPath) == p <==> i == k)
    ensures FactsFrom(b, xs, p) == Absorb(b, xs[k].facts)
  {
    assert xs == xs[..k] + (([xs[k]]) + xs[k + 1..]);
    FactsFromAppend(b, xs[..k], [xs[k]] + xs[k + 1..], p);
    FactsFromAppend(b, [xs[k]], xs[k + 1..], p);
    FactsOfAbsent(b, xs[..k], p);
    FactsOfAbsent(Absorb(b, xs[k].facts), xs[k + 1..], p);
  }

  lemma PathsFacts(xs: seq<Scope>)
    ensures Clean(Paths(xs))
    ensures forall p :: p in Paths(xs) <==> p != "" && exists i :: 0 <= i < |xs| && Trim(xs[i].projectPath) == p
  {
    AddAllClean([], RawPaths(xs));
    AddAllElements([], RawPaths(xs));
    forall p ensures p in Paths(xs) <==> p != "" && exists i :: 0 <= i < |xs| && Trim(xs[i].projectPath) == p {
      assert p in Paths(xs) <==> p in Names(RawPaths(xs));
      if i :| 0 <= i < |xs| && Trim(xs[i].projectPath) == p { assert RawPaths(xs)[i] in RawPaths(xs); }
    }
  }

  /** Folding in a merged list is folding in the list itself. */
  lemma MergedStandsFor(a: Facts, xs: seq<Scope>, p: string)
    requires Normal(a) && p != ""
    ensures FactsFrom(a, Merged(xs), p) == FactsFrom(a, xs, p)
  {
    PathsFacts(xs);
    var paths, ms := Paths(xs), Merged(xs);
    if p in paths {
      var k :| 0 <= k < |paths| && paths[k] == p;
      FactsOfSingle(a, ms, p, k);
      assert Normal(NO_FACTS);
      FactsFromAbsorbs(a, NO_FACTS, xs, p);
      AbsorbIdle(a);
    } else {
      FactsOfAbsent(a, ms, p);
      FactsOfAbsent(a, xs, p);
    }
  }

  lemma MergedPaths(xs: seq<Scope>, ys: seq<Scope>)
    ensures Paths(Merged(xs) + Merged(ys)) == Paths(xs + ys)
  {
    assert RawPaths(Merged(xs) + Merged(ys)) == Paths(xs) + Paths(ys);
    assert RawPaths(xs + ys) == RawPaths(xs) + RawPaths(ys);
    AddAllAppend([], Paths(xs), Paths(ys));
    AddAllAppend([], RawPaths(xs), RawPaths(ys));
    AddAllAssociates([], [], RawPaths(xs));
    AddAllAssociates(Paths(xs), [], RawPaths(ys));
  }

  /** Merging already merged lists gives the merge of everything, in order and content. */
  lemma MergeIsJoin(xs: seq<Scope>, ys: seq<Scope>)
    ensures Merged(Merged(xs) + Merged(ys)) == Merged(xs + ys)
  {
    MergedPaths(xs, ys);
    PathsFacts(xs + ys);
    assert Normal(NO_FACTS);
    var paths := Paths(xs + ys);
    forall i | 0 <= i < |paths| ensures Merged(Merged(xs) + Merged(ys))[i] == Merged(xs + ys)[i] {
      var p := paths[i];
      FactsFromAppend(NO_FACTS, Merged(xs), Merged(ys), p);
      FactsFromAppend(NO_FACTS, xs, ys, p);
      MergedStandsFor(NO_FACTS, xs, p);
      FactsFromNormal(NO_FACTS, xs, p);
      MergedStandsFor(FactsFrom(NO_FACTS, xs, p), ys, p);
    }
  }

  /** Merging a merged list changes nothing, and merging a list with itself merges it once. */
  lemma MergeIdempotent(xs: seq<Scope>)
    ensures Merged(Merged(xs)) == Merged(xs)
    ensures Merged(xs + xs) == Merged(xs)
  {
    MergeIsJoin(xs, []);
    assert Merged(xs) + Merged([]) == Merged(xs) by { assert Paths([]) == []; }
    assert xs + [] == xs;
    SelfPaths(xs);
    PathsFacts(xs);
    forall i | 0 <= i < |Paths(xs)| ensures Merged(xs + xs)[i] == Merged(xs)[i] {
      var p := Paths(xs)[i];
      assert Normal(NO_FACTS);
      FactsFromAppend(NO_FACTS, xs, xs, p);
      FactsFromNormal(NO_FACTS, xs, p);
      var f := FactsFrom(NO_FACTS, xs, p);
      AbsorbIdle(f);
      FactsFromAbsorbs(f, NO_FACTS, xs, p);
    }
  }

  lemma SelfPaths(xs: seq<Scope>)
    ensures Paths(xs + xs) == Paths(xs)
  {
    assert RawPaths(xs + xs) == RawPaths(xs) + RawPaths(xs);
    AddAllAppend([], RawPaths(xs), RawPaths(xs));
    AddAllElements([], RawPaths(xs));
    AddAllIdle(Paths(xs), RawPaths(xs));
  }

  // ---- What a merged scope holds ----------------------------------------------------

  function ListAt(l: Lists, k: nat): seq<string> {
    match k
    case 0 => l.sessionIds
    case 1 => l.lineageKeys
    case 2 => l.policyFingerprints
    case 3 => l.objectiveIds
    case 4 => l.stopConditionIds
    case _ => l.stopConditionKinds
  }

  predicate Concerns(x: Scope, p: string) { Trim(x.projectPath) == p }

  /** Some scope of project `p` mentions the name in its list `k`. */
  predicate Mentions(xs: seq<Scope>, p: string, k: nat, name: string) {
    exists x :: x in xs && Concerns(x, p) && name in Names(ListAt(x.facts.lists, k))
  }

  lemma FirstOrRest(xs: seq<Scope>)
    requires xs != []
    ensures forall x :: x in xs <==> x == xs[0] || x in xs[1..]
  {
  }

  lemma NameAbsorbed(b: Lists, f: Lists, k: nat, name: string)
    ensures name in ListAt(AbsorbLists(b, f), k) <==> name in ListAt(b, k) || name in Names(ListAt(f, k))
  {
    assert ListAt(AbsorbLists(b, f), k) == AddAll(ListAt(b, k), ListAt(f, k));
    NameAdded(ListAt(b, k), ListAt(f, k), name);
  }

  lemma NameAdded(acc: seq<string>, raw: seq<string>, name: string)
    ensures name in AddAll(acc, raw) <==> name in acc || name in Names(raw)
  {
    AddAllElements(acc, raw);
    assert name in AddAll(acc, raw) <==> name in ToSet(AddAll(acc, raw));
  }

  lemma {:induction false} NamesGathered(b: Facts, xs: seq<Scope>, p: string, k: nat, name: string)
    ensures name in ListAt(FactsFrom(b, xs, p).lists, k) <==> name in ListAt(b.lists, k) || Mentions(xs, p, k, name)
    decreases xs
  {
    if xs != [] {
      FirstOrRest(xs);
      NameAbsorbed(b.lists, xs[0].facts.lists, k, name);
      NamesGathered(if Concerns(xs[0], p) then Absorb(b, xs[0].facts) else b, xs[1..], p, k, name);
    }
  }

  function ScoreAt(f: Facts, frontier: bool): Limit { if frontier then f.frontierBestScore else f.priorityScore }

  /** Some scope of project `p` has this usable score. */
  predicate Scored(xs: seq<Scope>, p: string, frontier: bool, v: real) {
    exists x :: x in xs && Concerns(x, p) && Usable(ScoreAt(x.facts, frontier)) == Some(v)
  }

  lemma ScoredFirst(xs: seq<Scope>, p: string, frontier: bool, v: real)
    requires xs != []
    ensures Scored(xs, p, frontier, v) <==>
      (Concerns(xs[0], p) && Usable(ScoreAt(xs[0].facts, frontier)) == Some(v)) || Scored(xs[1..], p, frontier, v)
  {
    FirstOrRest(xs);
  }

  /** The strongest of a starting score, the scores seen, and zero once there is any. */
  ghost predicate Strongest(best: Limit, start: Limit, xs: seq<Scope>, p: string, frontier: bool) {
    && ScoreSettled(best)
    && (best.None? <==> start.None? && forall v :: !Scored(xs, p, frontier, v))
    && (forall v :: Scored(xs, p, frontier, v) ==> best.Some? && v <= best.value.value)
    && (start.Some? ==> best.Some? && Usable(start).Some? && Usable(start).value <= best.value.value)
    && (best.Some? ==>
          || best == start || best == Some(Finite(0.0))
          || exists v :: Scored(xs, p, frontier, v) && best == Some(Finite(v)))
  }

  /** Only one score can be the strongest. */
  lemma StrongestIsUnique(a: Limit, b: Limit, xs: seq<Scope>, ys: seq<Scope>, p: string, frontier: bool)
    requires Strongest(a, None, xs, p, frontier) && Strongest(b, None, ys, p, frontier)
    requires forall v :: Scored(xs, p, frontier, v) <==> Scored(ys, p, frontier, v)
    ensures a == b
  {
    NoStronger(a, b, xs, ys, p, frontier);
    NoStronger(b, a, ys, xs, p, frontier);
  }

  lemma NoStronger(a: Limit, b: Limit, xs: seq<Scope>, ys: seq<Scope>, p: string, frontier: bool)
    requires Strongest(a, None, xs, p, frontier) && Strongest(b, None, ys, p, frontier)
    requires forall v :: Scored(xs, p, frontier, v) <==> Scored(ys, p, frontier, v)
    ensures a.Some? ==> b.Some? && a.value.value <= b.value.value
  {
  }

  lemma StrongestStep(best: Limit, start: Limit, xs: seq<Scope>, p: string, frontier: bool)
    requires xs != [] && ScoreSettled(start)
    requires var next := if Concerns(xs[0], p) then Peak(start, ScoreAt(xs[0].facts, frontier)) else start;
      Strongest(best, next, xs[1..], p, frontier)
    ensures Strongest(best, start, xs, p, frontier)
  {
    forall v ensures Scored(xs, p, frontier, v) <==>
      (Concerns(xs[0], p) && Usable(ScoreAt(xs[0].facts, frontier)) == Some(v)) || Scored(xs[1..], p, frontier, v)
    {
      ScoredFirst(xs, p, frontier, v);
    }
  }

  lemma {:induction false} ScoreGathered(b: Facts, xs: seq<Scope>, p: string, frontier: bool)
    requires ScoreSettled(ScoreAt(b, frontier))
    ensures Strongest(ScoreAt(FactsFrom(b, xs, p), frontier), ScoreAt(b, frontier), xs, p, frontier)
    decreases xs
  {
    if xs != [] {
      ScoreGathered(if Concerns(xs[0], p) then Absorb(b, xs[0].facts) else b, xs[1..], p, frontier);
      StrongestStep(ScoreAt(FactsFrom(b, xs, p), frontier), ScoreAt(b, frontier), xs, p, frontier);
    }
  }

  predicate AllBudgetsWithin(xs: seq<Scope>, p: string, r: RefinementBudget, n: NidraBudget) {
    forall x :: x in xs && Concerns(x, p) ==> OwnBudgetsWithin(x.facts, r, n)
  }

  /** The gathered budgets are admitted exactly when the starting ones and every scope's own are. */
  lemma {:induction false} BudgetsGathered(b: Facts, xs: seq<Scope>, p: string, r: RefinementBudget, n: NidraBudget)
    ensures OwnBudgetsWithin(FactsFrom(b, xs, p), r, n) <==> OwnBudgetsWithin(b, r, n) && AllBudgetsWithin(xs, p, r, n)
    decreases xs
  {
    if xs != [] {
      BudgetsGathered(if Concerns(xs[0], p) then Absorb(b, xs[0].facts) else b, xs[1..], p, r, n);
      FirstOrRest(xs);
      if Concerns(xs[0], p) { AbsorbedBudgets(b, xs[0].facts, r, n); }
    }
  }

  /** A merged scope has a budget exactly when a scope of its project has one. */
  lemma {:induction false} BudgetsPresent(b: Facts, xs: seq<Scope>, p: string)
    ensures FactsFrom(b, xs, p).refinement.Some? <==>
      b.refinement.Some? || exists x :: x in xs && Concerns(x, p) && x.facts.refinement.Some?
    ensures FactsFrom(b, xs, p).nidra.Some? <==>
      b.nidra.Some? || exists x :: x in xs && Concerns(x, p) && x.facts.nidra.Some?
    decreases xs
  {
    if xs != [] {
      BudgetsPresent(if Concerns(xs[0], p) then Absorb(b, xs[0].facts) else b, xs[1..], p);
      FirstOrRest(xs);
    }
  }

  lemma AbsorbedBudgets(b: Facts, f: Facts, r: RefinementBudget, n: NidraBudget)
    ensures OwnBudgetsWithin(Absorb(b, f), r, n) <==> OwnBudgetsWithin(b, r, n) && OwnBudgetsWithin(f, r, n)
  {
    WiderRefinementAdmits(b.refinement.GetOr(NO_REFINEMENT), f.refinement.GetOr(NO_REFINEMENT), r);
    WiderNidraAdmits(b.nidra.GetOr(NO_NIDRA), f.nidra.GetOr(NO_NIDRA), n);
    assert RefinementCovers(WiderRefinement(NO_REFINEMENT, NO_REFINEMENT), NO_REFINEMENT);
  }

  /** The budgets of `f` are admitted by the given ones. */
  predicate OwnBudgetsWithin(f: Facts, r: RefinementBudget, n: NidraBudget) {
    RefinementCovers(r, f.refinement.GetOr(NO_REFINEMENT)) && NidraCovers(n, f.nidra.GetOr(NO_NIDRA))
  }

  ghost predicate NamesAreMentions(s: Scope, xs: seq<Scope>) {
    forall k, name :: 0 <= k < 6 ==> (name in ListAt(s.facts.lists, k) <==> Mentions(xs, s.projectPath, k, name))
  }

  /** A budget admits the scope's exactly when it admits those of all scopes of the project. */
  ghost predicate BudgetsAreJoined(s: Scope, xs: seq<Scope>) {
    forall r, n :: OwnBudgetsWithin(s.facts, r, n) <==> AllBudgetsWithin(xs, s.projectPath, r, n)
  }

  /** Exactly what the scopes of the project say. */
  ghost predicate HoldsExactly(s: Scope, xs: seq<Scope>) {
    && NamesAreMentions(s, xs)
    && (forall frontier :: Strongest(ScoreAt(s.facts, frontier), None, xs, s.projectPath, frontier))
    && BudgetsAreJoined(s, xs)
  }

  lemma GatheredHoldsExactly(xs: seq<Scope>, p: string)
    ensures HoldsExactly(Scope(p, FactsFrom(NO_FACTS, xs, p)), xs)
  {
    var s := Scope(p, FactsFrom(NO_FACTS, xs, p));
    forall k, name | 0 <= k < 6 ensures name in ListAt(s.facts.lists, k) <==> Mentions(xs, p, k, name) {
      NamesGathered(NO_FACTS, xs, p, k, name);
    }
    forall frontier ensures Strongest(ScoreAt(s.facts, frontier), None, xs, p, frontier) {
      ScoreGathered(NO_FACTS, xs, p, frontier);
    }
    forall r, n ensures OwnBudgetsWithin(s.facts, r, n) <==> AllBudgetsWithin(xs, p, r, n) {
      BudgetsGathered(NO_FACTS, xs, p, r, n);
    }
  }

  /**
   * Each merged scope holds exactly what its project's scopes say: the names they mention,
   * their strongest scores, and the narrowest budgets that admit all of theirs.
   */
  lemma MergedHoldsExactly(xs: seq<Scope>, m: nat)
    requires m < |Merged(xs)|
    ensures HoldsExactly(Merged(xs)[m], xs)
  {
    GatheredHoldsExactly(xs, Merged(xs)[m].projectPath);
  }

  // ---- The order of the input -------------------------------------------------------

  /** The same project with the same names, scores and budgets; only lists may be ordered differently. */
  ghost predicate SameButOrder(m: Scope, n: Scope) {
    && m.projectPath == n.projectPath
    && (forall k :: 0 <= k < 6 ==> ToSet(ListAt(m.facts.lists, k)) == ToSet(ListAt(n.facts.lists, k)))
    && (forall frontier :: ScoreAt(m.facts, frontier) == ScoreAt(n.facts, frontier))
    && m.facts.refinement == n.facts.refinement && m.facts.nidra == n.facts.nidra
  }

  lemma SameLimits(a: Limits, b: Limits)
    requires LimitsSettled(a) && LimitsSettled(b) && LimitsCover(a, b) && LimitsCover(b, a)
    ensures a == b
  {
  }

  lemma SameBudgets(f: Facts, g: Facts)
    requires RefinementSettled(f.refinement) && RefinementSettled(g.refinement)
    requires NidraSettled(f.nidra) && NidraSettled(g.nidra)
    requires f.refinement.Some? == g.refinement.Some? && f.nidra.Some? == g.nidra.Some?
    requires OwnBudgetsWithin(f, g.refinement.GetOr(NO_REFINEMENT), g.nidra.GetOr(NO_NIDRA))
    requires OwnBudgetsWithin(g, f.refinement.GetOr(NO_REFINEMENT), f.nidra.GetOr(NO_NIDRA))
    ensures f.refinement == g.refinement && f.nidra == g.nidra
  {
    if f.refinement.Some? {
      SameLimits(f.refinement.value.daily, g.refinement.value.daily);
      SameLimits(f.refinement.value.project, g.refinement.value.project);
    }
  }

  lemma CoversItself(f: Facts)
    ensures OwnBudgetsWithin(f, f.refinement.GetOr(NO_REFINEMENT), f.nidra.GetOr(NO_NIDRA))
  {
  }

  /** Facts gathered from the same scopes in another order differ in the order of lists only. */
  lemma GatheredAlike(xs: seq<Scope>, ys: seq<Scope>, p: string)
    requires forall x :: x in xs <==> x in ys
    ensures SameButOrder(Scope(p, FactsFrom(NO_FACTS, xs, p)), Scope(p, FactsFrom(NO_FACTS, ys, p)))
  {
    var f, g := FactsFrom(NO_FACTS, xs, p), FactsFrom(NO_FACTS, ys, p);
    assert Normal(NO_FACTS);
    FactsFromNormal(NO_FACTS, xs, p);
    FactsFromNormal(NO_FACTS, ys, p);
    forall k, name | 0 <= k < 6 ensures name in ListAt(f.lists, k) <==> name in ListAt(g.lists, k) {
      NamesGathered(NO_FACTS, xs, p, k, name);
      NamesGathered(NO_FACTS, ys, p, k, name);
    }
    forall frontier ensures ScoreAt(f, frontier) == ScoreAt(g, frontier) {
      ScoreGathered(NO_FACTS, xs, p, frontier);
      ScoreGathered(NO_FACTS, ys, p, frontier);
      StrongestIsUnique(ScoreAt(f, frontier), ScoreAt(g, frontier), xs, ys, p, frontier);
    }
    BudgetsAlike(xs, ys, p);
  }

  lemma BudgetsAlike(xs: seq<Scope>, ys: seq<Scope>, p: string)
    requires forall x :: x in xs <==> x in ys
    ensures FactsFrom(NO_FACTS, xs, p).refinement == FactsFrom(NO_FACTS, ys, p).refinement
    ensures FactsFrom(NO_FACTS, xs, p).nidra == FactsFrom(NO_FACTS, ys, p).nidra
  {
    var f, g := FactsFrom(NO_FACTS, xs, p), FactsFrom(NO_FACTS, ys, p);
    assert Normal(NO_FACTS);
    FactsFromNormal(NO_FACTS, xs, p);
    FactsFromNormal(NO_FACTS, ys, p);
    BudgetsPresent(NO_FACTS, xs, p);
    BudgetsPresent(NO_FACTS, ys, p);
    CoversItself(f);
    CoversItself(g);
    BudgetsGathered(NO_FACTS, xs, p, f.refinement.GetOr(NO_REFINEMENT), f.nidra.GetOr(NO_NIDRA));
    BudgetsGathered(NO_FACTS, ys, p, f.refinement.GetOr(NO_REFINEMENT), f.nidra.GetOr(NO_NIDRA));
    BudgetsGathered(NO_FACTS, xs, p, g.refinement.GetOr(NO_REFINEMENT), g.nidra.GetOr(NO_NIDRA));
    BudgetsGathered(NO_FACTS, ys, p, g.refinement.GetOr(NO_REFINEMENT), g.nidra.GetOr(NO_NIDRA));
    SameBudgets(f, g);
  }

  /** Listing the scopes in another order, or repeating some, changes only the order of the output and of its lists. */
  lemma PermutationChangesOnlyOrder(xs: seq<Scope>, ys: seq<Scope>)
    requires forall x :: x in xs <==> x in ys
    ensures |Merged(xs)| == |Merged(ys)|
    ensures forall m :: m in Merged(xs) ==> exists k :: 0 <= k < |Merged(ys)| && SameButOrder(m, Merged(ys)[k])
  {
    SamePathsCounted(xs, ys);
    forall m | m in Merged(xs) ensures exists k :: 0 <= k < |Merged(ys)| && SameButOrder(m, Merged(ys)[k]) {
      var p := m.projectPath;
      assert p in Paths(xs) && p in Paths(ys);
      var k :| 0 <= k < |Paths(ys)| && Paths(ys)[k] == p;
      GatheredAlike(xs, ys, p);
      assert SameButOrder(m, Merged(ys)[k]);
    }
  }

  lemma SamePathsCounted(xs: seq<Scope>, ys: seq<Scope>)
    requires forall x :: x in xs <==> x in ys
    ensures forall p :: p in Paths(xs) <==> p in Paths(ys)
    ensures |Paths(xs)| == |Paths(ys)|
  {
    PathsFacts(xs);
    PathsFacts(ys);
    forall p ensures p in Paths(xs) <==> p in Paths(ys) {
      if i :| 0 <= i < |xs| && Trim(xs[i].projectPath) == p { assert xs[i] in ys; }
      if i :| 0 <= i < |ys| && Trim(ys[i].projectPath) == p { assert ys[i] in xs; }
    }
    DistinctSize(Paths(xs));
    DistinctSize(Paths(ys));
    assert ToSet(Paths(xs)) == ToSet(Paths(ys));
  }

  // ---- What a merged scope selects --------------------------------------------------

  /** The session a research row belongs to; a missing part is the empty string. */
  datatype Row = Row(sessionId: string, parentSessionId: string, lineageKey: string)

  predicate Wide(l: Lists) { l.sessionIds == [] && l.lineageKeys == [] }

  predicate Matches(row: Row, l: Lists) {
    || Wide(l)
    || row.sessionId in l.sessionIds || row.parentSessionId in l.sessionIds || row.lineageKey in l.lineageKeys
  }

  // ---- What the merge of all scopes of a project selects ------------------------------

  ghost predicate MatchesAny(row: Row, xs: seq<Scope>, p: string) {
    exists x :: x in xs && Concerns(x, p) && Matches(row, x.facts.lists)
  }

  ghost predicate AllWide(xs: seq<Scope>, p: string) {
    forall x :: x in xs && Concerns(x, p) ==> Wide(x.facts.lists)
  }

  ghost predicate NoneWide(xs: seq<Scope>, p: string) {
    forall x :: x in xs && Concerns(x, p) ==> !Wide(x.facts.lists)
  }

  predicate AllClean(xs: seq<Scope>, p: string) {
    forall x :: x in xs && Concerns(x, p) ==> ListsClean(x.facts.lists)
  }

  /** The name stands in list `k` of some scope of the project. */
  ghost predicate ListedFor(xs: seq<Scope>, p: string, k: nat, name: string) {
    exists x :: x in xs && Concerns(x, p) && name in ListAt(x.facts.lists, k)
  }

  /** The row's ids stand in the lists of some scope of the project. */
  ghost predicate Named(row: Row, xs: seq<Scope>, p: string) {
    || ListedFor(xs, p, 0, row.sessionId) || ListedFor(xs, p, 0, row.parentSessionId)
    || ListedFor(xs, p, 1, row.lineageKey)
  }

  predicate InLists(row: Row, l: Lists) {
    row.sessionId in ListAt(l, 0) || row.parentSessionId in ListAt(l, 0) || row.lineageKey in ListAt(l, 1)
  }

  lemma NamedIff(row: Row, xs: seq<Scope>, p: string)
    ensures Named(row, xs, p) <==> exists x :: x in xs && Concerns(x, p) && InLists(row, x.facts.lists)
  {
    if x :| x in xs && Concerns(x, p) && row.sessionId in ListAt(x.facts.lists, 0) {
      assert InLists(row, x.facts.lists);
    }
    if x :| x in xs && Concerns(x, p) && row.parentSessionId in ListAt(x.facts.lists, 0) {
      assert InLists(row, x.facts.lists);
    }
    if x :| x in xs && Concerns(x, p) && row.lineageKey in ListAt(x.facts.lists, 1) {
      assert InLists(row, x.facts.lists);
    }
  }

  lemma MatchesIff(row: Row, l: Lists)
    ensures Matches(row, l) <==> Wide(l) || InLists(row, l)
  {
  }

  lemma AnyMatchesIff(row: Row, xs: seq<Scope>, p: string)
    ensures MatchesAny(row, xs, p) <==> !NoneWide(xs, p) || Named(row, xs, p)
  {
    NamedIff(row, xs, p);
    forall l ensures Matches(row, l) <==> Wide(l) || InLists(row, l) { MatchesIff(row, l); }
  }

  /** The row's ids are names that some scope of the project mentions. */
  ghost predicate Called(row: Row, xs: seq<Scope>, p: string) {
    || Mentions(xs, p, 0, row.sessionId) || Mentions(xs, p, 0, row.parentSessionId)
    || Mentions(xs, p, 1, row.lineageKey)
  }

  /** No scope of the project has anything but blanks among its sessions and lineages. */
  ghost predicate Nameless(xs: seq<Scope>, p: string) {
    forall k: nat, name :: k < 2 ==> !Mentions(xs, p, k, name)
  }

  /** What the scopes list are trimmed names, and what they list padded they also list trimmed. */
  ghost predicate ListsItsNames(xs: seq<Scope>, p: string) {
    forall k: nat, name :: k < 2 ==> (ListedFor(xs, p, k, name) <==> Mentions(xs, p, k, name))
  }

  lemma GatheredWideIff(xs: seq<Scope>, p: string)
    ensures Wide(FactsFrom(NO_FACTS, xs, p).lists) <==> Nameless(xs, p)
  {
    var l := FactsFrom(NO_FACTS, xs, p).lists;
    forall k: nat, name | k < 2 ensures name in ListAt(l, k) <==> Mentions(xs, p, k, name) {
      NamesGathered(NO_FACTS, xs, p, k, name);
    }
    if !Wide(l) {
      var k: nat := if l.sessionIds != [] then 0 else 1;
      assert Mentions(xs, p, k, ListAt(l, k)[0]);
    }
  }

  lemma GatheredMatchesIff(row: Row, xs: seq<Scope>, p: string)
    ensures Matches(row, FactsFrom(NO_FACTS, xs, p).lists) <==> Nameless(xs, p) || Called(row, xs, p)
  {
    GatheredWideIff(xs, p);
    NamesGathered(NO_FACTS, xs, p, 0, row.sessionId);
    NamesGathered(NO_FACTS, xs, p, 0, row.parentSessionId);
    NamesGathered(NO_FACTS, xs, p, 1, row.lineageKey);
  }

  ghost predicate SelectsUnion(l: Lists, xs: seq<Scope>, p: string) {
    forall row :: Matches(row, l) <==> MatchesAny(row, xs, p)
  }

  // ---- A string that no scope lists ----------------------------------------------------

  predicate Shorter(raw: seq<string>, n: nat) { forall r :: r in raw ==> |r| < n }

  lemma {:induction false} LengthBound(raw: seq<string>) returns (n: nat)
    ensures Shorter(raw, n)
  {
    n := 0;
    if raw != [] {
      n := LengthBound(raw[1..]);
      n := Max(n, |raw[0]| + 1);
      assert raw == [raw[0]] + raw[1..];
    }
  }

  lemma {:induction false} ScopesBound(xs: seq<Scope>) returns (n: nat)
    ensures forall x :: x in xs ==> Shorter(x.facts.lists.sessionIds, n) && Shorter(x.facts.lists.lineageKeys, n)
  {
    n := 0;
    if xs != [] {
      n := ScopesBound(xs[1..]);
      var i := LengthBound(xs[0].facts.lists.sessionIds);
      var j := LengthBound(xs[0].facts.lists.lineageKeys);
      n := Max(n, Max(i, j));
      assert xs == [xs[0]] + xs[1..];
    }
  }

  /** A string longer than every listed one is neither listed nor mentioned. */
  lemma Stranger(xs: seq<Scope>, p: string) returns (s: string)
    ensures forall k: nat :: k < 2 ==> !ListedFor(xs, p, k, s) && !Mentions(xs, p, k, s)
  {
    var n := ScopesBound(xs);
    s := seq(n, _ => 'x');
  }

  lemma StrangerIsUnknown(xs: seq<Scope>, p: string) returns (nobody: Row)
    ensures !Named(nobody, xs, p) && !Called(nobody, xs, p)
  {
    var s := Stranger(xs, p);
    nobody := Row(s, s, s);
  }

  /** Rows can tell apart what is listed and what is mentioned. */
  lemma RowsTellNames(xs: seq<Scope>, p: string)
    requires forall row :: Called(row, xs, p) <==> Named(row, xs, p)
    ensures ListsItsNames(xs, p)
  {
    var s := Stranger(xs, p);
    forall k: nat, name | k < 2 ensures ListedFor(xs, p, k, name) <==> Mentions(xs, p, k, name) {
      var row := if k == 0 then Row(name, s, s) else Row(s, s, name);
      assert Called(row, xs, p) <==> Named(row, xs, p);
    }
  }

  /** Some scope is project-wide and none has a name; or none is, some name is mentioned, and only names are listed. */
  ghost predicate WideOrNamed(xs: seq<Scope>, p: string) {
    if NoneWide(xs, p) then !Nameless(xs, p) && ListsItsNames(xs, p) else Nameless(xs, p)
  }

  lemma GatheredKeepsSelectionIff(xs: seq<Scope>, p: string)
    ensures SelectsUnion(FactsFrom(NO_FACTS, xs, p).lists, xs, p)
      <==> WideOrNamed(xs, p)
  {
    var l := FactsFrom(NO_FACTS, xs, p).lists;
    forall row ensures Matches(row, l) <==> Nameless(xs, p) || Called(row, xs, p) { GatheredMatchesIff(row, xs, p); }
    forall row ensures MatchesAny(row, xs, p) <==> !NoneWide(xs, p) || Named(row, xs, p) { AnyMatchesIff(row, xs, p); }
    var nobody := StrangerIsUnknown(xs, p);
    assert Matches(nobody, l) <==> Nameless(xs, p);
    if NoneWide(xs, p) && !Nameless(xs, p) && SelectsUnion(l, xs, p) {
      forall row ensures Called(row, xs, p) <==> Named(row, xs, p) {
        assert Matches(row, l) <==> MatchesAny(row, xs, p);
      }
      RowsTellNames(xs, p);
    }
  }

  /**
   * A merged scope selects exactly the rows that the scopes of its project select in two cases
   * only: some scope stands for the whole project and none has a name; or none does, some name
   * is mentioned, and the scopes list just their names.
   */
  lemma MergedKeepsSelectionIff(xs: seq<Scope>, m: nat)
    requires m < |Merged(xs)|
    ensures var s := Merged(xs)[m];
      SelectsUnion(s.facts.lists, xs, s.projectPath) <==> WideOrNamed(xs, s.projectPath)
  {
    GatheredKeepsSelectionIff(xs, Merged(xs)[m].projectPath);
  }

  /** Where all lists hold distinct trimmed names, listing and mentioning are the same. */
  lemma CleanScopes(xs: seq<Scope>, p: string)
    requires AllClean(xs, p)
    ensures ListsItsNames(xs, p) && (Nameless(xs, p) <==> AllWide(xs, p))
  {
    forall x, k: nat | x in xs && Concerns(x, p) && k < 2
      ensures Names(ListAt(x.facts.lists, k)) == ToSet(ListAt(x.facts.lists, k))
    {
      CleanNames(ListAt(x.facts.lists, k));
    }
    if x :| x in xs && Concerns(x, p) && !Wide(x.facts.lists) {
      var k: nat := if x.facts.lists.sessionIds != [] then 0 else 1;
      assert ListAt(x.facts.lists, k)[0] in ToSet(ListAt(x.facts.lists, k));
      assert Mentions(xs, p, k, ListAt(x.facts.lists, k)[0]);
    }
  }

  /** Then a merged scope selects the union exactly when all its parts are project-wide or none is. */
  lemma CleanMergeKeepsSelectionIff(xs: seq<Scope>, m: nat)
    requires m < |Merged(xs)| && AllClean(xs, Merged(xs)[m].projectPath)
    ensures var s := Merged(xs)[m];
      SelectsUnion(s.facts.lists, xs, s.projectPath) <==> AllWide(xs, s.projectPath) || NoneWide(xs, s.projectPath)
  {
    var p := Merged(xs)[m].projectPath;
    PathsFacts(xs);
    assert p in Paths(xs);
    var i :| 0 <= i < |xs| && Trim(xs[i].projectPath) == p;
    assert xs[i] in xs && Concerns(xs[i], p);
    CleanScopes(xs, p);
    MergedKeepsSelectionIff(xs, m);
  }

  lemma CleanNames(s: seq<string>)
    requires Clean(s)
    ensures Names(s) == ToSet(s) && "" !in s
  {
    assert forall x :: x in s ==> Trim(x) == x && x != "";
  }
}
