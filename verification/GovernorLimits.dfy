/** The plan in numbers. */
module GovernorLimits {
  import opened Collections
  import opened StableSort
  import opened Budgets
  import opened ScopeMerge
  import opened Governor

  // ---- Pressure ---------------------------------------------------------------------

  function Least(x: real, y: real): real { if x < y then x else y }

  function AtMostTwo(n: int): int { if n < 2 then n else 2 }

  /** Five quarters per project or the priorities, whichever is more, and up to two each for loops and experiments. */
  lemma PressureIs(loops: int, experiments: int, projects: nat, priority: real)
    ensures var base := if 1.25 * projects as real > priority then 1.25 * projects as real else priority;
      Pressure(loops, experiments, projects, priority)
        == Least(8.0, base + AtMostTwo(loops) as real + AtMostTwo(experiments) as real)
  {
  }

  /** The strongest priority is that of some scope, or zero when none is positive. */
  lemma {:induction false} TopPriorityIs(scopes: seq<Scope>)
    ensures TopPriority(scopes) >= 0.0
    ensures forall i :: 0 <= i < |scopes| ==> PriorityOf(scopes[i]) <= TopPriority(scopes)
    ensures TopPriority(scopes) != 0.0 ==>
      exists i :: 0 <= i < |scopes| && PriorityOf(scopes[i]) == TopPriority(scopes)
  {
    if scopes != [] {
      var front := scopes[..|scopes| - 1];
      TopPriorityIs(front);
      if i :| 0 <= i < |front| && PriorityOf(front[i]) == TopPriority(front) {
        assert PriorityOf(scopes[i]) == TopPriority(front);
      }
      assert PriorityOf(scopes[|scopes| - 1]) == Priority(scopes[|scopes| - 1]);
    }
  }

  /** An absent or non-finite priority counts as zero. */
  function PriorityOf(s: Scope): real {
    var score := s.facts.priorityScore;
    if score.Some? && score.value.Finite? then score.value.value else 0.0
  }

  function SumOfPriorities(scopes: seq<Scope>): real {
    if scopes == [] then 0.0 else PriorityOf(scopes[0]) + SumOfPriorities(scopes[1..])
  }

  lemma {:induction false} PrioritySumIs(scopes: seq<Scope>)
    ensures PrioritySum(scopes) == SumOfPriorities(scopes)
  {
    if scopes != [] {
      PrioritySumIs(scopes[1..]);
      PrioritySumAppend([scopes[0]], scopes[1..]);
      assert scopes == [scopes[0]] + scopes[1..] && PrioritySum([scopes[0]]) == PrioritySum([]) + Priority(scopes[0]);
    }
  }

  // ---- The rebuilt budget -------------------------------------------------------------

  /** The least whole number, from one up, that is no less than either. */
  predicate IsWidth(w: int, strongest: real, pressure: real) {
    && w >= 1 && strongest <= w as real && pressure <= w as real
    && (w > 1 ==> strongest > (w - 1) as real || pressure > (w - 1) as real)
  }

  /** The least whole number that is no less. */
  predicate IsCeiling(c: int, x: real) { (c - 1) as real < x <= c as real }

  lemma CeilIs(c: int, x: real)
    requires IsCeiling(c, x)
    ensures Ceil(x) == c as real
  {
    WholeCeiling(-((-x).Floor), c, x);
  }

  lemma WholeCeiling(a: int, c: int, x: real)
    requires IsCeiling(a, x) && IsCeiling(c, x)
    ensures a == c
  {
  }

  lemma WideningIs(w: int, strongest: real, pressure: real)
    requires IsWidth(w, strongest, pressure)
    ensures Widening(strongest, pressure) == w as real
  {
    var x := MaxReal(strongest, pressure);
    if w > 1 {
      CeilIs(w, x);
    } else {
      CeilMonotone(x, 1.0);
      CeilIs(1, 1.0);
    }
  }

  /** The limits of a day's candidates by the width, in full. */
  predicate DailyByWidth(l: Limits, w: int) {
    && l.candidateLimit == Known(if w <= 10 then (4 + w) as real else 14.0)
    && l.minMdlScore == Known(if w == 1 then 0.5 else if w == 2 then 0.48 else if w == 3 then 0.46 else 0.45)
    && l.minPriorityScore == Known(
         if w == 1 then 1.27 else if w == 2 then 1.19 else if w == 3 then 1.11 else if w == 4 then 1.03
         else if w == 5 then 0.95 else 0.9)
    && l.minSourceSessionCount == Known(1.0)
  }

  /** Those of a project's candidates by the width and the strongest priority. */
  predicate ProjectByWidth(l: Limits, w: int, strongest: real, half: int) {
    && l.candidateLimit == Known(if half <= 1 then 4.0 else if half <= 7 then (3 + half) as real else 10.0)
    && l.minMdlScore == Known(if w == 1 then 0.56 else if w == 2 then 0.54 else if w == 3 then 0.53 else 0.51)
    && l.minPriorityScore == Known(
         if w == 1 then 1.43 else if w == 2 then 1.36 else if w == 3 then 1.29 else if w == 4 then 1.22
         else if w == 5 then 1.15 else 1.1)
    && l.minSourceSessionCount == Known(if strongest >= 3.0 then 1.0 else 2.0)
  }

  lemma DailyTable(w: int)
    requires w >= 1
    ensures DailyByWidth(DailyLimits(w as real), w)
  {
    var mdl := if w == 1 then 50 else if w == 2 then 48 else if w == 3 then 46 else 45;
    var least := if w == 1 then 127 else if w == 2 then 119 else if w == 3 then 111 else if w == 4 then 103
      else if w == 5 then 95 else 90;
    RoundsExactly(MaxReal(0.45, 0.52 - MinReal(w as real * 0.02, 0.07)), mdl);
    RoundsExactly(MaxReal(0.8, 1.35 - MinReal(w as real * 0.08, 0.45)), least);
  }

  lemma ProjectTable(w: int, strongest: real, half: int)
    requires w >= 1 && IsCeiling(half, strongest / 2.0)
    ensures ProjectByWidth(ProjectLimits(strongest, w as real), w, strongest, half)
  {
    CeilIs(half, strongest / 2.0);
    var mdl := if w == 1 then 56 else if w == 2 then 54 else if w == 3 then 53 else 51;
    var least := if w == 1 then 143 else if w == 2 then 136 else if w == 3 then 129 else if w == 4 then 122
      else if w == 5 then 115 else 110;
    RoundsExactly(MaxReal(0.45, 0.57 - MinReal(w as real * 0.015, 0.06)), mdl);
    RoundsExactly(MaxReal(0.95, 1.5 - MinReal(w as real * 0.07, 0.4)), least);
  }

  /** The whole rebuilt budget: tables over the width, one project per scope up to eight, the pressure rounded up. */
  lemma RebuiltBudgetIs(strongest: real, pressure: real, scopes: nat, w: int, half: int, c: int)
    requires IsWidth(w, strongest, pressure) && IsCeiling(half, strongest / 2.0) && IsCeiling(c, pressure)
    ensures var b := BudgetFor(strongest, pressure, scopes);
      && DailyByWidth(b.refinement.daily, w) && ProjectByWidth(b.refinement.project, w, strongest, half)
      && b.nidra.Some?
      && b.nidra.value.maxResearchProjectsPerCycle
           == Known(if scopes == 0 then 1.0 else if scopes <= 8 then scopes as real else 8.0)
      && b.nidra.value.maxSemanticPressure == Known(if c <= 1 then 1.0 else c as real)
  {
    WideningIs(w, strongest, pressure);
    DailyTable(w);
    ProjectTable(w, strongest, half);
    CeilIs(c, pressure);
  }

  /** Nothing is rebuilt on an idle day; on any other, from the strongest priority and the pressure of all scopes. */
  lemma DerivedIs(loops: int, experiments: int, scopes: seq<Scope>)
    ensures DerivedBudget(loops, experiments, scopes)
      == if loops <= 0 && experiments <= 0 && |scopes| == 0 then None
         else Some(BudgetFor(
           TopPriority(scopes), Pressure(loops, experiments, |scopes|, SumOfPriorities(scopes)), |scopes|))
  {
    PrioritySumIs(scopes);
    PressureIs(loops, experiments, |scopes|, SumOfPriorities(scopes));
  }

  /** The scopes together carry no envelope exactly when none of them carries a budget. */
  lemma {:induction false} ScopesCarryNoneIff(scopes: seq<Scope>)
    ensures ScopeBudget(scopes).None? <==>
      forall i :: 0 <= i < |scopes| ==> scopes[i].facts.refinement.None? && scopes[i].facts.nidra.None?
  {
    if scopes != [] {
      var front := scopes[..|scopes| - 1];
      ScopesCarryNoneIff(front);
      assert forall i :: 0 <= i < |front| ==> scopes[i] == front[i];
    }
  }

  // ---- The effective budget -------------------------------------------------------------

  /** `b` admits whatever an envelope, if there is one, says. */
  predicate Admits(b: RefinementBudget, n: NidraBudget, e: Option<Envelope>) {
    e.Some? ==> RefinementCovers(b, e.value.refinement) && (e.value.nidra.Some? ==> NidraCovers(n, e.value.nidra.value))
  }

  /** `b` admits whatever a scope carries. */
  predicate AdmitsScope(b: RefinementBudget, n: NidraBudget, s: Scope) {
    && (s.facts.refinement.Some? ==> RefinementCovers(b, s.facts.refinement.value))
    && (s.facts.nidra.Some? ==> NidraCovers(n, s.facts.nidra.value))
  }

  predicate AdmitsAll(
    b: RefinementBudget, n: NidraBudget, loops: int, experiments: int, scopes: seq<Scope>, active: Option<Envelope>)
  {
    && Admits(b, n, active) && Admits(b, n, DerivedBudget(loops, experiments, scopes))
    && forall i :: 0 <= i < |scopes| ==> AdmitsScope(b, n, scopes[i])
  }

  lemma CoversIffAdmits(b: RefinementBudget, n: NidraBudget, e: Option<Envelope>)
    ensures EnvelopeCovers(Some(Envelope(b, Some(n))), e) <==> Admits(b, n, e)
  {
  }

  lemma CoversIffAdmitsScope(b: RefinementBudget, n: NidraBudget, s: Scope)
    ensures EnvelopeCovers(Some(Envelope(b, Some(n))), OwnBudget(s)) <==> AdmitsScope(b, n, s)
  {
  }

  /** There is an effective budget unless the day is idle and none was persisted; it always has both parts. */
  lemma EffectiveIsNoneIff(loops: int, experiments: int, scopes: seq<Scope>, active: Option<Envelope>)
    ensures var e := EffectiveBudget(loops, experiments, scopes, active);
      && (e.None? <==> active.None? && loops <= 0 && experiments <= 0 && scopes == [])
      && (e.Some? ==> e.value.nidra.Some?)
  {
    DerivedIs(loops, experiments, scopes);
  }

  /**
   * The effective budget admits what was persisted, what is rebuilt and what each scope
   * carries, and whatever admits all of that admits the effective budget.
   */
  lemma EffectiveBudgetIs(
    loops: int, experiments: int, scopes: seq<Scope>, active: Option<Envelope>, b: RefinementBudget, n: NidraBudget)
    requires EffectiveBudget(loops, experiments, scopes, active).Some?
    ensures var e := EffectiveBudget(loops, experiments, scopes, active).value;
      && e.nidra.Some? && AdmitsAll(e.refinement, e.nidra.value, loops, experiments, scopes, active)
      && (AdmitsAll(b, n, loops, experiments, scopes, active) ==> RefinementCovers(b, e.refinement))
      && (AdmitsAll(b, n, loops, experiments, scopes, active) ==> NidraCovers(n, e.nidra.value))
  {
    EffectiveIsNoneIff(loops, experiments, scopes, active);
    var effective := EffectiveBudget(loops, experiments, scopes, active);
    var e := effective.value;
    EffectiveBudgetIsLeastCover(loops, experiments, scopes, active, Some(Envelope(b, Some(n))));
    assert effective == Some(Envelope(e.refinement, Some(e.nidra.value)));
    CoversIffAdmits(e.refinement, e.nidra.value, active);
    CoversIffAdmits(e.refinement, e.nidra.value, DerivedBudget(loops, experiments, scopes));
    CoversIffAdmits(b, n, active);
    CoversIffAdmits(b, n, DerivedBudget(loops, experiments, scopes));
    CoversIffAdmits(b, n, effective);
    forall i | 0 <= i < |scopes|
      ensures EnvelopeCovers(effective, OwnBudget(scopes[i])) <==> AdmitsScope(e.refinement, e.nidra.value, scopes[i])
      ensures EnvelopeCovers(Some(Envelope(b, Some(n))), OwnBudget(scopes[i])) <==> AdmitsScope(b, n, scopes[i])
    {
      CoversIffAdmitsScope(e.refinement, e.nidra.value, scopes[i]);
      CoversIffAdmitsScope(b, n, scopes[i]);
    }
  }

  // ---- The plan ---------------------------------------------------------------------------

  /** `a` may stand before `b`: a higher priority, or the same one and a path that is no later. */
  ghost predicate MayPrecede(le: PathOrder, a: Scope, b: Scope) {
    PriorityOf(a) > PriorityOf(b) || (PriorityOf(a) == PriorityOf(b) && le(a.projectPath, b.projectPath))
  }

  /** Selected and deferred together are the scopes in that order. */
  lemma RankingIs(scopes: seq<Scope>, le: PathOrder, cap: Option<real>)
    requires TotalPreorder(le)
    ensures var s := SplitScopes(scopes, le, cap);
      && multiset(s.selected + s.deferred) == multiset(scopes)
      && forall i, j :: 0 <= i < j < |s.selected + s.deferred| ==>
           MayPrecede(le, (s.selected + s.deferred)[i], (s.selected + s.deferred)[j])
  {
    var s := SplitScopes(scopes, le, cap);
    var all := s.selected + s.deferred;
    SplitPartitions(scopes, le, cap);
    forall i, j | 0 <= i < j < |all| ensures MayPrecede(le, all[i], all[j]) {
      var before := ByPressure(le);
      assert SortedBy(all, before);
      assert before(all[i], all[j]);
      assert Priority(all[i]) == PriorityOf(all[i]) && Priority(all[j]) == PriorityOf(all[j]);
    }
  }

  /** What remains of the project cap, and no more than eight or the rows due while any are. */
  lemma DrainLimitIs(cap: Option<real>, selected: nat, due: Option<int>)
    ensures var rows := if due.Some? then due.value else 0;
      var left := if cap.None? || cap.value <= selected as real then 0.0 else cap.value - selected as real;
      DrainLimit(cap, selected, due) ==
        if rows <= 0 then (if cap.None? then None else Some(left))
        else
          var most := if rows <= 8 then rows as real else 8.0;
          Some(if cap.None? then most else Least(left, most))
  {
  }

  function UsableCap(l: Limit): Option<real> {
    if l.Some? && l.value.Finite? then Some(l.value.value) else None
  }

  /** The number selected under a cap: all without a positive one, else as many as its whole part. */
  predicate SelectsUnder(selected: nat, scopes: nat, cap: Option<real>) {
    if cap.None? || cap.value <= 0.0 then selected == scopes
    else
      && selected <= scopes && selected as real <= cap.value
      && (selected < scopes ==> cap.value < selected as real + 1.0)
  }

  lemma SelectsUnderCap(scopes: seq<Scope>, le: PathOrder, cap: Option<real>)
    ensures SelectsUnder(|SplitScopes(scopes, le, cap).selected|, |scopes|, cap)
  {
    SplitRejoins(scopes, le, cap);
    if cap.Some? && cap.value > 0.0 { assert cap.value.Floor as real <= cap.value < cap.value.Floor as real + 1.0; }
  }

  /** The plan: how many scopes are selected, how strong the signal is, and what the queue may drain. */
  lemma PlanIs(
    loops: int, experiments: int, scopes: seq<Scope>, active: Option<Envelope>, due: Option<int>, le: PathOrder)
    ensures var plan := GovernorPlan(loops, experiments, scopes, active, due, le);
      var nidra := if plan.budget.Some? then plan.budget.value.nidra else None;
      var cap := if nidra.Some? then UsableCap(nidra.value.maxResearchProjectsPerCycle) else None;
      var ceiling := if nidra.Some? then UsableCap(nidra.value.maxSemanticPressure) else None;
      var raw := Pressure(loops, experiments, |plan.selected|, SumOfPriorities(plan.selected));
      && plan.budget == EffectiveBudget(loops, experiments, scopes, active)
      && SelectsUnder(|plan.selected|, |scopes|, cap)
      && Split(plan.selected, plan.deferred) == SplitScopes(scopes, le, cap)
      && plan.signal == (if ceiling.Some? then Least(raw, ceiling.value) else raw)
      && plan.drainLimit == DrainLimit(cap, |plan.selected|, due)
  {
    var plan := GovernorPlan(loops, experiments, scopes, active, due, le);
    PrioritySumIs(plan.selected);
    SelectsUnderCap(scopes, le, ProjectCap(plan.budget));
  }
}
