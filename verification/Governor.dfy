/** The plan for one daily refinement cycle. */
module Governor {
  import opened Collections
  import opened StableSort
  import opened Budgets
  import opened ScopeMerge

  datatype Envelope = Envelope(refinement: RefinementBudget, nidra: Option<NidraBudget>)

  /** Merge two envelopes, keeping the wider side of every limit. */
  function MergeEnvelopes(left: Option<Envelope>, right: Option<Envelope>): Option<Envelope> {
    if left.None? && right.None? then None
    else Some(Envelope(
      WiderRefinement(RefinementOf(left), RefinementOf(right)),
      Some(WiderNidra(NidraOf(left), NidraOf(right)))))
  }

  function RefinementOf(e: Option<Envelope>): RefinementBudget { if e.None? then NO_REFINEMENT else e.value.refinement }

  function NidraOf(e: Option<Envelope>): NidraBudget { if e.None? then NO_NIDRA else e.value.nidra.GetOr(NO_NIDRA) }

  // ---- Width ------------------------------------------------------------------------

  /** Every limit of `narrow` is admitted by `wide`. */
  predicate EnvelopeCovers(wide: Option<Envelope>, narrow: Option<Envelope>) {
    RefinementCovers(RefinementOf(wide), RefinementOf(narrow)) && NidraCovers(NidraOf(wide), NidraOf(narrow))
  }

  lemma CoversTransitive(a: Option<Envelope>, b: Option<Envelope>, c: Option<Envelope>)
    requires EnvelopeCovers(a, b) && EnvelopeCovers(b, c)
    ensures EnvelopeCovers(a, c)
  {
    LimitsCoverTransitive(RefinementOf(a).daily, RefinementOf(b).daily, RefinementOf(c).daily);
    LimitsCoverTransitive(RefinementOf(a).project, RefinementOf(b).project, RefinementOf(c).project);
  }

  /** The merged envelope is the narrowest one that covers both. */
  lemma MergeIsLeastCover(l: Option<Envelope>, r: Option<Envelope>, w: Option<Envelope>)
    ensures EnvelopeCovers(MergeEnvelopes(l, r), l) && EnvelopeCovers(MergeEnvelopes(l, r), r)
    ensures EnvelopeCovers(w, l) && EnvelopeCovers(w, r) ==> EnvelopeCovers(w, MergeEnvelopes(l, r))
  {
    WiderRefinementIsLeastCover(RefinementOf(l), RefinementOf(r), RefinementOf(w));
    WiderNidraIsLeastCover(NidraOf(l), NidraOf(r), NidraOf(w));
  }

  // ---- Budgets carried by the scopes ------------------------------------------------

  function OwnBudget(s: Scope): Option<Envelope> {
    if s.facts.refinement.None? && s.facts.nidra.None? then None
    else Some(Envelope(s.facts.refinement.GetOr(NO_REFINEMENT), s.facts.nidra))
  }

  function ScopeBudget(scopes: seq<Scope>): Option<Envelope> {
    if scopes == [] then None
    else
      var before := ScopeBudget(scopes[..|scopes| - 1]);
      var own := OwnBudget(scopes[|scopes| - 1]);
      if own.None? then before else MergeEnvelopes(before, own)
  }

  method DeriveScopeBudgetEnvelope(scopes: seq<Scope>) returns (envelope: Option<Envelope>)
    ensures envelope == ScopeBudget(scopes)
  {
    envelope := None;
    for i := 0 to |scopes|
      invariant envelope == ScopeBudget(scopes[..i])
    {
      assert scopes[..i + 1][..i] == scopes[..i];
      var own := OwnBudget(scopes[i]);
      if own.Some? { envelope := MergeEnvelopes(envelope, own); }
    }
    assert scopes[..|scopes|] == scopes;
  }

  lemma {:induction false} ScopeBudgetIsLeastCover(scopes: seq<Scope>, w: Option<Envelope>)
    ensures forall i :: 0 <= i < |scopes| ==> EnvelopeCovers(ScopeBudget(scopes), OwnBudget(scopes[i]))
    ensures (forall i :: 0 <= i < |scopes| ==> EnvelopeCovers(w, OwnBudget(scopes[i])))
      ==> EnvelopeCovers(w, ScopeBudget(scopes))
  {
    if scopes != [] {
      var front, last := scopes[..|scopes| - 1], |scopes| - 1;
      ScopeBudgetIsLeastCover(front, w);
      MergeIsLeastCover(ScopeBudget(front), OwnBudget(scopes[last]), w);
      forall i | 0 <= i < last ensures EnvelopeCovers(ScopeBudget(scopes), OwnBudget(scopes[i])) {
        assert front[i] == scopes[i];
        CoversTransitive(ScopeBudget(scopes), ScopeBudget(front), OwnBudget(scopes[i]));
      }
    }
  }

  // ---- Pressure ---------------------------------------------------------------------

  function MinReal(x: real, y: real): real { if x <= y then x else y }

  function MaxReal(x: real, y: real): real { if x >= y then x else y }

  function Ceil(x: real): (r: real)
    ensures x <= r < x + 1.0
  {
    (-((-x).Floor)) as real
  }

  /** Rounded to hundredths. */
  function Round(x: real): real { (x * 100.0 + 0.5).Floor as real / 100.0 }

  function Priority(s: Scope): real { Usable(s.facts.priorityScore).GetOr(0.0) }

  function PrioritySum(scopes: seq<Scope>): real {
    if scopes == [] then 0.0 else PrioritySum(scopes[..|scopes| - 1]) + Priority(scopes[|scopes| - 1])
  }

  /** The strongest priority, never below zero. */
  function TopPriority(scopes: seq<Scope>): real {
    if scopes == [] then 0.0 else MaxReal(TopPriority(scopes[..|scopes| - 1]), Priority(scopes[|scopes| - 1]))
  }

  function Pressure(loops: int, experiments: int, projects: nat, priority: real): real {
    MinReal(8.0, MaxReal(projects as real * 1.25, priority) + Min(loops, 2) as real + Min(experiments, 2) as real)
  }

  /** A threshold lowered from `base` by at most `most`, never below `least`. */
  function Threshold(least: real, base: real, drop: real, most: real): real {
    Round(MaxReal(least, base - MinReal(drop, most)))
  }

  function DailyLimits(widening: real): Limits {
    Limits(
      Known(MinReal(14.0, 4.0 + widening)),
      Known(Threshold(0.45, 0.52, widening * 0.02, 0.07)),
      Known(Threshold(0.8, 1.35, widening * 0.08, 0.45)),
      Known(1.0))
  }

  function ProjectLimits(strongest: real, widening: real): Limits {
    Limits(
      Known(MinReal(10.0, 3.0 + MaxReal(1.0, Ceil(strongest / 2.0)))),
      Known(Threshold(0.45, 0.57, widening * 0.015, 0.06)),
      Known(Threshold(0.95, 1.5, widening * 0.07, 0.4)),
      Known(if strongest >= 3.0 then 1.0 else 2.0))
  }

  function Widening(strongest: real, pressure: real): real { MaxReal(1.0, Ceil(MaxReal(strongest, pressure))) }

  /** The budget rebuilt from the strongest priority, the day's pressure and the number of scopes. */
  function BudgetFor(strongest: real, pressure: real, scopes: nat): Envelope {
    var widening := Widening(strongest, pressure);
    Envelope(
      RefinementBudget(DailyLimits(widening), ProjectLimits(strongest, widening)),
      Some(NidraBudget(
        Known(Min(8, Max(1, if scopes == 0 then 1 else scopes)) as real),
        Known(MaxReal(1.0, Ceil(pressure))))))
  }

  function Known(x: real): Limit { Some(Finite(x)) }

  function DerivedBudget(loops: int, experiments: int, scopes: seq<Scope>): Option<Envelope> {
    if loops <= 0 && experiments <= 0 && scopes == [] then None
    else
      var pressure := MinReal(8.0, Pressure(loops, experiments, |scopes|, PrioritySum(scopes)));
      Some(BudgetFor(TopPriority(scopes), pressure, |scopes|))
  }

  lemma FloorMonotone(x: real, y: real)
    requires x <= y
    ensures x.Floor <= y.Floor
  {
    var a, b := x.Floor, y.Floor;
    assert a as real <= x && y < (b + 1) as real;
    assert b + 1 <= a ==> (b + 1) as real <= a as real;
  }

  lemma CeilMonotone(x: real, y: real)
    requires x <= y
    ensures Ceil(x) <= Ceil(y)
  {
    FloorMonotone(-y, -x);
  }

  lemma RoundMonotone(x: real, y: real)
    requires x <= y
    ensures Round(x) <= Round(y)
  {
    FloorMonotone(x * 100.0 + 0.5, y * 100.0 + 0.5);
  }

  lemma ThresholdFalls(least: real, base: real, d1: real, d2: real, most: real)
    requires d1 <= d2
    ensures Threshold(least, base, d2, most) <= Threshold(least, base, d1, most)
  {
    RoundMonotone(MaxReal(least, base - MinReal(d2, most)), MaxReal(least, base - MinReal(d1, most)));
  }

  lemma DailyLimitsWiden(w1: real, w2: real)
    requires w1 <= w2
    ensures LimitsCover(DailyLimits(w2), DailyLimits(w1))
  {
    ThresholdFalls(0.45, 0.52, w1 * 0.02, w2 * 0.02, 0.07);
    ThresholdFalls(0.8, 1.35, w1 * 0.08, w2 * 0.08, 0.45);
  }

  lemma ProjectLimitsWiden(s1: real, w1: real, s2: real, w2: real)
    requires s1 <= s2 && w1 <= w2
    ensures LimitsCover(ProjectLimits(s2, w2), ProjectLimits(s1, w1))
  {
    CeilMonotone(s1 / 2.0, s2 / 2.0);
    ThresholdFalls(0.45, 0.57, w1 * 0.015, w2 * 0.015, 0.06);
    ThresholdFalls(0.95, 1.5, w1 * 0.07, w2 * 0.07, 0.4);
  }

  /** A stronger priority, more pressure or more scopes never narrow the rebuilt budget. */
  lemma BudgetWidensWithPressure(s1: real, p1: real, n1: nat, s2: real, p2: real, n2: nat)
    requires s1 <= s2 && p1 <= p2 && n1 <= n2
    ensures EnvelopeCovers(Some(BudgetFor(s2, p2, n2)), Some(BudgetFor(s1, p1, n1)))
  {
    CeilMonotone(MaxReal(s1, p1), MaxReal(s2, p2));
    CeilMonotone(p1, p2);
    DailyLimitsWiden(Widening(s1, p1), Widening(s2, p2));
    ProjectLimitsWiden(s1, Widening(s1, p1), s2, Widening(s2, p2));
  }

  predicate Between(l: Limit, low: real, high: real) {
    Usable(l).Some? && low <= Usable(l).value <= high
  }

  /** A threshold lies between its lowest and its highest possible drop, rounded. */
  lemma ThresholdRange(least: real, base: real, d1: real, drop: real, most: real)
    requires d1 <= drop
    ensures Round(MaxReal(least, base - most)) <= Threshold(least, base, drop, most)
    ensures Threshold(least, base, drop, most) <= Round(MaxReal(least, base - MinReal(d1, most)))
  {
    RoundMonotone(MaxReal(least, base - most), MaxReal(least, base - MinReal(drop, most)));
    ThresholdFalls(least, base, d1, drop, most);
  }

  lemma RoundsExactly(x: real, hundredths: int)
    requires hundredths as real - 0.5 <= x * 100.0 < hundredths as real + 0.5
    ensures Round(x) == hundredths as real / 100.0
  {
    var f := (x * 100.0 + 0.5).Floor;
    assert f as real <= x * 100.0 + 0.5 < (f + 1) as real;
    assert hundredths as real <= x * 100.0 + 0.5 < (hundredths + 1) as real;
    WholePart(x * 100.0 + 0.5, f, hundredths);
  }

  lemma WholePart(y: real, a: int, b: int)
    requires a as real <= y < (a + 1) as real && b as real <= y < (b + 1) as real
    ensures a == b
  {
  }

  /**
   * Where the rebuilt limits lie, whatever the day. Of the four least thresholds only
   * that of the daily description length is ever reached: the others drop to 0.9, 0.51
   * and 1.1 at most, above their stated 0.8, 0.45 and 0.95.
   */
  lemma RebuiltBudgetRanges(strongest: real, pressure: real, scopes: nat)
    ensures var b := BudgetFor(strongest, pressure, scopes);
      && Between(b.refinement.daily.candidateLimit, 5.0, 14.0)
      && Between(b.refinement.daily.minMdlScore, 0.45, 0.5)
      && Between(b.refinement.daily.minPriorityScore, 0.9, 1.27)
      && Between(b.refinement.project.candidateLimit, 4.0, 10.0)
      && Between(b.refinement.project.minMdlScore, 0.51, 0.56)
      && Between(b.refinement.project.minPriorityScore, 1.1, 1.43)
      && Between(b.nidra.value.maxResearchProjectsPerCycle, 1.0, 8.0)
  {
    var w := Widening(strongest, pressure);
    ThresholdRange(0.45, 0.52, 0.02, w * 0.02, 0.07);
    ThresholdRange(0.8, 1.35, 0.08, w * 0.08, 0.45);
    ThresholdRange(0.45, 0.57, 0.015, w * 0.015, 0.06);
    ThresholdRange(0.95, 1.5, 0.07, w * 0.07, 0.4);
    RoundsExactly(0.45, 45);
    RoundsExactly(0.5, 50);
    RoundsExactly(0.9, 90);
    RoundsExactly(1.27, 127);
    RoundsExactly(0.51, 51);
    RoundsExactly(0.555, 56);
    RoundsExactly(1.1, 110);
    RoundsExactly(1.43, 143);
  }

  // ---- Taking the strongest scopes --------------------------------------------------

  type PathOrder = (string, string) -> bool

  /** Higher priority first, then by path. */
  function ByPressure(le: PathOrder): (Scope, Scope) -> bool {
    (a: Scope, b: Scope) =>
      Priority(a) > Priority(b) || (Priority(a) == Priority(b) && le(a.projectPath, b.projectPath))
  }

  datatype Split = Split(selected: seq<Scope>, deferred: seq<Scope>)

  function ProjectCap(budget: Option<Envelope>): Option<real> {
    if budget.None? || budget.value.nidra.None? then None
    else Usable(budget.value.nidra.value.maxResearchProjectsPerCycle)
  }

  function SplitScopes(scopes: seq<Scope>, le: PathOrder, cap: Option<real>): Split {
    var ranked := Sort(scopes, ByPressure(le));
    if cap.None? || cap.value <= 0.0 then Split(ranked, [])
    else
      var k := Min(cap.value.Floor, |ranked|);
      Split(ranked[..k], ranked[k..])
  }

  lemma ByPressureIsOrder(le: PathOrder)
    requires TotalPreorder(le)
    ensures TotalPreorder(ByPressure(le))
  {
    var before := ByPressure(le);
    forall x, y ensures before(x, y) || before(y, x) {
      assert le(x.projectPath, y.projectPath) || le(y.projectPath, x.projectPath);
    }
    forall x, y, z | before(x, y) && before(y, z) ensures before(x, z) {
      var p, q, r := x.projectPath, y.projectPath, z.projectPath;
      assert le(p, q) && le(q, r) ==> le(p, r);
    }
  }

  lemma SplitRejoins(scopes: seq<Scope>, le: PathOrder, cap: Option<real>)
    ensures var s := SplitScopes(scopes, le, cap);
      Sort(scopes, ByPressure(le)) == s.selected + s.deferred
    ensures |SplitScopes(scopes, le, cap).selected| ==
      if cap.None? || cap.value <= 0.0 then |scopes| else Min(cap.value.Floor, |scopes|)
  {
    SortElements(scopes, ByPressure(le));
  }

  /** Selected and deferred split the scopes, and no deferred scope belongs before a selected one. */
  lemma SplitPartitions(scopes: seq<Scope>, le: PathOrder, cap: Option<real>)
    requires TotalPreorder(le)
    ensures var s := SplitScopes(scopes, le, cap);
      && multiset(s.selected) + multiset(s.deferred) == multiset(scopes)
      && SortedBy(s.selected + s.deferred, ByPressure(le))
      && (forall i, j :: 0 <= i < |s.selected| && 0 <= j < |s.deferred| ==>
            Priority(s.selected[i]) >= Priority(s.deferred[j]))
  {
    var s := SplitScopes(scopes, le, cap);
    SplitRejoins(scopes, le, cap);
    SortPermutes(scopes, ByPressure(le));
    ByPressureIsOrder(le);
    SortSorts(scopes, ByPressure(le));
    JoinedOrder(s.selected, s.deferred, ByPressure(le));
  }

  lemma JoinedOrder(s: seq<Scope>, t: seq<Scope>, le: (Scope, Scope) -> bool)
    requires SortedBy(s + t, le)
    ensures forall i, j :: 0 <= i < |s| && 0 <= j < |t| ==> le(s[i], t[j])
  {
    forall i, j | 0 <= i < |s| && 0 <= j < |t| ensures le(s[i], t[j]) {
      assert s[i] == (s + t)[i] && t[j] == (s + t)[|s| + j];
    }
  }

  // ---- What is left for the queue ---------------------------------------------------

  function DrainLimit(cap: Option<real>, selected: nat, due: Option<int>): Option<real> {
    var remaining := if cap.Some? then Some(MaxReal(cap.value - selected as real, 0.0)) else None;
    if due.GetOr(0) <= 0 then remaining
    else
      var bounded := Min(8, Max(1, due.GetOr(0))) as real;
      if remaining.None? then Some(bounded)
      else if remaining.value == 0.0 then Some(0.0)
      else Some(MinReal(remaining.value, bounded))
  }

  // ---- The plan ---------------------------------------------------------------------

  datatype Plan = Plan(
    budget: Option<Envelope>,
    selected: seq<Scope>,
    deferred: seq<Scope>,
    signal: real,
    drainLimit: Option<real>)

  function EffectiveBudget(
    loops: int, experiments: int, scopes: seq<Scope>, active: Option<Envelope>): Option<Envelope>
  {
    MergeEnvelopes(active, MergeEnvelopes(DerivedBudget(loops, experiments, scopes), ScopeBudget(scopes)))
  }

  function PressureCap(budget: Option<Envelope>): Option<real> {
    if budget.None? || budget.value.nidra.None? then None
    else Usable(budget.value.nidra.value.maxSemanticPressure)
  }

  function GovernorPlan(
    loops: int, experiments: int, scopes: seq<Scope>, active: Option<Envelope>, due: Option<int>, le: PathOrder): Plan
  {
    var budget := EffectiveBudget(loops, experiments, scopes, active);
    var split := SplitScopes(scopes, le, ProjectCap(budget));
    var raw := Pressure(loops, experiments, |split.selected|, PrioritySum(split.selected));
    Plan(
      budget, split.selected, split.deferred,
      if PressureCap(budget).Some? then MinReal(raw, PressureCap(budget).value) else raw,
      DrainLimit(ProjectCap(budget), |split.selected|, due))
  }

  method BuildDailyRefinementGovernorPlan(
    loops: int, experiments: int, scopes: seq<Scope>, active: Option<Envelope>, due: Option<int>, le: PathOrder)
    returns (plan: Plan)
    ensures plan == GovernorPlan(loops, experiments, scopes, active, due, le)
  {
    var scopeBudget := DeriveScopeBudgetEnvelope(scopes);
    var derived := DerivedBudget(loops, experiments, scopes);
    var budget := MergeEnvelopes(active, MergeEnvelopes(derived, scopeBudget));
    var split := SplitScopes(scopes, le, ProjectCap(budget));
    var signal := Pressure(loops, experiments, |split.selected|, PrioritySum(split.selected));
    if PressureCap(budget).Some? { signal := MinReal(signal, PressureCap(budget).value); }
    plan := Plan(budget, split.selected, split.deferred, signal, DrainLimit(ProjectCap(budget), |split.selected|, due));
  }

  /** The effective budget is the narrowest that covers the persisted, the rebuilt and every scope's own budget. */
  lemma EffectiveBudgetIsLeastCover(
    loops: int, experiments: int, scopes: seq<Scope>, active: Option<Envelope>, w: Option<Envelope>)
    ensures var budget := EffectiveBudget(loops, experiments, scopes, active);
      && EnvelopeCovers(budget, active)
      && EnvelopeCovers(budget, DerivedBudget(loops, experiments, scopes))
      && (forall i :: 0 <= i < |scopes| ==> EnvelopeCovers(budget, OwnBudget(scopes[i])))
    ensures EnvelopeCovers(w, active) && EnvelopeCovers(w, DerivedBudget(loops, experiments, scopes))
      && (forall i :: 0 <= i < |scopes| ==> EnvelopeCovers(w, OwnBudget(scopes[i])))
      ==> EnvelopeCovers(w, EffectiveBudget(loops, experiments, scopes, active))
  {
    var derived, own := DerivedBudget(loops, experiments, scopes), ScopeBudget(scopes);
    var inner := MergeEnvelopes(derived, own);
    var budget := MergeEnvelopes(active, inner);
    ScopeBudgetIsLeastCover(scopes, w);
    MergeIsLeastCover(derived, own, w);
    MergeIsLeastCover(active, inner, w);
    CoversTransitive(budget, inner, derived);
    CoversTransitive(budget, inner, own);
    forall i | 0 <= i < |scopes| ensures EnvelopeCovers(budget, OwnBudget(scopes[i])) {
      CoversTransitive(budget, own, OwnBudget(scopes[i]));
    }
  }

  /** The rebuilt budget always leaves room for eight projects, or for all of them. */
  lemma AtLeastEightSelected(
    loops: int, experiments: int, scopes: seq<Scope>, active: Option<Envelope>, due: Option<int>, le: PathOrder)
    ensures |GovernorPlan(loops, experiments, scopes, active, due, le).selected| >= Min(|scopes|, 8)
  {
    if scopes != [] {
      var cap := ProjectCap(EffectiveBudget(loops, experiments, scopes, active));
      CapCoversDerived(loops, experiments, scopes, active);
      FloorMonotone(Min(8, |scopes|) as real, cap.value);
      SplitRejoins(scopes, le, cap);
    }
  }

  lemma CapCoversDerived(loops: int, experiments: int, scopes: seq<Scope>, active: Option<Envelope>)
    requires loops > 0 || experiments > 0 || scopes != []
    ensures var cap := ProjectCap(EffectiveBudget(loops, experiments, scopes, active));
      cap.Some? && cap.value >= Min(8, Max(1, |scopes|)) as real
  {
    EffectiveBudgetIsLeastCover(loops, experiments, scopes, active, None);
  }

  /**
   * The drain limit is never negative, never more than eight while rows are due, and
   * zero only when the shared project cap is used up.
   */
  lemma DrainLimitFacts(cap: Option<real>, selected: nat, due: Option<int>)
    ensures DrainLimit(cap, selected, due).None? <==> cap.None? && due.GetOr(0) <= 0
    ensures DrainLimit(cap, selected, due).Some? ==> 0.0 <= DrainLimit(cap, selected, due).value
    ensures due.GetOr(0) > 0 ==> DrainLimit(cap, selected, due).value <= Min(8, due.GetOr(0)) as real
    ensures DrainLimit(cap, selected, due) == Some(0.0) <==> cap.Some? && cap.value <= selected as real
    ensures cap.Some? ==>
      selected as real + DrainLimit(cap, selected, due).value <= MaxReal(cap.value, selected as real)
  {
  }

  /** Selected scopes and drained rows together stay within the project cap, unless it is negative on an idle day. */
  lemma PlanSharesProjectCap(
    loops: int, experiments: int, scopes: seq<Scope>, active: Option<Envelope>, due: Option<int>, le: PathOrder)
    ensures var plan := GovernorPlan(loops, experiments, scopes, active, due, le);
      var cap := ProjectCap(plan.budget);
      && (cap.Some? ==>
            plan.drainLimit.Some? && |plan.selected| as real + plan.drainLimit.value <= MaxReal(cap.value, 0.0))
      && (cap.Some? && cap.value < 0.0 ==> loops <= 0 && experiments <= 0 && scopes == [])
  {
    var cap := ProjectCap(EffectiveBudget(loops, experiments, scopes, active));
    if loops > 0 || experiments > 0 || scopes != [] { CapCoversDerived(loops, experiments, scopes, active); }
    SplitRejoins(scopes, le, cap);
    DrainLimitFacts(cap, |SplitScopes(scopes, le, cap).selected|, due);
    if cap.Some? && cap.value > 0.0 { assert cap.value.Floor as real <= cap.value; }
  }

  // ---- The rebuilt pressure ceiling never clips the signal --------------------------

  lemma {:induction false} PrioritySumAppend(s: seq<Scope>, t: seq<Scope>)
    ensures PrioritySum(s + t) == PrioritySum(s) + PrioritySum(t)
  {
    if t == [] {
      assert s + t == s;
    } else {
      assert (s + t)[..|s + t| - 1] == s + t[..|t| - 1];
      PrioritySumAppend(s, t[..|t| - 1]);
    }
  }

  lemma {:induction false} PrioritySumInsert(x: Scope, s: seq<Scope>, le: (Scope, Scope) -> bool)
    ensures PrioritySum(Insert(x, s, le)) == Priority(x) + PrioritySum(s)
  {
    assert PrioritySum([x]) == Priority(x);
    if s == [] {
    } else if le(x, s[0]) {
      PrioritySumAppend([x], s);
    } else {
      PrioritySumInsert(x, s[1..], le);
      PrioritySumAppend([s[0]], Insert(x, s[1..], le));
      PrioritySumAppend([s[0]], s[1..]);
      assert s == [s[0]] + s[1..];
      assert PrioritySum([s[0]]) == Priority(s[0]);
    }
  }

  lemma {:induction false} PrioritySumSort(s: seq<Scope>, le: (Scope, Scope) -> bool)
    ensures PrioritySum(Sort(s, le)) == PrioritySum(s)
  {
    if s != [] {
      PrioritySumSort(s[1..], le);
      PrioritySumInsert(s[0], Sort(s[1..], le), le);
      PrioritySumAppend([s[0]], s[1..]);
      assert s == [s[0]] + s[1..];
      assert PrioritySum([s[0]]) == Priority(s[0]);
    }
  }

  lemma PressureMonotone(loops: int, experiments: int, m: nat, n: nat, p: real, q: real)
    requires m <= n && p <= q
    ensures Pressure(loops, experiments, m, p) <= Pressure(loops, experiments, n, q) <= 8.0
  {
  }

  lemma PressureCapCoversDerived(loops: int, experiments: int, scopes: seq<Scope>, active: Option<Envelope>)
    requires loops > 0 || experiments > 0 || scopes != []
    ensures var cap := PressureCap(EffectiveBudget(loops, experiments, scopes, active));
      cap.Some? && cap.value >= Pressure(loops, experiments, |scopes|, PrioritySum(scopes))
  {
    EffectiveBudgetIsLeastCover(loops, experiments, scopes, active, None);
  }

  lemma SelectedSum(scopes: seq<Scope>, le: PathOrder, cap: Option<real>)
    ensures var s := SplitScopes(scopes, le, cap);
      PrioritySum(s.selected) + PrioritySum(s.deferred) == PrioritySum(scopes)
  {
    var s := SplitScopes(scopes, le, cap);
    SplitRejoins(scopes, le, cap);
    PrioritySumSort(scopes, ByPressure(le));
    PrioritySumAppend(s.selected, s.deferred);
  }

  /**
   * On a day with any research activity, whatever was persisted, the signal is the raw
   * pressure of the selected scopes, provided the deferred priorities do not sum below zero.
   */
  lemma CeilingNeverClips(
    loops: int, experiments: int, scopes: seq<Scope>, active: Option<Envelope>, due: Option<int>, le: PathOrder)
    requires loops > 0 || experiments > 0 || scopes != []
    ensures var plan := GovernorPlan(loops, experiments, scopes, active, due, le);
      PrioritySum(plan.deferred) >= 0.0 ==>
        plan.signal == Pressure(loops, experiments, |plan.selected|, PrioritySum(plan.selected))
  {
    var budget := EffectiveBudget(loops, experiments, scopes, active);
    var s := SplitScopes(scopes, le, ProjectCap(budget));
    PressureCapCoversDerived(loops, experiments, scopes, active);
    SelectedSum(scopes, le, ProjectCap(budget));
    SplitRejoins(scopes, le, ProjectCap(budget));
    if PrioritySum(s.deferred) >= 0.0 {
      PressureMonotone(loops, experiments, |s.selected|, |scopes|, PrioritySum(s.selected), PrioritySum(scopes));
    }
  }

  lemma {:induction false} NonNegativeSum(scopes: seq<Scope>)
    requires forall i :: 0 <= i < |scopes| ==> Priority(scopes[i]) >= 0.0
    ensures PrioritySum(scopes) >= 0.0
  {
    if scopes != [] { NonNegativeSum(scopes[..|scopes| - 1]); }
  }

  /** In particular the signal is never clipped when no scope has a negative priority. */
  lemma NonNegativePrioritiesAreNotClipped(
    loops: int, experiments: int, scopes: seq<Scope>, active: Option<Envelope>, due: Option<int>, le: PathOrder)
    requires loops > 0 || experiments > 0 || scopes != []
    requires forall s :: s in scopes ==> Priority(s) >= 0.0
    ensures var plan := GovernorPlan(loops, experiments, scopes, active, due, le);
      plan.signal == Pressure(loops, experiments, |plan.selected|, PrioritySum(plan.selected))
  {
    var budget := EffectiveBudget(loops, experiments, scopes, active);
    var s := SplitScopes(scopes, le, ProjectCap(budget));
    CeilingNeverClips(loops, experiments, scopes, active, due, le);
    SplitRejoins(scopes, le, ProjectCap(budget));
    SortElements(scopes, ByPressure(le));
    forall j | 0 <= j < |s.deferred| ensures Priority(s.deferred[j]) >= 0.0 {
      assert s.deferred[j] in s.selected + s.deferred;
    }
    NonNegativeSum(s.deferred);
  }
}
