/** Optional numeric limits, and the merges that only ever widen them. */
module Budgets {
  import opened Collections

  /** A number the runtime may hold; the non-finite ones are ignored by every merge. */
  datatype Num = Finite(value: real) | NotFinite

  type Limit = Option<Num>

  function Usable(l: Limit): Option<real> {
    if l.Some? && l.value.Finite? then Some(l.value.value) else None
  }

  predicate Settled(l: Limit) { l.Some? ==> l.value.Finite? }

  /** The larger of two ceilings. */
  function WiderCap(left: Limit, right: Limit): (r: Limit)
    ensures Settled(r)
  {
    match (Usable(left), Usable(right))
    case (Some(l), Some(r)) => Some(Finite(if l >= r then l else r))
    case (Some(l), None) => Some(Finite(l))
    case (None, Some(r)) => Some(Finite(r))
    case (None, None) => None
  }

  /** The smaller of two floors. */
  function WiderFloor(left: Limit, right: Limit): (r: Limit)
    ensures Settled(r)
  {
    match (Usable(left), Usable(right))
    case (Some(l), Some(r)) => Some(Finite(if l <= r then l else r))
    case (Some(l), None) => Some(Finite(l))
    case (None, Some(r)) => Some(Finite(r))
    case (None, None) => None
  }

  /** The limits that apply to one kind of candidate. */
  datatype Limits = Limits(
    candidateLimit: Limit, minMdlScore: Limit, minPriorityScore: Limit, minSourceSessionCount: Limit)

  const NO_LIMITS := Limits(None, None, None, None)

  datatype RefinementBudget = RefinementBudget(daily: Limits, project: Limits)

  const NO_REFINEMENT := RefinementBudget(NO_LIMITS, NO_LIMITS)

  datatype NidraBudget = NidraBudget(maxResearchProjectsPerCycle: Limit, maxSemanticPressure: Limit)

  const NO_NIDRA := NidraBudget(None, None)

  function WiderLimits(l: Limits, r: Limits): Limits {
    Limits(
      WiderCap(l.candidateLimit, r.candidateLimit),
      WiderFloor(l.minMdlScore, r.minMdlScore),
      WiderFloor(l.minPriorityScore, r.minPriorityScore),
      WiderFloor(l.minSourceSessionCount, r.minSourceSessionCount))
  }

  function WiderRefinement(l: RefinementBudget, r: RefinementBudget): RefinementBudget {
    RefinementBudget(WiderLimits(l.daily, r.daily), WiderLimits(l.project, r.project))
  }

  function WiderNidra(l: NidraBudget, r: NidraBudget): NidraBudget {
    NidraBudget(
      WiderCap(l.maxResearchProjectsPerCycle, r.maxResearchProjectsPerCycle),
      WiderCap(l.maxSemanticPressure, r.maxSemanticPressure))
  }

  // ---- Being at least as wide -------------------------------------------------------

  /** A ceiling is as wide as another when it admits whatever the other, if usable, admits. */
  predicate CapCovers(wide: Limit, narrow: Limit) {
    Usable(narrow).Some? ==> Usable(wide).Some? && Usable(wide).value >= Usable(narrow).value
  }

  predicate FloorCovers(wide: Limit, narrow: Limit) {
    Usable(narrow).Some? ==> Usable(wide).Some? && Usable(wide).value <= Usable(narrow).value
  }

  predicate LimitsCover(wide: Limits, narrow: Limits) {
    && CapCovers(wide.candidateLimit, narrow.candidateLimit)
    && FloorCovers(wide.minMdlScore, narrow.minMdlScore)
    && FloorCovers(wide.minPriorityScore, narrow.minPriorityScore)
    && FloorCovers(wide.minSourceSessionCount, narrow.minSourceSessionCount)
  }

  predicate RefinementCovers(wide: RefinementBudget, narrow: RefinementBudget) {
    LimitsCover(wide.daily, narrow.daily) && LimitsCover(wide.project, narrow.project)
  }

  predicate NidraCovers(wide: NidraBudget, narrow: NidraBudget) {
    && CapCovers(wide.maxResearchProjectsPerCycle, narrow.maxResearchProjectsPerCycle)
    && CapCovers(wide.maxSemanticPressure, narrow.maxSemanticPressure)
  }

  /** Merged limits are covered exactly by what covers both. */
  lemma WiderLimitsAdmits(l: Limits, r: Limits, w: Limits)
    ensures LimitsCover(w, WiderLimits(l, r)) <==> LimitsCover(w, l) && LimitsCover(w, r)
  {
  }

  lemma WiderRefinementAdmits(l: RefinementBudget, r: RefinementBudget, w: RefinementBudget)
    ensures RefinementCovers(w, WiderRefinement(l, r)) <==> RefinementCovers(w, l) && RefinementCovers(w, r)
  {
    WiderLimitsAdmits(l.daily, r.daily, w.daily);
    WiderLimitsAdmits(l.project, r.project, w.project);
  }

  lemma WiderNidraAdmits(l: NidraBudget, r: NidraBudget, w: NidraBudget)
    ensures NidraCovers(w, WiderNidra(l, r)) <==> NidraCovers(w, l) && NidraCovers(w, r)
  {
  }

  /** So merged budgets are the narrowest that cover both. */
  lemma WiderRefinementIsLeastCover(l: RefinementBudget, r: RefinementBudget, w: RefinementBudget)
    ensures RefinementCovers(WiderRefinement(l, r), l) && RefinementCovers(WiderRefinement(l, r), r)
    ensures RefinementCovers(w, l) && RefinementCovers(w, r) ==> RefinementCovers(w, WiderRefinement(l, r))
  {
    WiderRefinementAdmits(l, r, w);
    WiderRefinementAdmits(l, r, WiderRefinement(l, r));
  }

  lemma WiderNidraIsLeastCover(l: NidraBudget, r: NidraBudget, w: NidraBudget)
    ensures NidraCovers(WiderNidra(l, r), l) && NidraCovers(WiderNidra(l, r), r)
    ensures NidraCovers(w, l) && NidraCovers(w, r) ==> NidraCovers(w, WiderNidra(l, r))
  {
    WiderNidraAdmits(l, r, w);
    WiderNidraAdmits(l, r, WiderNidra(l, r));
  }

  lemma LimitsCoverTransitive(a: Limits, b: Limits, c: Limits)
    requires LimitsCover(a, b) && LimitsCover(b, c)
    ensures LimitsCover(a, c)
  {
  }
}
