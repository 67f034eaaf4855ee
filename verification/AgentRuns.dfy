/** Runs of lifecycle operations: acyclicity and the spawn limits hold throughout. */
module AgentRuns {
  import opened Collections
  import opened Reals
  import opened AgentForest
  import opened AgentLifecycle

  datatype Step =
    | Register(id: Id, heartbeat: Heartbeat)
    | Beat(id: Id, turnCount: Option<int>, tokenUsage: Option<int>, status: Option<Status>)
    | Stuck(id: Id)
    | HealOne(healer: Id, target: Id)
    | Complete(id: Id)
    | Fail(id: Id)
    | Kill(killer: Id, target: Id)
    | Heal

  function SetStatus(m: Beats, id: Id, status: Status, now: int): Beats {
    if id in m && m[id].status != status then m[id := m[id].(status := status, lastBeat := now)] else m
  }

  function Beaten(
    hb: Heartbeat, turnCount: Option<int>, tokenUsage: Option<int>, status: Option<Status>, now: int): Heartbeat
  {
    var told := status.GetOr(hb.status);
    hb.(lastBeat := now,
        turnCount := turnCount.GetOr(hb.turnCount),
        tokenUsage := tokenUsage.GetOr(hb.tokenUsage),
        status := if told.Stale? then Alive else told)
  }

  ghost predicate MayHeal(m: Beats, healer: Id, target: Id) {
    && healer in m && target in m && Above(m, healer, target)
    && (m[target].status.Stale? || m[target].status.Error?)
  }

  ghost predicate MayKill(m: Beats, killer: Id, target: Id) {
    && killer in m && target in m && Above(m, killer, target)
    && !Final(m[target].status)
  }

  /** The effect of every step that neither adds nor removes agents. */
  ghost function Updated(m: Beats, step: Step, now: int): (m': Beats)
    requires !step.Register? && !step.Heal?
    ensures SameParents(m, m')
  {
    match step
    case Beat(id, turnCount, tokenUsage, status) =>
      if id in m then m[id := Beaten(m[id], turnCount, tokenUsage, status, now)] else m
    case Stuck(id) => if id in m && m[id].status.Alive? then SetStatus(m, id, Stale, now) else m
    case HealOne(healer, target) => if MayHeal(m, healer, target) then SetStatus(m, target, Alive, now) else m
    case Complete(id) => SetStatus(m, id, Completed, now)
    case Fail(id) => SetStatus(m, id, Error, now)
    case Kill(killer, target) => if MayKill(m, killer, target) then Mark(m, Subtrees(m, {target}), now) else m
  }

  ghost function Apply(reg: Registry, cfg: Config, step: Step, now: int): (r: Registry)
    requires reg.Valid()
    ensures r.Valid()
  {
    match step
    case Register(id, hb) => reg.Put(id, hb)
    case Heal => HealTree(reg, cfg, now)
    case _ => reg.With(Updated(reg.beats, step, now))
  }

  // ---- Acyclicity of every run ------------------------------------------------------

  ghost predicate SafeStep(m: Beats, step: Step) {
    step.Register? ==> SafeParent(m, step.id, step.heartbeat)
  }

  /** One step keeps the forest exactly when a registration closes no loop. */
  lemma StepAcyclicIff(reg: Registry, cfg: Config, step: Step, now: int)
    requires reg.Valid() && Acyclic(reg.beats)
    ensures Acyclic(Apply(reg, cfg, step, now).beats) <==> SafeStep(reg.beats, step)
  {
    match step
    case Register(id, hb) => RegisterAcyclicIff(reg.beats, id, hb);
    case Heal => HealTreeAcyclic(reg, cfg, now);
    case _ => SameParentsAcyclic(reg.beats, Updated(reg.beats, step, now));
  }

  /** A step with the clock and configuration in force when it happens. */
  datatype Moment = Moment(step: Step, cfg: Config, now: int)

  ghost function Run(reg: Registry, moments: seq<Moment>): (r: Registry)
    requires reg.Valid()
    ensures r.Valid()
  {
    if moments == [] then reg
    else
      var last := moments[|moments| - 1];
      Apply(Run(reg, moments[..|moments| - 1]), last.cfg, last.step, last.now)
  }

  /** The ids any agent of the map or any earlier step has used. */
  ghost predicate UnusedIn(reg: Registry, moments: seq<Moment>, id: Id) {
    && FreshId(reg.beats, id)
    && forall i :: 0 <= i < |moments| && moments[i].step.Register? ==>
         moments[i].step.id != id && moments[i].step.heartbeat.parentId != Some(id)
  }

  /** Every registration brings a never-used id and does not name itself as parent. */
  ghost predicate IdsNeverReused(reg: Registry, moments: seq<Moment>) {
    forall i :: 0 <= i < |moments| && moments[i].step.Register? ==>
      && UnusedIn(reg, moments[..i], moments[i].step.id)
      && moments[i].step.heartbeat.parentId != Some(moments[i].step.id)
  }

  lemma HealKeepsIdsFresh(reg: Registry, cfg: Config, now: int, id: Id)
    requires reg.Valid() && FreshId(reg.beats, id)
    ensures FreshId(HealTree(reg, cfg, now).beats, id)
  {
    var kept := Reaped(reg, cfg, now);
    forall x | x in kept.beats ensures x in reg.beats && kept.beats[x].parentId == reg.beats[x].parentId {
      KeptIsDetected(reg, cfg, now, x);
    }
    HandlingKeepsIdsFresh(kept, cfg, now, id);
  }

  lemma RehungNamesNobodyNew(kept: Registry, id: Id, x: Id)
    requires kept.Valid() && FreshId(kept.beats, id) && x in kept.beats
    ensures Rehung(kept, x).parentId != Some(id)
  {
    if x in Orphans(kept.beats) {
      OrphanHasLead(kept, x);
    }
  }

  lemma HandledNamesNobodyNew(kept: Registry, cfg: Config, now: int, id: Id, x: Id)
    requires kept.Valid() && FreshId(kept.beats, id) && x in kept.beats
    ensures HandledOrphans(kept, cfg, now)[x].parentId != Some(id)
  {
    if cfg.orphanPolicy.Promote? {
      RehungNamesNobodyNew(kept, id, x);
    } else {
      HandledAgent(kept, cfg, now, x);
    }
  }

  lemma HandlingKeepsIdsFresh(kept: Registry, cfg: Config, now: int, id: Id)
    requires kept.Valid() && FreshId(kept.beats, id)
    ensures FreshId(HandledOrphans(kept, cfg, now), id)
  {
    forall x | x in kept.beats ensures HandledOrphans(kept, cfg, now)[x].parentId != Some(id) {
      HandledNamesNobodyNew(kept, cfg, now, id, x);
    }
  }

  lemma {:induction false} UnusedStaysFresh(reg: Registry, moments: seq<Moment>, id: Id)
    requires reg.Valid() && UnusedIn(reg, moments, id)
    ensures FreshId(Run(reg, moments).beats, id)
  {
    if moments != [] {
      var before := moments[..|moments| - 1];
      var last := moments[|moments| - 1];
      UnusedStaysFresh(reg, before, id);
      if last.step.Heal? {
        HealKeepsIdsFresh(Run(reg, before), last.cfg, last.now, id);
      }
    }
  }

  /** With ids never reused, every reachable map is a forest, under every orphan policy. */
  lemma {:induction false} RunsStayAcyclic(reg: Registry, moments: seq<Moment>)
    requires reg.Valid() && Acyclic(reg.beats) && IdsNeverReused(reg, moments)
    ensures Acyclic(Run(reg, moments).beats)
  {
    if moments != [] {
      var before := moments[..|moments| - 1];
      var last := moments[|moments| - 1];
      forall i | 0 <= i < |before| && before[i].step.Register?
        ensures UnusedIn(reg, before[..i], before[i].step.id)
      {
        assert before[..i] == moments[..i];
      }
      RunsStayAcyclic(reg, before);
      var at := Run(reg, before);
      if last.step.Register? {
        UnusedStaysFresh(reg, before, last.step.id);
        FreshRegistrationSafe(at.beats, last.step.id, last.step.heartbeat);
      }
      StepAcyclicIff(at, last.cfg, last.step, last.now);
    }
  }

  /** Reusing an id can close a loop: the third registration puts `a` under its own child. */
  lemma ReusedIdClosesLoop(a: Id, b: Id, hb: Heartbeat, cfg: Config)
    requires a != b
    ensures var start := Registry(map[], []);
      start.Valid() && !Acyclic(Run(start, LoopingRun(a, b, hb, cfg)).beats)
  {
    var start := Registry(map[], []);
    var three := LoopingRun(a, b, hb, cfg);
    assert three[..2][..1][..0] == [] && Run(start, []) == start;
    var one := Run(start, three[..2][..1]);
    assert one.beats == map[a := hb.(parentId := None)];
    var two := Run(start, three[..2]);
    assert two.beats == map[a := hb.(parentId := None), b := hb.(parentId := Some(a))];
    AboveStep(two.beats, a, b);
    RegisterAcyclicIff(two.beats, a, hb.(parentId := Some(b))) by {
      assert Ranked(two.beats, map[a := 0, b := 1]);
    }
  }

  function LoopingRun(a: Id, b: Id, hb: Heartbeat, cfg: Config): seq<Moment> {
    [ Moment(Register(a, hb.(parentId := None)), cfg, 0),
      Moment(Register(b, hb.(parentId := Some(a))), cfg, 1),
      Moment(Register(a, hb.(parentId := Some(b))), cfg, 2) ]
  }

  // ---- Spawn limits ---------------------------------------------------------------------

  function MaxDepth(cfg: Config): int { Min(cfg.maxAgentDepth, SYSTEM_MAX_AGENT_DEPTH) }

  function MaxSubs(cfg: Config): int { Min(cfg.maxSubAgents, SYSTEM_MAX_SUB_AGENTS) }

  function ChildSet(m: Beats, p: Id): set<Id> { set c | c in m && m[c].parentId == Some(p) }

  predicate Active(s: Status) { s.Alive? || s.Stale? }

  function ActiveSet(m: Beats): set<Id> { set x | x in m && Active(m[x].status) }

  function WithStatus(m: Beats, s: Status): set<Id> { set x | x in m && m[x].status == s }

  lemma ActiveCount(m: Beats)
    ensures |ActiveSet(m)| == |WithStatus(m, Alive)| + |WithStatus(m, Stale)|
  {
    assert ActiveSet(m) == WithStatus(m, Alive) + WithStatus(m, Stale);
    assert WithStatus(m, Alive) !! WithStatus(m, Stale);
  }

  lemma ChildCount(reg: Registry, p: Id)
    requires reg.Valid()
    ensures |Children(reg, p)| == |ChildSet(reg.beats, p)|
  {
    FilterDistinct(reg.order, (x: Id) => ParentOf(reg.beats, x) == Some(p));
    DistinctSize(Children(reg, p));
    assert ToSet(Children(reg, p)) == ChildSet(reg.beats, p);
  }

  predicate AffordsChild(hb: Heartbeat, cfg: Config) {
    Times(cfg.budgetDecayFactor, hb.tokenBudget as real) >= cfg.minTokenBudgetForSpawn as real
  }

  /** The guard an agent must pass before it may spawn a sub-agent. */
  predicate CanSpawn(m: Beats, cfg: Config, id: Id) {
    && id in m
    && m[id].depth < MaxDepth(cfg)
    && |ChildSet(m, id)| < MaxSubs(cfg)
    && m[id].status.Alive?
    && |ActiveSet(m)| < cfg.globalMaxAgents
    && AffordsChild(m[id], cfg)
  }

  function ChildBudget(m: Beats, cfg: Config, parent: Id): int {
    if parent in m then Times(cfg.budgetDecayFactor, m[parent].tokenBudget as real).Floor else 0
  }

  /** The root's budget after `n` applications of the decay factor. */
  function BudgetCap(rootBudget: real, decay: real, n: nat): real {
    if n == 0 then rootBudget else Times(decay, BudgetCap(rootBudget, decay, n - 1))
  }

  /** Depth in range, and a budget no larger than the root's decayed once per level. */
  predicate AgentWithin(hb: Heartbeat, cfg: Config, rootBudget: real) {
    && 0 <= hb.depth <= MaxDepth(cfg)
    && hb.tokenBudget as real <= BudgetCap(rootBudget, cfg.budgetDecayFactor, hb.depth)
  }

  predicate AgentsWithin(m: Beats, cfg: Config, rootBudget: real) {
    forall x :: x in m ==> AgentWithin(m[x], cfg, rootBudget)
  }

  ghost predicate FanOutWithin(m: Beats, cfg: Config) {
    forall p :: |ChildSet(m, p)| <= MaxSubs(cfg)
  }

  ghost predicate WithinLimits(m: Beats, cfg: Config, rootBudget: real) {
    && AgentsWithin(m, cfg, rootBudget)
    && FanOutWithin(m, cfg)
    && |ActiveSet(m)| <= cfg.globalMaxAgents
  }

  // ---- What keeps each limit --------------------------------------------------------

  /** No agent is new or deeper, and budgets are as they were. */
  ghost predicate NoDeeper(m: Beats, m': Beats) {
    && m'.Keys <= m.Keys
    && forall x :: x in m' ==> (
         && m'[x].tokenBudget == m[x].tokenBudget
         && (m'[x].depth == m[x].depth || 0 <= m'[x].depth <= m[x].depth))
  }

  /** Parent pointers are kept or dropped. */
  ghost predicate NoNewEdges(m: Beats, m': Beats) {
    && m'.Keys <= m.Keys
    && forall x :: x in m' ==> m'[x].parentId == m[x].parentId || m'[x].parentId.None?
  }

  ghost predicate NobodyRevived(m: Beats, m': Beats) {
    && m'.Keys <= m.Keys
    && forall x :: x in m' && Active(m'[x].status) ==> Active(m[x].status)
  }

  lemma NoDeeperKeepsAgents(m: Beats, m': Beats, cfg: Config, rootBudget: real)
    requires AgentsWithin(m, cfg, rootBudget) && rootBudget >= 0.0 && 0.0 <= cfg.budgetDecayFactor <= 1.0
    requires NoDeeper(m, m')
    ensures AgentsWithin(m', cfg, rootBudget)
  {
    forall x | x in m' ensures AgentWithin(m'[x], cfg, rootBudget) {
      assert AgentWithin(m[x], cfg, rootBudget);
      CapDecreases(rootBudget, cfg.budgetDecayFactor, m'[x].depth, m[x].depth);
    }
  }

  lemma NoNewEdgesKeepsFanOut(m: Beats, m': Beats, cfg: Config)
    requires FanOutWithin(m, cfg) && NoNewEdges(m, m')
    ensures FanOutWithin(m', cfg)
  {
    forall p ensures |ChildSet(m', p)| <= MaxSubs(cfg) {
      SubsetSize(ChildSet(m', p), ChildSet(m, p));
    }
  }

  lemma NobodyRevivedShrinks(m: Beats, m': Beats)
    requires NobodyRevived(m, m')
    ensures |ActiveSet(m')| <= |ActiveSet(m)|
  {
    SubsetSize(ActiveSet(m'), ActiveSet(m));
  }

  /** Limits survive whatever drops agents or pointers and revives nobody. */
  lemma LimitsShrink(m: Beats, m': Beats, cfg: Config, rootBudget: real)
    requires WithinLimits(m, cfg, rootBudget) && rootBudget >= 0.0 && 0.0 <= cfg.budgetDecayFactor <= 1.0
    requires NoDeeper(m, m') && NoNewEdges(m, m') && NobodyRevived(m, m')
    ensures WithinLimits(m', cfg, rootBudget)
  {
    NoDeeperKeepsAgents(m, m', cfg, rootBudget);
    NoNewEdgesKeepsFanOut(m, m', cfg);
    NobodyRevivedShrinks(m, m');
  }

  /** A budget cap is no larger for a deeper agent. */
  lemma {:induction false} CapDecreases(rootBudget: real, decay: real, i: nat, j: nat)
    requires 0.0 <= rootBudget && 0.0 <= decay <= 1.0 && i <= j
    ensures BudgetCap(rootBudget, decay, j) <= BudgetCap(rootBudget, decay, i)
    decreases j
  {
    if i < j {
      CapDecreases(rootBudget, decay, i, j - 1);
      CapBounded(rootBudget, decay, j - 1);
    }
  }

  lemma {:induction false} CapBounded(rootBudget: real, decay: real, n: nat)
    requires 0.0 <= rootBudget && 0.0 <= decay <= 1.0
    ensures 0.0 <= BudgetCap(rootBudget, decay, n) <= rootBudget
  {
    if n > 0 {
      CapBounded(rootBudget, decay, n - 1);
    }
  }

  lemma BudgetDecays(budget: int, decay: real, rootBudget: real, depth: nat)
    requires 0.0 <= decay && budget as real <= BudgetCap(rootBudget, decay, depth)
    ensures Times(decay, budget as real).Floor as real <= BudgetCap(rootBudget, decay, depth + 1)
  {
    TimesMonotone(decay, budget as real, BudgetCap(rootBudget, decay, depth));
  }

  lemma SpawnAddsOneChild(m: Beats, id: Id, hb: Heartbeat, p: Id)
    ensures |ChildSet(m[id := hb], p)| <= |ChildSet(m, p)| + (if hb.parentId == Some(p) then 1 else 0)
  {
    if hb.parentId == Some(p) {
      SubsetSize(ChildSet(m[id := hb], p), ChildSet(m, p) + {id});
    } else {
      SubsetSize(ChildSet(m[id := hb], p), ChildSet(m, p));
    }
  }

  lemma SpawnAddsOneActive(m: Beats, id: Id, hb: Heartbeat)
    ensures |ActiveSet(m[id := hb])| <= |ActiveSet(m)| + 1
  {
    SubsetSize(ActiveSet(m[id := hb]), ActiveSet(m) + {id});
  }

  lemma SpawnFanOut(m: Beats, cfg: Config, id: Id, hb: Heartbeat)
    requires FanOutWithin(m, cfg) && hb.parentId.Some? && |ChildSet(m, hb.parentId.value)| < MaxSubs(cfg)
    ensures FanOutWithin(m[id := hb], cfg)
  {
    var m' := m[id := hb];
    forall p ensures |ChildSet(m', p)| <= MaxSubs(cfg) {
      SpawnAddsOneChild(m, id, hb, p);
    }
  }

  lemma SpawnedWithin(parent: Heartbeat, hb: Heartbeat, cfg: Config, rootBudget: real)
    requires AgentWithin(parent, cfg, rootBudget) && parent.depth < MaxDepth(cfg) && 0.0 <= cfg.budgetDecayFactor
    requires hb.depth == parent.depth + 1
    requires hb.tokenBudget == Times(cfg.budgetDecayFactor, parent.tokenBudget as real).Floor
    ensures AgentWithin(hb, cfg, rootBudget)
  {
    BudgetDecays(parent.tokenBudget, cfg.budgetDecayFactor, rootBudget, parent.depth);
  }

  // ---- Healing ------------------------------------------------------------------------

  /** Handling orphans moves an agent only by making it a root or hanging it from a root. */
  lemma HandledAgent(kept: Registry, cfg: Config, now: int, x: Id)
    requires kept.Valid() && x in kept.beats
    ensures var was, after := kept.beats[x], HandledOrphans(kept, cfg, now)[x];
      && (was.depth >= 0 ==> 0 <= after.depth <= was.depth)
      && (after.parentId.Some? ==> after.depth == was.depth && was.parentId.Some?)
      && (after.parentId == was.parentId || after.parentId.None? || cfg.orphanPolicy.Promote?)
  {
  }

  lemma RehungEdge(kept: Registry, x: Id)
    requires kept.Valid() && x in kept.beats
    ensures var p := Rehung(kept, x).parentId;
      p.Some? && p.value in kept.beats && Rehung(kept, p.value).parentId.Some? ==> p == kept.beats[x].parentId
  {
    if x in Orphans(kept.beats) {
      OrphanHasLead(kept, x);
    }
  }

  lemma HandledEdge(kept: Registry, cfg: Config, now: int, x: Id)
    requires kept.Valid() && x in kept.beats
    ensures var handled := HandledOrphans(kept, cfg, now);
      var p := handled[x].parentId;
      p.Some? && p.value in handled && handled[p.value].parentId.Some? ==> p == kept.beats[x].parentId
  {
    if cfg.orphanPolicy.Promote? {
      RehungEdge(kept, x);
    } else {
      HandledAgent(kept, cfg, now, x);
    }
  }

  lemma CurbedAgent(hb: Heartbeat, now: int)
    ensures var after := Curbed(hb, now);
      && after.parentId == hb.parentId && after.depth == hb.depth && after.tokenBudget == hb.tokenBudget
      && (Active(after.status) ==> Active(hb.status))
  {
  }

  lemma DetectedAgent(hb: Heartbeat, cfg: Config, now: int)
    ensures var after := Detected(hb, cfg, now);
      && after.parentId == hb.parentId && after.depth == hb.depth && after.tokenBudget == hb.tokenBudget
      && (Active(after.status) ==> Active(hb.status))
  {
  }

  lemma HealedAgent(reg: Registry, cfg: Config, now: int, x: Id)
    requires reg.Valid() && x in HealTree(reg, cfg, now).beats
    ensures x in reg.beats
    ensures var was, after := reg.beats[x], HealTree(reg, cfg, now).beats[x];
      && after.tokenBudget == was.tokenBudget
      && (Active(after.status) ==> Active(was.status))
      && (was.depth >= 0 ==> 0 <= after.depth <= was.depth)
      && (after.parentId.Some? ==> after.depth == was.depth && was.parentId.Some?)
      && (after.parentId == was.parentId || after.parentId.None? || cfg.orphanPolicy.Promote?)
  {
    var kept := Reaped(reg, cfg, now);
    KeptIsDetected(reg, cfg, now, x);
    DetectedAgent(reg.beats[x], cfg, now);
    HandledAgent(kept, cfg, now, x);
    HandlingKillsOrRehangs(kept, cfg, now, x);
    CurbedAgent(HandledOrphans(kept, cfg, now)[x], now);
  }

  lemma HealNoDeeper(reg: Registry, cfg: Config, now: int, rootBudget: real)
    requires reg.Valid() && AgentsWithin(reg.beats, cfg, rootBudget)
    ensures NoDeeper(reg.beats, HealTree(reg, cfg, now).beats)
  {
    var healed := HealTree(reg, cfg, now).beats;
    forall x | x in healed
      ensures x in reg.beats && healed[x].tokenBudget == reg.beats[x].tokenBudget
        && 0 <= healed[x].depth <= reg.beats[x].depth
    {
      HealedAgent(reg, cfg, now, x);
      assert AgentWithin(reg.beats[x], cfg, rootBudget);
    }
  }

  lemma HealRevivesNobody(reg: Registry, cfg: Config, now: int)
    requires reg.Valid()
    ensures NobodyRevived(reg.beats, HealTree(reg, cfg, now).beats)
  {
    forall x | x in HealTree(reg, cfg, now).beats
      ensures x in reg.beats && (Active(HealTree(reg, cfg, now).beats[x].status) ==> Active(reg.beats[x].status))
    {
      HealedAgent(reg, cfg, now, x);
    }
  }

  lemma ReapedEdges(reg: Registry, cfg: Config, now: int)
    requires reg.Valid()
    ensures NoNewEdges(reg.beats, Reaped(reg, cfg, now).beats)
  {
    forall x | x in Reaped(reg, cfg, now).beats
      ensures x in reg.beats && Reaped(reg, cfg, now).beats[x].parentId == reg.beats[x].parentId
    {
      KeptIsDetected(reg, cfg, now, x);
    }
  }

  lemma HealAddsNoEdges(reg: Registry, cfg: Config, now: int)
    requires reg.Valid() && !cfg.orphanPolicy.Promote?
    ensures NoNewEdges(reg.beats, HealTree(reg, cfg, now).beats)
  {
    var healed := HealTree(reg, cfg, now).beats;
    forall x | x in healed
      ensures x in reg.beats && (healed[x].parentId == reg.beats[x].parentId || healed[x].parentId.None?)
    {
      HealedAgent(reg, cfg, now, x);
    }
  }

  // ---- Fan-out under promotion -----------------------------------------------------------

  lemma RehungToLead(reg: Registry, gone: Id, x: Id)
    requires reg.Valid() && gone !in reg.beats && Children(reg, gone) != [] && x in reg.beats
    ensures Rehung(reg, x).parentId == Some(Lead(reg, gone)) <==>
      reg.beats[x].parentId == Some(Lead(reg, gone)) || (reg.beats[x].parentId == Some(gone) && x != Lead(reg, gone))
  {
    LeadIsEarliestSibling(reg, gone);
    if x in Orphans(reg.beats) { OrphanHasLead(reg, x); }
  }

  lemma PromotedChildren(reg: Registry, gone: Id)
    requires reg.Valid() && gone !in reg.beats && Children(reg, gone) != []
    ensures ChildSet(PromoteOrphans(reg), Lead(reg, gone))
      == ChildSet(reg.beats, Lead(reg, gone)) + (ChildSet(reg.beats, gone) - {Lead(reg, gone)})
  {
    var lead := Lead(reg, gone);
    LeadIsEarliestSibling(reg, gone);
    forall x | x in reg.beats
      ensures x in ChildSet(PromoteOrphans(reg), lead)
        <==> x in ChildSet(reg.beats, lead) + (ChildSet(reg.beats, gone) - {lead})
    {
      RehungToLead(reg, gone, x);
    }
  }

  /** The lead of the orphans of `gone` has room for its siblings beside its own children. */
  ghost predicate LeadHasRoom(reg: Registry, cfg: Config, gone: Id) {
    |ChildSet(reg.beats, Lead(reg, gone))| + |ChildSet(reg.beats, gone)| - 1 <= MaxSubs(cfg)
  }

  /** Promotion gives the lead its siblings on top of its own children. */
  lemma PromotionFanOutIff(reg: Registry, cfg: Config, gone: Id)
    requires reg.Valid() && gone !in reg.beats && Children(reg, gone) != []
    ensures |ChildSet(PromoteOrphans(reg), Lead(reg, gone))| <= MaxSubs(cfg) <==> LeadHasRoom(reg, cfg, gone)
  {
    var m, lead := reg.beats, Lead(reg, gone);
    LeadIsEarliestSibling(reg, gone);
    PromotedChildren(reg, gone);
    assert ChildSet(m, lead) !! ChildSet(m, gone);
    assert lead in ChildSet(m, gone);
  }

  /** Every group of orphans has a lead with room for it. */
  ghost predicate LeadsHaveRoom(reg: Registry, cfg: Config) {
    forall gone :: gone !in reg.beats && Children(reg, gone) != [] ==> LeadHasRoom(reg, cfg, gone)
  }

  lemma OnlyLeadsGainChildren(reg: Registry, p: Id, x: Id)
    requires reg.Valid() && x in reg.beats
    requires Rehung(reg, x).parentId == Some(p) && reg.beats[x].parentId != Some(p)
    ensures var gone := reg.beats[x].parentId;
      gone.Some? && gone.value !in reg.beats && Children(reg, gone.value) != [] && p == Lead(reg, gone.value)
  {
    assert x in Children(reg, reg.beats[x].parentId.value);
  }

  /** Promotion keeps every agent's fan-out within the limit exactly when every lead has room. */
  lemma PromotionKeepsFanOutIff(reg: Registry, cfg: Config)
    requires reg.Valid() && FanOutWithin(reg.beats, cfg)
    ensures FanOutWithin(PromoteOrphans(reg), cfg) <==> LeadsHaveRoom(reg, cfg)
  {
    var m' := PromoteOrphans(reg);
    forall gone | gone !in reg.beats && Children(reg, gone) != []
      ensures |ChildSet(m', Lead(reg, gone))| <= MaxSubs(cfg) <==> LeadHasRoom(reg, cfg, gone)
    {
      PromotionFanOutIff(reg, cfg, gone);
    }
    if LeadsHaveRoom(reg, cfg) {
      forall p ensures |ChildSet(m', p)| <= MaxSubs(cfg) {
        if x :| x in ChildSet(m', p) && reg.beats[x].parentId != Some(p) {
          OnlyLeadsGainChildren(reg, p, x);
        } else {
          SubsetSize(ChildSet(m', p), ChildSet(reg.beats, p));
        }
      }
    }
  }

  lemma SameParentsSameFanOut(m: Beats, m': Beats, cfg: Config)
    requires SameParents(m, m')
    ensures FanOutWithin(m, cfg) <==> FanOutWithin(m', cfg)
  {
    forall p ensures ChildSet(m, p) == ChildSet(m', p) {
    }
  }

  /** When a healing pass keeps the fan-out in bounds: always, unless it promotes a lead without room. */
  ghost predicate PassHasRoom(reg: Registry, cfg: Config, now: int)
    requires reg.Valid()
  {
    cfg.orphanPolicy.Promote? ==> LeadsHaveRoom(Reaped(reg, cfg, now), cfg)
  }

  lemma PromotedParents(kept: Registry, cfg: Config, now: int)
    requires cfg.orphanPolicy.Promote?
    ensures SameParents(PromoteOrphans(kept), CurbBudgets(HandledOrphans(kept, cfg, now), now))
  {
    CurbingKeeps(PromoteOrphans(kept), now);
  }

  lemma PromotingPassKeepsFanOutIff(reg: Registry, cfg: Config, now: int)
    requires reg.Valid() && FanOutWithin(reg.beats, cfg) && cfg.orphanPolicy.Promote?
    ensures FanOutWithin(HealTree(reg, cfg, now).beats, cfg) <==> LeadsHaveRoom(Reaped(reg, cfg, now), cfg)
  {
    var kept := Reaped(reg, cfg, now);
    NoNewEdgesKeepsFanOut(reg.beats, kept.beats, cfg) by { ReapedEdges(reg, cfg, now); }
    PromotionKeepsFanOutIff(kept, cfg);
    SameParentsSameFanOut(PromoteOrphans(kept), HealTree(reg, cfg, now).beats, cfg) by {
      PromotedParents(kept, cfg, now);
    }
  }

  lemma HealKeepsFanOutIff(reg: Registry, cfg: Config, now: int)
    requires reg.Valid() && FanOutWithin(reg.beats, cfg)
    ensures FanOutWithin(HealTree(reg, cfg, now).beats, cfg) <==> PassHasRoom(reg, cfg, now)
  {
    if cfg.orphanPolicy.Promote? {
      PromotingPassKeepsFanOutIff(reg, cfg, now);
    } else {
      NoNewEdgesKeepsFanOut(reg.beats, HealTree(reg, cfg, now).beats, cfg) by { HealAddsNoEdges(reg, cfg, now); }
    }
  }

  // ---- The population ------------------------------------------------------------------------

  /** The step turns one agent that was not active into an active one. */
  ghost predicate Enters(m: Beats, step: Step) {
    match step
    case Register(id, hb) => Active(hb.status) && !(id in m && Active(m[id].status))
    case Beat(id, _, _, status) => id in m && Active(status.GetOr(m[id].status)) && !Active(m[id].status)
    case HealOne(healer, target) => MayHeal(m, healer, target) && m[target].status.Error?
    case _ => false
  }

  lemma EntrantJoins(m: Beats, step: Step, now: int)
    requires !step.Register? && !step.Heal? && Enters(m, step)
    ensures |ActiveSet(Updated(m, step, now))| == |ActiveSet(m)| + 1
  {
    var id := if step.Beat? then step.id else step.target;
    assert ActiveSet(Updated(m, step, now)) == ActiveSet(m) + {id};
  }

  lemma RegisteredJoins(m: Beats, id: Id, hb: Heartbeat)
    ensures Enters(m, Register(id, hb)) ==> |ActiveSet(m[id := hb])| == |ActiveSet(m)| + 1
    ensures !Enters(m, Register(id, hb)) ==> |ActiveSet(m[id := hb])| <= |ActiveSet(m)|
  {
    if Enters(m, Register(id, hb)) {
      assert ActiveSet(m[id := hb]) == ActiveSet(m) + {id};
    } else {
      SubsetSize(ActiveSet(m[id := hb]), ActiveSet(m));
    }
  }

  /** Every step keeps the number of active agents in bounds exactly when an entrant finds room. */
  lemma StepPopulationIff(reg: Registry, cfg: Config, step: Step, now: int, limit: int)
    requires reg.Valid() && |ActiveSet(reg.beats)| <= limit
    ensures |ActiveSet(Apply(reg, cfg, step, now).beats)| <= limit
      <==> (Enters(reg.beats, step) ==> |ActiveSet(reg.beats)| < limit)
  {
    if step.Register? {
      RegisteredJoins(reg.beats, step.id, step.heartbeat);
    } else if step.Heal? {
      HealRevivesNobody(reg, cfg, now);
      NobodyRevivedShrinks(reg.beats, HealTree(reg, cfg, now).beats);
    } else if Enters(reg.beats, step) {
      EntrantJoins(reg.beats, step, now);
    } else {
      NobodyRevivedShrinks(reg.beats, Updated(reg.beats, step, now));
    }
  }

  // ---- All limits over a run -------------------------------------------------------------------

  /** A registration that the spawn guard allowed, one level below its parent, with the derived budget. */
  predicate Spawned(m: Beats, cfg: Config, id: Id, hb: Heartbeat) {
    && hb.parentId.Some?
    && CanSpawn(m, cfg, hb.parentId.value)
    && hb.depth == m[hb.parentId.value].depth + 1
    && hb.tokenBudget == ChildBudget(m, cfg, hb.parentId.value)
  }

  /** Spawns pass the guard, revived agents find room, and promoted leads have room for their siblings. */
  ghost predicate Disciplined(reg: Registry, cfg: Config, step: Step, now: int)
    requires reg.Valid()
  {
    && (step.Register? ==> Spawned(reg.beats, cfg, step.id, step.heartbeat))
    && (Enters(reg.beats, step) ==> |ActiveSet(reg.beats)| < cfg.globalMaxAgents)
    && (step.Heal? ==> PassHasRoom(reg, cfg, now))
  }

  lemma SpawnKeepsLimits(m: Beats, cfg: Config, rootBudget: real, id: Id, hb: Heartbeat)
    requires WithinLimits(m, cfg, rootBudget) && 0.0 <= cfg.budgetDecayFactor
    requires Spawned(m, cfg, id, hb)
    ensures WithinLimits(m[id := hb], cfg, rootBudget)
  {
    SpawnFanOut(m, cfg, id, hb);
    SpawnAddsOneActive(m, id, hb);
    SpawnedWithin(m[hb.parentId.value], hb, cfg, rootBudget);
  }

  lemma UpdatedKeepsTree(m: Beats, step: Step, now: int)
    requires !step.Register? && !step.Heal?
    ensures NoDeeper(m, Updated(m, step, now)) && NoNewEdges(m, Updated(m, step, now))
  {
  }

  /** Depth and budgets survive every step but an unguarded registration, under every policy. */
  lemma StepKeepsAgents(reg: Registry, cfg: Config, step: Step, now: int, rootBudget: real)
    requires reg.Valid() && AgentsWithin(reg.beats, cfg, rootBudget) && rootBudget >= 0.0
    requires 0.0 <= cfg.budgetDecayFactor <= 1.0 && !step.Register?
    ensures AgentsWithin(Apply(reg, cfg, step, now).beats, cfg, rootBudget)
  {
    if step.Heal? {
      HealNoDeeper(reg, cfg, now, rootBudget);
      NoDeeperKeepsAgents(reg.beats, HealTree(reg, cfg, now).beats, cfg, rootBudget);
    } else {
      UpdatedKeepsTree(reg.beats, step, now);
      NoDeeperKeepsAgents(reg.beats, Updated(reg.beats, step, now), cfg, rootBudget);
    }
  }

  lemma StepKeepsFanOutIff(reg: Registry, cfg: Config, step: Step, now: int)
    requires reg.Valid() && FanOutWithin(reg.beats, cfg) && !step.Register?
    ensures FanOutWithin(Apply(reg, cfg, step, now).beats, cfg) <==> (step.Heal? ==> PassHasRoom(reg, cfg, now))
  {
    if step.Heal? {
      HealKeepsFanOutIff(reg, cfg, now);
    } else {
      UpdatedKeepsTree(reg.beats, step, now);
      NoNewEdgesKeepsFanOut(reg.beats, Updated(reg.beats, step, now), cfg);
    }
  }

  /** Whatever is not a registration keeps all the limits exactly when it is disciplined. */
  lemma StepKeepsLimitsIff(reg: Registry, cfg: Config, step: Step, now: int, rootBudget: real)
    requires reg.Valid() && WithinLimits(reg.beats, cfg, rootBudget) && rootBudget >= 0.0
    requires 0.0 <= cfg.budgetDecayFactor <= 1.0 && !step.Register?
    ensures WithinLimits(Apply(reg, cfg, step, now).beats, cfg, rootBudget) <==> Disciplined(reg, cfg, step, now)
  {
    StepKeepsAgents(reg, cfg, step, now, rootBudget);
    StepKeepsFanOutIff(reg, cfg, step, now);
    StepPopulationIff(reg, cfg, step, now, cfg.globalMaxAgents);
  }

  /** A run under one configuration in which every step is disciplined where it happens. */
  ghost predicate DisciplinedRun(reg: Registry, cfg: Config, moments: seq<Moment>)
    requires reg.Valid()
  {
    forall i :: 0 <= i < |moments| ==>
      moments[i].cfg == cfg && Disciplined(Run(reg, moments[..i]), cfg, moments[i].step, moments[i].now)
  }

  lemma RootWithin(root: Id, hb: Heartbeat, cfg: Config)
    requires hb.parentId.None? && hb.depth == 0 && hb.tokenBudget >= 0
    requires 0 <= MaxDepth(cfg) && 0 <= MaxSubs(cfg) && 1 <= cfg.globalMaxAgents
    ensures WithinLimits(map[root := hb], cfg, hb.tokenBudget as real)
  {
    var m := map[root := hb];
    forall p ensures ChildSet(m, p) == {} {}
    SubsetSize(ActiveSet(m), {root});
  }

  /** Under every policy, disciplined runs keep depth, fan-out, population and budgets in bounds. */
  lemma {:induction false} RunsStayWithinLimits(
    reg: Registry, cfg: Config, rootBudget: real, moments: seq<Moment>)
    requires reg.Valid() && WithinLimits(reg.beats, cfg, rootBudget) && rootBudget >= 0.0
    requires 0.0 <= cfg.budgetDecayFactor <= 1.0 && DisciplinedRun(reg, cfg, moments)
    ensures WithinLimits(Run(reg, moments).beats, cfg, rootBudget)
    decreases |moments|
  {
    if moments != [] {
      var before, last := moments[..|moments| - 1], moments[|moments| - 1];
      forall i | 0 <= i < |before|
        ensures before[i].cfg == cfg && Disciplined(Run(reg, before[..i]), cfg, before[i].step, before[i].now)
      {
        assert before[..i] == moments[..i];
      }
      RunsStayWithinLimits(reg, cfg, rootBudget, before);
      LastKeepsLimits(Run(reg, before), cfg, last.step, last.now, rootBudget);
    }
  }

  lemma LastKeepsLimits(reg: Registry, cfg: Config, step: Step, now: int, rootBudget: real)
    requires reg.Valid() && WithinLimits(reg.beats, cfg, rootBudget) && rootBudget >= 0.0
    requires 0.0 <= cfg.budgetDecayFactor <= 1.0 && Disciplined(reg, cfg, step, now)
    ensures WithinLimits(Apply(reg, cfg, step, now).beats, cfg, rootBudget)
  {
    if step.Register? {
      SpawnKeepsLimits(reg.beats, cfg, rootBudget, step.id, step.heartbeat);
    } else {
      StepKeepsLimitsIff(reg, cfg, step, now, rootBudget);
    }
  }

  /** From one root agent within the configuration, every disciplined run stays within the limits. */
  lemma RunsFromRootStayWithinLimits(root: Id, hb: Heartbeat, cfg: Config, moments: seq<Moment>)
    requires hb.parentId.None? && hb.depth == 0 && hb.tokenBudget >= 0
    requires 0 <= MaxDepth(cfg) && 0 <= MaxSubs(cfg) && 1 <= cfg.globalMaxAgents
    requires 0.0 <= cfg.budgetDecayFactor <= 1.0
    requires DisciplinedRun(Registry(map[root := hb], [root]), cfg, moments)
    ensures WithinLimits(Run(Registry(map[root := hb], [root]), moments).beats, cfg, hb.tokenBudget as real)
  {
    RootWithin(root, hb, cfg);
    RunsStayWithinLimits(Registry(map[root := hb], [root]), cfg, hb.tokenBudget as real, moments);
  }

  // ---- Depth along the branches ----------------------------------------------------------------

  /** An agent is deeper than its parent, unless the parent is a root. */
  ghost predicate BranchesDeepen(m: Beats) {
    forall x :: x in m && m[x].parentId.Some? ==> DeeperThanBranch(m, x, m[x].parentId.value)
  }

  ghost predicate DeeperThanBranch(m: Beats, x: Id, p: Id)
    requires x in m
  {
    p in m && m[p].parentId.Some? ==> m[p].depth < m[x].depth
  }

  lemma HealKeepsBranches(reg: Registry, cfg: Config, now: int)
    requires reg.Valid() && BranchesDeepen(reg.beats)
    ensures BranchesDeepen(HealTree(reg, cfg, now).beats)
  {
    var healed := HealTree(reg, cfg, now).beats;
    forall x | x in healed && healed[x].parentId.Some?
      ensures DeeperThanBranch(healed, x, healed[x].parentId.value)
    {
      var p := healed[x].parentId.value;
      if p in healed && healed[p].parentId.Some? {
        HealedAgent(reg, cfg, now, x);
        HealedAgent(reg, cfg, now, p);
        HealedBranch(reg, cfg, now, x);
        assert DeeperThanBranch(reg.beats, x, p);
      }
    }
  }

  lemma HealedBranch(reg: Registry, cfg: Config, now: int, x: Id)
    requires reg.Valid() && x in HealTree(reg, cfg, now).beats
    ensures var healed := HealTree(reg, cfg, now).beats;
      var p := healed[x].parentId;
      p.Some? && p.value in healed && healed[p.value].parentId.Some? ==>
        x in reg.beats && p == reg.beats[x].parentId
  {
    KeptIsDetected(reg, cfg, now, x);
    HandledEdge(Reaped(reg, cfg, now), cfg, now, x);
  }

  /** A registered agent that has a parent in the map is deeper than it. */
  ghost predicate SpawnsDeeper(m: Beats, step: Step) {
    step.Register? && step.heartbeat.parentId.Some? && step.heartbeat.parentId.value in m ==>
      m[step.heartbeat.parentId.value].depth < step.heartbeat.depth
  }

  lemma FreshSpawnKeepsBranches(m: Beats, id: Id, hb: Heartbeat)
    requires BranchesDeepen(m) && FreshId(m, id) && hb.parentId != Some(id) && SpawnsDeeper(m, Register(id, hb))
    ensures BranchesDeepen(m[id := hb])
  {
    var m' := m[id := hb];
    forall x | x in m' && m'[x].parentId.Some? ensures DeeperThanBranch(m', x, m'[x].parentId.value) {
      if x != id { assert DeeperThanBranch(m, x, m[x].parentId.value); }
    }
  }

  lemma UpdatedKeepsBranches(m: Beats, step: Step, now: int)
    requires BranchesDeepen(m) && !step.Register? && !step.Heal?
    ensures BranchesDeepen(Updated(m, step, now))
  {
    var m' := Updated(m, step, now);
    forall x | x in m' && m'[x].parentId.Some? ensures DeeperThanBranch(m', x, m'[x].parentId.value) {
      assert DeeperThanBranch(m, x, m[x].parentId.value);
    }
  }

  /** With ids never reused and children registered deeper, branches deepen at every moment, under every policy. */
  lemma {:induction false} RunsKeepBranches(reg: Registry, moments: seq<Moment>)
    requires reg.Valid() && BranchesDeepen(reg.beats) && IdsNeverReused(reg, moments)
    requires forall i :: 0 <= i < |moments| ==> SpawnsDeeper(Run(reg, moments[..i]).beats, moments[i].step)
    ensures BranchesDeepen(Run(reg, moments).beats)
    decreases |moments|
  {
    if moments != [] {
      var before, last := moments[..|moments| - 1], moments[|moments| - 1];
      forall i | 0 <= i < |before| ensures before[..i] == moments[..i] {}
      RunsKeepBranches(reg, before);
      var at := Run(reg, before);
      if last.step.Register? {
        UnusedStaysFresh(reg, before, last.step.id);
        FreshSpawnKeepsBranches(at.beats, last.step.id, last.step.heartbeat);
      } else if last.step.Heal? {
        HealKeepsBranches(at, last.cfg, last.now);
      } else {
        UpdatedKeepsBranches(at.beats, last.step, last.now);
      }
    }
  }

  // ---- Depth along every edge, under promotion --------------------------------------------------

  /** An agent is deeper than a parent in the map, root or not. */
  ghost predicate EdgesDeepen(m: Beats) {
    forall x :: x in m && m[x].parentId.Some? ==> DeeperThan(m, x, m[x].parentId.value)
  }

  ghost predicate DeeperThan(m: Beats, x: Id, p: Id)
    requires x in m
  {
    p in m ==> m[p].depth < m[x].depth
  }

  /** The orphan is a lead, or deeper than its lead will be. */
  ghost predicate DeeperThanLead(reg: Registry, x: Id)
    requires x in reg.beats && reg.beats[x].parentId.Some?
  {
    var lead := Lead(reg, reg.beats[x].parentId.value);
    x != lead && lead in reg.beats ==> Max(0, reg.beats[lead].depth - 1) < reg.beats[x].depth
  }

  lemma PromotedEdgeDeepensIff(reg: Registry, x: Id)
    requires reg.Valid() && x in reg.beats && Rehung(reg, x).parentId.Some?
    requires EdgesDeepen(reg.beats) && forall y :: y in reg.beats ==> reg.beats[y].depth >= 0
    ensures DeeperThan(PromoteOrphans(reg), x, Rehung(reg, x).parentId.value)
      <==> (x in Orphans(reg.beats) ==> DeeperThanLead(reg, x))
  {
    if x in Orphans(reg.beats) {
      OrphanHasLead(reg, x);
    } else {
      assert DeeperThan(reg.beats, x, reg.beats[x].parentId.value);
    }
  }

  /** Promotion keeps depth growing along every edge exactly when each lead ends above its siblings. */
  lemma PromotionDeepensIff(reg: Registry)
    requires reg.Valid() && EdgesDeepen(reg.beats) && forall y :: y in reg.beats ==> reg.beats[y].depth >= 0
    ensures EdgesDeepen(PromoteOrphans(reg)) <==> forall x :: x in Orphans(reg.beats) ==> DeeperThanLead(reg, x)
  {
    forall x | x in reg.beats && Rehung(reg, x).parentId.Some?
      ensures DeeperThan(PromoteOrphans(reg), x, Rehung(reg, x).parentId.value)
        <==> (x in Orphans(reg.beats) ==> DeeperThanLead(reg, x))
    {
      PromotedEdgeDeepensIff(reg, x);
    }
    forall x | x in Orphans(reg.beats) && Rehung(reg, x).parentId.None? ensures DeeperThanLead(reg, x) {
      OrphanHasLead(reg, x);
    }
  }
}
