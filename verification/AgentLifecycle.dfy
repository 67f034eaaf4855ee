/** What the manager's operations do to the agent map, and what they keep. */
module AgentLifecycle {
  import opened Collections
  import opened StableSort
  import opened AgentForest

  datatype OrphanPolicy = Cascade | Reparent | Promote

  datatype Config = Config(
    staleThreshold: int,
    deadThreshold: int,
    globalMaxAgents: int,
    budgetDecayFactor: real,
    orphanPolicy: OrphanPolicy,
    maxAgentDepth: int,
    maxSubAgents: int,
    minTokenBudgetForSpawn: int)

  const SYSTEM_MAX_AGENT_DEPTH := 10
  const SYSTEM_MAX_SUB_AGENTS := 16

  predicate Final(s: Status) { s.Killed? || s.Completed? }

  // ---- Phases of a healing pass ---------------------------------------------------

  function Slain(hb: Heartbeat, now: int): Heartbeat {
    if Final(hb.status) then hb else hb.(status := Killed, lastBeat := now)
  }

  /** Kill every agent in `ids` that is neither killed nor completed. */
  ghost function Mark(m: Beats, ids: set<Id>, now: int): Beats {
    map x | x in m :: if x in ids then Slain(m[x], now) else m[x]
  }

  ghost function Under(m: Beats, roots: set<Id>): set<Id> {
    set x | x in m && exists r :: r in roots && Above(m, r, x)
  }

  ghost function Subtrees(m: Beats, roots: set<Id>): set<Id> {
    (roots * m.Keys) + Under(m, roots)
  }

  function Detected(hb: Heartbeat, cfg: Config, now: int): Heartbeat {
    var age := now - hb.lastBeat;
    var first := if hb.status.Alive? && age >= cfg.staleThreshold then Stale else hb.status;
    hb.(status := if first.Stale? && age >= cfg.deadThreshold then Dead else first)
  }

  function Detect(m: Beats, cfg: Config, now: int): Beats {
    map x | x in m :: Detected(m[x], cfg, now)
  }

  function DeadOf(m: Beats): set<Id> { set x | x in m && m[x].status.Dead? }

  function Reap(m: Beats): Beats {
    map x | x in m && !m[x].status.Dead? && !m[x].status.Killed? :: m[x]
  }

  function Orphans(m: Beats): set<Id> {
    set x | x in m && m[x].parentId.Some? && m[x].parentId.value !in m
  }

  function OrphanList(reg: Registry): seq<Id> {
    Filter(reg.order, (x: Id) => x in Orphans(reg.beats))
  }

  lemma OrphanListElements(reg: Registry)
    requires reg.Valid()
    ensures Distinct(OrphanList(reg)) && ToSet(OrphanList(reg)) == Orphans(reg.beats)
  {
    FilterDistinct(reg.order, (x: Id) => x in Orphans(reg.beats));
  }

  function StartedAt(m: Beats, x: Id): int { if x in m then m[x].startedAt else 0 }

  function StartOrder(m: Beats): (Id, Id) -> bool {
    (a, b) => StartedAt(m, a) <= StartedAt(m, b)
  }

  /** The sibling that takes over the orphans of `gone`. */
  function Lead(reg: Registry, gone: Id): Id {
    var group := Sort(Children(reg, gone), StartOrder(reg.beats));
    if group == [] then gone else group[0]
  }

  function Rehung(reg: Registry, x: Id): Heartbeat
    requires x in reg.beats
  {
    var hb := reg.beats[x];
    if x !in Orphans(reg.beats) then hb
    else
      var lead := Lead(reg, hb.parentId.value);
      if x == lead then hb.(parentId := None, depth := Max(0, hb.depth - 1))
      else hb.(parentId := Some(lead))
  }

  function PromoteOrphans(reg: Registry): Beats {
    map x | x in reg.beats :: Rehung(reg, x)
  }

  function ReparentOrphans(m: Beats): Beats {
    map x | x in m :: if x in Orphans(m) then m[x].(parentId := None, depth := 0) else m[x]
  }

  ghost function HandledOrphans(reg: Registry, cfg: Config, now: int): (m: Beats)
    ensures m.Keys == reg.beats.Keys
  {
    match cfg.orphanPolicy
    case Cascade => Mark(reg.beats, Subtrees(reg.beats, Orphans(reg.beats)), now)
    case Reparent => ReparentOrphans(reg.beats)
    case Promote => PromoteOrphans(reg)
  }

  function Overspent(m: Beats): set<Id> {
    set x | x in m && m[x].status.Alive? && m[x].tokenUsage > m[x].tokenBudget
  }

  function Curbed(hb: Heartbeat, now: int): Heartbeat {
    if hb.status.Alive? && hb.tokenUsage > hb.tokenBudget then hb.(status := Killed, lastBeat := now) else hb
  }

  function CurbBudgets(m: Beats, now: int): Beats {
    map x | x in m :: Curbed(m[x], now)
  }

  /** The map after stale detection and the killing of everything below a dead agent. */
  ghost function Swept(m: Beats, cfg: Config, now: int): (s: Beats)
    ensures s.Keys == m.Keys
  {
    var seen := Detect(m, cfg, now);
    Mark(seen, Under(seen, DeadOf(seen)), now)
  }

  ghost function Reaped(reg: Registry, cfg: Config, now: int): (r: Registry)
    requires reg.Valid()
    ensures r.Valid() && r.beats == Reap(Swept(reg.beats, cfg, now))
  {
    reg.Restrict(Reap(Swept(reg.beats, cfg, now)))
  }

  ghost function HealTree(reg: Registry, cfg: Config, now: int): (r: Registry)
    requires reg.Valid()
    ensures r.Valid() && r.order == Reaped(reg, cfg, now).order
    ensures r.beats == CurbBudgets(HandledOrphans(Reaped(reg, cfg, now), cfg, now), now)
  {
    var kept := Reaped(reg, cfg, now);
    kept.With(CurbBudgets(HandledOrphans(kept, cfg, now), now))
  }

  // ---- Acyclicity through a healing pass --------------------------------------------

  lemma SameParentsAcyclic(m: Beats, m': Beats)
    requires Acyclic(m) && SameParents(m, m')
    ensures Acyclic(m')
  {
    var rank :| Ranked(m, rank);
    assert Ranked(m', rank);
  }

  lemma ReapedAcyclic(reg: Registry, cfg: Config, now: int)
    requires reg.Valid() && Acyclic(reg.beats)
    ensures Acyclic(Reaped(reg, cfg, now).beats)
  {
    var rank :| Ranked(reg.beats, rank);
    assert Ranked(Reaped(reg, cfg, now).beats, rank);
  }

  /** The lead stands at `k` among its siblings: none started earlier, and those before it started later. */
  ghost predicate LeadAt(reg: Registry, gone: Id, k: nat) {
    var siblings := Children(reg, gone);
    var start := StartedAt(reg.beats, Lead(reg, gone));
    && k < |siblings| && siblings[k] == Lead(reg, gone)
    && (forall i :: 0 <= i < |siblings| ==> start <= StartedAt(reg.beats, siblings[i]))
    && (forall i :: 0 <= i < k ==> start < StartedAt(reg.beats, siblings[i]))
  }

  /** The lead is an orphan of the same parent, the first-registered of the earliest started. */
  lemma LeadIsEarliestSibling(reg: Registry, gone: Id)
    requires reg.Valid() && Children(reg, gone) != []
    ensures Lead(reg, gone) in reg.beats && reg.beats[Lead(reg, gone)].parentId == Some(gone)
    ensures exists k :: LeadAt(reg, gone, k)
  {
    var k := HeadIsFirstLeast(Children(reg, gone), StartOrder(reg.beats));
    assert LeadAt(reg, gone, k);
  }

  lemma OrphanHasLead(reg: Registry, x: Id)
    requires reg.Valid() && x in Orphans(reg.beats)
    ensures var gone := reg.beats[x].parentId.value;
      Lead(reg, gone) in Orphans(reg.beats) && reg.beats[Lead(reg, gone)].parentId == Some(gone)
  {
    var gone := reg.beats[x].parentId.value;
    assert x in Children(reg, gone);
    LeadIsEarliestSibling(reg, gone);
  }

  /** After promotion every parent is present, and is a root or ranks lower. */
  lemma PromotedEdge(reg: Registry, rank: map<Id, nat>, x: Id)
    requires reg.Valid() && Ranked(reg.beats, rank) && x in reg.beats
    ensures var p := Rehung(reg, x).parentId;
      p.Some? ==> p.value in reg.beats && (Rehung(reg, p.value).parentId.None? || rank[p.value] < rank[x])
  {
    if x in Orphans(reg.beats) {
      OrphanHasLead(reg, x);
    }
  }

  lemma PromoteAcyclic(reg: Registry)
    requires reg.Valid() && Acyclic(reg.beats)
    ensures Acyclic(PromoteOrphans(reg))
    ensures Orphans(PromoteOrphans(reg)) == {}
  {
    var m, m' := reg.beats, PromoteOrphans(reg);
    var rank :| Ranked(m, rank);
    var rank': map<Id, nat> := map x | x in m :: if Rehung(reg, x).parentId.None? then 0 else 1 + rank[x];
    forall x | x in m && m'[x].parentId.Some?
      ensures m'[x].parentId.value in m && rank'[m'[x].parentId.value] < rank'[x]
    {
      PromotedEdge(reg, rank, x);
    }
    assert Ranked(m', rank');
  }

  lemma HandledOrphansAcyclic(reg: Registry, cfg: Config, now: int)
    requires reg.Valid() && Acyclic(reg.beats)
    ensures Acyclic(HandledOrphans(reg, cfg, now))
    ensures !cfg.orphanPolicy.Cascade? ==> Orphans(HandledOrphans(reg, cfg, now)) == {}
  {
    match cfg.orphanPolicy
    case Cascade =>
      SameParentsAcyclic(reg.beats, HandledOrphans(reg, cfg, now));
    case Reparent =>
      var rank :| Ranked(reg.beats, rank);
      assert Ranked(ReparentOrphans(reg.beats), rank);
    case Promote =>
      PromoteAcyclic(reg);
  }

  lemma HealTreeAcyclic(reg: Registry, cfg: Config, now: int)
    requires reg.Valid() && Acyclic(reg.beats)
    ensures Acyclic(HealTree(reg, cfg, now).beats)
  {
    ReapedAcyclic(reg, cfg, now);
    var kept := Reaped(reg, cfg, now);
    HandledOrphansAcyclic(kept, cfg, now);
    SameParentsAcyclic(HandledOrphans(kept, cfg, now), HealTree(reg, cfg, now).beats);
  }

  // ---- What one healing pass guarantees ------------------------------------------------

  /** Orphan handling kills an agent or re-hangs it, and changes nothing else about it. */
  lemma HandlingKillsOrRehangs(kept: Registry, cfg: Config, now: int, x: Id)
    requires kept.Valid() && x in kept.beats
    ensures var was := kept.beats[x];
      var after := HandledOrphans(kept, cfg, now)[x];
      after == Slain(was, now) || after == was.(parentId := after.parentId, depth := after.depth)
  {
    if cfg.orphanPolicy.Promote? { RehungKeepsRest(kept, x); }
  }

  lemma RehungKeepsRest(reg: Registry, x: Id)
    requires x in reg.beats
    ensures var was, after := reg.beats[x], Rehung(reg, x);
      after == was.(parentId := after.parentId, depth := after.depth)
  {
  }

  /** The survivors are exactly the agents the sweep left neither dead nor killed. */
  lemma HealedMembers(reg: Registry, cfg: Config, now: int)
    requires reg.Valid()
    ensures HealTree(reg, cfg, now).beats.Keys
      == var swept := Swept(reg.beats, cfg, now);
        set x | x in swept && !swept[x].status.Dead? && !swept[x].status.Killed?
    ensures DeadOf(HealTree(reg, cfg, now).beats) == {}
  {
    var kept := Reaped(reg, cfg, now);
    assert HealTree(reg, cfg, now).beats.Keys == kept.beats.Keys;
    forall x | x in kept.beats ensures !HealTree(reg, cfg, now).beats[x].status.Dead? {
      HandlingKillsOrRehangs(kept, cfg, now, x);
    }
  }

  lemma RootedWithoutOrphans(m: Beats, x: Id)
    requires Acyclic(m) && Orphans(m) == {} && x in m
    ensures Rooted(m, x)
  {
    var rank :| Ranked(m, rank);
    forall o ensures !Orphan(m, o) { assert o !in Orphans(m); }
    RootedUnlessBelowOrphan(m, rank, x);
  }

  lemma RootedUnlessCascaded(m: Beats, x: Id)
    requires Acyclic(m) && x in m && x !in Subtrees(m, Orphans(m))
    ensures Rooted(m, x)
  {
    var rank :| Ranked(m, rank);
    forall o | Orphan(m, o) ensures o in Orphans(m) {}
    RootedUnlessBelowOrphan(m, rank, x);
  }

  /** A cascading pass leaves parents alone and ends everything at and below an orphan. */
  lemma CascadeEndsSubtrees(reg: Registry, cfg: Config, now: int)
    requires reg.Valid() && cfg.orphanPolicy.Cascade?
    ensures var kept, healed := Reaped(reg, cfg, now).beats, HealTree(reg, cfg, now).beats;
      && SameParents(kept, healed)
      && forall y :: y in Subtrees(kept, Orphans(kept)) ==> y in healed && Final(healed[y].status)
  {
    var kept := Reaped(reg, cfg, now);
    var marked := Mark(kept.beats, Subtrees(kept.beats, Orphans(kept.beats)), now);
    assert HandledOrphans(kept, cfg, now) == marked;
    forall y | y in Subtrees(kept.beats, Orphans(kept.beats)) ensures y in marked && Final(marked[y].status) {}
    CurbingKeeps(marked, now);
  }

  lemma CurbingKeeps(m: Beats, now: int)
    ensures SameParents(m, CurbBudgets(m, now))
    ensures forall y :: y in m && Final(m[y].status) ==> Final(CurbBudgets(m, now)[y].status)
  {
  }

  lemma CascadedAgentIsRooted(reg: Registry, cfg: Config, now: int, x: Id)
    requires reg.Valid() && Acyclic(reg.beats) && cfg.orphanPolicy.Cascade?
    requires x in HealTree(reg, cfg, now).beats && !Final(HealTree(reg, cfg, now).beats[x].status)
    ensures Rooted(HealTree(reg, cfg, now).beats, x)
  {
    var kept, healed := Reaped(reg, cfg, now).beats, HealTree(reg, cfg, now).beats;
    CascadeEndsSubtrees(reg, cfg, now);
    HealTreeAcyclic(reg, cfg, now);
    SameSubtrees(kept, healed);
    RootedUnlessCascaded(healed, x);
  }

  lemma SameSubtrees(m: Beats, m': Beats)
    requires SameParents(m, m')
    ensures Subtrees(m, Orphans(m)) == Subtrees(m', Orphans(m'))
  {
    SameParentsSameAbove(m, m');
    assert Orphans(m) == Orphans(m');
  }

  /** After a pass, every live agent hangs by an in-map chain from a parentless root. */
  lemma HealedAgentsAreRooted(reg: Registry, cfg: Config, now: int, x: Id)
    requires reg.Valid() && Acyclic(reg.beats)
    ensures var healed := HealTree(reg, cfg, now).beats;
      x in healed && (cfg.orphanPolicy.Cascade? ==> !Final(healed[x].status)) ==> Rooted(healed, x)
  {
    var healed := HealTree(reg, cfg, now).beats;
    if x in healed && cfg.orphanPolicy.Cascade? && !Final(healed[x].status) {
      CascadedAgentIsRooted(reg, cfg, now, x);
    } else if x in healed && !cfg.orphanPolicy.Cascade? {
      HealTreeAcyclic(reg, cfg, now);
      NoOrphansAfterHealing(reg, cfg, now);
      RootedWithoutOrphans(healed, x);
    }
  }

  lemma NoOrphansAfterHealing(reg: Registry, cfg: Config, now: int)
    requires reg.Valid() && Acyclic(reg.beats) && !cfg.orphanPolicy.Cascade?
    ensures Orphans(HealTree(reg, cfg, now).beats) == {}
  {
    var kept := Reaped(reg, cfg, now);
    ReapedAcyclic(reg, cfg, now);
    HandledOrphansAcyclic(kept, cfg, now);
    assert SameParents(HandledOrphans(kept, cfg, now), HealTree(reg, cfg, now).beats);
  }

  // ---- Convergence -----------------------------------------------------------------------

  /** No agent's status would change by detection or by the budget rule, and none is dead. */
  ghost predicate Calm(m: Beats, cfg: Config, now: int) {
    forall x :: x in m ==>
      && Detected(m[x], cfg, now) == m[x]
      && !m[x].status.Dead?
      && Curbed(m[x], now) == m[x]
  }

  lemma CalmBeat(was: Heartbeat, after: Heartbeat, cfg: Config, now: int)
    requires var seen := Detected(was, cfg, now);
      && !seen.status.Dead?
      && (after == Slain(seen, now) || after == seen.(parentId := after.parentId, depth := after.depth))
    ensures var done := Curbed(after, now);
      Detected(done, cfg, now) == done && !done.status.Dead? && Curbed(done, now) == done
  {
  }

  lemma KeptIsDetected(reg: Registry, cfg: Config, now: int, x: Id)
    requires reg.Valid() && x in Reaped(reg, cfg, now).beats
    ensures x in reg.beats && Reaped(reg, cfg, now).beats[x] == Detected(reg.beats[x], cfg, now)
    ensures !Detected(reg.beats[x], cfg, now).status.Dead?
  {
  }

  lemma HealCalms(reg: Registry, cfg: Config, now: int)
    requires reg.Valid()
    ensures Calm(HealTree(reg, cfg, now).beats, cfg, now)
  {
    var kept := Reaped(reg, cfg, now);
    var handled := HandledOrphans(kept, cfg, now);
    var healed := HealTree(reg, cfg, now).beats;
    forall x | x in healed
      ensures Detected(healed[x], cfg, now) == healed[x]
        && !healed[x].status.Dead? && Curbed(healed[x], now) == healed[x]
    {
      KeptIsDetected(reg, cfg, now, x);
      HandlingKillsOrRehangs(kept, cfg, now, x);
      CalmBeat(reg.beats[x], handled[x], cfg, now);
    }
  }

  /** In a calm map the sweep does nothing. */
  lemma CalmSweep(m: Beats, cfg: Config, now: int)
    requires Calm(m, cfg, now)
    ensures Swept(m, cfg, now) == m
  {
    assert Detect(m, cfg, now) == m;
  }

  /** Everything below a killed or orphaned agent, and every orphan, is already final. */
  ghost predicate Contained(m: Beats) {
    && (forall o :: o in Orphans(m) ==> Final(m[o].status))
    && (forall r, x :: x in m && Above(m, r, x) && r in m && (r in Orphans(m) || m[r].status.Killed?)
          ==> Final(m[x].status))
  }

  /** Nobody below an agent over its budget is left alive. */
  ghost predicate OverspentStandAlone(m: Beats) {
    forall r, x :: r in Overspent(m) && x in m && Above(m, r, x) ==> Final(m[x].status) || x in Overspent(m)
  }

  lemma CurbedFinalIff(m: Beats, now: int, x: Id)
    requires x in m
    ensures Final(CurbBudgets(m, now)[x].status) <==> Final(m[x].status) || x in Overspent(m)
    ensures CurbBudgets(m, now)[x].status.Killed? <==> m[x].status.Killed? || x in Overspent(m)
  {
  }

  lemma CurbingContainsIff(m: Beats, now: int)
    requires Contained(m)
    ensures Contained(CurbBudgets(m, now)) <==> OverspentStandAlone(m)
  {
    var curbed := CurbBudgets(m, now);
    SameParentsSameAbove(m, curbed);
    assert Orphans(m) == Orphans(curbed);
    forall x | x in m
      ensures Final(curbed[x].status) <==> Final(m[x].status) || x in Overspent(m)
      ensures curbed[x].status.Killed? <==> m[x].status.Killed? || x in Overspent(m)
    {
      CurbedFinalIff(m, now, x);
    }
  }

  lemma ReapedAreNotKilled(reg: Registry, cfg: Config, now: int)
    requires reg.Valid()
    ensures forall x :: x in Reaped(reg, cfg, now).beats ==> !Reaped(reg, cfg, now).beats[x].status.Killed?
  {
  }

  /**
   * A cascading pass leaves only killed or completed agents at and below orphans and killed
   * agents exactly when nobody below an agent it kills for its budget is left alive.
   */
  lemma CascadeContainsIff(reg: Registry, cfg: Config, now: int)
    requires reg.Valid() && cfg.orphanPolicy.Cascade?
    ensures Contained(HealTree(reg, cfg, now).beats)
      <==> OverspentStandAlone(HandledOrphans(Reaped(reg, cfg, now), cfg, now))
  {
    var kept := Reaped(reg, cfg, now);
    ReapedAreNotKilled(reg, cfg, now);
    MarkContains(kept.beats, now);
    assert HandledOrphans(kept, cfg, now) == Mark(kept.beats, Subtrees(kept.beats, Orphans(kept.beats)), now);
    CurbingContainsIff(HandledOrphans(kept, cfg, now), now);
  }

  lemma CascadeContains(reg: Registry, cfg: Config, now: int)
    requires reg.Valid() && cfg.orphanPolicy.Cascade? && Calm(reg.beats, cfg, now)
    ensures Contained(HealTree(reg, cfg, now).beats)
  {
    CalmSweep(reg.beats, cfg, now);
    var kept := Reaped(reg, cfg, now).beats;
    CalmCurbsNobody(reg, cfg, now);
    forall x | x in kept ensures !kept[x].status.Killed? { CalmKept(reg, cfg, now, x); }
    MarkContains(kept, now);
  }

  lemma MarkContains(m: Beats, now: int)
    requires forall x :: x in m ==> !m[x].status.Killed?
    ensures Contained(Mark(m, Subtrees(m, Orphans(m)), now))
  {
    var ids := Subtrees(m, Orphans(m));
    var marked := Mark(m, ids, now);
    SameParentsSameAbove(m, marked);
    assert Orphans(m) == Orphans(marked);
    forall r, x | x in marked && Above(marked, r, x) && r in marked
      && (r in Orphans(marked) || marked[r].status.Killed?)
      ensures Final(marked[x].status)
    {
      assert r in ids;
      if r !in Orphans(m) {
        var o :| o in Orphans(m) && Above(m, o, r);
        AboveTransitive(m, o, r, x);
      }
      assert x in Under(m, Orphans(m));
    }
  }

  lemma CalmKept(reg: Registry, cfg: Config, now: int, x: Id)
    requires reg.Valid() && Calm(reg.beats, cfg, now) && x in Reaped(reg, cfg, now).beats
    ensures x in reg.beats && Reaped(reg, cfg, now).beats[x] == reg.beats[x] && !reg.beats[x].status.Killed?
    ensures Curbed(reg.beats[x], now) == reg.beats[x]
  {
    CalmSweep(reg.beats, cfg, now);
  }

  /** In a calm map nobody is over budget, so the last phase of a pass changes nothing. */
  lemma CalmCurbsNobody(reg: Registry, cfg: Config, now: int)
    requires reg.Valid() && Calm(reg.beats, cfg, now)
    ensures HealTree(reg, cfg, now).beats == HandledOrphans(Reaped(reg, cfg, now), cfg, now)
  {
    var kept := Reaped(reg, cfg, now);
    CurbsNobody(kept, cfg, now) by {
      forall x | x in kept.beats ensures Curbed(kept.beats[x], now) == kept.beats[x] {
        CalmKept(reg, cfg, now, x);
      }
    }
  }

  lemma CurbsNobody(kept: Registry, cfg: Config, now: int)
    requires kept.Valid() && forall x :: x in kept.beats ==> Curbed(kept.beats[x], now) == kept.beats[x]
    ensures CurbBudgets(HandledOrphans(kept, cfg, now), now) == HandledOrphans(kept, cfg, now)
  {
    var handled := HandledOrphans(kept, cfg, now);
    forall x | x in handled ensures Curbed(handled[x], now) == handled[x] {
      HandlingKillsOrRehangs(kept, cfg, now, x);
      CalmBeatStays(kept.beats[x], handled[x], now);
    }
  }

  lemma CalmBeatStays(was: Heartbeat, after: Heartbeat, now: int)
    requires Curbed(was, now) == was
    requires after == Slain(was, now) || after == was.(parentId := after.parentId, depth := after.depth)
    ensures Curbed(after, now) == after
  {
  }

  /** From a calm, contained map a cascading pass only removes the killed agents. */
  lemma ContainedPass(reg: Registry, cfg: Config, now: int)
    requires reg.Valid() && cfg.orphanPolicy.Cascade? && Calm(reg.beats, cfg, now) && Contained(reg.beats)
    ensures HealTree(reg, cfg, now) == Reaped(reg, cfg, now)
    ensures Contained(HealTree(reg, cfg, now).beats)
    ensures forall x :: x in HealTree(reg, cfg, now).beats ==> !HealTree(reg, cfg, now).beats[x].status.Killed?
  {
    CalmSweep(reg.beats, cfg, now);
    var kept := Reaped(reg, cfg, now);
    ReapingContains(reg.beats);
    CascadeEndsNobody(kept.beats, now);
    CalmCurbsNobody(reg, cfg, now);
  }

  lemma CascadeEndsNobody(m: Beats, now: int)
    requires Contained(m)
    ensures Mark(m, Subtrees(m, Orphans(m)), now) == m
  {
  }

  /** Without dead agents, removing the killed ones keeps everything contained. */
  lemma ReapingContains(m: Beats)
    requires Contained(m) && DeadOf(m) == {}
    ensures Contained(Reap(m))
  {
    var kept := Reap(m);
    forall r, x | x in kept && Above(kept, r, x) ensures Above(m, r, x) {
      var n: nat :| n >= 1 && Up(kept, x, n) == Some(r);
      SubmapUp(m, kept, x, n);
      assert Up(m, x, n) == Some(r);
    }
    forall o | o in Orphans(kept) ensures Final(m[o].status) {
      if o !in Orphans(m) { ReapedParent(m, o); }
    }
    forall r, x | x in kept && Above(kept, r, x) && r in kept && (r in Orphans(kept) || kept[r].status.Killed?)
      ensures Final(m[x].status)
    {
      assert Above(m, r, x);
      if r !in Orphans(m) {
        ReapedParent(m, r);
        AboveTransitive(m, m[r].parentId.value, r, x);
      }
    }
  }

  /** An agent that reaping orphans had a parent that was killed. */
  lemma ReapedParent(m: Beats, x: Id)
    requires DeadOf(m) == {} && x in Orphans(Reap(m)) && x !in Orphans(m)
    ensures x in m && m[x].parentId.Some?
    ensures var p := m[x].parentId.value;
      p in m && m[p].status.Killed? && Above(m, p, x)
  {
    var p := m[x].parentId.value;
    AboveStep(m, p, x);
    assert m[p].status.Killed? || p in DeadOf(m);
  }

  lemma NothingToReap(reg: Registry, cfg: Config, now: int)
    requires reg.Valid() && Calm(reg.beats, cfg, now)
    requires forall x :: x in reg.beats ==> !reg.beats[x].status.Killed?
    ensures Reaped(reg, cfg, now) == reg
  {
    CalmSweep(reg.beats, cfg, now);
    assert Reap(reg.beats) == reg.beats;
    FilterAll(reg.order, (id: Id) => id in reg.beats);
    FilterCongruent(reg.order, (id: Id) => id in reg.beats, (id: Id) => id in Reap(reg.beats));
  }

  /** Re-hanging orphans kills nobody, so after it a second pass finds nothing to do. */
  lemma OrphanFreePass(reg: Registry, cfg: Config, now: int)
    requires reg.Valid() && Acyclic(reg.beats) && !cfg.orphanPolicy.Cascade? && Calm(reg.beats, cfg, now)
    ensures var healed := HealTree(reg, cfg, now);
      && Orphans(healed.beats) == {}
      && (forall x :: x in healed.beats ==> !healed.beats[x].status.Killed?)
  {
    ReapedAcyclic(reg, cfg, now);
    var kept := Reaped(reg, cfg, now);
    HandledOrphansAcyclic(kept, cfg, now);
    CalmCurbsNobody(reg, cfg, now);
    var healed := HealTree(reg, cfg, now);
    forall x | x in healed.beats ensures !healed.beats[x].status.Killed? {
      assert x in kept.beats;
      CalmKept(reg, cfg, now, x);
      RehangingKillsNobody(kept, cfg, now, x);
    }
  }

  lemma RehangingKillsNobody(kept: Registry, cfg: Config, now: int, x: Id)
    requires kept.Valid() && x in kept.beats && !cfg.orphanPolicy.Cascade?
    ensures HandledOrphans(kept, cfg, now)[x].status == kept.beats[x].status
  {
  }

  lemma SettledIsFixed(reg: Registry, cfg: Config, now: int)
    requires reg.Valid() && Calm(reg.beats, cfg, now)
    requires forall x :: x in reg.beats ==> !reg.beats[x].status.Killed?
    requires if cfg.orphanPolicy.Cascade? then Contained(reg.beats) else Orphans(reg.beats) == {}
    ensures HealTree(reg, cfg, now) == reg
  {
    NothingToReap(reg, cfg, now);
    if cfg.orphanPolicy.Cascade? {
      ContainedPass(reg, cfg, now);
    } else {
      NothingToRehang(reg, cfg, now);
      NobodyToCurb(reg.beats, now);
    }
  }

  lemma NothingToRehang(reg: Registry, cfg: Config, now: int)
    requires reg.Valid() && !cfg.orphanPolicy.Cascade? && Orphans(reg.beats) == {}
    ensures HandledOrphans(reg, cfg, now) == reg.beats
  {
  }

  lemma NobodyToCurb(m: Beats, now: int)
    requires forall x :: x in m ==> Curbed(m[x], now) == m[x]
    ensures CurbBudgets(m, now) == m
  {
  }

  ghost function HealRounds(reg: Registry, cfg: Config, now: int, n: nat): (r: Registry)
    requires reg.Valid()
    ensures r.Valid()
    decreases n
  {
    if n == 0 then reg else HealRounds(HealTree(reg, cfg, now), cfg, now, n - 1)
  }

  lemma {:induction false} FixedStays(reg: Registry, cfg: Config, now: int, n: nat)
    requires reg.Valid() && HealTree(reg, cfg, now) == reg
    ensures HealRounds(reg, cfg, now, n) == reg
    decreases n
  {
    if n > 0 {
      FixedStays(reg, cfg, now, n - 1);
    }
  }

  /**
   * At a fixed clock three passes reach a state that no further pass changes,
   * whatever the policy and however many agents there are.
   */
  lemma ThirdRoundIsFixed(reg: Registry, cfg: Config, now: int)
    requires reg.Valid() && Acyclic(reg.beats)
    ensures var three := HealTree(HealTree(HealTree(reg, cfg, now), cfg, now), cfg, now);
      HealTree(three, cfg, now) == three
  {
    var one := HealTree(reg, cfg, now);
    var two := HealTree(one, cfg, now);
    var three := HealTree(two, cfg, now);
    HealCalms(reg, cfg, now);
    HealCalms(one, cfg, now);
    HealCalms(two, cfg, now);
    HealTreeAcyclic(reg, cfg, now);
    HealTreeAcyclic(one, cfg, now);
    if cfg.orphanPolicy.Cascade? {
      CascadeContains(one, cfg, now);
      ContainedPass(two, cfg, now);
    } else {
      OrphanFreePass(two, cfg, now);
    }
    SettledIsFixed(three, cfg, now);
  }

  lemma RoundsUnroll(reg: Registry, cfg: Config, now: int, n: nat)
    requires reg.Valid() && n >= 3
    ensures HealRounds(reg, cfg, now, n)
      == HealRounds(HealTree(HealTree(HealTree(reg, cfg, now), cfg, now), cfg, now), cfg, now, n - 3)
  {
    var one := HealTree(reg, cfg, now);
    var two := HealTree(one, cfg, now);
    assert HealRounds(reg, cfg, now, n) == HealRounds(one, cfg, now, n - 1);
    assert HealRounds(one, cfg, now, n - 1) == HealRounds(two, cfg, now, n - 2);
  }

  lemma ThreeRoundsSettle(reg: Registry, cfg: Config, now: int, n: nat)
    requires reg.Valid() && Acyclic(reg.beats) && n >= 3
    ensures HealRounds(reg, cfg, now, n) == HealRounds(reg, cfg, now, 3)
  {
    ThirdRoundIsFixed(reg, cfg, now);
    RoundsUnroll(reg, cfg, now, n);
    RoundsUnroll(reg, cfg, now, 3);
    FixedStays(HealTree(HealTree(HealTree(reg, cfg, now), cfg, now), cfg, now), cfg, now, n - 3);
  }
}
