/**
 * The agent tree lifecycle manager: one class over the agent map. Each method is proved to
 * have the effect that AgentLifecycle and AgentRuns give its operation, so the forest, the
 * limits and the three-pass bound proved there hold of the class.
 */
module KaalaBrahmaManager {
  import opened Collections
  import opened StableSort
  import opened Reals
  import opened AgentForest
  import opened AgentLifecycle
  import opened AgentFates
  import opened AgentRuns

  datatype HealRefusal = HealerNotFound | HealTargetNotFound | HealerNotAncestor | NotHealable(status: Status)

  datatype KillRefusal = KillerNotFound | KillTargetNotFound | KillerNotAncestor | AlreadyFinal(status: Status)

  datatype KillResult =
    | Refused(reason: KillRefusal)
    | Slew(killedIds: seq<Id>, freedTokens: int)

  datatype SpawnRefusal =
    | AgentNotFound | AtMaxDepth | TooManySubAgents | NotAlive(status: Status) | GlobalLimit | InsufficientBudget

  datatype HealReport = HealReport(
    reapedIds: seq<Id>, killedStaleIds: seq<Id>, orphansHandled: int, overBudgetKilled: int)

  // ---- Kill order -----------------------------------------------------------------

  function DepthOf(m: Beats, x: Id): int { if x in m then m[x].depth else 0 }

  function DeepestFirst(m: Beats): (Id, Id) -> bool {
    (a, b) => DepthOf(m, a) >= DepthOf(m, b)
  }

  predicate Standing(m: Beats, x: Id) { x in m && !Final(m[x].status) }

  /** The spawn guard with its system limits and the children and active agents it counts. */
  ghost predicate PassesGuard(m: Beats, cfg: Config, id: Id) {
    && id in m && m[id].status.Alive?
    && m[id].depth < cfg.maxAgentDepth && m[id].depth < 10
    && |set c | c in m && m[c].parentId == Some(id)| < cfg.maxSubAgents
    && |set c | c in m && m[c].parentId == Some(id)| < 16
    && |set x | x in m && (m[x].status.Alive? || m[x].status.Stale?)| < cfg.globalMaxAgents
    && cfg.budgetDecayFactor * m[id].tokenBudget as real >= cfg.minTokenBudgetForSpawn as real
  }

  lemma GuardIs(m: Beats, cfg: Config, id: Id)
    ensures CanSpawn(m, cfg, id) <==> PassesGuard(m, cfg, id)
  {
    assert ChildSet(m, id) == set c | c in m && m[c].parentId == Some(id);
    assert ActiveSet(m) == set x | x in m && (m[x].status.Alive? || m[x].status.Stale?);
  }

  /** No agent came or went, and none but `id` changed. */
  ghost predicate OnlyOne(m: Beats, m': Beats, id: Id) {
    m'.Keys == m.Keys && forall x :: x in m && x != id ==> m'[x] == m[x]
  }

  /** The agents of `ids` still to be killed, deepest first. */
  function KillOrder(m: Beats, ids: seq<Id>): seq<Id> {
    Sort(Filter(ids, (x: Id) => Standing(m, x)), DeepestFirst(m))
  }

  function Unspent(m: Beats, ids: seq<Id>): int {
    if ids == [] then 0
    else Unspent(m, ids[..|ids| - 1]) + UnspentBy(m, ids[|ids| - 1])
  }

  function UnspentBy(m: Beats, x: Id): int {
    if x in m then Max(0, m[x].tokenBudget - m[x].tokenUsage) else 0
  }

  function TotalOf(ids: seq<Id>, f: Id -> int): int {
    if ids == [] then 0 else TotalOf(ids[..|ids| - 1], f) + f(ids[|ids| - 1])
  }

  /** What kills free is what was granted less what was used of it. */
  lemma {:induction false} UnspentBalances(m: Beats, ids: seq<Id>)
    requires forall x :: x in ids ==> x in m
    ensures Unspent(m, ids)
        + TotalOf(ids, x => if x !in m then 0
            else if m[x].tokenUsage <= m[x].tokenBudget then m[x].tokenUsage else m[x].tokenBudget)
      == TotalOf(ids, x => if x in m then m[x].tokenBudget else 0)
  {
    if ids != [] {
      assert ids[|ids| - 1] in ids;
      UnspentBalances(m, ids[..|ids| - 1]);
    }
  }

  /** Depth grows along every parent edge below `top`. */
  ghost predicate DepthGrowsBelow(m: Beats, top: Id) {
    forall x :: x in m && Above(m, top, x) && ParentOf(m, x).Some? ==> DepthOf(m, ParentOf(m, x).value) < DepthOf(m, x)
  }

  lemma {:induction false} DepthGrowsAlong(m: Beats, top: Id, a: Id, d: Id, n: nat)
    requires DepthGrowsBelow(m, top) && n >= 1 && Up(m, d, n) == Some(a)
    requires a == top || Above(m, top, a)
    ensures DepthOf(m, a) < DepthOf(m, d)
    decreases n
  {
    assert Above(m, a, d);
    if a != top { AboveTransitive(m, top, a, d); }
    var p := ParentOf(m, d).value;
    if n > 1 {
      DepthGrowsAlong(m, top, a, p, n - 1);
    }
  }

  lemma KillOrderElements(m: Beats, ids: seq<Id>)
    requires Distinct(ids)
    ensures Distinct(KillOrder(m, ids))
    ensures forall x :: x in KillOrder(m, ids) <==> x in ids && Standing(m, x)
  {
    var standing := Filter(ids, (x: Id) => Standing(m, x));
    FilterDistinct(ids, (x: Id) => Standing(m, x));
    SortElements(standing, DeepestFirst(m));
  }

  /** When depth grows along parent edges, every agent is killed before its ancestors. */
  lemma LeavesFirst(m: Beats, top: Id, ids: seq<Id>)
    requires DepthGrowsBelow(m, top) && Distinct(ids)
    requires forall x :: x in ids ==> x == top || Above(m, top, x)
    ensures forall i, j :: 0 <= i < j < |KillOrder(m, ids)| ==> !Above(m, KillOrder(m, ids)[i], KillOrder(m, ids)[j])
  {
    KillOrderElements(m, ids);
    var standing := Filter(ids, (x: Id) => Standing(m, x));
    SortSorts(standing, DeepestFirst(m));
    var order := KillOrder(m, ids);
    forall i, j | 0 <= i < j < |order| ensures !Above(m, order[i], order[j]) {
      assert DeepestFirst(m)(order[i], order[j]);
      assert order[i] in order && order[j] in order;
      if Above(m, order[i], order[j]) {
        var n: nat :| n >= 1 && Up(m, order[j], n) == Some(order[i]);
        DepthGrowsAlong(m, top, order[i], order[j], n);
      }
    }
  }

  /** No agent comes before one below it. */
  ghost predicate LeavesComeFirst(m: Beats, order: seq<Id>) {
    forall i, j :: 0 <= i < j < |order| ==> !Above(m, order[i], order[j])
  }

  /** Where branches deepen, an agent that has a parent is less deep than everyone below it. */
  lemma {:induction false} DeeperOnBranches(m: Beats, a: Id, d: Id, n: nat)
    requires BranchesDeepen(m) && n >= 1 && Up(m, d, n) == Some(a) && a in m && m[a].parentId.Some?
    ensures DepthOf(m, a) < DepthOf(m, d)
    decreases n
  {
    var p := ParentOf(m, d).value;
    if n > 1 {
      assert ParentOf(m, p).Some?;
      DeeperOnBranches(m, a, p, n - 1);
    }
    assert DeeperThanBranch(m, d, p);
  }

  lemma BranchesKillLeavesFirst(m: Beats, ids: seq<Id>)
    requires BranchesDeepen(m) && Distinct(ids) && forall x :: x in ids ==> x in m && m[x].parentId.Some?
    ensures LeavesComeFirst(m, KillOrder(m, ids))
  {
    KillOrderElements(m, ids);
    SortSorts(Filter(ids, (x: Id) => Standing(m, x)), DeepestFirst(m));
    var order := KillOrder(m, ids);
    forall i, j | 0 <= i < j < |order| ensures !Above(m, order[i], order[j]) {
      assert DeepestFirst(m)(order[i], order[j]);
      assert order[i] in order && order[j] in order;
      if Above(m, order[i], order[j]) {
        var n: nat :| n >= 1 && Up(m, order[j], n) == Some(order[i]);
        DeeperOnBranches(m, order[i], order[j], n);
      }
    }
  }

  /** The same parents and depths. */
  ghost predicate SameTree(m: Beats, m': Beats) {
    SameParents(m, m') && forall x :: x in m ==> m[x].depth == m'[x].depth
  }

  lemma SameTreeSameOrder(m: Beats, m': Beats, order: seq<Id>)
    requires SameTree(m, m')
    ensures BranchesDeepen(m) <==> BranchesDeepen(m')
    ensures LeavesComeFirst(m, order) <==> LeavesComeFirst(m', order)
  {
    SameParentsSameAbove(m, m');
    forall x | x in m && m[x].parentId.Some?
      ensures DeeperThanBranch(m, x, m[x].parentId.value) <==> DeeperThanBranch(m', x, m'[x].parentId.value) {}
  }

  lemma BelowHasParent(m: Beats, r: Id, ids: seq<Id>)
    requires forall x :: x in ids ==> Above(m, r, x)
    ensures forall x :: x in ids ==> x in m && m[x].parentId.Some?
  {
    forall x | x in ids ensures x in m && m[x].parentId.Some? { AboveStep(m, r, x); }
  }

  /** What is killed below one more root comes after everything below the others. */
  lemma LeavesComeFirstAppend(m: Beats, roots: set<Id>, r: Id, killed: seq<Id>, order: seq<Id>)
    requires LeavesComeFirst(m, killed) && LeavesComeFirst(m, order)
    requires ToSet(killed) == StandingIn(m, Under(m, roots))
    requires ToSet(order) == StandingIn(m, Under(m, roots + {r})) - StandingIn(m, Under(m, roots))
    ensures LeavesComeFirst(m, killed + order)
  {
    var all := killed + order;
    forall i, j | 0 <= i < j < |all| ensures !Above(m, all[i], all[j]) {
      if i < |killed| <= j {
        assert killed[i] in ToSet(killed) && order[j - |killed|] in ToSet(order);
        if Above(m, all[i], all[j]) {
          var root :| root in roots && Above(m, root, all[i]);
          AboveTransitive(m, root, all[i], all[j]);
        }
      }
    }
  }

  /** Whom a killer may kill is no root, so depth grows below it whenever branches deepen. */
  lemma BranchesGrowBelowTarget(m: Beats, killer: Id, target: Id)
    requires BranchesDeepen(m) && MayKill(m, killer, target)
    ensures DepthGrowsBelow(m, target)
  {
    AboveStep(m, killer, target);
    forall x | x in m && Above(m, target, x) && ParentOf(m, x).Some?
      ensures DepthOf(m, ParentOf(m, x).value) < DepthOf(m, x)
    {
      var p := ParentOf(m, x).value;
      AboveStep(m, target, x);
      if p != target { AboveStep(m, target, p); }
      assert DeeperThanBranch(m, x, p);
    }
  }

  /** In every run with fresh ids and children below their parents, a kill takes leaves first, under every policy. */
  lemma RunsKillLeavesFirst(reg: Registry, moments: seq<Moment>, killer: Id, target: Id, ids: seq<Id>)
    requires reg.Valid() && BranchesDeepen(reg.beats) && IdsNeverReused(reg, moments)
    requires forall i :: 0 <= i < |moments| ==> SpawnsDeeper(Run(reg, moments[..i]).beats, moments[i].step)
    requires MayKill(Run(reg, moments).beats, killer, target)
    requires Distinct(ids) && forall x :: x in ids ==> x == target || Above(Run(reg, moments).beats, target, x)
    ensures var m, order := Run(reg, moments).beats, KillOrder(Run(reg, moments).beats, ids);
      forall i, j :: 0 <= i < j < |order| ==> !Above(m, order[i], order[j])
  {
    RunsKeepBranches(reg, moments);
    BranchesGrowBelowTarget(Run(reg, moments).beats, killer, target);
    LeavesFirst(Run(reg, moments).beats, target, ids);
  }

  lemma MarkStanding(m: Beats, ids: seq<Id>, all: set<Id>, now: int)
    requires Distinct(ids) && forall x :: x in m ==> (x in ids <==> x in all)
    ensures Mark(m, ToSet(KillOrder(m, ids)), now) == Mark(m, all, now)
  {
    KillOrderElements(m, ids);
    forall x | x in m ensures Mark(m, ToSet(KillOrder(m, ids)), now)[x] == Mark(m, all, now)[x] {
      assert x in ToSet(KillOrder(m, ids)) <==> x in ids && Standing(m, x);
    }
  }

  ghost function StandingIn(m: Beats, ids: set<Id>): set<Id> {
    set x | x in ids && Standing(m, x)
  }

  /** Marking twice is marking the union, and no agent is killed twice. */
  lemma MarkFurther(m: Beats, a: set<Id>, b: set<Id>, now: int)
    ensures Mark(Mark(m, a, now), b, now) == Mark(m, a + b, now)
    ensures StandingIn(m, a) !! StandingIn(Mark(m, a, now), b)
    ensures StandingIn(m, a + b) == StandingIn(m, a) + StandingIn(Mark(m, a, now), b)
  {
  }

  lemma DescendantsPresent(m: Beats, r: Id, below: seq<Id>)
    requires forall x :: x in below ==> Above(m, r, x)
    ensures forall x :: x in below ==> x in m
  {
    forall x | x in below ensures x in m { AboveStep(m, r, x); }
  }

  lemma UnderGrows(m: Beats, roots: set<Id>, r: Id, below: set<Id>)
    requires forall x :: x in below <==> x in m && Above(m, r, x)
    ensures Under(m, roots + {r}) == Under(m, roots) + below
  {
  }

  lemma SubtreesGrow(m: Beats, roots: set<Id>, r: Id, ids: set<Id>)
    requires r in m && forall x :: x in ids <==> x == r || (x in m && Above(m, r, x))
    ensures Subtrees(m, roots + {r}) == Subtrees(m, roots) + ids
  {
  }

  /** A loop that has applied `f` to the agents in `done` and to no other. */
  ghost predicate Progress(m: Beats, m': Beats, done: set<Id>, f: Heartbeat -> Heartbeat) {
    m'.Keys == m.Keys && forall x :: x in m ==> m'[x] == if x in done then f(m[x]) else m[x]
  }

  lemma ProgressStep(m: Beats, m': Beats, done: set<Id>, f: Heartbeat -> Heartbeat, x: Id)
    requires Progress(m, m', done, f) && x in m && x !in done
    ensures m'[x] == m[x]
    ensures Progress(m, m'[x := f(m[x])], done + {x}, f)
  {
  }

  lemma ProgressDone(reg: Registry, done: set<Id>, m: Beats, f: Heartbeat -> Heartbeat)
    requires reg.Valid() && done == ToSet(reg.order) && Progress(m, reg.beats, done, f)
    ensures reg.beats == map x | x in m :: f(m[x])
  {
    assert done == m.Keys;
  }

  ghost predicate CurbedSoFar(m: Beats, m': Beats, done: set<Id>, now: int, killed: int) {
    && Progress(m, m', done, (hb: Heartbeat) => Curbed(hb, now))
    && killed == |done * Overspent(m)|
  }

  lemma CurbedNext(m: Beats, m': Beats, done: set<Id>, now: int, killed: int, x: Id)
    requires CurbedSoFar(m, m', done, now, killed) && x in m && x !in done
    ensures m'[x] == m[x]
    ensures CurbedSoFar(m, m'[x := Curbed(m[x], now)], done + {x}, now, killed + if x in Overspent(m) then 1 else 0)
  {
    MetGrows(done, x, Overspent(m));
    ProgressStep(m, m', done, (hb: Heartbeat) => Curbed(hb, now), x);
  }

  lemma CurbedAll(m: Beats, m': Beats, done: set<Id>, now: int, killed: int)
    requires CurbedSoFar(m, m', done, now, killed) && done == m.Keys
    ensures m' == CurbBudgets(m, now) && killed == |Overspent(m)|
  {
    assert done * Overspent(m) == Overspent(m);
  }

  /** Which agents a healing pass must leave connected to a root. */
  predicate OwedRoot(cfg: Config, hb: Heartbeat) {
    cfg.orphanPolicy.Cascade? ==> !Final(hb.status)
  }

  /** The dead agents in insertion order. */
  function DeadList(reg: Registry): (dead: seq<Id>)
    requires reg.Valid()
    ensures Distinct(dead) && ToSet(dead) == DeadOf(reg.beats)
  {
    FilterDistinct(reg.order, (x: Id) => x in DeadOf(reg.beats));
    Filter(reg.order, (x: Id) => x in DeadOf(reg.beats))
  }

  /** How many agents orphan handling kills or re-hangs. */
  ghost function HandledCount(m: Beats, policy: OrphanPolicy): nat {
    if policy.Cascade? then |StandingIn(m, Subtrees(m, Orphans(m)))| else |Orphans(m)|
  }

  // ---- Promotion in progress --------------------------------------------------------

  function RehungSoFar(reg: Registry, done: set<Id>): Beats {
    map x | x in reg.beats :: if x in done then Rehung(reg, x) else reg.beats[x]
  }

  lemma RehungAll(reg: Registry, done: set<Id>)
    requires Orphans(reg.beats) <= done
    ensures RehungSoFar(reg, done) == PromoteOrphans(reg)
  {
  }

  lemma RehungNext(reg: Registry, done: set<Id>, id: Id)
    requires id in reg.beats && id !in done
    ensures RehungSoFar(reg, done)[id] == reg.beats[id]
    ensures RehungSoFar(reg, done + {id}) == RehungSoFar(reg, done)[id := Rehung(reg, id)]
  {
  }

  /** The agents whose parent pointer is one of `keys`. */
  function HangingFrom(m: Beats, keys: set<Id>): set<Id> {
    set x | x in m && m[x].parentId.Some? && m[x].parentId.value in keys
  }

  lemma HangingGrows(m: Beats, keys: set<Id>, k: Id, siblings: seq<Id>)
    requires k !in keys && forall x :: x in siblings <==> x in m && m[x].parentId == Some(k)
    ensures HangingFrom(m, keys + {k}) == HangingFrom(m, keys) + ToSet(siblings)
    ensures HangingFrom(m, keys) !! ToSet(siblings)
  {
  }

  lemma GroupElements(reg: Registry, k: Id)
    requires reg.Valid() && k !in reg.beats
    ensures var siblings := Sort(Children(reg, k), StartOrder(reg.beats));
      && Distinct(siblings)
      && (forall x :: x in siblings <==> x in reg.beats && reg.beats[x].parentId == Some(k))
      && (forall x :: x in siblings ==> Rehung(reg, x) == RehungUnder(reg.beats[x], x, siblings[0]))
  {
    FilterDistinct(reg.order, (x: Id) => ParentOf(reg.beats, x) == Some(k));
    SortElements(Children(reg, k), StartOrder(reg.beats));
  }

  function RehungUnder(hb: Heartbeat, x: Id, lead: Id): Heartbeat {
    if x == lead then hb.(parentId := None, depth := Max(0, hb.depth - 1)) else hb.(parentId := Some(lead))
  }

  /** The group keys in order of first appearance, each once. */
  ghost predicate KeysOf(keys: seq<Id>, groups: map<Id, seq<Id>>) {
    Distinct(keys) && forall k :: k in keys <==> k in groups
  }

  function AddToGroup(groups: map<Id, seq<Id>>, k: Id, o: Id): map<Id, seq<Id>> {
    groups[k := GroupAt(groups, k) + [o]]
  }

  lemma KeysFollow(keys: seq<Id>, groups: map<Id, seq<Id>>, k: Id, o: Id)
    requires KeysOf(keys, groups)
    ensures KeysOf(if k in groups then keys else keys + [k], AddToGroup(groups, k, o))
  {
  }

  /** Group the orphans by their missing parent, keeping their order. */
  method GroupOrphans(reg: Registry, orphans: seq<Id>) returns (keys: seq<Id>, groups: map<Id, seq<Id>>)
    requires reg.Valid() && orphans == OrphanList(reg)
    ensures KeysOf(keys, groups)
    ensures forall k :: k in groups ==> k !in reg.beats && groups[k] == Children(reg, k)
    ensures HangingFrom(reg.beats, groups.Keys) == Orphans(reg.beats)
  {
    var m := reg.beats;
    keys, groups := [], map[];
    OrphanListElements(reg);
    for i := 0 to |orphans|
      invariant KeysOf(keys, groups)
      invariant GroupedSoFar(m, orphans[..i], groups)
    {
      var o := orphans[i];
      assert o in ToSet(orphans);
      var k := m[o].parentId.value;
      GroupedNext(m, orphans, i, groups);
      KeysFollow(keys, groups, k, o);
      keys := if k in groups then keys else keys + [k];
      groups := AddToGroup(groups, k, o);
    }
    assert orphans[..|orphans|] == orphans;
    GroupsDone(reg, groups);
  }

  lemma GroupsDone(reg: Registry, groups: map<Id, seq<Id>>)
    requires reg.Valid() && GroupedSoFar(reg.beats, OrphanList(reg), groups)
    ensures forall k :: k in groups ==> k !in reg.beats && groups[k] == Children(reg, k)
    ensures HangingFrom(reg.beats, groups.Keys) == Orphans(reg.beats)
  {
    forall k | k in groups ensures groups[k] == Children(reg, k) {
      assert groups[k] == GroupAt(groups, k);
      AllChildrenAreOrphans(reg, k);
    }
    forall k | k !in groups ensures ChildrenAmong(reg.beats, OrphanList(reg), k) == [] {
      assert GroupAt(groups, k) == [];
    }
    GroupsCover(reg, groups.Keys);
  }

  function GroupAt(groups: map<Id, seq<Id>>, k: Id): seq<Id> {
    if k in groups then groups[k] else []
  }

  ghost predicate GroupedSoFar(m: Beats, ids: seq<Id>, groups: map<Id, seq<Id>>) {
    && (forall k :: k in groups ==> k !in m)
    && (forall k :: GroupAt(groups, k) == ChildrenAmong(m, ids, k))
  }

  lemma GroupedNext(m: Beats, ids: seq<Id>, i: nat, groups: map<Id, seq<Id>>)
    requires i < |ids| && GroupedSoFar(m, ids[..i], groups)
    requires ids[i] in m && m[ids[i]].parentId.Some? && m[ids[i]].parentId.value !in m
    ensures GroupedSoFar(m, ids[..i + 1], AddToGroup(groups, m[ids[i]].parentId.value, ids[i]))
  {
    var groups' := AddToGroup(groups, m[ids[i]].parentId.value, ids[i]);
    forall k ensures GroupAt(groups', k) == ChildrenAmong(m, ids[..i + 1], k) {
      ChildrenAmongNext(m, ids, i, k);
      assert GroupAt(groups, k) == ChildrenAmong(m, ids[..i], k);
    }
  }

  lemma GroupsCover(reg: Registry, keys: set<Id>)
    requires reg.Valid()
    requires forall k :: k in keys ==> k !in reg.beats
    requires forall k :: k !in keys ==> ChildrenAmong(reg.beats, OrphanList(reg), k) == []
    ensures HangingFrom(reg.beats, keys) == Orphans(reg.beats)
  {
    forall x | x in Orphans(reg.beats) ensures reg.beats[x].parentId.value in keys {
      assert x in ChildrenAmong(reg.beats, OrphanList(reg), reg.beats[x].parentId.value);
    }
  }

  lemma AllChildrenAreOrphans(reg: Registry, k: Id)
    requires reg.Valid() && k !in reg.beats
    ensures ChildrenAmong(reg.beats, OrphanList(reg), k) == Children(reg, k)
  {
    var orphaned := (x: Id) => x in Orphans(reg.beats);
    var ofK := (x: Id) => ParentOf(reg.beats, x) == Some(k);
    FilterFilter(reg.order, orphaned, ofK);
    FilterCongruent(reg.order, Both(orphaned, ofK), ofK);
  }

  class KaalaBrahma {
    var agents: Registry
    var config: Config
    var stuckReasons: map<Id, string>

    ghost predicate Valid()
      reads this
    {
      agents.Valid()
    }

    constructor (config: Config)
      ensures Valid() && agents.beats == map[] && stuckReasons == map[]
      ensures this.config == config.(
        maxAgentDepth := Min(config.maxAgentDepth, SYSTEM_MAX_AGENT_DEPTH),
        maxSubAgents := Min(config.maxSubAgents, SYSTEM_MAX_SUB_AGENTS))
    {
      agents := Registry(map[], []);
      stuckReasons := map[];
      this.config := config.(
        maxAgentDepth := Min(config.maxAgentDepth, SYSTEM_MAX_AGENT_DEPTH),
        maxSubAgents := Min(config.maxSubAgents, SYSTEM_MAX_SUB_AGENTS));
    }

    method RegisterAgent(id: Id, heartbeat: Heartbeat)
      requires Valid()
      modifies this`agents
      ensures Valid() && agents == Apply(old(agents), config, Register(id, heartbeat), 0)
      ensures agents.beats == old(agents.beats)[id := heartbeat]
      ensures agents.order == if id in old(agents.beats) then old(agents.order) else old(agents.order) + [id]
      ensures Acyclic(old(agents.beats)) ==> (Acyclic(agents.beats) <==> SafeParent(old(agents.beats), id, heartbeat))
    {
      if Acyclic(agents.beats) {
        RegisterAcyclicIff(agents.beats, id, heartbeat);
      }
      agents := agents.Put(id, heartbeat);
    }

    method Update(id: Id, hb: Heartbeat)
      requires Valid() && id in agents.beats
      modifies this`agents
      ensures Valid() && agents == old(agents).With(old(agents.beats)[id := hb])
    {
      agents := Registry(agents.beats[id := hb], agents.order);
    }

    method SetAgentStatus(id: Id, status: Status, now: int)
      requires Valid()
      modifies this`agents
      ensures Valid() && agents == old(agents).With(SetStatus(old(agents.beats), id, status, now))
      ensures OnlyOne(old(agents.beats), agents.beats, id)
      ensures id in agents.beats ==> (agents.beats[id] ==
        if old(agents.beats)[id].status == status then old(agents.beats)[id]
        else old(agents.beats)[id].(status := status, lastBeat := now))
    {
      if id !in agents.beats { return; }
      var a := agents.beats[id];
      if a.status == status { return; }
      Update(id, a.(status := status, lastBeat := now));
    }

    method RecordHeartbeat(id: Id, turnCount: Option<int>, tokenUsage: Option<int>, status: Option<Status>, now: int)
      requires Valid()
      modifies this`agents
      ensures Valid() && agents == Apply(old(agents), config, Beat(id, turnCount, tokenUsage, status), now)
      ensures OnlyOne(old(agents.beats), agents.beats, id)
      ensures id in agents.beats ==>
        var was, after := old(agents.beats)[id], agents.beats[id];
        && after == was.(lastBeat := now, turnCount := after.turnCount, tokenUsage := after.tokenUsage,
             status := after.status)
        && after.turnCount == (if turnCount.Some? then turnCount.value else was.turnCount)
        && after.tokenUsage == (if tokenUsage.Some? then tokenUsage.value else was.tokenUsage)
        && !after.status.Stale?
        && (status.Some? && !status.value.Stale? ==> after.status == status.value)
        && (status.Some? && status.value.Stale? ==> after.status.Alive?)
        && (status.None? ==> after.status == if was.status.Stale? then Alive else was.status)
    {
      if id !in agents.beats { return; }
      var a := agents.beats[id].(lastBeat := now);
      if turnCount.Some? { a := a.(turnCount := turnCount.value); }
      if tokenUsage.Some? { a := a.(tokenUsage := tokenUsage.value); }
      if status.Some? { a := a.(status := status.value); }
      if a.status.Stale? { a := a.(status := Alive); }
      Update(id, a);
    }

    method ReportStuck(id: Id, reason: string, now: int)
      requires Valid()
      modifies this`agents, this`stuckReasons
      ensures Valid() && agents == Apply(old(agents), config, Stuck(id), now)
      ensures OnlyOne(old(agents.beats), agents.beats, id)
      ensures id in agents.beats ==> (agents.beats[id] ==
        if old(agents.beats)[id].status.Alive? then old(agents.beats)[id].(status := Stale, lastBeat := now)
        else old(agents.beats)[id])
      ensures stuckReasons
        == if id in old(agents.beats) && reason != "" then old(stuckReasons)[id := reason] else old(stuckReasons)
    {
      if id !in agents.beats { return; }
      if reason != "" { stuckReasons := stuckReasons[id := reason]; }
      if agents.beats[id].status.Alive? { SetAgentStatus(id, Stale, now); }
    }

    method HealAgent(healer: Id, target: Id, now: int) returns (refusal: Option<HealRefusal>)
      requires Valid() && Acyclic(agents.beats)
      modifies this`agents, this`stuckReasons
      ensures Valid() && Acyclic(agents.beats)
      ensures agents == Apply(old(agents), config, HealOne(healer, target), now)
      ensures refusal.None? <==>
        && healer in old(agents.beats) && target in old(agents.beats) && Above(old(agents.beats), healer, target)
        && (old(agents.beats)[target].status.Stale? || old(agents.beats)[target].status.Error?)
      ensures OnlyOne(old(agents.beats), agents.beats, target)
      ensures target in agents.beats ==> (agents.beats[target] ==
        if refusal.None? then old(agents.beats)[target].(status := Alive, lastBeat := now)
        else old(agents.beats)[target])
      ensures stuckReasons == if refusal.None? then old(stuckReasons) - {target} else old(stuckReasons)
    {
      SameParentsAcyclic(agents.beats, Updated(agents.beats, HealOne(healer, target), now));
      if healer !in agents.beats { return Some(HealerNotFound); }
      if target !in agents.beats { return Some(HealTargetNotFound); }
      WalkEndsWhenAcyclic(agents.beats, healer, target);
      var related := IsAncestor(agents, healer, target);
      if !related { return Some(HealerNotAncestor); }
      var status := agents.beats[target].status;
      if !status.Stale? && !status.Error? { return Some(NotHealable(status)); }
      SetAgentStatus(target, Alive, now);
      stuckReasons := stuckReasons - {target};
      refusal := None;
    }

    method MarkCompleted(id: Id, now: int)
      requires Valid()
      modifies this`agents
      ensures Valid() && agents == Apply(old(agents), config, Complete(id), now)
      ensures OnlyOne(old(agents.beats), agents.beats, id)
      ensures id in agents.beats ==> (agents.beats[id] ==
        if old(agents.beats)[id].status.Completed? then old(agents.beats)[id]
        else old(agents.beats)[id].(status := Completed, lastBeat := now))
    {
      SetAgentStatus(id, Completed, now);
    }

    method MarkError(id: Id, now: int)
      requires Valid()
      modifies this`agents
      ensures Valid() && agents == Apply(old(agents), config, Fail(id), now)
      ensures OnlyOne(old(agents.beats), agents.beats, id)
      ensures id in agents.beats ==> (agents.beats[id] ==
        if old(agents.beats)[id].status.Error? then old(agents.beats)[id]
        else old(agents.beats)[id].(status := Error, lastBeat := now))
    {
      SetAgentStatus(id, Error, now);
    }

    /** Kill those of `ids` still standing, deepest first. */
    method SlayStanding(ids: seq<Id>, now: int) returns (order: seq<Id>)
      requires Valid() && Distinct(ids) && forall x :: x in ids ==> x in agents.beats
      modifies this`agents
      ensures Valid() && agents == old(agents).With(Mark(old(agents.beats), ToSet(ids), now))
      ensures Distinct(order) && ToSet(order) == StandingIn(old(agents.beats), ToSet(ids))
      ensures order == KillOrder(old(agents.beats), ids)
    {
      order := KillOrder(agents.beats, ids);
      KillOrderElements(agents.beats, ids);
      MarkStanding(agents.beats, ids, ToSet(ids), now);
      var _ := Slay(order, now);
    }

    /** Kill one more of the listed agents. */
    method SlayOne(ghost reg: Registry, ids: seq<Id>, i: nat, now: int, before: int) returns (freed: int)
      requires Valid() && reg.Valid() && Distinct(ids) && i < |ids| && Standing(reg.beats, ids[i])
      requires agents == reg.With(Mark(reg.beats, ToSet(ids[..i]), now))
      modifies this`agents
      ensures Valid() && agents == reg.With(Mark(reg.beats, ToSet(ids[..i + 1]), now))
      ensures freed == before + UnspentBy(reg.beats, ids[i])
    {
      ghost var m := reg.beats;
      PrefixGrows(ids, i);
      var a := agents.beats[ids[i]];
      assert a == m[ids[i]];
      freed := before + Max(0, a.tokenBudget - a.tokenUsage);
      Update(ids[i], a.(status := Killed, lastBeat := now));
      assert agents.beats == Mark(m, ToSet(ids[..i + 1]), now);
    }

    /** Kill the listed agents one by one, adding up the budget each leaves unspent. */
    method Slay(ids: seq<Id>, now: int) returns (freed: int)
      requires Valid() && Distinct(ids) && forall x :: x in ids ==> Standing(agents.beats, x)
      modifies this`agents
      ensures Valid() && agents == old(agents).With(Mark(old(agents.beats), ToSet(ids), now))
      ensures freed == Unspent(old(agents.beats), ids)
    {
      ghost var reg := agents;
      freed := 0;
      assert Mark(reg.beats, ToSet(ids[..0]), now) == reg.beats;
      for i := 0 to |ids|
        invariant Valid() && agents == reg.With(Mark(reg.beats, ToSet(ids[..i]), now))
        invariant freed == Unspent(reg.beats, ids[..i])
      {
        assert ids[i] in ids && ids[..i + 1] == ids[..i] + [ids[i]];
        freed := SlayOne(reg, ids, i, now, freed);
      }
      assert ids[..|ids|] == ids;
    }

    /** Force-kill an agent and everything below it, leaves first. */
    method KillAgent(killer: Id, target: Id, now: int) returns (result: KillResult)
      requires Valid() && Acyclic(agents.beats)
      modifies this`agents
      ensures Valid() && Acyclic(agents.beats)
      ensures agents == Apply(old(agents), config, Kill(killer, target), now)
      ensures result.Slew? <==>
        && killer in old(agents.beats) && target in old(agents.beats) && Above(old(agents.beats), killer, target)
        && !old(agents.beats)[target].status.Killed? && !old(agents.beats)[target].status.Completed?
      ensures result.Slew? ==> forall x :: x in result.killedIds <==>
        && x in old(agents.beats) && (x == target || Above(old(agents.beats), target, x))
        && !old(agents.beats)[x].status.Killed? && !old(agents.beats)[x].status.Completed?
      ensures agents.beats.Keys == old(agents.beats).Keys
      ensures forall x :: x in agents.beats ==> (agents.beats[x] ==
        if result.Slew? && x in result.killedIds then old(agents.beats)[x].(status := Killed, lastBeat := now)
        else old(agents.beats)[x])
      ensures result.Slew? ==>
        && Distinct(result.killedIds)
        && result.freedTokens == Unspent(old(agents.beats), result.killedIds)
      ensures result.Slew? && DepthGrowsBelow(old(agents.beats), target) ==>
        forall i, j :: 0 <= i < j < |result.killedIds| ==>
          !Above(old(agents.beats), result.killedIds[i], result.killedIds[j])
    {
      var m := agents.beats;
      SameParentsAcyclic(m, Updated(m, Kill(killer, target), now));
      if killer !in m { return Refused(KillerNotFound); }
      if target !in m { return Refused(KillTargetNotFound); }
      WalkEndsWhenAcyclic(m, killer, target);
      var related := IsAncestor(agents, killer, target);
      if !related { return Refused(KillerNotAncestor); }
      if Final(m[target].status) { return Refused(AlreadyFinal(m[target].status)); }
      NoSelfAncestor(m, target);
      var below := GetDescendantIds(agents, target);
      assert target !in below;
      var ids := below + [target];
      KillOrderElements(m, ids);
      forall x | x in ids ensures x == target || Above(m, target, x) {}
      forall x | x in m ensures x in ids <==> x in Subtrees(m, {target}) {}
      MarkStanding(m, ids, Subtrees(m, {target}), now);
      if DepthGrowsBelow(m, target) { LeavesFirst(m, target, ids); }
      var order := KillOrder(m, ids);
      var freed := Slay(order, now);
      result := Slew(order, freed);
    }

    method CountByStatus(s: Status) returns (n: int)
      requires Valid()
      ensures n == |WithStatus(agents.beats, s)|
    {
      n := 0;
      var order := agents.order;
      for i := 0 to |order|
        invariant n == |ToSet(order[..i]) * WithStatus(agents.beats, s)|
      {
        PrefixGrows(order, i);
        MetGrows(ToSet(order[..i]), order[i], WithStatus(agents.beats, s));
        if agents.beats[order[i]].status == s {
          n := n + 1;
        }
      }
      assert order[..|order|] == order;
      assert ToSet(order) * WithStatus(agents.beats, s) == WithStatus(agents.beats, s);
    }

    method CountActive() returns (n: int)
      requires Valid()
      ensures n == |ActiveSet(agents.beats)|
    {
      var alive := CountByStatus(Alive);
      var stale := CountByStatus(Stale);
      ActiveCount(agents.beats);
      n := alive + stale;
    }

    method MayAgentSpawn(id: Id) returns (refusal: Option<SpawnRefusal>)
      requires Valid()
      ensures refusal.None? <==> CanSpawn(agents.beats, config, id)
      ensures refusal.None? <==> PassesGuard(agents.beats, config, id)
    {
      GuardIs(agents.beats, config, id);
      if id !in agents.beats { return Some(AgentNotFound); }
      var a := agents.beats[id];
      if a.depth >= Min(config.maxAgentDepth, SYSTEM_MAX_AGENT_DEPTH) { return Some(AtMaxDepth); }
      var kids := GetDirectChildIds(agents, id);
      ChildCount(agents, id);
      if |kids| >= Min(config.maxSubAgents, SYSTEM_MAX_SUB_AGENTS) { return Some(TooManySubAgents); }
      if !a.status.Alive? { return Some(NotAlive(a.status)); }
      var active := CountActive();
      if active >= config.globalMaxAgents { return Some(GlobalLimit); }
      if !AffordsChild(a, config) { return Some(InsufficientBudget); }
      refusal := None;
    }

    /** The parent's budget decayed once and rounded down; nothing for an unknown parent. */
    method ComputeChildBudget(parent: Id) returns (budget: int)
      ensures budget == ChildBudget(agents.beats, config, parent)
      ensures parent !in agents.beats ==> budget == 0
      ensures parent in agents.beats ==>
        budget as real <= config.budgetDecayFactor * agents.beats[parent].tokenBudget as real < budget as real + 1.0
      ensures parent in agents.beats && agents.beats[parent].tokenBudget >= 0 && 0.0 <= config.budgetDecayFactor <= 1.0
        ==> 0 <= budget <= agents.beats[parent].tokenBudget
    {
      if parent !in agents.beats { return 0; }
      var p := agents.beats[parent];
      budget := Times(config.budgetDecayFactor, p.tokenBudget as real).Floor;
    }

    // ---- Healing pass ---------------------------------------------------------------

    method DetectOne(id: Id, now: int)
      requires Valid() && id in agents.beats
      modifies this`agents
      ensures Valid()
      ensures agents == old(agents).With(old(agents.beats)[id := Detected(old(agents.beats)[id], config, now)])
    {
      var a := agents.beats[id];
      if a.status.Alive? && now - a.lastBeat >= config.staleThreshold { a := a.(status := Stale); }
      if a.status.Stale? && now - a.lastBeat >= config.deadThreshold { a := a.(status := Dead); }
      assert a == Detected(agents.beats[id], config, now);
      Update(id, a);
    }

    method DetectStale(now: int)
      requires Valid()
      modifies this`agents
      ensures Valid() && agents == old(agents).With(Detect(old(agents.beats), config, now))
      ensures forall x :: x in old(agents.beats) ==> agents.beats[x] == old(agents.beats)[x].(status :=
        if Fell(old(agents.beats)[x], config, now) then Dead
        else if Silent(old(agents.beats)[x], config, now) then Stale else old(agents.beats)[x].status)
    {
      ghost var m := agents.beats;
      var order := agents.order;
      ghost var cfg := config;
      ghost var detected := (hb: Heartbeat) => Detected(hb, cfg, now);
      ghost var done: set<Id> := {};
      for i := 0 to |order|
        invariant Valid() && agents.order == order && done == ToSet(order[..i])
        invariant Progress(m, agents.beats, done, detected)
      {
        var id := order[i];
        PrefixGrows(order, i);
        ProgressStep(m, agents.beats, done, detected, id);
        done := done + {id};
        DetectOne(id, now);
      }
      assert order[..|order|] == order;
      ProgressDone(agents, done, m, detected);
      assert agents.beats == Detect(m, config, now);
      forall x | x in m ensures agents.beats[x] == Detected(m[x], config, now) { DetectedStatus(m[x], config, now); }
    }

    /** Kill what still stands below one more agent. */
    method KillBelow(ghost reg: Registry, ghost roots: set<Id>, root: Id, now: int) returns (order: seq<Id>)
      requires Valid() && reg.Valid() && Acyclic(reg.beats)
      requires agents == reg.With(Mark(reg.beats, Under(reg.beats, roots), now))
      modifies this`agents
      ensures Valid() && agents == reg.With(Mark(reg.beats, Under(reg.beats, roots + {root}), now))
      ensures Distinct(order)
      ensures ToSet(order)
        == StandingIn(reg.beats, Under(reg.beats, roots + {root})) - StandingIn(reg.beats, Under(reg.beats, roots))
      ensures BranchesDeepen(reg.beats) ==> LeavesComeFirst(reg.beats, order)
    {
      ghost var m, marked := reg.beats, agents.beats;
      SameParentsSameAbove(m, marked);
      SameParentsAcyclic(m, marked);
      NoSelfAncestor(marked, root);
      var below := GetDescendantIds(agents, root);
      DescendantsPresent(m, root, below);
      order := SlayStanding(below, now);
      if BranchesDeepen(m) {
        SameTreeSameOrder(m, marked, order);
        BelowHasParent(marked, root, below);
        BranchesKillLeavesFirst(marked, below);
      }
      UnderGrows(m, roots, root, ToSet(below));
      MarkFurther(m, Under(m, roots), ToSet(below), now);
    }

    /** Kill every standing descendant of each dead agent. */
    method KillBelowDead(now: int) returns (killed: seq<Id>)
      requires Valid() && Acyclic(agents.beats)
      modifies this`agents
      ensures Valid() && Acyclic(agents.beats)
      ensures agents
        == old(agents).With(Mark(old(agents.beats), Under(old(agents.beats), DeadOf(old(agents.beats))), now))
      ensures Distinct(killed)
      ensures ToSet(killed) == StandingIn(old(agents.beats), Under(old(agents.beats), DeadOf(old(agents.beats))))
      ensures BranchesDeepen(old(agents.beats)) ==> LeavesComeFirst(old(agents.beats), killed)
    {
      var m := agents.beats;
      var dead := DeadList(agents);
      killed := [];
      assert Under(m, ToSet(dead[..0])) == {} && Mark(m, {}, now) == m && StandingIn(m, {}) == {};
      for i := 0 to |dead|
        invariant Valid() && agents == old(agents).With(Mark(m, Under(m, ToSet(dead[..i])), now))
        invariant Distinct(killed) && ToSet(killed) == StandingIn(m, Under(m, ToSet(dead[..i])))
        invariant BranchesDeepen(m) ==> LeavesComeFirst(m, killed)
      {
        PrefixGrows(dead, i);
        var order := KillBelow(old(agents), ToSet(dead[..i]), dead[i], now);
        if BranchesDeepen(m) { LeavesComeFirstAppend(m, ToSet(dead[..i]), dead[i], killed, order); }
        DistinctAppend(killed, order);
        killed := killed + order;
      }
      assert dead[..|dead|] == dead;
      SameParentsAcyclic(m, agents.beats);
    }

    method ReapFallen() returns (reaped: seq<Id>)
      requires Valid()
      modifies this`agents
      ensures Valid() && agents == old(agents).Restrict(Reap(old(agents.beats)))
      ensures Distinct(reaped)
      ensures forall x :: x in reaped <==> x in old(agents.beats) && x !in agents.beats
    {
      var m := agents.beats;
      var fallen := (x: Id) => x in m && (m[x].status.Dead? || m[x].status.Killed?);
      reaped := Filter(agents.order, fallen);
      FilterDistinct(agents.order, fallen);
      agents := agents.Restrict(Reap(m));
    }

    /** Kill what still stands at and below one more agent, and count it. */
    method KillSubtree(ghost reg: Registry, ghost roots: set<Id>, root: Id, now: int) returns (killed: int)
      requires Valid() && reg.Valid() && Acyclic(reg.beats) && root in reg.beats
      requires agents == reg.With(Mark(reg.beats, Subtrees(reg.beats, roots), now))
      modifies this`agents
      ensures Valid() && agents == reg.With(Mark(reg.beats, Subtrees(reg.beats, roots + {root}), now))
      ensures |StandingIn(reg.beats, Subtrees(reg.beats, roots + {root}))|
        == |StandingIn(reg.beats, Subtrees(reg.beats, roots))| + killed
    {
      ghost var m := reg.beats;
      SameParentsSameAbove(m, agents.beats);
      SameParentsAcyclic(m, agents.beats);
      NoSelfAncestor(agents.beats, root);
      var below := GetDescendantIds(agents, root);
      DescendantsPresent(m, root, below);
      var ids := below + [root];
      var order := SlayStanding(ids, now);
      killed := |order|;
      DistinctSize(order);
      SubtreesGrow(m, roots, root, ToSet(ids));
      MarkFurther(m, Subtrees(m, roots), ToSet(ids), now);
    }

    method CascadeOrphans(orphans: seq<Id>, now: int) returns (handled: int)
      requires Valid() && Acyclic(agents.beats)
      requires ToSet(orphans) == Orphans(agents.beats)
      modifies this`agents
      ensures Valid()
      ensures agents
        == old(agents).With(Mark(old(agents.beats), Subtrees(old(agents.beats), Orphans(old(agents.beats))), now))
      ensures handled == |StandingIn(old(agents.beats), Subtrees(old(agents.beats), Orphans(old(agents.beats))))|
    {
      var m := agents.beats;
      handled := 0;
      assert Subtrees(m, ToSet(orphans[..0])) == {} && Mark(m, {}, now) == m && StandingIn(m, {}) == {};
      for i := 0 to |orphans|
        invariant Valid() && agents == old(agents).With(Mark(m, Subtrees(m, ToSet(orphans[..i])), now))
        invariant handled == |StandingIn(m, Subtrees(m, ToSet(orphans[..i])))|
      {
        assert orphans[i] in ToSet(orphans);
        PrefixGrows(orphans, i);
        var killed := KillSubtree(old(agents), ToSet(orphans[..i]), orphans[i], now);
        handled := handled + killed;
      }
      assert orphans[..|orphans|] == orphans;
    }

    method ReparentToRoot(orphans: seq<Id>) returns (handled: int)
      requires Valid() && Distinct(orphans) && ToSet(orphans) == Orphans(agents.beats)
      modifies this`agents
      ensures Valid() && agents == old(agents).With(ReparentOrphans(old(agents.beats)))
      ensures handled == |Orphans(old(agents.beats))|
    {
      ghost var m := agents.beats;
      handled := 0;
      for i := 0 to |orphans|
        invariant Valid() && agents.order == old(agents.order) && agents.beats.Keys == m.Keys && handled == i
        invariant forall x :: x in m ==>
          agents.beats[x] == if x in ToSet(orphans[..i]) then m[x].(parentId := None, depth := 0) else m[x]
      {
        var id := orphans[i];
        assert id in ToSet(orphans);
        PrefixGrows(orphans, i);
        Update(id, agents.beats[id].(parentId := None, depth := 0));
        handled := handled + 1;
      }
      assert orphans[..|orphans|] == orphans;
      DistinctSize(orphans);
      assert agents.beats == ReparentOrphans(m);
    }

    /** The first of `siblings` becomes a root; the others hang from it. */
    method RehangGroup(reg: Registry, siblings: seq<Id>, ghost done: set<Id>) returns (handled: nat)
      requires Valid() && reg.Valid() && agents == reg.With(RehungSoFar(reg, done))
      requires Distinct(siblings) && ToSet(siblings) !! done && ToSet(siblings) <= reg.beats.Keys
      requires forall x :: x in siblings ==> Rehung(reg, x) == RehungUnder(reg.beats[x], x, siblings[0])
      modifies this`agents
      ensures Valid() && agents == reg.With(RehungSoFar(reg, done + ToSet(siblings)))
      ensures handled == |ToSet(siblings)|
    {
      handled := 0;
      ghost var so := done;
      for i := 0 to |siblings|
        invariant Valid() && agents == reg.With(RehungSoFar(reg, so)) && so == done + ToSet(siblings[..i])
        invariant handled == i
      {
        var id := siblings[i];
        PrefixGrows(siblings, i);
        assert id in ToSet(siblings) && id !in so;
        var a := agents.beats[id];
        if i == 0 {
          a := a.(parentId := None, depth := Max(0, a.depth - 1));
        } else {
          a := a.(parentId := Some(siblings[0]));
        }
        RehungNext(reg, so, id);
        so := so + {id};
        Update(id, a);
        handled := handled + 1;
      }
      assert siblings[..|siblings|] == siblings;
      DistinctSize(siblings);
    }

    /** The earliest-started sibling of each group becomes a root over the others. */
    method PromoteLeads(orphans: seq<Id>) returns (handled: int)
      requires Valid() && orphans == OrphanList(agents)
      modifies this`agents
      ensures Valid() && agents == old(agents).With(PromoteOrphans(old(agents)))
      ensures handled == |Orphans(old(agents.beats))|
    {
      var reg := agents;
      var keys, groups := GroupOrphans(reg, orphans);
      assert ToSet(keys) == groups.Keys;
      ghost var done: set<Id> := {};
      handled := 0;
      assert RehungSoFar(reg, {}) == reg.beats;
      for j := 0 to |keys|
        invariant Valid() && agents == reg.With(RehungSoFar(reg, done)) && handled == |done|
        invariant done == HangingFrom(reg.beats, ToSet(keys[..j]))
      {
        PrefixGrows(keys, j);
        var siblings := Sort(groups[keys[j]], StartOrder(reg.beats));
        GroupElements(reg, keys[j]);
        HangingGrows(reg.beats, ToSet(keys[..j]), keys[j], siblings);
        var count := RehangGroup(reg, siblings, done);
        done := done + ToSet(siblings);
        handled := handled + count;
      }
      assert keys[..|keys|] == keys;
      OrphanListElements(reg);
      assert done == Orphans(reg.beats);
      RehungAll(reg, done);
    }

    /** Handle agents whose parent no longer exists, by the configured policy. */
    method HandleOrphans(now: int) returns (handled: int)
      requires Valid() && Acyclic(agents.beats)
      modifies this`agents
      ensures Valid() && Acyclic(agents.beats)
      ensures agents == old(agents).With(HandledOrphans(old(agents), config, now))
      ensures handled == HandledCount(old(agents.beats), config.orphanPolicy)
    {
      ghost var was := agents;
      var orphans := OrphanList(agents);
      OrphanListElements(agents);
      match config.orphanPolicy {
        case Cascade => handled := CascadeOrphans(orphans, now);
        case Reparent => handled := ReparentToRoot(orphans);
        case Promote => handled := PromoteLeads(orphans);
      }
      HandledOrphansAcyclic(was, config, now);
    }

    /** Kill one more agent if it is over budget. */
    method CurbOne(ghost reg: Registry, ghost done: set<Id>, id: Id, now: int, killed: int) returns (count: int)
      requires Valid() && reg.Valid() && agents.order == reg.order && id in reg.beats && id !in done
      requires CurbedSoFar(reg.beats, agents.beats, done, now, killed)
      modifies this`agents
      ensures Valid() && agents.order == reg.order
      ensures CurbedSoFar(reg.beats, agents.beats, done + {id}, now, count)
    {
      CurbedNext(reg.beats, agents.beats, done, now, killed, id);
      var a := agents.beats[id];
      count := killed;
      if a.status.Alive? && a.tokenUsage > a.tokenBudget {
        a := a.(status := Killed, lastBeat := now);
        count := killed + 1;
      }
      Update(id, a);
    }

    method CurbOverBudget(now: int) returns (killed: int)
      requires Valid()
      modifies this`agents
      ensures Valid() && agents == old(agents).With(CurbBudgets(old(agents.beats), now))
      ensures killed == |Overspent(old(agents.beats))|
    {
      ghost var reg := agents;
      var order := agents.order;
      killed := 0;
      assert {} * Overspent(reg.beats) == {};
      for i := 0 to |order|
        invariant Valid() && agents.order == order
        invariant CurbedSoFar(reg.beats, agents.beats, ToSet(order[..i]), now, killed)
      {
        PrefixGrows(order, i);
        killed := CurbOne(reg, ToSet(order[..i]), order[i], now, killed);
      }
      assert order[..|order|] == order;
      CurbedAll(reg.beats, agents.beats, ToSet(order), now, killed);
    }

    /** Detect, and kill below the dead. */
    method SweepStale(now: int) returns (killed: seq<Id>)
      requires Valid() && Acyclic(agents.beats)
      modifies this`agents
      ensures Valid() && agents == old(agents).With(Swept(old(agents.beats), config, now))
      ensures Distinct(killed) && ToSet(killed)
        == var seen := Detect(old(agents.beats), config, now); StandingIn(seen, Under(seen, DeadOf(seen)))
      ensures BranchesDeepen(old(agents.beats)) ==> LeavesComeFirst(old(agents.beats), killed)
    {
      ghost var was := agents;
      DetectStale(now);
      SameParentsAcyclic(was.beats, agents.beats);
      ghost var seen := agents.beats;
      killed := KillBelowDead(now);
      SameTreeSameOrder(was.beats, seen, killed);
    }

    /** Handle orphans, and kill over-budget agents. */
    method HandleAndCurb(now: int) returns (handled: int, curbed: int)
      requires Valid() && Acyclic(agents.beats)
      modifies this`agents
      ensures Valid()
      ensures agents == old(agents).With(CurbBudgets(HandledOrphans(old(agents), config, now), now))
      ensures handled == HandledCount(old(agents.beats), config.orphanPolicy)
      ensures curbed == |Overspent(HandledOrphans(old(agents), config, now))|
    {
      handled := HandleOrphans(now);
      curbed := CurbOverBudget(now);
    }

    /** Detect, kill below the dead, reap, handle orphans, kill over-budget agents. */
    method HealAgents(now: int) returns (report: HealReport)
      requires Valid() && Acyclic(agents.beats)
      modifies this`agents
      ensures Valid() && Acyclic(agents.beats)
      ensures agents == HealTree(old(agents), config, now)
      ensures Distinct(report.reapedIds)
      ensures ToSet(report.reapedIds) !! agents.beats.Keys
      ensures ToSet(report.reapedIds) + agents.beats.Keys == old(agents.beats).Keys
      ensures DeadOf(agents.beats) == {} && HealedAs(old(agents), agents.beats, config, now)
      ensures forall x :: x in agents.beats && OwedRoot(config, agents.beats[x]) ==> Rooted(agents.beats, x)
      ensures Distinct(report.killedStaleIds)
      ensures forall x :: x in report.killedStaleIds <==> FallsWith(old(agents.beats), config, now, x)
      ensures BranchesDeepen(old(agents.beats)) ==> LeavesComeFirst(old(agents.beats), report.killedStaleIds)
      ensures report.orphansHandled == |HandledIn(old(agents.beats), agents.beats, config.orphanPolicy)|
      ensures report.overBudgetKilled == |CurbedIn(old(agents.beats), agents.beats, config, now)|
    {
      ghost var was := agents;
      var killed := SweepStale(now);
      ghost var swept := agents;
      var reaped := ReapFallen();
      ReapedIs(was, config, now, swept, agents, reaped);
      ReapedAcyclic(was, config, now);
      var handled, curbed := HandleAndCurb(now);
      HealedFacts(was, config, now);
      PassHealsAs(was, config, now);
      ReportedAs(was, config, now, killed);
      report := HealReport(reaped, killed, handled, curbed);
    }
  }

  lemma ReapedIs(was: Registry, cfg: Config, now: int, swept: Registry, kept: Registry, reaped: seq<Id>)
    requires was.Valid() && swept == was.With(Swept(was.beats, cfg, now))
    requires kept == swept.Restrict(Reap(swept.beats))
    requires forall x :: x in reaped <==> x in swept.beats && x !in kept.beats
    ensures kept == Reaped(was, cfg, now)
    ensures ToSet(reaped) !! kept.beats.Keys && ToSet(reaped) + kept.beats.Keys == was.beats.Keys
  {
  }

  /** The report's numbers and kills, told from the maps before and after the pass. */
  lemma ReportedAs(was: Registry, cfg: Config, now: int, killed: seq<Id>)
    requires was.Valid() && ToSet(killed)
      == var seen := Detect(was.beats, cfg, now); StandingIn(seen, Under(seen, DeadOf(seen)))
    ensures forall x :: x in killed <==> FallsWith(was.beats, cfg, now, x)
    ensures var healed := HealTree(was, cfg, now).beats;
      && HandledCount(Reaped(was, cfg, now).beats, cfg.orphanPolicy)
        == |HandledIn(was.beats, healed, cfg.orphanPolicy)|
      && |Overspent(HandledOrphans(Reaped(was, cfg, now), cfg, now))| == |CurbedIn(was.beats, healed, cfg, now)|
  {
    forall x ensures x in killed <==> FallsWith(was.beats, cfg, now, x) {
      SweptIff(was.beats, cfg, now, x);
      assert x in killed <==> x in ToSet(killed);
    }
    PassCounts(was, cfg, now);
    HandledCountIs(Reaped(was, cfg, now).beats, cfg.orphanPolicy);
  }

  lemma HandledCountIs(m: Beats, policy: OrphanPolicy)
    ensures HandledCount(m, policy) == if policy.Cascade?
      then |set x | x in Subtrees(m, Orphans(m)) && !Final(m[x].status)| else |Orphans(m)|
  {
    assert StandingIn(m, Subtrees(m, Orphans(m))) == set x | x in Subtrees(m, Orphans(m)) && !Final(m[x].status);
  }

  lemma HealedFacts(was: Registry, cfg: Config, now: int)
    requires was.Valid() && Acyclic(was.beats)
    ensures var m := HealTree(was, cfg, now).beats;
      && Acyclic(m) && DeadOf(m) == {} && m.Keys == Reaped(was, cfg, now).beats.Keys
      && forall x :: x in m && OwedRoot(cfg, m[x]) ==> Rooted(m, x)
  {
    HealTreeAcyclic(was, cfg, now);
    HealedMembers(was, cfg, now);
    forall x | x in HealTree(was, cfg, now).beats && OwedRoot(cfg, HealTree(was, cfg, now).beats[x])
      ensures Rooted(HealTree(was, cfg, now).beats, x)
    {
      HealedAgentsAreRooted(was, cfg, now, x);
    }
  }
}
