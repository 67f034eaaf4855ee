/** Runs under guarded spawns that leave the limits all the same: overspending, promotion and revival. */
module PromotionRuns {
  import opened Collections
  import opened Reals
  import opened AgentForest
  import opened AgentLifecycle
  import opened AgentRuns

  // ---- Building runs ----------------------------------------------------------------

  lemma RunLast(reg: Registry, moments: seq<Moment>, m: Moment)
    requires reg.Valid()
    ensures Run(reg, moments + [m]) == Apply(Run(reg, moments), m.cfg, m.step, m.now)
  {
    assert (moments + [m])[..|moments|] == moments;
  }

  lemma DisciplinedLast(reg: Registry, cfg: Config, moments: seq<Moment>, m: Moment)
    requires reg.Valid() && DisciplinedRun(reg, cfg, moments)
    requires m.cfg == cfg && Disciplined(Run(reg, moments), cfg, m.step, m.now)
    ensures DisciplinedRun(reg, cfg, moments + [m])
  {
    var all := moments + [m];
    forall i | 0 <= i < |all|
      ensures all[i].cfg == cfg && Disciplined(Run(reg, all[..i]), cfg, all[i].step, all[i].now)
    {
      assert i < |moments| ==> all[..i] == moments[..i];
      assert i == |moments| ==> all[..i] == moments;
    }
  }

  // ---- An agent that spends too much ------------------------------------------------

  predicate FreshBeat(hb: Heartbeat, cfg: Config, now: int) {
    hb.status.Alive? && now - hb.lastBeat < cfg.staleThreshold
  }

  predicate WithinBudget(hb: Heartbeat) { hb.tokenUsage <= hb.tokenBudget }

  lemma FreshSweep(m: Beats, cfg: Config, now: int)
    requires forall x :: x in m ==> FreshBeat(m[x], cfg, now) || m[x].status.Killed?
    ensures Swept(m, cfg, now) == m
  {
    assert Detect(m, cfg, now) == m;
  }

  lemma ReapsNobody(reg: Registry, cfg: Config, now: int)
    requires reg.Valid() && forall x :: x in reg.beats ==> FreshBeat(reg.beats[x], cfg, now)
    ensures Reaped(reg, cfg, now) == reg
  {
    FreshSweep(reg.beats, cfg, now);
    assert Reap(reg.beats) == reg.beats;
    FilterAll(reg.order, (id: Id) => id in Reap(reg.beats));
  }

  lemma PromotesNobody(reg: Registry)
    requires Orphans(reg.beats) == {}
    ensures PromoteOrphans(reg) == reg.beats
  {
  }

  lemma CurbsOne(m: Beats, now: int, p: Id)
    requires p in m && forall x :: x in m ==> m[x].status.Alive? && (WithinBudget(m[x]) <==> x != p)
    ensures CurbBudgets(m, now) == m[p := m[p].(status := Killed, lastBeat := now)]
  {
  }

  lemma CurbsNone(m: Beats, now: int)
    requires forall x :: x in m ==> WithinBudget(m[x])
    ensures CurbBudgets(m, now) == m
  {
  }

  lemma PromotingPass(reg: Registry, cfg: Config, now: int, kept: Registry)
    requires reg.Valid() && cfg.orphanPolicy.Promote? && kept == Reaped(reg, cfg, now)
    ensures HealTree(reg, cfg, now) == kept.With(CurbBudgets(PromoteOrphans(kept), now))
  {
    assert HandledOrphans(kept, cfg, now) == PromoteOrphans(kept);
  }

  /** A pass over fresh agents of whom only `p` spent too much kills `p` and changes nothing else. */
  lemma PassKillsOverspender(reg: Registry, cfg: Config, now: int, p: Id)
    requires reg.Valid() && cfg.orphanPolicy.Promote? && Orphans(reg.beats) == {} && p in reg.beats
    requires forall x :: x in reg.beats ==>
      FreshBeat(reg.beats[x], cfg, now) && (WithinBudget(reg.beats[x]) <==> x != p)
    ensures Reaped(reg, cfg, now) == reg
    ensures HealTree(reg, cfg, now) == reg.With(reg.beats[p := reg.beats[p].(status := Killed, lastBeat := now)])
  {
    ReapsNobody(reg, cfg, now);
    PromotingPass(reg, cfg, now, reg);
    PromotesNobody(reg);
    CurbsOne(reg.beats, now, p);
  }

  /** The same agents without one of them. */
  ghost predicate Without(reg: Registry, p: Id, kept: Registry) {
    && kept.Valid() && kept.beats.Keys == reg.beats.Keys - {p}
    && forall x :: x in kept.beats ==> kept.beats[x] == reg.beats[x]
  }

  lemma ReapsOne(reg: Registry, cfg: Config, now: int, p: Id)
    requires reg.Valid() && p in reg.beats && reg.beats[p].status.Killed?
    requires forall x :: x in reg.beats && x != p ==> FreshBeat(reg.beats[x], cfg, now)
    ensures Without(reg, p, Reaped(reg, cfg, now))
  {
    FreshSweep(reg.beats, cfg, now);
    var kept := Reaped(reg, cfg, now);
    forall x ensures x in kept.beats <==> x in reg.beats && x != p {}
  }

  /** Promotion touches no budget. */
  lemma PromotedWithinBudget(kept: Registry)
    requires forall x :: x in kept.beats ==> WithinBudget(kept.beats[x])
    ensures forall x :: x in PromoteOrphans(kept) ==> WithinBudget(PromoteOrphans(kept)[x])
  {
    forall x | x in kept.beats ensures WithinBudget(Rehung(kept, x)) { RehungKeepsRest(kept, x); }
  }

  /** The next pass removes it and promotes a lead among its children. */
  lemma PassPromotes(reg: Registry, cfg: Config, now: int, p: Id)
    requires reg.Valid() && cfg.orphanPolicy.Promote? && p in reg.beats && reg.beats[p].status.Killed?
    requires forall x :: x in reg.beats && x != p ==> FreshBeat(reg.beats[x], cfg, now) && WithinBudget(reg.beats[x])
    ensures Without(reg, p, Reaped(reg, cfg, now))
    ensures HealTree(reg, cfg, now).beats == PromoteOrphans(Reaped(reg, cfg, now))
  {
    var kept := Reaped(reg, cfg, now);
    ReapsOne(reg, cfg, now, p);
    PromotingPass(reg, cfg, now, kept);
    PromotedWithinBudget(kept);
    CurbsNone(PromoteOrphans(kept), now);
  }

  /** Everyone is alive, fresh and within budget, and every named parent is there. */
  ghost predicate Quiet(reg: Registry, cfg: Config, now: int) {
    && reg.Valid() && Orphans(reg.beats) == {}
    && forall x :: x in reg.beats ==> FreshBeat(reg.beats[x], cfg, now) && WithinBudget(reg.beats[x])
  }

  /** Nothing but the heartbeat of `p` differs. */
  ghost predicate SameButOne(reg: Registry, r: Registry, p: Id) {
    && r.Valid() && r.beats.Keys == reg.beats.Keys
    && (forall x :: x in reg.beats && x != p ==> r.beats[x] == reg.beats[x])
    && (p in reg.beats ==> r.beats[p].parentId == reg.beats[p].parentId && r.beats[p].depth == reg.beats[p].depth)
  }

  /** One more disciplined step. */
  lemma Extend(start: Registry, cfg: Config, moments: seq<Moment>, step: Step, now: int) returns (r: Registry)
    requires start.Valid() && DisciplinedRun(start, cfg, moments) && Disciplined(Run(start, moments), cfg, step, now)
    ensures r == Run(start, moments + [Moment(step, cfg, now)]) == Apply(Run(start, moments), cfg, step, now)
    ensures DisciplinedRun(start, cfg, moments + [Moment(step, cfg, now)])
  {
    RunLast(start, moments, Moment(step, cfg, now));
    DisciplinedLast(start, cfg, moments, Moment(step, cfg, now));
    r := Run(start, moments + [Moment(step, cfg, now)]);
  }

  lemma ReportStep(start: Registry, cfg: Config, moments: seq<Moment>, p: Id, usage: int, now: int)
    returns (one: Registry)
    requires start.Valid() && DisciplinedRun(start, cfg, moments) && Quiet(Run(start, moments), cfg, now)
    requires cfg.staleThreshold > 0 && p in Run(start, moments).beats
    ensures var report := Moment(Beat(p, None, Some(usage), None), cfg, now);
      DisciplinedRun(start, cfg, moments + [report]) && one == Run(start, moments + [report])
    ensures SameButOne(Run(start, moments), one, p) && FreshBeat(one.beats[p], cfg, now)
    ensures one.beats[p].tokenUsage == usage && one.beats[p].tokenBudget == Run(start, moments).beats[p].tokenBudget
  {
    one := Extend(start, cfg, moments, Beat(p, None, Some(usage), None), now);
  }

  lemma NobodyNeedsRoom(reg: Registry, cfg: Config)
    requires reg.Valid() && Orphans(reg.beats) == {}
    ensures LeadsHaveRoom(reg, cfg)
  {
    forall gone | gone !in reg.beats ensures Children(reg, gone) == [] {
      FilterNone(reg.order, (x: Id) => ParentOf(reg.beats, x) == Some(gone)) by {
        forall x | x in reg.order ensures ParentOf(reg.beats, x) != Some(gone) { assert x !in Orphans(reg.beats); }
      }
    }
  }

  /** Everyone is alive and fresh, and only `p` has spent too much. */
  ghost predicate Overdrawn(reg: Registry, cfg: Config, now: int, p: Id) {
    && reg.Valid() && Orphans(reg.beats) == {} && p in reg.beats
    && forall x :: x in reg.beats ==> FreshBeat(reg.beats[x], cfg, now) && (WithinBudget(reg.beats[x]) <==> x != p)
  }

  lemma KillStep(start: Registry, cfg: Config, moments: seq<Moment>, p: Id, now: int) returns (two: Registry)
    requires start.Valid() && DisciplinedRun(start, cfg, moments) && cfg.orphanPolicy.Promote?
    requires Overdrawn(Run(start, moments), cfg, now, p)
    ensures DisciplinedRun(start, cfg, moments + [Moment(Heal, cfg, now)])
    ensures two == Run(start, moments + [Moment(Heal, cfg, now)])
    ensures SameButOne(Run(start, moments), two, p) && two.beats[p].status.Killed?
  {
    var one := Run(start, moments);
    PassKillsOverspender(one, cfg, now, p);
    NobodyNeedsRoom(one, cfg);
    two := Extend(start, cfg, moments, Heal, now);
  }

  lemma PromoteStep(start: Registry, cfg: Config, moments: seq<Moment>, p: Id, now: int) returns (kept: Registry)
    requires start.Valid() && DisciplinedRun(start, cfg, moments) && cfg.orphanPolicy.Promote?
    requires var two := Run(start, moments);
      && p in two.beats && two.beats[p].status.Killed?
      && forall x :: x in two.beats && x != p ==> FreshBeat(two.beats[x], cfg, now) && WithinBudget(two.beats[x])
    ensures Without(Run(start, moments), p, kept)
    ensures Run(start, moments + [Moment(Heal, cfg, now)]).beats == PromoteOrphans(kept)
    ensures LeadsHaveRoom(kept, cfg) ==> DisciplinedRun(start, cfg, moments + [Moment(Heal, cfg, now)])
  {
    var two := Run(start, moments);
    PassPromotes(two, cfg, now, p);
    kept := Reaped(two, cfg, now);
    RunLast(start, moments, Moment(Heal, cfg, now));
    if LeadsHaveRoom(kept, cfg) { DisciplinedLast(start, cfg, moments, Moment(Heal, cfg, now)); }
  }

  lemma ReportOverdraws(reg: Registry, r: Registry, cfg: Config, now: int, p: Id)
    requires Quiet(reg, cfg, now) && SameButOne(reg, r, p) && p in reg.beats
    requires FreshBeat(r.beats[p], cfg, now) && !WithinBudget(r.beats[p])
    ensures Overdrawn(r, cfg, now, p)
  {
    assert Orphans(r.beats) == Orphans(reg.beats);
  }

  lemma SameTwice(reg: Registry, one: Registry, two: Registry, p: Id)
    requires SameButOne(reg, one, p) && SameButOne(one, two, p)
    ensures SameButOne(reg, two, p)
  {
  }

  /** An agent reports its usage, and a pass follows. */
  function Overspending(p: Id, usage: int, cfg: Config, now: int): seq<Moment> {
    [Moment(Beat(p, None, Some(usage), None), cfg, now), Moment(Heal, cfg, now)]
  }

  lemma ReportThenHeal(moments: seq<Moment>, p: Id, usage: int, cfg: Config, now: int)
    ensures moments + Overspending(p, usage, cfg, now)
      == moments + [Moment(Beat(p, None, Some(usage), None), cfg, now)] + [Moment(Heal, cfg, now)]
  {
  }

  lemma OverspenderFalls(start: Registry, cfg: Config, moments: seq<Moment>, p: Id, usage: int, now: int)
    returns (two: Registry)
    requires start.Valid() && DisciplinedRun(start, cfg, moments) && Quiet(Run(start, moments), cfg, now)
    requires cfg.orphanPolicy.Promote? && cfg.staleThreshold > 0
    requires p in Run(start, moments).beats && usage > Run(start, moments).beats[p].tokenBudget
    ensures DisciplinedRun(start, cfg, moments + Overspending(p, usage, cfg, now))
    ensures two == Run(start, moments + Overspending(p, usage, cfg, now))
    ensures SameButOne(Run(start, moments), two, p) && two.beats[p].status.Killed?
  {
    var report := Moment(Beat(p, None, Some(usage), None), cfg, now);
    var one := ReportStep(start, cfg, moments, p, usage, now);
    ReportOverdraws(Run(start, moments), one, cfg, now, p);
    two := KillStep(start, cfg, moments + [report], p, now);
    SameTwice(Run(start, moments), one, two, p);
    ReportThenHeal(moments, p, usage, cfg, now);
  }

  /**
   * Whatever run leads to a quiet map under promotion: when an agent then overspends, two
   * passes take it away and promote a lead among its children, and of the three moments
   * only the last can be undisciplined.
   */
  lemma OverspendingPromotes(start: Registry, cfg: Config, moments: seq<Moment>, p: Id, usage: int, now: int)
    returns (two: Registry, kept: Registry)
    requires start.Valid() && DisciplinedRun(start, cfg, moments) && Quiet(Run(start, moments), cfg, now)
    requires cfg.orphanPolicy.Promote? && cfg.staleThreshold > 0
    requires p in Run(start, moments).beats && usage > Run(start, moments).beats[p].tokenBudget
    ensures SameButOne(Run(start, moments), two, p) && Without(Run(start, moments), p, kept)
    ensures var fall := moments + Overspending(p, usage, cfg, now);
      && DisciplinedRun(start, cfg, fall) && two == Run(start, fall)
      && Run(start, fall + [Moment(Heal, cfg, now)]).beats == PromoteOrphans(kept)
      && (LeadsHaveRoom(kept, cfg) ==> DisciplinedRun(start, cfg, fall + [Moment(Heal, cfg, now)]))
  {
    two := OverspenderFalls(start, cfg, moments, p, usage, now);
    kept := PromoteStep(start, cfg, moments + Overspending(p, usage, cfg, now), p, now);
  }

  // ---- A team grown from one root ------------------------------------------------------

  function Worker(parent: Option<Id>, depth: int, startedAt: int): Heartbeat {
    Heartbeat(0, startedAt, 0, 0, Alive, parent, depth, "", 100)
  }

  function Promoting(agents: int, children: int): Config { Config(10, 20, agents, 1.0, Promote, 5, children, 0) }

  function Alone(root: Id): Registry { Registry(map[root := Worker(None, 0, 0)], [root]) }

  function Spawn(id: Id, parent: Id, depth: int, startedAt: int, cfg: Config): Moment {
    Moment(Register(id, Worker(Some(parent), depth, startedAt)), cfg, 0)
  }

  /** Alive agents under known parents that have spent nothing of a budget of 100. */
  predicate Fresh(m: Beats) {
    forall x :: x in m ==>
      && m[x] == Worker(m[x].parentId, m[x].depth, m[x].startedAt)
      && (m[x].parentId.Some? ==> m[x].parentId.value in m)
  }

  lemma FreshIsQuiet(reg: Registry, agents: int, children: int)
    requires reg.Valid() && Fresh(reg.beats)
    ensures Quiet(reg, Promoting(agents, children), 0)
  {
  }

  lemma HundredStays()
    ensures Times(1.0, 100.0) == 100.0
  {
    TimesCommutes(1.0, 100.0);
    TimesOne(100.0);
  }

  /** A parent with room for one more, whose children are one level below it. */
  predicate HasRoom(m: Beats, agents: int, children: int, parent: Id, depth: int) {
    && parent in m && m[parent] == Worker(m[parent].parentId, depth - 1, m[parent].startedAt)
    && 1 <= depth <= 5 && |ChildSet(m, parent)| < Min(children, 16) && |ActiveSet(m)| < agents
  }

  lemma SpawnAllowed(m: Beats, agents: int, children: int, id: Id, parent: Id, depth: int, startedAt: int)
    requires HasRoom(m, agents, children, parent, depth)
    ensures Spawned(m, Promoting(agents, children), id, Worker(Some(parent), depth, startedAt))
  {
    HundredStays();
  }

  lemma SpawnDisciplined(reg: Registry, cfg: Config, id: Id, hb: Heartbeat)
    requires reg.Valid() && Spawned(reg.beats, cfg, id, hb)
    ensures Disciplined(reg, cfg, Register(id, hb), 0)
    ensures Apply(reg, cfg, Register(id, hb), 0).beats == reg.beats[id := hb]
  {
  }

  /** A guarded spawn. */
  lemma SpawnStep(
    root: Id, agents: int, children: int, moments: seq<Moment>, id: Id, parent: Id, depth: int, startedAt: int)
    returns (m: Beats)
    requires DisciplinedRun(Alone(root), Promoting(agents, children), moments)
    requires HasRoom(Run(Alone(root), moments).beats, agents, children, parent, depth)
    ensures var spawn := Spawn(id, parent, depth, startedAt, Promoting(agents, children));
      && DisciplinedRun(Alone(root), Promoting(agents, children), moments + [spawn])
      && m == Run(Alone(root), moments + [spawn]).beats
      && m == Run(Alone(root), moments).beats[id := Worker(Some(parent), depth, startedAt)]
  {
    var reg, cfg, hb := Run(Alone(root), moments), Promoting(agents, children), Worker(Some(parent), depth, startedAt);
    SpawnAllowed(reg.beats, agents, children, id, parent, depth, startedAt);
    SpawnDisciplined(reg, cfg, id, hb);
    var r := Extend(Alone(root), cfg, moments, Register(id, hb), 0);
    m := r.beats;
  }

  lemma FewAgents(m: Beats, keys: set<Id>, p: Id, kids: set<Id>)
    requires m.Keys <= keys && forall c :: c in m && m[c].parentId == Some(p) ==> c in kids
    ensures |ActiveSet(m)| <= |keys| && |ChildSet(m, p)| <= |kids|
  {
    SubsetSize(ActiveSet(m), keys);
    SubsetSize(ChildSet(m, p), kids);
  }

  /** A guarded spawn into a known map. */
  lemma Grow(
    root: Id, agents: int, children: int, moments: seq<Moment>, m: Beats, kids: set<Id>,
    id: Id, parent: Id, depth: int, startedAt: int)
    requires DisciplinedRun(Alone(root), Promoting(agents, children), moments)
    requires m == Run(Alone(root), moments).beats && |m.Keys| < agents && |kids| < Min(children, 16) && 1 <= depth <= 5
    requires parent in m && m[parent] == Worker(m[parent].parentId, depth - 1, m[parent].startedAt)
    requires forall c :: c in m && m[c].parentId == Some(parent) ==> c in kids
    ensures var spawn := Spawn(id, parent, depth, startedAt, Promoting(agents, children));
      && DisciplinedRun(Alone(root), Promoting(agents, children), moments + [spawn])
      && m[id := Worker(Some(parent), depth, startedAt)] == Run(Alone(root), moments + [spawn]).beats
  {
    FewAgents(m, m.Keys, parent, kids);
    var _ := SpawnStep(root, agents, children, moments, id, parent, depth, startedAt);
  }

  /** The lead among the children of `gone` is the one that started first. */
  lemma EarliestLeads(kept: Registry, gone: Id, first: Id)
    requires kept.Valid() && first in kept.beats && kept.beats[first].parentId == Some(gone)
    requires forall x :: x in kept.beats && x != first && kept.beats[x].parentId == Some(gone) ==>
      kept.beats[first].startedAt < kept.beats[x].startedAt
    ensures Lead(kept, gone) == first && Children(kept, gone) != []
  {
    assert first in Children(kept, gone);
    LeadIsEarliestSibling(kept, gone);
    var k :| LeadAt(kept, gone, k);
    var i :| 0 <= i < |Children(kept, gone)| && Children(kept, gone)[i] == first;
  }

  // ---- More children than allowed --------------------------------------------------------

  predicate AllDiffer(root: Id, a: Id, b: Id, c: Id, d: Id) {
    && root != a && root != b && root != c && root != d
    && a != b && a != c && a != d && b != c && b != d && c != d
  }

  function One(root: Id): Beats { map[root := Worker(None, 0, 0)] }

  function Two(root: Id, a: Id): Beats { One(root)[a := Worker(Some(root), 1, 1)] }

  /** Two agents under the root and two under the first of them. */
  function WideTeam(root: Id, a: Id, b: Id, c: Id, d: Id): Beats {
    Two(root, a)[b := Worker(Some(root), 1, 2)][c := Worker(Some(a), 2, 3)][d := Worker(Some(a), 2, 4)]
  }

  function WideSpawns(root: Id, a: Id, b: Id, c: Id, d: Id): seq<Moment> {
    var cfg := Promoting(10, 2);
    [] + [Spawn(a, root, 1, 1, cfg)] + [Spawn(b, root, 1, 2, cfg)]
      + [Spawn(c, a, 2, 3, cfg)] + [Spawn(d, a, 2, 4, cfg)]
  }

  lemma FirstSpawn(root: Id, a: Id, agents: int, children: int)
    requires root != a && agents >= 2 && children >= 1
    ensures var ms := [] + [Spawn(a, root, 1, 1, Promoting(agents, children))];
      DisciplinedRun(Alone(root), Promoting(agents, children), ms) && Run(Alone(root), ms).beats == Two(root, a)
  {
    assert |One(root).Keys| == 1;
    Grow(root, agents, children, [], One(root), {}, a, root, 1, 1);
  }

  lemma WideTeamGrows(root: Id, a: Id, b: Id, c: Id, d: Id)
    requires AllDiffer(root, a, b, c, d)
    ensures DisciplinedRun(Alone(root), Promoting(10, 2), WideSpawns(root, a, b, c, d))
    ensures Run(Alone(root), WideSpawns(root, a, b, c, d)).beats == WideTeam(root, a, b, c, d)
  {
    var cfg := Promoting(10, 2);
    FirstSpawn(root, a, 10, 2);
    var ms, m := [] + [Spawn(a, root, 1, 1, cfg)], Two(root, a);
    Grow(root, 10, 2, ms, m, {a}, b, root, 1, 2);
    ms, m := ms + [Spawn(b, root, 1, 2, cfg)], m[b := Worker(Some(root), 1, 2)];
    Grow(root, 10, 2, ms, m, {}, c, a, 2, 3);
    ms, m := ms + [Spawn(c, a, 2, 3, cfg)], m[c := Worker(Some(a), 2, 3)];
    Grow(root, 10, 2, ms, m, {c}, d, a, 2, 4);
  }

  lemma WideTeamIsFresh(root: Id, a: Id, b: Id, c: Id, d: Id)
    requires AllDiffer(root, a, b, c, d)
    ensures Fresh(WideTeam(root, a, b, c, d)) && root in WideTeam(root, a, b, c, d)
  {
  }

  /** What is left of the wide team when its root is gone. */
  predicate WideRest(m: Beats, root: Id, a: Id, b: Id, c: Id, d: Id) {
    && m.Keys == {a, b, c, d} && m[a] == Worker(Some(root), 1, 1) && m[b] == Worker(Some(root), 1, 2)
    && m[c] == Worker(Some(a), 2, 3) && m[d] == Worker(Some(a), 2, 4)
  }

  lemma WideRestIs(kept: Registry, reg: Registry, root: Id, a: Id, b: Id, c: Id, d: Id)
    requires AllDiffer(root, a, b, c, d) && reg.beats == WideTeam(root, a, b, c, d) && Without(reg, root, kept)
    ensures WideRest(kept.beats, root, a, b, c, d)
  {
    assert kept.beats.Keys == {a, b, c, d};
  }

  lemma WideRestChildren(m: Beats, root: Id, a: Id, b: Id, c: Id, d: Id)
    requires AllDiffer(root, a, b, c, d) && WideRest(m, root, a, b, c, d)
    ensures ChildSet(m, a) == {c, d} && ChildSet(m, root) == {a, b}
  {
  }

  lemma UnionOfKids(a: Id, b: Id, c: Id, d: Id)
    requires a != b
    ensures {c, d} + ({a, b} - {a}) == {b, c, d}
  {
  }

  /** The first child then gets three children. */
  lemma WidePromotion(kept: Registry, root: Id, a: Id, b: Id, c: Id, d: Id)
    requires kept.Valid() && AllDiffer(root, a, b, c, d) && WideRest(kept.beats, root, a, b, c, d)
    ensures ChildSet(PromoteOrphans(kept), a) == {b, c, d}
  {
    EarliestLeads(kept, root, a);
    PromotedChildren(kept, root);
    WideRestChildren(kept.beats, root, a, b, c, d);
    UnionOfKids(a, b, c, d);
  }

  lemma ThreeChildren(m: Beats, p: Id, b: Id, c: Id, d: Id)
    requires ChildSet(m, p) == {b, c, d} && b != c && b != d && c != d
    ensures |ChildSet(m, p)| == 3 && !FanOutWithin(m, Promoting(10, 2))
  {
    DistinctSize([b, c, d]);
    assert ToSet([b, c, d]) == {b, c, d};
  }

  lemma RootIsWithin(root: Id, agents: int, children: int, moments: seq<Moment>)
    requires 1 <= agents && 0 <= children && DisciplinedRun(Alone(root), Promoting(agents, children), moments)
    ensures WithinLimits(Run(Alone(root), moments).beats, Promoting(agents, children), 100.0)
  {
    RunsFromRootStayWithinLimits(root, Worker(None, 0, 0), Promoting(agents, children), moments);
  }

  /**
   * Guarded spawns and one report take a run to a map within all limits, and the next pass
   * gives the promoted lead three children where two are allowed.
   */
  lemma PromotionExceedsFanOut(root: Id, a: Id, b: Id, c: Id, d: Id)
    requires AllDiffer(root, a, b, c, d)
    ensures var cfg := Promoting(10, 2);
      var fall := WideSpawns(root, a, b, c, d) + Overspending(root, 101, cfg, 0);
      && DisciplinedRun(Alone(root), cfg, fall)
      && WithinLimits(Run(Alone(root), fall).beats, cfg, 100.0)
      && !FanOutWithin(Run(Alone(root), fall + [Moment(Heal, cfg, 0)]).beats, cfg)
  {
    var cfg, spawns := Promoting(10, 2), WideSpawns(root, a, b, c, d);
    WideTeamGrows(root, a, b, c, d);
    WideTeamIsFresh(root, a, b, c, d);
    FreshIsQuiet(Run(Alone(root), spawns), 10, 2);
    var two, kept := OverspendingPromotes(Alone(root), cfg, spawns, root, 101, 0);
    WideRestIs(kept, Run(Alone(root), spawns), root, a, b, c, d);
    WidePromotion(kept, root, a, b, c, d);
    ThreeChildren(PromoteOrphans(kept), a, b, c, d);
    RootIsWithin(root, 10, 2, spawns + Overspending(root, 101, cfg, 0));
  }

  // ---- A child no deeper than its parent ---------------------------------------------------

  /** A grandchild that started before its uncle. */
  function DeepTeam(root: Id, a: Id, b: Id, c: Id): Beats {
    Two(root, a)[c := Worker(Some(a), 2, 2)][b := Worker(Some(root), 1, 3)]
  }

  function DeepSpawns(root: Id, a: Id, b: Id, c: Id): seq<Moment> {
    var cfg := Promoting(10, 16);
    [] + [Spawn(a, root, 1, 1, cfg)] + [Spawn(c, a, 2, 2, cfg)] + [Spawn(b, root, 1, 3, cfg)]
  }

  lemma DeepTeamGrows(root: Id, a: Id, b: Id, c: Id)
    requires root != a && root != b && root != c && a != b && a != c && b != c
    ensures DisciplinedRun(Alone(root), Promoting(10, 16), DeepSpawns(root, a, b, c))
    ensures Run(Alone(root), DeepSpawns(root, a, b, c)).beats == DeepTeam(root, a, b, c)
  {
    var cfg := Promoting(10, 16);
    FirstSpawn(root, a, 10, 16);
    var ms, m := [] + [Spawn(a, root, 1, 1, cfg)], Two(root, a);
    Grow(root, 10, 16, ms, m, {}, c, a, 2, 2);
    ms, m := ms + [Spawn(c, a, 2, 2, cfg)], m[c := Worker(Some(a), 2, 2)];
    Grow(root, 10, 16, ms, m, {a}, b, root, 1, 3);
  }

  /** The team after its root has gone: the first child is a root above the others. */
  predicate Inherited(m: Beats, a: Id, b: Id, c: Id) {
    && m.Keys == {a, b, c} && m[a] == Worker(None, 0, 1)
    && m[c] == Worker(Some(a), 2, 2) && m[b] == Worker(Some(a), 1, 3)
  }

  predicate DeepRest(m: Beats, root: Id, a: Id, b: Id, c: Id) {
    && m.Keys == {a, b, c} && m[a] == Worker(Some(root), 1, 1)
    && m[c] == Worker(Some(a), 2, 2) && m[b] == Worker(Some(root), 1, 3)
  }

  lemma DeepRestIs(kept: Registry, reg: Registry, root: Id, a: Id, b: Id, c: Id)
    requires root != a && root != b && root != c && a != b && a != c && b != c
    requires reg.beats == DeepTeam(root, a, b, c) && Without(reg, root, kept)
    ensures DeepRest(kept.beats, root, a, b, c)
  {
    assert kept.beats.Keys == {a, b, c};
  }

  lemma DeepPromotion(kept: Registry, root: Id, a: Id, b: Id, c: Id)
    requires root != a && root != b && root != c && a != b && a != c && b != c
    requires kept.Valid() && DeepRest(kept.beats, root, a, b, c)
    ensures Inherited(PromoteOrphans(kept), a, b, c)
  {
    EarliestLeads(kept, root, a);
    assert a in Orphans(kept.beats) && b in Orphans(kept.beats) && c !in Orphans(kept.beats);
  }

  /** When the inheritor has gone too, the grandchild leads, and the uncle under it is no deeper. */
  lemma DeepInversion(kept: Registry, reg: Registry, a: Id, b: Id, c: Id)
    requires a != b && a != c && b != c && Inherited(reg.beats, a, b, c) && Without(reg, a, kept)
    ensures !EdgesDeepen(PromoteOrphans(kept))
  {
    EarliestLeads(kept, a, c);
    assert kept.beats.Keys == {b, c};
    assert b in Orphans(kept.beats) && c in Orphans(kept.beats);
    var m := PromoteOrphans(kept);
    assert m[c].depth == 1 && m[b].depth == 1 && m[b].parentId == Some(c);
    assert !DeeperThan(m, b, c);
  }

  lemma FewHaveRoom(kept: Registry, agents: int)
    requires kept.Valid() && |kept.beats.Keys| <= 8
    ensures LeadsHaveRoom(kept, Promoting(agents, 16))
  {
    forall gone ensures LeadHasRoom(kept, Promoting(agents, 16), gone) {
      SubsetSize(ChildSet(kept.beats, gone), kept.beats.Keys);
      SubsetSize(ChildSet(kept.beats, Lead(kept, gone)), kept.beats.Keys);
    }
  }

  lemma InheritedIsQuiet(reg: Registry, a: Id, b: Id, c: Id)
    requires reg.Valid() && a != b && a != c && b != c && Inherited(reg.beats, a, b, c)
    ensures Quiet(reg, Promoting(10, 16), 0)
  {
    FreshIsQuiet(reg, 10, 16);
  }

  /** The moments after which the first child of the deep team is a root above the others. */
  function DeepRun(root: Id, a: Id, b: Id, c: Id): seq<Moment> {
    var cfg := Promoting(10, 16);
    DeepSpawns(root, a, b, c) + Overspending(root, 101, cfg, 0) + [Moment(Heal, cfg, 0)]
  }

  lemma DeepRunKeeps(root: Id, a: Id, b: Id, c: Id) returns (kept: Registry)
    requires root != a && root != b && root != c && a != b && a != c && b != c
    ensures kept.Valid() && DeepRest(kept.beats, root, a, b, c)
    ensures Run(Alone(root), DeepRun(root, a, b, c)).beats == PromoteOrphans(kept)
    ensures LeadsHaveRoom(kept, Promoting(10, 16)) ==>
      DisciplinedRun(Alone(root), Promoting(10, 16), DeepRun(root, a, b, c))
  {
    var cfg, spawns := Promoting(10, 16), DeepSpawns(root, a, b, c);
    DeepTeamGrows(root, a, b, c);
    DeepTeamIsFresh(root, a, b, c);
    FreshIsQuiet(Run(Alone(root), spawns), 10, 16);
    var two;
    two, kept := OverspendingPromotes(Alone(root), cfg, spawns, root, 101, 0);
    DeepRestIs(kept, Run(Alone(root), spawns), root, a, b, c);
  }

  lemma DeepTeamIsFresh(root: Id, a: Id, b: Id, c: Id)
    requires root != a && root != b && root != c && a != b && a != c && b != c
    ensures Fresh(DeepTeam(root, a, b, c)) && root in DeepTeam(root, a, b, c)
  {
  }

  lemma DeepRunInherits(root: Id, a: Id, b: Id, c: Id)
    requires root != a && root != b && root != c && a != b && a != c && b != c
    ensures DisciplinedRun(Alone(root), Promoting(10, 16), DeepRun(root, a, b, c))
    ensures Inherited(Run(Alone(root), DeepRun(root, a, b, c)).beats, a, b, c)
  {
    var kept := DeepRunKeeps(root, a, b, c);
    DeepPromotion(kept, root, a, b, c);
    SmallHasRoom(kept, a, b, c);
  }

  lemma SmallHasRoom(kept: Registry, a: Id, b: Id, c: Id)
    requires kept.Valid() && kept.beats.Keys <= {a, b, c}
    ensures LeadsHaveRoom(kept, Promoting(10, 16))
  {
    SubsetSize(kept.beats.Keys, {a, b, c});
    FewHaveRoom(kept, 10);
  }

  /**
   * A run disciplined to its end, in which the first child of the root and then the root's
   * successor overspend: depth grows along every edge until the last pass hangs an agent
   * from a grandchild no less deep.
   */
  lemma PromotionFlattensDepth(root: Id, a: Id, b: Id, c: Id)
    requires root != a && root != b && root != c && a != b && a != c && b != c
    ensures var cfg := Promoting(10, 16);
      var fall := DeepRun(root, a, b, c) + Overspending(a, 101, cfg, 0);
      && DisciplinedRun(Alone(root), cfg, fall + [Moment(Heal, cfg, 0)])
      && EdgesDeepen(Run(Alone(root), fall).beats)
      && !EdgesDeepen(Run(Alone(root), fall + [Moment(Heal, cfg, 0)]).beats)
  {
    DeepRunInherits(root, a, b, c);
    InheritorFalls(root, DeepRun(root, a, b, c), a, b, c);
  }

  lemma InheritorFalls(root: Id, before: seq<Moment>, a: Id, b: Id, c: Id)
    requires a != b && a != c && b != c && DisciplinedRun(Alone(root), Promoting(10, 16), before)
    requires Inherited(Run(Alone(root), before).beats, a, b, c)
    ensures var cfg := Promoting(10, 16);
      var fall := before + Overspending(a, 101, cfg, 0);
      && DisciplinedRun(Alone(root), cfg, fall + [Moment(Heal, cfg, 0)])
      && EdgesDeepen(Run(Alone(root), fall).beats)
      && !EdgesDeepen(Run(Alone(root), fall + [Moment(Heal, cfg, 0)]).beats)
  {
    var reg := Run(Alone(root), before);
    InheritedIsQuiet(reg, a, b, c);
    var two, kept := OverspendingPromotes(Alone(root), Promoting(10, 16), before, a, 101, 0);
    FallenDeepens(reg, two, a, b, c);
    DeepInversion(kept, reg, a, b, c);
    SmallHasRoom(kept, a, b, c);
  }

  lemma FallenDeepens(reg: Registry, fallen: Registry, a: Id, b: Id, c: Id)
    requires a != b && a != c && b != c && Inherited(reg.beats, a, b, c) && SameButOne(reg, fallen, a)
    ensures EdgesDeepen(fallen.beats)
  {
  }

  // ---- More agents than allowed --------------------------------------------------------------

  function Slaughtered(root: Id, a: Id): Beats { Two(root, a)[a := Slain(Two(root, a)[a], 0)] }

  lemma OnlyTheChild(root: Id, a: Id)
    requires root != a
    ensures MayKill(Two(root, a), root, a) && Subtrees(Two(root, a), {a}) == {a}
  {
    var m := Two(root, a);
    AboveStep(m, root, a);
    forall x ensures !Above(m, a, x) {
      AboveStep(m, a, x);
      AboveStep(m, a, root);
    }
  }

  lemma KillsTheChild(root: Id, a: Id)
    requires root != a
    ensures Updated(Two(root, a), Kill(root, a), 0) == Slaughtered(root, a)
  {
    OnlyTheChild(root, a);
  }

  /** A child is spawned and killed, and another takes its place. */
  function Replacing(root: Id, a: Id, b: Id): seq<Moment> {
    var cfg := Promoting(2, 16);
    [] + [Spawn(a, root, 1, 1, cfg)] + [Moment(Kill(root, a), cfg, 0)] + [Spawn(b, root, 1, 2, cfg)]
  }

  lemma ReplacingRuns(root: Id, a: Id, b: Id)
    requires root != a && root != b && a != b
    ensures DisciplinedRun(Alone(root), Promoting(2, 16), Replacing(root, a, b))
    ensures Run(Alone(root), Replacing(root, a, b)).beats == Slaughtered(root, a)[b := Worker(Some(root), 1, 2)]
  {
    var cfg := Promoting(2, 16);
    FirstSpawn(root, a, 2, 16);
    var ms := [] + [Spawn(a, root, 1, 1, cfg)];
    KillsTheChild(root, a);
    var r := Extend(Alone(root), cfg, ms, Kill(root, a), 0);
    var m := Slaughtered(root, a);
    RoomAfterKill(root, a);
    var _ := SpawnStep(root, 2, 16, ms + [Moment(Kill(root, a), cfg, 0)], b, root, 1, 2);
  }

  lemma RoomAfterKill(root: Id, a: Id)
    requires root != a
    ensures HasRoom(Slaughtered(root, a), 2, 16, root, 1)
  {
    var m := Slaughtered(root, a);
    assert ActiveSet(m) == {root};
    SubsetSize(ChildSet(m, root), {a});
  }

  lemma ThreeActive(m: Beats, root: Id, a: Id, b: Id)
    requires root != a && root != b && a != b && m.Keys == {root, a, b}
    requires m[root].status.Alive? && m[a].status.Alive? && m[b].status.Alive?
    ensures |ActiveSet(m)| == 3
  {
    assert ActiveSet(m) == {root, a, b};
  }

  /**
   * Guarded spawns and a kill take a run to a map within all limits, with as many agents as
   * allowed; a heartbeat by which the killed agent says it is alive then makes one too many.
   */
  lemma RevivalExceedsPopulation(root: Id, a: Id, b: Id)
    requires root != a && root != b && a != b
    ensures var cfg := Promoting(2, 16);
      var before, revival := Replacing(root, a, b), Moment(Beat(a, None, None, Some(Alive)), cfg, 0);
      && DisciplinedRun(Alone(root), cfg, before)
      && WithinLimits(Run(Alone(root), before).beats, cfg, 100.0)
      && |ActiveSet(Run(Alone(root), before + [revival]).beats)| == 3 > cfg.globalMaxAgents
  {
    var cfg, before := Promoting(2, 16), Replacing(root, a, b);
    var revival := Moment(Beat(a, None, None, Some(Alive)), cfg, 0);
    ReplacingRuns(root, a, b);
    RootIsWithin(root, 2, 16, before);
    RunLast(Alone(root), before, revival);
    ThreeActive(Run(Alone(root), before + [revival]).beats, root, a, b);
  }
}
