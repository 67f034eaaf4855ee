/** What becomes of each agent. */
module AgentFates {
  import opened Collections
  import opened StableSort
  import opened AgentForest
  import opened AgentLifecycle

  // ---- Who survives a healing pass ------------------------------------------------

  /** Dead already, or found dead from its status and the age of its last beat alone. */
  predicate Fell(hb: Heartbeat, cfg: Config, now: int) {
    var age := now - hb.lastBeat;
    || hb.status.Dead?
    || (hb.status.Stale? && age >= cfg.deadThreshold)
    || (hb.status.Alive? && age >= cfg.staleThreshold && age >= cfg.deadThreshold)
  }

  /** Alive, but silent for too long. */
  predicate Silent(hb: Heartbeat, cfg: Config, now: int) {
    hb.status.Alive? && now - hb.lastBeat >= cfg.staleThreshold
  }

  lemma DetectedStatus(hb: Heartbeat, cfg: Config, now: int)
    ensures Detected(hb, cfg, now).status
      == if Fell(hb, cfg, now) then Dead else if Silent(hb, cfg, now) then Stale else hb.status
    ensures Detected(hb, cfg, now) == hb.(status := Detected(hb, cfg, now).status)
  {
  }

  /** Neither fallen nor killed, and completed or with nobody fallen above it. */
  ghost predicate Survives(m: Beats, cfg: Config, now: int, x: Id) {
    && x in m && !Fell(m[x], cfg, now) && !m[x].status.Killed?
    && (m[x].status.Completed? || forall r :: r in m && Above(m, r, x) ==> !Fell(m[r], cfg, now))
  }

  lemma SweptSurvivesIff(m: Beats, cfg: Config, now: int, x: Id)
    ensures x in Reap(Swept(m, cfg, now)) <==> Survives(m, cfg, now, x)
  {
    var seen := Detect(m, cfg, now);
    SameParentsSameAbove(m, seen);
    if x in m {
      DetectedStatus(m[x], cfg, now);
      forall r | r in m ensures r in DeadOf(seen) <==> Fell(m[r], cfg, now) { DetectedStatus(m[r], cfg, now); }
      assert x in Under(seen, DeadOf(seen)) <==> exists r :: r in DeadOf(seen) && Above(m, r, x);
    }
  }

  /** Silence, and only silence or an earlier kill, removes agents: exactly who is left after a pass. */
  lemma SurvivesIff(reg: Registry, cfg: Config, now: int, x: Id)
    requires reg.Valid()
    ensures x in HealTree(reg, cfg, now).beats <==> Survives(reg.beats, cfg, now, x)
  {
    SweptSurvivesIff(reg.beats, cfg, now, x);
  }

  // ---- What a pass does to a survivor -----------------------------------------------

  /** The parent of the agent, or of someone above it, is missing. */
  ghost predicate Stranded(m: Beats, x: Id) {
    exists o :: Orphan(m, o) && (o == x || Above(m, o, x))
  }

  /** What a pass makes of a survivor's status and beat. */
  ghost predicate Marked(was: Heartbeat, after: Heartbeat, stranded: bool, cfg: Config, now: int) {
    var ended := cfg.orphanPolicy.Cascade? && stranded && !was.status.Completed?;
    var overspent := was.status.Alive? && !Silent(was, cfg, now) && was.tokenUsage > was.tokenBudget;
    if ended || overspent then after.status.Killed? && after.lastBeat == now
    else after.lastBeat == was.lastBeat && after.status == if Silent(was, cfg, now) then Stale else was.status
  }

  /** Nothing but status, beat, parent and depth differs. */
  ghost predicate SameWork(was: Heartbeat, after: Heartbeat) {
    && after.startedAt == was.startedAt && after.turnCount == was.turnCount && after.tokenUsage == was.tokenUsage
    && after.purpose == was.purpose && after.tokenBudget == was.tokenBudget
  }

  /** What orphan handling makes of an agent. */
  lemma HandledStatus(kept: Registry, cfg: Config, now: int, x: Id)
    requires kept.Valid() && x in kept.beats
    ensures var was, after := kept.beats[x], HandledOrphans(kept, cfg, now)[x];
      && SameWork(was, after)
      && if cfg.orphanPolicy.Cascade? && x in Subtrees(kept.beats, Orphans(kept.beats)) && !Final(was.status)
         then after.status.Killed? && after.lastBeat == now
         else after.status == was.status && after.lastBeat == was.lastBeat
  {
  }

  lemma CurbedStatus(hb: Heartbeat, now: int)
    ensures var after := Curbed(hb, now);
      && SameWork(hb, after) && after.parentId == hb.parentId && after.depth == hb.depth
      && if hb.status.Alive? && hb.tokenUsage > hb.tokenBudget then after.status.Killed? && after.lastBeat == now
         else after == hb
  {
  }

  lemma StrandedIff(reg: Registry, cfg: Config, now: int, x: Id)
    requires reg.Valid() && cfg.orphanPolicy.Cascade? && x in HealTree(reg, cfg, now).beats
    ensures var kept := Reaped(reg, cfg, now).beats;
      Stranded(HealTree(reg, cfg, now).beats, x) <==> x in Subtrees(kept, Orphans(kept))
  {
    var kept, healed := Reaped(reg, cfg, now).beats, HealTree(reg, cfg, now).beats;
    CascadeEndsSubtrees(reg, cfg, now);
    SameSubtrees(kept, healed);
    StrandedInSubtrees(healed, x);
  }

  lemma StrandedInSubtrees(m: Beats, x: Id)
    requires x in m
    ensures Stranded(m, x) <==> x in Subtrees(m, Orphans(m))
  {
    assert forall o :: Orphan(m, o) <==> o in Orphans(m);
    assert x in Under(m, Orphans(m)) <==> exists o :: o in Orphans(m) && Above(m, o, x);
  }

  /** The exact status and beat of every survivor of a pass. */
  lemma HealedStatus(reg: Registry, cfg: Config, now: int, x: Id)
    requires reg.Valid() && x in HealTree(reg, cfg, now).beats
    ensures x in reg.beats
    ensures var healed := HealTree(reg, cfg, now).beats;
      SameWork(reg.beats[x], healed[x]) && Marked(reg.beats[x], healed[x], Stranded(healed, x), cfg, now)
  {
    var kept := Reaped(reg, cfg, now);
    SurvivesIff(reg, cfg, now, x);
    KeptIsDetected(reg, cfg, now, x);
    DetectedStatus(reg.beats[x], cfg, now);
    HandledStatus(kept, cfg, now, x);
    CurbedStatus(HandledOrphans(kept, cfg, now)[x], now);
    if cfg.orphanPolicy.Cascade? { StrandedIff(reg, cfg, now, x); }
  }

  /** `a` is listed before `b`. */
  ghost predicate Before(order: seq<Id>, a: Id, b: Id) {
    exists i, j :: 0 <= i < j < |order| && order[i] == a && order[j] == b
  }

  lemma BeforeLater(s: seq<Id>, a: Id, b: Id)
    requires s != [] && Before(s[1..], a, b)
    ensures Before(s, a, b)
  {
    var i, j :| 0 <= i < j < |s[1..]| && s[1..][i] == a && s[1..][j] == b;
    assert s[i + 1] == a && s[j + 1] == b;
  }

  lemma BeforeFirst(s: seq<Id>, b: Id)
    requires s != [] && b in s[1..]
    ensures Before(s, s[0], b)
  {
    var j :| 0 <= j < |s[1..]| && s[1..][j] == b;
    assert s[j + 1] == b;
  }

  lemma {:induction false} FilterKeepsOrder(s: seq<Id>, p: Id -> bool, i: nat, j: nat)
    requires i < j < |Filter(s, p)|
    ensures Before(s, Filter(s, p)[i], Filter(s, p)[j])
  {
    var rest := Filter(s[1..], p);
    if !p(s[0]) {
      FilterKeepsOrder(s[1..], p, i, j);
      BeforeLater(s, rest[i], rest[j]);
    } else if i > 0 {
      FilterKeepsOrder(s[1..], p, i - 1, j - 1);
      BeforeLater(s, rest[i - 1], rest[j - 1]);
    } else {
      BeforeFirst(s, rest[j - 1]);
    }
  }

  /** The orphan of `gone` that started first, and of several such the first registered. */
  ghost predicate Eldest(m: Beats, left: set<Id>, order: seq<Id>, gone: Id, lead: Id) {
    && lead in m && lead in left && m[lead].parentId == Some(gone)
    && forall s :: s in m && s in left && m[s].parentId == Some(gone) && s != lead ==>
         m[lead].startedAt < m[s].startedAt || (m[lead].startedAt == m[s].startedAt && Before(order, lead, s))
  }

  /** Where an agent hangs after a pass, when its parent is gone. */
  ghost predicate Moved(was: Heartbeat, after: Heartbeat, policy: OrphanPolicy, isLead: bool, lead: Id) {
    match policy
    case Cascade => after.parentId == was.parentId && after.depth == was.depth
    case Reparent => after.parentId.None? && after.depth == 0
    case Promote =>
      if isLead then after.parentId.None? && after.depth == if was.depth >= 1 then was.depth - 1 else 0
      else after.parentId == Some(lead) && after.depth == was.depth
  }

  lemma LeadIsEldest(kept: Registry, gone: Id)
    requires kept.Valid() && Children(kept, gone) != []
    ensures Eldest(kept.beats, kept.beats.Keys, kept.order, gone, Lead(kept, gone))
  {
    var m, lead := kept.beats, Lead(kept, gone);
    LeadIsEarliestSibling(kept, gone);
    var k :| LeadAt(kept, gone, k);
    forall s | s in m && m[s].parentId == Some(gone) && s != lead
      ensures m[lead].startedAt < m[s].startedAt
        || (m[lead].startedAt == m[s].startedAt && Before(kept.order, lead, s))
    {
      LeadIsElder(kept, gone, k, s);
    }
  }

  lemma LeadIsElder(kept: Registry, gone: Id, k: nat, s: Id)
    requires kept.Valid() && LeadAt(kept, gone, k) && s in kept.beats && s != Lead(kept, gone)
    requires kept.beats[s].parentId == Some(gone) && Lead(kept, gone) in kept.beats
    ensures var m, lead := kept.beats, Lead(kept, gone);
      || m[lead].startedAt < m[s].startedAt
      || (m[lead].startedAt == m[s].startedAt && Before(kept.order, lead, s))
  {
    var siblings := Children(kept, gone);
    assert s in siblings;
    var i :| 0 <= i < |siblings| && siblings[i] == s;
    assert StartedAt(kept.beats, s) == kept.beats[s].startedAt;
    if i > k { FilterKeepsOrder(kept.order, (x: Id) => ParentOf(kept.beats, x) == Some(gone), k, i); }
  }

  lemma EldestBefore(m: Beats, kept: Registry, order: seq<Id>, gone: Id, lead: Id, p: Id -> bool)
    requires kept.order == Filter(order, p) && kept.beats.Keys <= m.Keys
    requires forall x :: x in kept.beats ==>
      kept.beats[x].parentId == m[x].parentId && kept.beats[x].startedAt == m[x].startedAt
    requires Eldest(kept.beats, kept.beats.Keys, kept.order, gone, lead)
    ensures Eldest(m, kept.beats.Keys, order, gone, lead)
  {
    forall s | s in kept.beats && Before(kept.order, lead, s) ensures Before(order, lead, s) {
      var i, j :| 0 <= i < j < |kept.order| && kept.order[i] == lead && kept.order[j] == s;
      FilterKeepsOrder(order, p, i, j);
    }
  }

  lemma HandledPlace(kept: Registry, cfg: Config, now: int, x: Id)
    requires kept.Valid() && x in kept.beats
    ensures var was, after := kept.beats[x], HandledOrphans(kept, cfg, now)[x];
      if x in Orphans(kept.beats)
      then var lead := Lead(kept, was.parentId.value); Moved(was, after, cfg.orphanPolicy, x == lead, lead)
      else after.parentId == was.parentId && after.depth == was.depth
  {
  }

  /** Where an agent hangs after a pass: a new place exactly when its parent is gone, as the policy says. */
  ghost predicate Placed(reg: Registry, healed: Beats, policy: OrphanPolicy, x: Id)
    requires x in reg.beats && x in healed
  {
    var was, after := reg.beats[x], healed[x];
    if was.parentId.Some? && was.parentId.value !in healed
    then exists lead ::
      Eldest(reg.beats, healed.Keys, reg.order, was.parentId.value, lead) && Moved(was, after, policy, x == lead, lead)
    else after.parentId == was.parentId && after.depth == was.depth
  }

  /** The exact place of every survivor of a pass. */
  lemma HealedPlace(reg: Registry, cfg: Config, now: int, x: Id)
    requires reg.Valid() && x in HealTree(reg, cfg, now).beats
    ensures x in reg.beats && Placed(reg, HealTree(reg, cfg, now).beats, cfg.orphanPolicy, x)
  {
    var kept := Reaped(reg, cfg, now);
    var healed := HealTree(reg, cfg, now).beats;
    assert healed.Keys == kept.beats.Keys;
    SurvivesIff(reg, cfg, now, x);
    KeptIsDetected(reg, cfg, now, x);
    DetectedStatus(reg.beats[x], cfg, now);
    HandledPlace(kept, cfg, now, x);
    CurbedStatus(HandledOrphans(kept, cfg, now)[x], now);
    if x in Orphans(kept.beats) {
      var gone := reg.beats[x].parentId.value;
      var lead := Lead(kept, gone);
      assert x in Children(kept, gone);
      LeadIsEldest(kept, gone);
      EldestOfReaped(reg, cfg, now, gone, lead);
    }
  }

  lemma EldestOfReaped(reg: Registry, cfg: Config, now: int, gone: Id, lead: Id)
    requires reg.Valid() && Eldest(Reaped(reg, cfg, now).beats, Reaped(reg, cfg, now).beats.Keys,
      Reaped(reg, cfg, now).order, gone, lead)
    ensures Eldest(reg.beats, Reaped(reg, cfg, now).beats.Keys, reg.order, gone, lead)
  {
    var kept := Reaped(reg, cfg, now);
    forall x | x in kept.beats
      ensures x in reg.beats && kept.beats[x].parentId == reg.beats[x].parentId
        && kept.beats[x].startedAt == reg.beats[x].startedAt
    {
      KeptIsDetected(reg, cfg, now, x);
      DetectedStatus(reg.beats[x], cfg, now);
    }
    var survivors := Reap(Swept(reg.beats, cfg, now));
    EldestBefore(reg.beats, kept, reg.order, gone, lead, (id: Id) => id in survivors);
  }

  // ---- What a pass reports ------------------------------------------------------------

  /** Standing below somebody fallen. */
  ghost predicate FallsWith(m: Beats, cfg: Config, now: int, x: Id) {
    && x in m && !m[x].status.Killed? && !m[x].status.Completed?
    && exists r :: r in m && Above(m, r, x) && Fell(m[r], cfg, now)
  }

  /** The sweep kills whoever stands below somebody fallen. */
  lemma SweptIff(m: Beats, cfg: Config, now: int, x: Id)
    ensures var seen := Detect(m, cfg, now);
      x in Under(seen, DeadOf(seen)) && !Final(seen[x].status) <==> FallsWith(m, cfg, now, x)
  {
    var seen := Detect(m, cfg, now);
    SameParentsSameAbove(m, seen);
    forall r | r in m ensures r in DeadOf(seen) <==> Fell(m[r], cfg, now) { DetectedStatus(m[r], cfg, now); }
    assert x in Under(seen, DeadOf(seen)) <==> x in m && exists r :: r in DeadOf(seen) && Above(m, r, x);
    if x in m { DetectedStatus(m[x], cfg, now); }
  }

  /** Cascading ends the stranded who had not completed; the other policies move whoever lost its parent. */
  ghost function HandledIn(m: Beats, healed: Beats, policy: OrphanPolicy): set<Id> {
    set x | x in m && x in healed && (
      if policy.Cascade? then Stranded(healed, x) && !m[x].status.Completed?
      else m[x].parentId.Some? && m[x].parentId.value !in healed)
  }

  /** Alive with a recent beat and over budget, unless the cascade took it. */
  ghost function CurbedIn(m: Beats, healed: Beats, cfg: Config, now: int): set<Id> {
    set x | x in m && x in healed && m[x].status.Alive? && !Silent(m[x], cfg, now)
      && m[x].tokenUsage > m[x].tokenBudget && !(cfg.orphanPolicy.Cascade? && Stranded(healed, x))
  }

  lemma HandledMembers(reg: Registry, cfg: Config, now: int, x: Id)
    requires reg.Valid() && x in HealTree(reg, cfg, now).beats
    ensures var kept := Reaped(reg, cfg, now).beats;
      x in HandledIn(reg.beats, HealTree(reg, cfg, now).beats, cfg.orphanPolicy) <==>
        if cfg.orphanPolicy.Cascade? then x in Subtrees(kept, Orphans(kept)) && !Final(kept[x].status)
        else x in Orphans(kept)
  {
    assert HealTree(reg, cfg, now).beats.Keys == Reaped(reg, cfg, now).beats.Keys;
    SurvivesIff(reg, cfg, now, x);
    KeptIsDetected(reg, cfg, now, x);
    DetectedStatus(reg.beats[x], cfg, now);
    if cfg.orphanPolicy.Cascade? { StrandedIff(reg, cfg, now, x); }
  }

  lemma CurbedMembers(reg: Registry, cfg: Config, now: int, x: Id)
    requires reg.Valid() && x in HealTree(reg, cfg, now).beats
    ensures x in CurbedIn(reg.beats, HealTree(reg, cfg, now).beats, cfg, now)
      <==> x in Overspent(HandledOrphans(Reaped(reg, cfg, now), cfg, now))
  {
    SurvivesIff(reg, cfg, now, x);
    KeptIsDetected(reg, cfg, now, x);
    DetectedStatus(reg.beats[x], cfg, now);
    HandledStatus(Reaped(reg, cfg, now), cfg, now, x);
    if cfg.orphanPolicy.Cascade? { StrandedIff(reg, cfg, now, x); }
  }

  /** Every survivor has its exact status, beat and place, and nothing else of it changed. */
  ghost predicate HealedAs(was: Registry, healed: Beats, cfg: Config, now: int) {
    && (forall x :: x in healed <==> Survives(was.beats, cfg, now, x))
    && forall x :: x in was.beats && x in healed ==>
         && SameWork(was.beats[x], healed[x])
         && Marked(was.beats[x], healed[x], Stranded(healed, x), cfg, now)
         && Placed(was, healed, cfg.orphanPolicy, x)
  }

  lemma PassHealsAs(reg: Registry, cfg: Config, now: int)
    requires reg.Valid()
    ensures HealedAs(reg, HealTree(reg, cfg, now).beats, cfg, now)
  {
    forall x ensures x in HealTree(reg, cfg, now).beats <==> Survives(reg.beats, cfg, now, x) {
      SurvivesIff(reg, cfg, now, x);
    }
    forall x | x in reg.beats && x in HealTree(reg, cfg, now).beats
      ensures var healed := HealTree(reg, cfg, now).beats;
        && SameWork(reg.beats[x], healed[x])
        && Marked(reg.beats[x], healed[x], Stranded(healed, x), cfg, now)
        && Placed(reg, healed, cfg.orphanPolicy, x)
    {
      HealedStatus(reg, cfg, now, x);
      HealedPlace(reg, cfg, now, x);
    }
  }

  lemma HandledAre(reg: Registry, cfg: Config, now: int)
    requires reg.Valid()
    ensures var kept := Reaped(reg, cfg, now).beats;
      HandledIn(reg.beats, HealTree(reg, cfg, now).beats, cfg.orphanPolicy)
        == if cfg.orphanPolicy.Cascade?
           then set x | x in Subtrees(kept, Orphans(kept)) && !Final(kept[x].status) else Orphans(kept)
  {
    var kept, healed := Reaped(reg, cfg, now).beats, HealTree(reg, cfg, now).beats;
    assert healed.Keys == kept.Keys;
    forall x | x in healed
      ensures x in reg.beats
      ensures x in HandledIn(reg.beats, healed, cfg.orphanPolicy) <==>
        if cfg.orphanPolicy.Cascade? then x in Subtrees(kept, Orphans(kept)) && !Final(kept[x].status)
        else x in Orphans(kept)
    {
      SurvivesIff(reg, cfg, now, x);
      HandledMembers(reg, cfg, now, x);
    }
  }

  lemma CurbedAre(reg: Registry, cfg: Config, now: int)
    requires reg.Valid()
    ensures CurbedIn(reg.beats, HealTree(reg, cfg, now).beats, cfg, now)
      == Overspent(HandledOrphans(Reaped(reg, cfg, now), cfg, now))
  {
    var handled, healed := HandledOrphans(Reaped(reg, cfg, now), cfg, now), HealTree(reg, cfg, now).beats;
    assert healed.Keys == handled.Keys;
    forall x | x in healed
      ensures x in reg.beats && (x in CurbedIn(reg.beats, healed, cfg, now) <==> x in Overspent(handled))
    {
      SurvivesIff(reg, cfg, now, x);
      CurbedMembers(reg, cfg, now, x);
    }
  }

  /** How many agents a pass ends, moves and curbs, told from the maps before and after. */
  lemma PassCounts(reg: Registry, cfg: Config, now: int)
    requires reg.Valid()
    ensures var kept, handled, healed :=
        Reaped(reg, cfg, now).beats, HandledOrphans(Reaped(reg, cfg, now), cfg, now), HealTree(reg, cfg, now).beats;
      && HandledIn(reg.beats, healed, cfg.orphanPolicy)
        == (if cfg.orphanPolicy.Cascade?
            then set x | x in Subtrees(kept, Orphans(kept)) && !Final(kept[x].status) else Orphans(kept))
      && CurbedIn(reg.beats, healed, cfg, now) == Overspent(handled)
  {
    HandledAre(reg, cfg, now);
    CurbedAre(reg, cfg, now);
  }
}
