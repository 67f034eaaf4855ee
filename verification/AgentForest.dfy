/** The agent map, its parent relation, and the two walks over it. */
module AgentForest {
  import opened Collections

  type Id = string

  datatype Status = Alive | Stale | Dead | Killed | Completed | Error

  datatype Heartbeat = Heartbeat(
    lastBeat: int,
    startedAt: int,
    turnCount: int,
    tokenUsage: int,
    status: Status,
    parentId: Option<Id>,
    depth: int,
    purpose: string,
    tokenBudget: int)

  type Beats = map<Id, Heartbeat>

  /** The agent map: heartbeats by id, and the ids in insertion order. */
  datatype Registry = Registry(beats: Beats, order: seq<Id>) {

    ghost predicate Valid() {
      && Distinct(order)
      && (forall id :: id in order <==> id in beats)
    }

    /** Storing under a present key keeps its place in the order. */
    function Put(id: Id, hb: Heartbeat): (r: Registry)
      requires Valid()
      ensures r.Valid()
      ensures r.beats == beats[id := hb]
    {
      Registry(beats[id := hb], if id in beats then order else order + [id])
    }

    /** Replace heartbeats in place, keeping the keys and their order. */
    function With(updated: Beats): (r: Registry)
      requires Valid() && updated.Keys == beats.Keys
      ensures r.Valid() && r.order == order
    {
      Registry(updated, order)
    }

    /** Keep only the agents in `kept`. */
    function Restrict(kept: Beats): (r: Registry)
      requires Valid() && kept.Keys <= beats.Keys
      ensures r.Valid() && r.beats == kept
    {
      FilterDistinct(order, (id: Id) => id in kept);
      Registry(kept, Filter(order, (id: Id) => id in kept))
    }
  }

  function ParentOf(m: Beats, x: Id): Option<Id> {
    if x in m then m[x].parentId else None
  }

  /** The agent reached from `x` by following `n` parent pointers. */
  ghost function Up(m: Beats, x: Id, n: nat): Option<Id>
    decreases n
  {
    if n == 0 then Some(x)
    else match ParentOf(m, x)
      case None => None
      case Some(p) => Up(m, p, n - 1)
  }

  /** `a` is a strict ancestor of `d`. */
  ghost predicate Above(m: Beats, a: Id, d: Id) {
    exists n: nat :: n >= 1 && Up(m, d, n) == Some(a)
  }

  lemma AboveStep(m: Beats, a: Id, d: Id)
    ensures Above(m, a, d) <==>
      ParentOf(m, d).Some? && (ParentOf(m, d).value == a || Above(m, a, ParentOf(m, d).value))
  {
    match ParentOf(m, d)
    case None =>
    case Some(p) =>
      if Above(m, a, d) {
        var n: nat :| n >= 1 && Up(m, d, n) == Some(a);
        assert Up(m, p, n - 1) == Some(a);
      }
      if p == a {
        assert Up(m, p, 0) == Some(a);
        assert Up(m, d, 1) == Some(a);
      } else if Above(m, a, p) {
        var n: nat :| n >= 1 && Up(m, p, n) == Some(a);
        assert Up(m, d, n + 1) == Some(a);
      }
  }

  lemma {:induction false} UpAdd(m: Beats, x: Id, i: nat, j: nat)
    requires Up(m, x, i).Some?
    ensures Up(m, x, i + j) == Up(m, Up(m, x, i).value, j)
    decreases i
  {
    if i > 0 {
      UpAdd(m, ParentOf(m, x).value, i - 1, j);
    }
  }

  lemma AboveTransitive(m: Beats, a: Id, b: Id, c: Id)
    requires Above(m, a, b) && Above(m, b, c)
    ensures Above(m, a, c)
  {
    var i: nat :| i >= 1 && Up(m, b, i) == Some(a);
    var j: nat :| j >= 1 && Up(m, c, j) == Some(b);
    UpAdd(m, c, j, i);
    assert Up(m, c, j + i) == Some(a);
  }

  ghost predicate SameParents(m: Beats, m': Beats) {
    m.Keys == m'.Keys && forall x :: x in m ==> m[x].parentId == m'[x].parentId
  }

  lemma {:induction false} SameParentsSameUp(m: Beats, m': Beats, x: Id, n: nat)
    requires SameParents(m, m')
    ensures Up(m, x, n) == Up(m', x, n)
    decreases n
  {
    if n > 0 && ParentOf(m, x).Some? {
      SameParentsSameUp(m, m', ParentOf(m, x).value, n - 1);
    }
  }

  lemma SameParentsSameAbove(m: Beats, m': Beats)
    requires SameParents(m, m')
    ensures forall a, d :: Above(m, a, d) <==> Above(m', a, d)
  {
    forall x, n: nat ensures Up(m, x, n) == Up(m', x, n) {
      SameParentsSameUp(m, m', x, n);
    }
  }

  /** In a sub-map with the same pointers, ancestry can only shrink. */
  lemma {:induction false} SubmapUp(m: Beats, m': Beats, x: Id, n: nat)
    requires m'.Keys <= m.Keys && forall k :: k in m' ==> m'[k].parentId == m[k].parentId
    requires Up(m', x, n).Some?
    ensures Up(m, x, n) == Up(m', x, n)
    decreases n
  {
    if n > 0 {
      SubmapUp(m, m', ParentOf(m', x).value, n - 1);
    }
  }

  // ---- Acyclicity -----------------------------------------------------------

  /** `rank` grows strictly along every parent edge inside the map. */
  ghost predicate Ranked(m: Beats, rank: map<Id, nat>) {
    && m.Keys <= rank.Keys
    && forall x :: x in m && m[x].parentId.Some? && m[x].parentId.value in m
         ==> rank[m[x].parentId.value] < rank[x]
  }

  ghost predicate Acyclic(m: Beats) { exists rank :: Ranked(m, rank) }

  lemma {:induction false} UpLowersRank(m: Beats, rank: map<Id, nat>, x: Id, n: nat)
    requires Ranked(m, rank) && x in m && n >= 1
    requires Up(m, x, n).Some? && Up(m, x, n).value in m
    ensures rank[Up(m, x, n).value] < rank[x]
    decreases n
  {
    var p := ParentOf(m, x).value;
    if n > 1 {
      assert Up(m, p, n - 1).Some?;
      assert p in m;
      UpLowersRank(m, rank, p, n - 1);
    }
  }

  lemma AboveLowersRank(m: Beats, rank: map<Id, nat>, a: Id, d: Id)
    requires Ranked(m, rank) && Above(m, a, d) && a in m
    ensures d in m && rank[a] < rank[d]
  {
    AboveStep(m, a, d);
    var n: nat :| n >= 1 && Up(m, d, n) == Some(a);
    UpLowersRank(m, rank, d, n);
  }

  lemma NoSelfAncestor(m: Beats, x: Id)
    requires Acyclic(m)
    ensures !Above(m, x, x)
  {
    if Above(m, x, x) {
      var rank :| Ranked(m, rank);
      AboveStep(m, x, x);
      AboveLowersRank(m, rank, x, x);
    }
  }

  /** Steps from `x` inside the map, at most `fuel`. */
  ghost function Height(m: Beats, x: Id, fuel: nat): nat
    decreases fuel
  {
    if fuel == 0 || x !in m then 0
    else match m[x].parentId
      case None => 1
      case Some(p) => 1 + Height(m, p, fuel - 1)
  }

  lemma {:induction false} HeightExhausted(m: Beats, x: Id, fuel: nat)
    requires Height(m, x, fuel) == fuel
    ensures forall i :: 0 <= i < fuel ==> Up(m, x, i).Some? && Up(m, x, i).value in m
    decreases fuel
  {
    if fuel > 0 {
      forall i | 0 <= i < fuel ensures Up(m, x, i).Some? && Up(m, x, i).value in m {
        if i > 0 {
          HeightExhausted(m, m[x].parentId.value, fuel - 1);
        }
      }
    }
  }

  /** A chain longer than the map visits some agent twice. */
  lemma ChainFits(m: Beats, x: Id, k: nat)
    requires forall y :: !Above(m, y, y)
    requires forall i :: 0 <= i < k ==> Up(m, x, i).Some? && Up(m, x, i).value in m
    ensures k <= |m|
  {
    var chain := seq(k, i requires 0 <= i < k => Up(m, x, i).value);
    forall i, j | 0 <= i < j < k ensures chain[i] != chain[j] {
      UpAdd(m, x, i, j - i);
      assert chain[i] == chain[j] ==> Above(m, chain[i], chain[i]);
    }
    DistinctSize(chain);
    SubsetSize(ToSet(chain), m.Keys);
  }

  lemma {:induction false} HeightBounded(m: Beats, x: Id, fuel: nat)
    ensures Height(m, x, fuel) <= fuel
    decreases fuel
  {
    if fuel > 0 && x in m && m[x].parentId.Some? {
      HeightBounded(m, m[x].parentId.value, fuel - 1);
    }
  }

  lemma {:induction false} HeightStable(m: Beats, x: Id, fuel: nat)
    requires Height(m, x, fuel) < fuel
    ensures Height(m, x, fuel + 1) == Height(m, x, fuel)
    decreases fuel
  {
    if x in m && m[x].parentId.Some? {
      HeightStable(m, m[x].parentId.value, fuel - 1);
    }
  }

  /** Being ranked is exactly having no agent among its own ancestors. */
  lemma AcyclicIffNoCycle(m: Beats)
    ensures Acyclic(m) <==> forall x :: !Above(m, x, x)
  {
    if Acyclic(m) {
      forall x ensures !Above(m, x, x) { NoSelfAncestor(m, x); }
    }
    if forall x :: !Above(m, x, x) {
      var fuel := |m| + 1;
      var rank: map<Id, nat> := map x | x in m :: Height(m, x, fuel);
      forall x | x in m && m[x].parentId.Some? && m[x].parentId.value in m
        ensures rank[m[x].parentId.value] < rank[x]
      {
        var p := m[x].parentId.value;
        HeightBounded(m, p, fuel);
        HeightBounded(m, p, |m|);
        HeightBounded(m, x, fuel);
        if Height(m, x, fuel) == fuel {
          HeightExhausted(m, x, fuel);
          ChainFits(m, x, fuel);
        }
        HeightStable(m, p, |m|);
      }
      assert Ranked(m, rank);
    }
  }

  /** Every in-map parent chain that meets no orphan ends at a parentless root. */
  ghost predicate Orphan(m: Beats, x: Id) {
    x in m && m[x].parentId.Some? && m[x].parentId.value !in m
  }

  ghost predicate Rooted(m: Beats, x: Id) {
    exists n: nat :: Up(m, x, n).Some? && Up(m, x, n).value in m && m[Up(m, x, n).value].parentId.None?
  }

  lemma {:induction false} RootedUnlessBelowOrphan(m: Beats, rank: map<Id, nat>, x: Id)
    requires Ranked(m, rank) && x in m
    requires !Orphan(m, x) && forall o :: Orphan(m, o) ==> !Above(m, o, x)
    ensures Rooted(m, x)
    decreases rank[x]
  {
    match m[x].parentId
    case None =>
      assert Up(m, x, 0) == Some(x);
    case Some(p) =>
      AboveStep(m, p, x);
      forall o | Orphan(m, o) ensures !Above(m, o, p) {
        AboveStep(m, o, x);
      }
      RootedUnlessBelowOrphan(m, rank, p);
      var n: nat :| Up(m, p, n).Some? && Up(m, p, n).value in m && m[Up(m, p, n).value].parentId.None?;
      assert Up(m, x, n + 1) == Up(m, p, n);
  }

  // ---- Registering an agent --------------------------------------------------

  /** What a caller can check before registering: the new parent edge closes no loop. */
  ghost predicate SafeParent(m: Beats, id: Id, hb: Heartbeat) {
    match hb.parentId
    case None => true
    case Some(p) => p != id && !Above(m, id, p)
  }

  lemma RegisterKeepsRank(m: Beats, rank: map<Id, nat>, id: Id, hb: Heartbeat)
    requires Ranked(m, rank) && SafeParent(m, id, hb)
    ensures Acyclic(m[id := hb])
  {
    var base: nat := 1 + match hb.parentId
      case None => 0
      case Some(p) => if p in m then rank[p] else 0;
    var m' := m[id := hb];
    var rank': map<Id, nat> := map x | x in m' ::
      if x == id then base
      else if Above(m, id, x) then base + 1 + rank[x]
      else rank[x];
    forall x | x in m' && m'[x].parentId.Some? && m'[x].parentId.value in m'
      ensures rank'[m'[x].parentId.value] < rank'[x]
    {
      if x != id {
        AboveStep(m, id, x);
      }
    }
    assert Ranked(m', rank');
  }

  lemma {:induction false} LoopThroughNewEdge(m: Beats, id: Id, hb: Heartbeat, x: Id, n: nat)
    requires n >= 1 && Up(m, x, n) == Some(id)
    ensures x == id || Above(m[id := hb], id, x)
    decreases n
  {
    if x != id {
      var p := ParentOf(m, x).value;
      AboveStep(m[id := hb], id, x);
      if n > 1 {
        LoopThroughNewEdge(m, id, hb, p, n - 1);
      }
    }
  }

  /** Registering keeps the parent relation acyclic exactly when the edge is safe. */
  lemma RegisterAcyclicIff(m: Beats, id: Id, hb: Heartbeat)
    requires Acyclic(m)
    ensures Acyclic(m[id := hb]) <==> SafeParent(m, id, hb)
  {
    if SafeParent(m, id, hb) {
      var rank :| Ranked(m, rank);
      RegisterKeepsRank(m, rank, id, hb);
    } else {
      var m' := m[id := hb];
      var p := hb.parentId.value;
      if p != id {
        var n: nat :| n >= 1 && Up(m, p, n) == Some(id);
        LoopThroughNewEdge(m, id, hb, p, n);
      }
      AboveStep(m', id, id);
      AcyclicIffNoCycle(m');
    }
  }

  /** An id that is neither present nor named as a parent can be added under any other id. */
  ghost predicate FreshId(m: Beats, id: Id) {
    id !in m && forall x :: x in m ==> m[x].parentId != Some(id)
  }

  lemma {:induction false} FreshIdIsNobodysAncestor(m: Beats, id: Id, x: Id, n: nat)
    requires FreshId(m, id) && n >= 1
    ensures Up(m, x, n) != Some(id)
    decreases n
  {
    if n > 1 && ParentOf(m, x).Some? {
      FreshIdIsNobodysAncestor(m, id, ParentOf(m, x).value, n - 1);
    }
  }

  lemma FreshRegistrationSafe(m: Beats, id: Id, hb: Heartbeat)
    requires FreshId(m, id) && hb.parentId != Some(id)
    ensures SafeParent(m, id, hb)
  {
    if hb.parentId.Some? {
      forall n: nat | n >= 1 ensures Up(m, hb.parentId.value, n) != Some(id) {
        FreshIdIsNobodysAncestor(m, id, hb.parentId.value, n);
      }
    }
  }

  // ---- Traversals ---------------------------------------------------------------

  /** The walk up from `d` comes to an end: it leaves the map, or it meets `a`. */
  ghost predicate WalkEnds(m: Beats, a: Id, d: Id) {
    exists n: nat :: Up(m, d, n).None? || (n >= 1 && Up(m, d, n) == Some(a))
  }

  /** In an acyclic map every upward walk ends. */
  lemma {:induction false} AcyclicWalkEnds(m: Beats, rank: map<Id, nat>, a: Id, d: Id)
    requires Ranked(m, rank)
    ensures WalkEnds(m, a, d)
    decreases if d in m then 1 + rank[d] else 0
  {
    match ParentOf(m, d)
    case None =>
      assert Up(m, d, 1).None?;
    case Some(p) =>
      AcyclicWalkEnds(m, rank, a, p);
      var n: nat :| Up(m, p, n).None? || (n >= 1 && Up(m, p, n) == Some(a));
      assert Up(m, d, n + 1) == Up(m, p, n);
  }

  lemma WalkEndsWhenAcyclic(m: Beats, a: Id, d: Id)
    requires Acyclic(m)
    ensures WalkEnds(m, a, d)
  {
    var rank :| Ranked(m, rank);
    AcyclicWalkEnds(m, rank, a, d);
  }

  /** Walk up the parent chain to verify ancestry; a map may have cycles elsewhere. */
  method IsAncestor(agents: Registry, ancestorId: Id, descendantId: Id) returns (r: bool)
    requires WalkEnds(agents.beats, ancestorId, descendantId)
    ensures r <==> Above(agents.beats, ancestorId, descendantId)
  {
    var m := agents.beats;
    ghost var left: nat :| Up(m, descendantId, left).None?
      || (left >= 1 && Up(m, descendantId, left) == Some(ancestorId));
    AboveStep(m, ancestorId, descendantId);
    var cur := ParentOf(m, descendantId);
    left := left - 1;
    while cur.Some?
      invariant Above(m, ancestorId, descendantId) <==>
        cur.Some? && (cur.value == ancestorId || Above(m, ancestorId, cur.value))
      invariant cur.Some? ==> Up(m, cur.value, left).None? || Up(m, cur.value, left) == Some(ancestorId)
      decreases left, cur.Some?
    {
      if cur.value == ancestorId {
        return true;
      }
      AboveStep(m, ancestorId, cur.value);
      cur := ParentOf(m, cur.value);
      left := left - 1;
    }
    return false;
  }

  function ChildrenAmong(m: Beats, ids: seq<Id>, id: Id): seq<Id> {
    Filter(ids, (x: Id) => ParentOf(m, x) == Some(id))
  }

  lemma ChildrenAmongNext(m: Beats, ids: seq<Id>, i: nat, id: Id)
    requires i < |ids|
    ensures ChildrenAmong(m, ids[..i + 1], id)
      == ChildrenAmong(m, ids[..i], id) + if ParentOf(m, ids[i]) == Some(id) then [ids[i]] else []
  {
    assert ids[..i + 1] == ids[..i] + [ids[i]];
    FilterAppend(ids[..i], [ids[i]], (x: Id) => ParentOf(m, x) == Some(id));
  }

  function Children(agents: Registry, id: Id): seq<Id> {
    ChildrenAmong(agents.beats, agents.order, id)
  }

  /** Scan the agents for parent references, in insertion order. */
  method GetDirectChildIds(agents: Registry, agentId: Id) returns (ids: seq<Id>)
    requires agents.Valid()
    ensures ids == Children(agents, agentId) && Distinct(ids)
    ensures forall x :: x in ids <==> x in agents.beats && agents.beats[x].parentId == Some(agentId)
  {
    ids := [];
    for i := 0 to |agents.order|
      invariant ids == ChildrenAmong(agents.beats, agents.order[..i], agentId)
    {
      var a := agents.order[i];
      ChildrenAmongNext(agents.beats, agents.order, i, agentId);
      assert a in agents.beats;
      if agents.beats[a].parentId == Some(agentId) {
        ids := ids + [a];
      }
    }
    assert agents.order[..|agents.order|] == agents.order;
    FilterDistinct(agents.order, (x: Id) => ParentOf(agents.beats, x) == Some(agentId));
  }

  /** The parent of `c` is `root` or one of `found`. */
  ghost predicate HangsFrom(m: Beats, root: Id, found: set<Id>, c: Id) {
    match ParentOf(m, c)
    case None => false
    case Some(p) => p == root || p in found
  }

  /** Whatever is closed under "child of" below `root` holds every descendant. */
  lemma {:induction false} ClosedHoldsDescendants(m: Beats, root: Id, found: set<Id>, x: Id, n: nat)
    requires forall c :: c in m && HangsFrom(m, root, found, c) ==> c in found
    requires n >= 1 && Up(m, x, n) == Some(root)
    ensures x in found
    decreases n
  {
    if n > 1 {
      ClosedHoldsDescendants(m, root, found, ParentOf(m, x).value, n - 1);
    }
  }

  /** What the stack search knows between two pops. */
  ghost predicate SearchState(m: Beats, root: Id, out: seq<Id>, stack: seq<Id>) {
    && Distinct(out + stack)
    && (forall x :: x in out + stack ==> x in m && Above(m, root, x) && HangsFrom(m, root, ToSet(out), x))
    && (forall c :: c in m && HangsFrom(m, root, ToSet(out), c) ==> c in out + stack)
  }

  /** Popping the top and pushing its unseen children repeats no agent. */
  lemma StillDistinct(out: seq<Id>, rest: seq<Id>, id: Id, kids: seq<Id>)
    requires Distinct(out + (rest + [id])) && Distinct(kids)
    requires forall x :: x in kids ==> x !in out + (rest + [id])
    ensures Distinct((out + [id]) + (rest + kids))
  {
    DistinctSplit(out, rest + [id]);
    DistinctSplit(rest, [id]);
    assert ToSet(rest + [id]) == ToSet(rest) + {id} && ToSet([id]) == {id};
    forall x | x in kids ensures x !in out && x !in rest && x != id {
      assert x !in out + (rest + [id]);
    }
    DistinctAppend(out, [id]);
    DistinctAppend(rest, kids);
    DistinctAppend(out + [id], rest + kids);
  }

  /** A child of the popped agent was neither found nor waiting before. */
  lemma KidIsNew(m: Beats, root: Id, out: seq<Id>, rest: seq<Id>, id: Id, x: Id)
    requires !Above(m, root, root) && SearchState(m, root, out, rest + [id])
    requires x in m && m[x].parentId == Some(id)
    ensures x !in out + (rest + [id])
  {
    DistinctSplit(out, rest + [id]);
    assert id in ToSet(rest + [id]) && id in out + (rest + [id]);
    assert x in out + (rest + [id]) ==> HangsFrom(m, root, ToSet(out), x);
  }

  lemma PopAndExpand(m: Beats, root: Id, out: seq<Id>, rest: seq<Id>, id: Id, kids: seq<Id>)
    requires !Above(m, root, root) && SearchState(m, root, out, rest + [id])
    requires Distinct(kids)
    requires forall x :: x in kids <==> x in m && m[x].parentId == Some(id)
    ensures SearchState(m, root, out + [id], rest + kids)
  {
    forall x | x in kids ensures x !in out + (rest + [id]) { KidIsNew(m, root, out, rest, id, x); }
    StillDistinct(out, rest, id, kids);
    assert id in out + (rest + [id]);
    assert ToSet(out + [id]) == ToSet(out) + {id};
    forall x | x in (out + [id]) + (rest + kids)
      ensures x in m && Above(m, root, x) && HangsFrom(m, root, ToSet(out + [id]), x)
    {
      if x in kids {
        AboveStep(m, root, x);
      } else {
        assert x in out + (rest + [id]);
      }
    }
    forall c | c in m && HangsFrom(m, root, ToSet(out + [id]), c) ensures c in (out + [id]) + (rest + kids) {
      if HangsFrom(m, root, ToSet(out), c) { assert c in out + (rest + [id]); }
    }
  }

  lemma SearchStarts(m: Beats, root: Id, kids: seq<Id>)
    requires Distinct(kids) && forall x :: x in kids <==> x in m && m[x].parentId == Some(root)
    ensures SearchState(m, root, [], kids)
  {
    assert [] + kids == kids;
    forall x | x in kids ensures Above(m, root, x) { AboveStep(m, root, x); }
  }

  lemma SearchEnds(m: Beats, root: Id, out: seq<Id>)
    requires SearchState(m, root, out, [])
    ensures Distinct(out) && forall x :: x in out <==> Above(m, root, x)
  {
    assert out + [] == out;
    forall x | Above(m, root, x) ensures x in out {
      var n: nat :| n >= 1 && Up(m, x, n) == Some(root);
      ClosedHoldsDescendants(m, root, ToSet(out), x, n);
    }
  }

  lemma SearchFits(m: Beats, root: Id, out: seq<Id>, stack: seq<Id>)
    requires SearchState(m, root, out, stack)
    ensures |out| + |stack| <= |m|
  {
    DistinctSize(out + stack);
    SubsetSize(ToSet(out + stack), m.Keys);
  }

  /** Record the agent on top of the stack and push its children. */
  method PopOne(agents: Registry, root: Id, out: seq<Id>, stack: seq<Id>) returns (out': seq<Id>, stack': seq<Id>)
    requires agents.Valid() && !Above(agents.beats, root, root)
    requires SearchState(agents.beats, root, out, stack) && stack != []
    ensures SearchState(agents.beats, root, out', stack')
    ensures out' == out + [stack[|stack| - 1]]
  {
    var id, rest := stack[|stack| - 1], stack[..|stack| - 1];
    assert stack == rest + [id];
    var kids := GetDirectChildIds(agents, id);
    PopAndExpand(agents.beats, root, out, rest, id, kids);
    out', stack' := out + [id], rest + kids;
  }

  /** All descendants, by an explicit-stack depth-first search; the agent must not be below itself. */
  method GetDescendantIds(agents: Registry, agentId: Id) returns (out: seq<Id>)
    requires agents.Valid() && !Above(agents.beats, agentId, agentId)
    ensures Distinct(out)
    ensures forall x :: x in out <==> Above(agents.beats, agentId, x)
  {
    out := [];
    var stack := GetDirectChildIds(agents, agentId);
    SearchStarts(agents.beats, agentId, stack);
    while stack != []
      invariant SearchState(agents.beats, agentId, out, stack)
      decreases |agents.beats| - |out|
    {
      SearchFits(agents.beats, agentId, out, stack);
      out, stack := PopOne(agents, agentId, out, stack);
    }
    SearchEnds(agents.beats, agentId, out);
  }

  /** The upward walk and the downward search agree wherever both end. */
  method WalksAgree(agents: Registry, a: Id, d: Id) returns (up: bool, down: seq<Id>)
    requires agents.Valid() && WalkEnds(agents.beats, a, d) && !Above(agents.beats, a, a)
    ensures up <==> d in down
    ensures up ==> a != d
    ensures forall i :: 0 <= i < |down| ==> down[i] !in down[..i]
  {
    up := IsAncestor(agents, a, d);
    down := GetDescendantIds(agents, a);
  }
}
