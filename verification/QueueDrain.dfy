/** Draining the durable queue of deferred research repairs. */
module QueueDrain {
  import opened Collections
  import opened Text
  import opened Budgets
  import opened ScopeMerge
  import opened StableSort

  // ---- Which queued scopes are already covered --------------------------------------

  datatype LastError = Parse(text: string) | ActiveProjectRepair | Quality(debt: nat) | Replay(text: string)

  datatype Row = Row(
    scope: Scope,
    hasIntent: bool,
    parseError: Option<string>,
    attempts: int,
    nextAttemptAt: int,
    updatedAt: int,
    lastError: Option<LastError>)

  function TrimmedNonBlank(raw: seq<string>): (r: seq<string>)
    ensures ToSet(r) == Names(raw)
  {
    if raw == [] then []
    else
      NamesFirst(raw);
      (if Trim(raw[0]) == "" then [] else [Trim(raw[0])]) + TrimmedNonBlank(raw[1..])
  }

  predicate CoversSubset(covered: seq<string>, candidate: seq<string>) {
    var have := ToSet(TrimmedNonBlank(covered));
    var want := TrimmedNonBlank(candidate);
    if want == [] then true
    else if have == {} then false
    else forall i :: 0 <= i < |want| ==> want[i] in have
  }

  /** Coverage is inclusion of the trimmed names; no names at all are always covered. */
  lemma CoversSubsetIff(covered: seq<string>, candidate: seq<string>)
    ensures CoversSubset(covered, candidate) <==> Names(candidate) <= Names(covered)
  {
    var want, have := TrimmedNonBlank(candidate), ToSet(TrimmedNonBlank(covered));
    assert have == Names(covered);
    forall i | 0 <= i < |want| ensures want[i] in Names(candidate) { assert want[i] in ToSet(want); }
    forall x | x in Names(candidate) ensures exists i :: 0 <= i < |want| && want[i] == x {
      assert x in ToSet(want);
    }
    if want != [] {
      assert want[0] in Names(candidate);
      if CoversSubset(covered, candidate) {
        forall x | x in Names(candidate) ensures x in Names(covered) {
          var i :| 0 <= i < |want| && want[i] == x;
        }
      }
    }
  }

  /** The same project and the same ids, whatever their order. */
  predicate SameKey(a: Scope, b: Scope) {
    && a.projectPath == b.projectPath
    && multiset(a.facts.lists.sessionIds) == multiset(b.facts.lists.sessionIds)
    && multiset(a.facts.lists.lineageKeys) == multiset(b.facts.lists.lineageKeys)
  }

  predicate Covers(scope: Scope, entry: Scope) {
    && scope.projectPath == entry.projectPath
    && CoversSubset(scope.facts.lists.sessionIds, entry.facts.lists.sessionIds)
    && CoversSubset(scope.facts.lists.lineageKeys, entry.facts.lists.lineageKeys)
  }

  function FirstWhere(scopes: seq<Scope>, p: Scope -> bool): (r: Option<Scope>)
    ensures r.Some? ==> r.value in scopes && p(r.value)
    ensures r.None? ==> forall s :: s in scopes ==> !p(s)
  {
    if scopes == [] then None else if p(scopes[0]) then Some(scopes[0]) else FirstWhere(scopes[1..], p)
  }

  function FindCoveredScope(entry: Scope, excluded: seq<Scope>): Option<Scope> {
    var exact := FirstWhere(excluded, (s: Scope) => SameKey(s, entry));
    if exact.Some? then exact else FirstWhere(excluded, (s: Scope) => Covers(s, entry))
  }

  lemma SameKeyCovers(a: Scope, b: Scope)
    requires SameKey(a, b)
    ensures Covers(a, b)
  {
    SameMultisetSameElements(a.facts.lists.sessionIds, b.facts.lists.sessionIds);
    SameMultisetSameElements(a.facts.lists.lineageKeys, b.facts.lists.lineageKeys);
    CoversSubsetIff(a.facts.lists.sessionIds, b.facts.lists.sessionIds);
    CoversSubsetIff(a.facts.lists.lineageKeys, b.facts.lists.lineageKeys);
  }

  /** A scope is found exactly when some scope of the project has all the entry's names, and it then has them. */
  lemma FindCoveredScopeIff(entry: Scope, excluded: seq<Scope>)
    ensures FindCoveredScope(entry, excluded).Some? <==> exists s :: s in excluded && HasNamesOf(s, entry)
    ensures var found := FindCoveredScope(entry, excluded);
      found.Some? ==> found.value in excluded && HasNamesOf(found.value, entry)
  {
    forall s | s in excluded ensures Covers(s, entry) <==> HasNamesOf(s, entry) {
      CoversSubsetIff(s.facts.lists.sessionIds, entry.facts.lists.sessionIds);
      CoversSubsetIff(s.facts.lists.lineageKeys, entry.facts.lists.lineageKeys);
      if SameKey(s, entry) { SameKeyCovers(s, entry); }
    }
    var exact := FirstWhere(excluded, (s: Scope) => SameKey(s, entry));
    if exact.Some? { SameKeyCovers(exact.value, entry); }
  }

  predicate HasNamesOf(s: Scope, entry: Scope) {
    && s.projectPath == entry.projectPath
    && Names(entry.facts.lists.sessionIds) <= Names(s.facts.lists.sessionIds)
    && Names(entry.facts.lists.lineageKeys) <= Names(s.facts.lists.lineageKeys)
  }

  predicate Misses(values: seq<string>, covered: seq<string>) { exists v :: v in values && v !in covered }

  predicate HasMissingMetadata(entry: Facts, covered: Facts) {
    || Misses(entry.lists.policyFingerprints, covered.lists.policyFingerprints)
    || Misses(entry.lists.objectiveIds, covered.lists.objectiveIds)
    || Misses(entry.lists.stopConditionIds, covered.lists.stopConditionIds)
    || Misses(entry.lists.stopConditionKinds, covered.lists.stopConditionKinds)
    || (Usable(entry.frontierBestScore).Some?
        && (Usable(covered.frontierBestScore).None?
            || Usable(entry.frontierBestScore).value > Usable(covered.frontierBestScore).value))
    || (entry.refinement.Some? && entry.refinement != covered.refinement)
    || (entry.nidra.Some? && entry.nidra != covered.nidra)
  }

  /** Whatever the entry says beside its names, the scope says too. */
  predicate CarriesAll(s: Facts, entry: Facts) {
    && (forall v :: v in entry.lists.policyFingerprints ==> v in s.lists.policyFingerprints)
    && (forall v :: v in entry.lists.objectiveIds ==> v in s.lists.objectiveIds)
    && (forall v :: v in entry.lists.stopConditionIds ==> v in s.lists.stopConditionIds)
    && (forall v :: v in entry.lists.stopConditionKinds ==> v in s.lists.stopConditionKinds)
    && CapCovers(s.frontierBestScore, entry.frontierBestScore)
    && (entry.refinement.None? || s.refinement == entry.refinement)
    && (entry.nidra.None? || s.nidra == entry.nidra)
  }

  lemma MissingIff(entry: Facts, s: Facts)
    ensures HasMissingMetadata(entry, s) <==> !CarriesAll(s, entry)
  {
  }

  /** The same project and the same ids, each as often. */
  predicate ExactAt(excluded: seq<Scope>, k: int, entry: Scope) {
    && 0 <= k < |excluded| && excluded[k].projectPath == entry.projectPath
    && multiset(excluded[k].facts.lists.sessionIds) == multiset(entry.facts.lists.sessionIds)
    && multiset(excluded[k].facts.lists.lineageKeys) == multiset(entry.facts.lists.lineageKeys)
  }

  predicate NamesAt(excluded: seq<Scope>, k: int, entry: Scope) {
    0 <= k < |excluded| && HasNamesOf(excluded[k], entry)
  }

  /** The scope an entry is held against: the first exact one, or else the first that has its names. */
  predicate HeldAgainst(excluded: seq<Scope>, k: int, entry: Scope) {
    || (ExactAt(excluded, k, entry) && forall i :: 0 <= i < k ==> !ExactAt(excluded, i, entry))
    || ((forall i :: 0 <= i < |excluded| ==> !ExactAt(excluded, i, entry))
        && NamesAt(excluded, k, entry) && forall i :: 0 <= i < k ==> !NamesAt(excluded, i, entry))
  }

  lemma {:induction false} FirstWhereIs(scopes: seq<Scope>, p: Scope -> bool, k: nat)
    requires k < |scopes| && p(scopes[k]) && forall i :: 0 <= i < k ==> !p(scopes[i])
    ensures FirstWhere(scopes, p) == Some(scopes[k])
  {
    if k > 0 {
      assert !p(scopes[0]);
      FirstWhereIs(scopes[1..], p, k - 1);
    }
  }

  lemma FoundIs(entry: Scope, excluded: seq<Scope>, k: nat)
    requires HeldAgainst(excluded, k, entry)
    ensures k < |excluded| && FindCoveredScope(entry, excluded) == Some(excluded[k])
  {
    forall i | 0 <= i < |excluded|
      ensures SameKey(excluded[i], entry) <==> ExactAt(excluded, i, entry)
      ensures Covers(excluded[i], entry) <==> NamesAt(excluded, i, entry)
    {
      CoversSubsetIff(excluded[i].facts.lists.sessionIds, entry.facts.lists.sessionIds);
      CoversSubsetIff(excluded[i].facts.lists.lineageKeys, entry.facts.lists.lineageKeys);
    }
    if ExactAt(excluded, k, entry) {
      FirstWhereIs(excluded, (s: Scope) => SameKey(s, entry), k);
    } else {
      FirstWhereIs(excluded, (s: Scope) => Covers(s, entry), k);
    }
  }

  lemma {:induction false} LeastIndex(n: nat, p: int -> bool, k: nat) returns (m: nat)
    requires k < n && p(k)
    ensures m < n && p(m) && forall i :: 0 <= i < m ==> !p(i)
  {
    m := k;
    if i :| 0 <= i < k && p(i) { m := LeastIndex(n, p, i); }
  }

  /** Some scope is held against the entry as soon as one has its names. */
  lemma HeldAgainstExists(entry: Scope, excluded: seq<Scope>, j: nat) returns (k: nat)
    requires NamesAt(excluded, j, entry)
    ensures HeldAgainst(excluded, k, entry)
  {
    if i :| 0 <= i < |excluded| && ExactAt(excluded, i, entry) {
      var exact := (m: int) => ExactAt(excluded, m, entry);
      k := LeastIndex(|excluded|, exact, i);
      forall m | 0 <= m < k ensures !ExactAt(excluded, m, entry) { assert !exact(m); }
    } else {
      var named := (m: int) => NamesAt(excluded, m, entry);
      k := LeastIndex(|excluded|, named, j);
      forall m | 0 <= m < k ensures !NamesAt(excluded, m, entry) { assert !named(m); }
    }
  }

  datatype Decision = Clear | Keep | Process

  function ShouldSkip(row: Row, excluded: seq<Scope>): Decision {
    match FindCoveredScope(row.scope, excluded)
    case None => Process
    case Some(covered) =>
      if row.hasIntent || HasMissingMetadata(row.scope.facts, covered.facts) then Keep else Clear
  }

  /**
   * A row whose names no scope that ran has is replayed; any other is cleared exactly when it
   * has no intent and the scope it is held against carries all it says.
   */
  lemma DecisionIs(row: Row, excluded: seq<Scope>) returns (k: nat)
    ensures ShouldSkip(row, excluded).Process? <==> forall s :: s in excluded ==> !HasNamesOf(s, row.scope)
    ensures !ShouldSkip(row, excluded).Process? ==>
      && k < |excluded| && HeldAgainst(excluded, k, row.scope)
      && (ShouldSkip(row, excluded).Clear? <==>
            !row.hasIntent && CarriesAll(excluded[k].facts, row.scope.facts))
  {
    k := 0;
    FindCoveredScopeIff(row.scope, excluded);
    if s :| s in excluded && HasNamesOf(s, row.scope) {
      var j :| 0 <= j < |excluded| && excluded[j] == s;
      k := HeldAgainstExists(row.scope, excluded, j);
      FoundIs(row.scope, excluded, k);
      MissingIff(row.scope.facts, excluded[k].facts);
    }
  }

  // ---- Retry times ------------------------------------------------------------------

  const MINUTE := 60 * 1000

  function Pow2(n: nat): nat { if n == 0 then 1 else 2 * Pow2(n - 1) }

  function QueueBackoffMs(attempts: int): int {
    Min(6 * 60 * MINUTE, 5 * MINUTE * Pow2(Max(0, Min(attempts, 6))))
  }

  /** Waits double from five minutes and stop growing at 320 minutes, so the six-hour ceiling is never reached. */
  lemma BackoffDoubles(attempts: int)
    ensures attempts <= 0 ==> QueueBackoffMs(attempts) == 300_000
    ensures 0 <= attempts < 6 ==> QueueBackoffMs(attempts + 1) == 2 * QueueBackoffMs(attempts)
    ensures 6 <= attempts ==> QueueBackoffMs(attempts) == 19_200_000
    ensures 5 * MINUTE <= QueueBackoffMs(attempts) <= 320 * MINUTE
  {
    assert Pow2(1) == 2 && Pow2(2) == 4 && Pow2(3) == 8 && Pow2(4) == 16 && Pow2(5) == 32 && Pow2(6) == 64;
    var k := Max(0, Min(attempts, 6));
    assert k == 0 || k == 1 || k == 2 || k == 3 || k == 4 || k == 5 || k == 6;
  }

  // ---- One pass over the due rows ---------------------------------------------------

  type Table = map<string, Row>

  /** What a replay reports, or the message it fails with. */
  datatype Outcome = Finished(remoteSynced: nat, qualityDeferred: nat) | Threw(message: string)

  datatype Fate =
    | ClearedCovered
    | ClearedReplayed
    | DeferredParse
    | DeferredActive
    | DeferredQuality
    | DeferredFailed
    | Untouched
  {
    predicate Replayed() { ClearedReplayed? || DeferredQuality? || DeferredFailed? }
    predicate Cleared() { ClearedCovered? || ClearedReplayed? }
    predicate Deferred() { DeferredParse? || DeferredActive? || DeferredQuality? || DeferredFailed? }
  }

  /** What one drain starts from: the table, the rows listed, what ran before, the budget, the outcomes and the time. */
  datatype Pass = Pass(
    rows: Table,
    ids: seq<string>,
    excluded: seq<Scope>,
    budget: Option<nat>,
    outcomes: string -> Outcome,
    now: int)
  {
    predicate Valid() { Distinct(ids) && forall i :: 0 <= i < |ids| ==> ids[i] in rows }
  }

  /** The stored scope could not be read; an empty message counts as none. */
  predicate Unparsed(row: Row) { row.parseError.GetOr("") != "" }

  function FateOf(row: Row, excluded: seq<Scope>, budget: Option<nat>, replays: nat, outcome: Outcome): Fate {
    if Unparsed(row) then DeferredParse
    else match ShouldSkip(row, excluded)
      case Clear => ClearedCovered
      case Keep => if budget == Some(0) then Untouched else DeferredActive
      case Process =>
        if budget.Some? && replays >= budget.value then Untouched
        else match outcome
          case Finished(_, quality) => if quality > 0 then DeferredQuality else ClearedReplayed
          case Threw(_) => DeferredFailed
  }

  function Fates(p: Pass, i: nat): Fate
    requires p.Valid() && i < |p.ids|
    decreases i, 1
  {
    FateOf(p.rows[p.ids[i]], p.excluded, p.budget, Replays(p, i), p.outcomes(p.ids[i]))
  }

  /** Replays attempted among the first `n` listed rows. */
  function Replays(p: Pass, n: nat): nat
    requires p.Valid() && n <= |p.ids|
    decreases n, 0
  {
    if n == 0 then 0 else Replays(p, n - 1) + if Fates(p, n - 1).Replayed() then 1 else 0
  }

  /** What the pass leaves of a row. */
  function RowAfter(row: Row, fate: Fate, outcome: Outcome, now: int): Option<Row> {
    match fate
    case ClearedCovered => None
    case ClearedReplayed => None
    case Untouched => Some(row)
    case DeferredParse => Some(Postponed(row, row.attempts + 1, Parse(row.parseError.GetOr("")), now))
    case DeferredActive => Some(Postponed(row, row.attempts, ActiveProjectRepair, now))
    case DeferredQuality =>
      Some(Postponed(row, row.attempts + 1, Quality(if outcome.Finished? then outcome.qualityDeferred else 0), now))
    case DeferredFailed =>
      Some(Postponed(row, row.attempts + 1, Replay(if outcome.Threw? then outcome.message else ""), now))
  }

  function Postponed(row: Row, exponent: int, error: LastError, now: int): Row {
    row.(
      attempts := row.attempts + 1,
      nextAttemptAt := now + Max(QueueBackoffMs(exponent), 1000),
      lastError := Some(error),
      updatedAt := now)
  }

  function TableAfter(p: Pass, n: nat): Table
    requires p.Valid() && n <= |p.ids|
  {
    if n == 0 then p.rows
    else
      var id := p.ids[n - 1];
      WithFate(TableAfter(p, n - 1), id, RowAfter(p.rows[id], Fates(p, n - 1), p.outcomes(id), p.now))
  }

  datatype Summary = Summary(drained: nat, repaired: nat, deferred: nat, remoteSynced: nat, qualityDeferred: nat)

  function Tally(p: Pass, n: nat): Summary
    requires p.Valid() && n <= |p.ids|
  {
    if n == 0 then Summary(0, 0, 0, 0, 0)
    else Counted(Tally(p, n - 1), Fates(p, n - 1), p.outcomes(p.ids[n - 1]))
  }

  function Counted(s: Summary, fate: Fate, outcome: Outcome): Summary {
    var reported := fate.Replayed() && outcome.Finished?;
    Summary(
      s.drained + if fate.Replayed() then 1 else 0,
      s.repaired + if fate.ClearedReplayed? then 1 else 0,
      s.deferred + if fate.Deferred() then 1 else 0,
      s.remoteSynced + if reported then outcome.remoteSynced else 0,
      s.qualityDeferred + if reported then outcome.qualityDeferred else 0)
  }

  // ---- Replays are the first rows that need one, up to the budget -------------------

  predicate Actionable(p: Pass, i: nat)
    requires p.Valid() && i < |p.ids|
  {
    var row := p.rows[p.ids[i]];
    !Unparsed(row) && ShouldSkip(row, p.excluded).Process?
  }

  function ActionableBefore(p: Pass, n: nat): nat
    requires p.Valid() && n <= |p.ids|
  {
    if n == 0 then 0 else ActionableBefore(p, n - 1) + if Actionable(p, n - 1) then 1 else 0
  }

  lemma {:induction false} ReplayCount(p: Pass, n: nat)
    requires p.Valid() && n <= |p.ids|
    ensures Replays(p, n)
      == if p.budget.Some? then Min(ActionableBefore(p, n), p.budget.value) else ActionableBefore(p, n)
  {
    if n > 0 { ReplayCount(p, n - 1); }
  }

  /** A row is replayed exactly when it is actionable and fewer actionable rows precede it than the budget allows. */
  lemma ReplaysAreTheFirstActionable(p: Pass, i: nat)
    requires p.Valid() && i < |p.ids|
    ensures Fates(p, i).Replayed() <==> Actionable(p, i) && (p.budget.Some? ==> ActionableBefore(p, i) < p.budget.value)
    ensures p.budget.Some? ==> Replays(p, i + 1) <= p.budget.value
  {
    ReplayCount(p, i);
    ReplayCount(p, i + 1);
  }

  /**
   * A row is cleared only by a replay without quality debt, or, without an intent, when the
   * scope it is held against carries all it says.
   */
  lemma ClearedOnlyWhenDone(p: Pass, i: nat) returns (k: nat)
    requires p.Valid() && i < |p.ids| && Fates(p, i).Cleared()
    ensures var row, outcome := p.rows[p.ids[i]], p.outcomes(p.ids[i]);
      && !Unparsed(row)
      && (if forall s :: s in p.excluded ==> !HasNamesOf(s, row.scope)
          then outcome.Finished? && outcome.qualityDeferred == 0
          else
            && !row.hasIntent && k < |p.excluded| && HeldAgainst(p.excluded, k, row.scope)
            && HasNamesOf(p.excluded[k], row.scope) && CarriesAll(p.excluded[k].facts, row.scope.facts))
  {
    var row := p.rows[p.ids[i]];
    k := DecisionIs(row, p.excluded);
    FindCoveredScopeIff(row.scope, p.excluded);
    if !ShouldSkip(row, p.excluded).Process? { FoundIs(row.scope, p.excluded, k); }
  }

  /** What becomes of a listed row, in every case. */
  lemma FateIs(p: Pass, i: nat, k: nat)
    requires p.Valid() && i < |p.ids|
    requires var row := p.rows[p.ids[i]];
      HeldAgainst(p.excluded, k, row.scope) || forall s :: s in p.excluded ==> !HasNamesOf(s, row.scope)
    ensures var row, outcome := p.rows[p.ids[i]], p.outcomes(p.ids[i]);
      Fates(p, i) ==
        if row.parseError.Some? && row.parseError.value != "" then DeferredParse
        else if HeldAgainst(p.excluded, k, row.scope) then
          if !row.hasIntent && CarriesAll(p.excluded[k].facts, row.scope.facts) then ClearedCovered
          else if p.budget == Some(0) then Untouched else DeferredActive
        else if p.budget.Some? && Replays(p, i) >= p.budget.value then Untouched
        else if outcome.Threw? then DeferredFailed
        else if outcome.qualityDeferred > 0 then DeferredQuality else ClearedReplayed
  {
    var row := p.rows[p.ids[i]];
    FindCoveredScopeIff(row.scope, p.excluded);
    if HeldAgainst(p.excluded, k, row.scope) {
      FoundIs(row.scope, p.excluded, k);
      MissingIff(row.scope.facts, p.excluded[k].facts);
    }
  }

  /** Replays that put their row back in the queue. */
  function FailedReplays(p: Pass, n: nat): nat
    requires p.Valid() && n <= |p.ids|
  {
    if n == 0 then 0
    else FailedReplays(p, n - 1) + if Fates(p, n - 1).DeferredQuality? || Fates(p, n - 1).DeferredFailed? then 1 else 0
  }

  function DeferredRows(p: Pass, n: nat): nat
    requires p.Valid() && n <= |p.ids|
  {
    if n == 0 then 0 else DeferredRows(p, n - 1) + if Fates(p, n - 1).Deferred() then 1 else 0
  }

  lemma {:induction false} TallyCounts(p: Pass, n: nat)
    requires p.Valid() && n <= |p.ids|
    ensures Tally(p, n).drained == Replays(p, n) == Tally(p, n).repaired + FailedReplays(p, n)
    ensures Tally(p, n).deferred == DeferredRows(p, n)
  {
    if n > 0 { TallyCounts(p, n - 1); }
  }

  /** Drained rows are the repaired ones and the replays deferred again, and never exceed the budget. */
  lemma TallyBalances(p: Pass)
    requires p.Valid()
    ensures var s := Tally(p, |p.ids|);
      && s.drained == s.repaired + FailedReplays(p, |p.ids|)
      && s.deferred == DeferredRows(p, |p.ids|)
      && (p.budget.Some? ==> s.drained == Min(ActionableBefore(p, |p.ids|), p.budget.value))
  {
    TallyCounts(p, |p.ids|);
    ReplayCount(p, |p.ids|);
  }

  /** What the replays that did not fail reported, added up. */
  function Reported(p: Pass, n: nat, count: Outcome -> nat): nat
    requires p.Valid() && n <= |p.ids|
  {
    if n == 0 then 0
    else
      var fate := Fates(p, n - 1);
      Reported(p, n - 1, count)
        + if fate.ClearedReplayed? || fate.DeferredQuality? then count(p.outcomes(p.ids[n - 1])) else 0
  }

  lemma {:induction false} TallyReports(p: Pass, n: nat)
    requires p.Valid() && n <= |p.ids|
    ensures Tally(p, n).remoteSynced == Reported(p, n, (o: Outcome) => if o.Finished? then o.remoteSynced else 0)
    ensures Tally(p, n).qualityDeferred == Reported(p, n, (o: Outcome) => if o.Finished? then o.qualityDeferred else 0)
  {
    if n > 0 { TallyReports(p, n - 1); }
  }

  lemma {:induction false} UnlistedUntouched(p: Pass, n: nat, id: string)
    requires p.Valid() && n <= |p.ids|
    requires forall i :: 0 <= i < n ==> p.ids[i] != id
    ensures id in TableAfter(p, n) <==> id in p.rows
    ensures id in p.rows ==> TableAfter(p, n)[id] == p.rows[id]
  {
    if n > 0 {
      UnlistedUntouched(p, n - 1, id);
      Elsewhere(p, n, id);
    }
  }

  /** Every listed row ends as its fate says, whatever happens to the others. */
  lemma {:induction false} ListedFollowsFate(p: Pass, n: nat, i: nat)
    requires p.Valid() && i < n <= |p.ids|
    ensures Followed(p, n, i)
  {
    if i < n - 1 {
      ListedFollowsFate(p, n - 1, i);
      assert p.ids[n - 1] != p.ids[i];
      Elsewhere(p, n, p.ids[i]);
    }
  }

  lemma Elsewhere(p: Pass, n: nat, id: string)
    requires p.Valid() && 0 < n <= |p.ids| && p.ids[n - 1] != id
    ensures id in TableAfter(p, n) <==> id in TableAfter(p, n - 1)
    ensures id in TableAfter(p, n) ==> TableAfter(p, n)[id] == TableAfter(p, n - 1)[id]
  {
  }

  predicate Followed(p: Pass, n: nat, i: nat)
    requires p.Valid() && i < |p.ids| && n <= |p.ids|
  {
    var id := p.ids[i];
    var after := RowAfter(p.rows[id], Fates(p, i), p.outcomes(id), p.now);
    && (id in TableAfter(p, n) <==> after.Some?)
    && (after.Some? ==> TableAfter(p, n)[id] == after.value)
  }

  /** One step of the pass in terms of what it has before it. */
  lemma PassAdvances(p: Pass, i: nat)
    requires p.Valid() && i < |p.ids|
    ensures p.ids[i] in TableAfter(p, i) && TableAfter(p, i)[p.ids[i]] == p.rows[p.ids[i]]
    ensures var id := p.ids[i];
      var fate := FateOf(p.rows[id], p.excluded, p.budget, Tally(p, i).drained, p.outcomes(id));
      && Tally(p, i + 1) == Counted(Tally(p, i), fate, p.outcomes(id))
      && TableAfter(p, i + 1) == WithFate(TableAfter(p, i), id, RowAfter(p.rows[id], fate, p.outcomes(id), p.now))
  {
    UnlistedUntouched(p, i, p.ids[i]);
    TallyCounts(p, i);
  }

  function WithFate(rows: Table, id: string, after: Option<Row>): Table {
    match after
    case None => rows - {id}
    case Some(row) => rows[id := row]
  }

  predicate SameWork(a: Row, b: Row) {
    a.scope == b.scope && a.hasIntent == b.hasIntent && a.parseError == b.parseError
  }

  /**
   * A row that stays in the queue stays what it was: its scope, its repair intent and
   * its parse error; and a deferred one has one attempt more and waits at least five
   * minutes, ten after its first failed replay.
   */
  lemma RemainingRowsKeepTheirWork(p: Pass, i: nat)
    requires p.Valid() && i < |p.ids| && !Fates(p, i).Cleared()
    ensures var id, after := p.ids[i], TableAfter(p, |p.ids|);
      && id in after && SameWork(after[id], p.rows[id])
      && (Fates(p, i).Untouched? ==> after[id] == p.rows[id])
      && (Fates(p, i).Deferred() ==>
            after[id].attempts == p.rows[id].attempts + 1 && after[id].nextAttemptAt >= p.now + 5 * MINUTE)
      && (Fates(p, i).Replayed() && p.rows[id].attempts >= 0 ==> after[id].nextAttemptAt >= p.now + 10 * MINUTE)
  {
    ListedFollowsFate(p, |p.ids|, i);
    RowStays(p.rows[p.ids[i]], Fates(p, i), p.outcomes(p.ids[i]), p.now);
  }

  lemma RowStays(row: Row, fate: Fate, outcome: Outcome, now: int)
    requires !fate.Cleared()
    ensures var after := RowAfter(row, fate, outcome, now);
      && after.Some? && SameWork(after.value, row)
      && (fate.Untouched? ==> after.value == row)
      && (fate.Deferred() ==> after.value.attempts == row.attempts + 1 && after.value.nextAttemptAt >= now + 5 * MINUTE)
      && (fate.Replayed() && row.attempts >= 0 ==> after.value.nextAttemptAt >= now + 10 * MINUTE)
  {
    BackoffAtLeast(row.attempts);
    BackoffAtLeast(row.attempts + 1);
  }

  /** What a deferred row says afterwards, by what became of it. */
  lemma DeferredSays(row: Row, fate: Fate, outcome: Outcome, now: int)
    requires fate.DeferredQuality? ==> outcome.Finished?
    requires fate.DeferredFailed? ==> outcome.Threw?
    requires fate.DeferredParse? ==> row.parseError.Some?
    ensures RowAfter(row, fate, outcome, now) == match fate
      case ClearedCovered => None
      case ClearedReplayed => None
      case Untouched => Some(row)
      case DeferredParse => Some(Retried(row, now + QueueBackoffMs(row.attempts + 1), Parse(row.parseError.value), now))
      case DeferredActive => Some(Retried(row, now + QueueBackoffMs(row.attempts), ActiveProjectRepair, now))
      case DeferredQuality =>
        Some(Retried(row, now + QueueBackoffMs(row.attempts + 1), Quality(outcome.qualityDeferred), now))
      case DeferredFailed =>
        Some(Retried(row, now + QueueBackoffMs(row.attempts + 1), Replay(outcome.message), now))
  {
    BackoffDoubles(row.attempts);
    BackoffDoubles(row.attempts + 1);
  }

  /** The same work with one attempt more, due at the given time. */
  function Retried(row: Row, at: int, error: LastError, now: int): Row {
    Row.Row(row.scope, row.hasIntent, row.parseError, row.attempts + 1, at, now, Some(error))
  }

  lemma BackoffAtLeast(attempts: int)
    ensures QueueBackoffMs(attempts) >= 5 * MINUTE
    ensures attempts >= 1 ==> QueueBackoffMs(attempts) >= 10 * MINUTE
  {
    BackoffDoubles(attempts);
    assert Pow2(1) == 2;
    if attempts >= 1 { PowAtLeastTwo(Min(attempts, 6)); }
  }

  lemma {:induction false} PowAtLeastTwo(n: nat)
    requires n >= 1
    ensures Pow2(n) >= 2
  {
    if n > 1 { PowAtLeastTwo(n - 1); }
  }

  // ---- What is still due ------------------------------------------------------------

  function Due(rows: Table, now: int): set<string> { set id | id in rows && rows[id].nextAttemptAt <= now }

  function Handled(p: Pass, n: nat): set<string>
    requires p.Valid() && n <= |p.ids|
  {
    set i | 0 <= i < n && !Fates(p, i).Untouched? :: p.ids[i]
  }

  /** At the time of the pass the rows still due are the due rows it left untouched. */
  lemma StillDue(p: Pass)
    requires p.Valid()
    ensures Due(TableAfter(p, |p.ids|), p.now) == Due(p.rows, p.now) - Handled(p, |p.ids|)
  {
    var n := |p.ids|;
    forall id ensures id in Due(TableAfter(p, n), p.now) <==> id in Due(p.rows, p.now) && id !in Handled(p, n) {
      if i :| 0 <= i < n && p.ids[i] == id {
        ListedFollowsFate(p, n, i);
        HandledIff(p, i);
        if !Fates(p, i).Untouched? { PostponedIsNotDue(p.rows[id], Fates(p, i), p.outcomes(id), p.now); }
      } else {
        UnlistedUntouched(p, n, id);
      }
    }
  }

  lemma PostponedIsNotDue(row: Row, fate: Fate, outcome: Outcome, now: int)
    requires !fate.Untouched?
    ensures RowAfter(row, fate, outcome, now).Some? ==> RowAfter(row, fate, outcome, now).value.nextAttemptAt > now
  {
  }

  lemma HandledIff(p: Pass, i: nat)
    requires p.Valid() && i < |p.ids|
    ensures p.ids[i] in Handled(p, |p.ids|) <==> !Fates(p, i).Untouched?
  {
  }

  // ---- The queue and its drain ------------------------------------------------------

  /** Due rows that wait longest come first. */
  predicate WaitsLonger(rows: Table, a: string, b: string)
    requires a in rows && b in rows
  {
    || rows[a].nextAttemptAt < rows[b].nextAttemptAt
    || (rows[a].nextAttemptAt == rows[b].nextAttemptAt && rows[a].updatedAt <= rows[b].updatedAt)
  }

  datatype Waiting = Waiting(id: string, nextAttemptAt: int, updatedAt: int)

  function ByWaiting(): (Waiting, Waiting) -> bool {
    (a: Waiting, b: Waiting) =>
      a.nextAttemptAt < b.nextAttemptAt || (a.nextAttemptAt == b.nextAttemptAt && a.updatedAt <= b.updatedAt)
  }

  /** A correct answer to listing at most `limit` due rows. */
  predicate Listed(rows: Table, now: int, limit: nat, ids: seq<string>) {
    && Distinct(ids)
    && (forall i :: 0 <= i < |ids| ==> ids[i] in Due(rows, now))
    && |ids| == Min(limit, |Due(rows, now)|)
    && (forall i, j :: 0 <= i < j < |ids| ==> WaitsLonger(rows, ids[i], ids[j]))
    && (forall i, id :: 0 <= i < |ids| && id in Due(rows, now) && id !in ids ==> WaitsLonger(rows, ids[i], id))
  }

  class RefinementQueue {
    var rows: Table

    constructor ()
      ensures rows == map[]
    {
      rows := map[];
    }

    method Count(now: int) returns (count: nat)
      ensures count == |Due(rows, now)|
    {
      count := |Due(rows, now)|;
    }

    /** The due rows in the order they wait, at most `limit` of them. */
    method List(limit: nat, now: int) returns (ids: seq<string>)
      ensures Listed(rows, now, limit, ids)
    {
      var waiting: seq<Waiting> := [];
      var left := Due(rows, now);
      while left != {}
        invariant left <= Due(rows, now)
        invariant AllWaiting(rows, waiting)
        invariant Gathered(rows, now, waiting, left)
        decreases left
      {
        var id :| id in left;
        GatherOne(rows, now, waiting, left, id);
        waiting := waiting + [Waiting(id, rows[id].nextAttemptAt, rows[id].updatedAt)];
        left := left - {id};
      }
      var sorted := Sort(waiting, ByWaiting());
      SortedListing(rows, now, waiting, sorted);
      var count := Min(limit, |sorted|);
      ids := seq(count, i requires 0 <= i < count => sorted[i].id);
      FirstOfListing(rows, now, sorted, limit, ids);
    }

    method Clear(id: string)
      modifies this
      ensures rows == old(rows) - {id}
    {
      rows := rows - {id};
    }

    method Defer(id: string, exponent: int, error: LastError, now: int)
      requires id in rows
      modifies this
      ensures rows == old(rows)[id := Postponed(old(rows)[id], exponent, error, now)]
    {
      rows := rows[id := Postponed(rows[id], exponent, error, now)];
    }

    /** One drain: replays up to the limit, everything else reconciled or left alone. */
    method Drain(limit: Option<real>, excluded: seq<Scope>, outcomes: string -> Outcome, now: int, later: int)
      returns (summary: Summary, remainingDue: nat, ghost listed: seq<string>)
      modifies this
      ensures var budget := BudgetOf(limit);
        && (budget == Some(0) && excluded == [] ==> listed == [])
        && (!(budget == Some(0) && excluded == []) ==>
              Listed(old(rows), now, if budget.None? then 25 else Max(1, |Due(old(rows), now)|), listed))
      ensures var p := Pass(old(rows), listed, excluded, BudgetOf(limit), outcomes, now);
        && p.Valid()
        && rows == TableAfter(p, |listed|)
        && summary == Tally(p, |listed|)
      ensures remainingDue == |set id | id in rows && rows[id].nextAttemptAt <= later|
    {
      var budget := BudgetOf(limit);
      summary := Summary(0, 0, 0, 0, 0);
      if budget == Some(0) && excluded == [] {
        listed := [];
        remainingDue := Count(later);
        return;
      }
      var ids := List(ListLimit(rows, budget, now), now);
      listed := ids;
      summary := DrainListed(ids, excluded, budget, outcomes, now);
      remainingDue := Count(later);
    }

    method DrainListed(
      ids: seq<string>, excluded: seq<Scope>, budget: Option<nat>, outcomes: string -> Outcome, now: int)
      returns (summary: Summary)
      requires Pass(rows, ids, excluded, budget, outcomes, now).Valid()
      modifies this
      ensures var p := Pass(old(rows), ids, excluded, budget, outcomes, now);
        rows == TableAfter(p, |ids|) && summary == Tally(p, |ids|)
    {
      summary := Summary(0, 0, 0, 0, 0);
      ghost var p := Pass(rows, ids, excluded, budget, outcomes, now);
      for i := 0 to |ids|
        invariant rows == TableAfter(p, i)
        invariant summary == Tally(p, i)
      {
        PassAdvances(p, i);
        summary := DrainOne(ids[i], excluded, budget, outcomes(ids[i]), now, summary);
      }
    }

    method DrainOne(id: string, excluded: seq<Scope>, budget: Option<nat>, outcome: Outcome, now: int, before: Summary)
      returns (summary: Summary)
      requires id in rows
      modifies this
      ensures var fate := FateOf(old(rows)[id], excluded, budget, before.drained, outcome);
        && summary == Counted(before, fate, outcome)
        && rows == WithFate(old(rows), id, RowAfter(old(rows)[id], fate, outcome, now))
    {
      var row := rows[id];
      summary := before;
      if Unparsed(row) {
        summary := summary.(deferred := summary.deferred + 1);
        Defer(id, row.attempts + 1, Parse(row.parseError.GetOr("")), now);
        return;
      }
      var decision := ShouldSkip(row, excluded);
      if decision.Clear? {
        Clear(id);
        return;
      }
      if decision.Keep? {
        if budget == Some(0) { assert rows[id := row] == rows; return; }
        summary := summary.(deferred := summary.deferred + 1);
        Defer(id, row.attempts, ActiveProjectRepair, now);
        return;
      }
      if budget.Some? && summary.drained >= budget.value { assert rows[id := row] == rows; return; }
      summary := summary.(drained := summary.drained + 1);
      match outcome {
        case Finished(remoteSynced, qualityDeferred) =>
          summary := summary.(
            remoteSynced := summary.remoteSynced + remoteSynced,
            qualityDeferred := summary.qualityDeferred + qualityDeferred);
          if qualityDeferred > 0 {
            summary := summary.(deferred := summary.deferred + 1);
            Defer(id, row.attempts + 1, Quality(qualityDeferred), now);
          } else {
            Clear(id);
            summary := summary.(repaired := summary.repaired + 1);
          }
        case Threw(message) =>
          summary := summary.(deferred := summary.deferred + 1);
          Defer(id, row.attempts + 1, Replay(message), now);
      }
    }
  }

  /** The replay budget: the limit rounded down and never below zero, or none. */
  function BudgetOf(limit: Option<real>): Option<nat> {
    match limit
    case None => None
    case Some(l) => Some(Max(0, l.Floor))
  }

  /** The budget is the whole part of the limit, and nothing for a limit below one. */
  lemma BudgetIs(limit: real)
    ensures BudgetOf(Some(limit)).Some?
    ensures var b := BudgetOf(Some(limit)).value;
      if limit < 1.0 then b == 0 else b as real <= limit < b as real + 1.0
  {
  }

  /** All due rows are listed under a budget, twenty-five without one. */
  function ListLimit(rows: Table, budget: Option<nat>, now: int): nat {
    if budget.None? then 25 else Max(1, |Due(rows, now)|)
  }

  predicate AllWaiting(rows: Table, waiting: seq<Waiting>) {
    forall w :: w in waiting ==> IsWaiting(rows, w)
  }

  predicate IsWaiting(rows: Table, w: Waiting) {
    w.id in rows && w == Waiting(w.id, rows[w.id].nextAttemptAt, rows[w.id].updatedAt)
  }

  function Ids(waiting: seq<Waiting>): (r: seq<string>)
    ensures |r| == |waiting|
    ensures forall i :: 0 <= i < |waiting| ==> r[i] == waiting[i].id
  {
    seq(|waiting|, i requires 0 <= i < |waiting| => waiting[i].id)
  }

  predicate Gathered(rows: Table, now: int, waiting: seq<Waiting>, left: set<string>) {
    Distinct(Ids(waiting)) && ToSet(Ids(waiting)) !! left && ToSet(Ids(waiting)) + left == Due(rows, now)
  }

  lemma GatherOne(rows: Table, now: int, waiting: seq<Waiting>, left: set<string>, id: string)
    requires Gathered(rows, now, waiting, left) && id in left
    ensures id in rows
    ensures Gathered(rows, now, waiting + [Waiting(id, rows[id].nextAttemptAt, rows[id].updatedAt)], left - {id})
  {
    assert id in Due(rows, now);
    var more := waiting + [Waiting(id, rows[id].nextAttemptAt, rows[id].updatedAt)];
    assert Ids(more) == Ids(waiting) + [id];
    ToSetAppend(Ids(waiting), id);
    forall i | 0 <= i < |waiting| ensures Ids(waiting)[i] != id { assert Ids(waiting)[i] in ToSet(Ids(waiting)); }
  }

  predicate Sorted(rows: Table, now: int, sorted: seq<Waiting>) {
    && AllWaiting(rows, sorted)
    && Distinct(Ids(sorted))
    && ToSet(Ids(sorted)) == Due(rows, now)
    && (forall i, j :: 0 <= i < j < |sorted| ==> ByWaiting()(sorted[i], sorted[j]))
  }

  lemma SortedListing(rows: Table, now: int, waiting: seq<Waiting>, sorted: seq<Waiting>)
    requires AllWaiting(rows, waiting) && Gathered(rows, now, waiting, {}) && sorted == Sort(waiting, ByWaiting())
    ensures Sorted(rows, now, sorted)
  {
    SortSorts(waiting, ByWaiting());
    forall i, j | 0 <= i < j < |waiting| ensures waiting[i] != waiting[j] {
      assert Ids(waiting)[i] != Ids(waiting)[j];
    }
    SortElements(waiting, ByWaiting());
    forall i, j | 0 <= i < j < |sorted| ensures Ids(sorted)[i] != Ids(sorted)[j] {
      assert IsWaiting(rows, sorted[i]) && IsWaiting(rows, sorted[j]) && sorted[i] != sorted[j];
    }
    SameIds(waiting, sorted);
  }

  lemma SameIds(s: seq<Waiting>, t: seq<Waiting>)
    requires forall w :: w in s <==> w in t
    ensures ToSet(Ids(s)) == ToSet(Ids(t))
  {
    forall id ensures id in Ids(s) <==> id in Ids(t) {
      if i :| 0 <= i < |s| && Ids(s)[i] == id {
        assert s[i] in t;
        var j :| 0 <= j < |t| && t[j] == s[i];
        assert Ids(t)[j] == id;
      }
      if j :| 0 <= j < |t| && Ids(t)[j] == id {
        assert t[j] in s;
        var i :| 0 <= i < |s| && s[i] == t[j];
        assert Ids(s)[i] == id;
      }
    }
  }

  lemma FirstOfListing(rows: Table, now: int, sorted: seq<Waiting>, limit: nat, ids: seq<string>)
    requires Sorted(rows, now, sorted)
    requires |ids| == Min(limit, |sorted|) && forall i :: 0 <= i < |ids| ==> ids[i] == sorted[i].id
    ensures Listed(rows, now, limit, ids)
  {
    DistinctSize(Ids(sorted));
    forall i, j | 0 <= i < j < |ids| ensures ids[i] != ids[j] { assert Ids(sorted)[i] != Ids(sorted)[j]; }
    forall i | 0 <= i < |sorted| ensures sorted[i].id in Due(rows, now) && IsWaiting(rows, sorted[i]) {
      assert Ids(sorted)[i] in ToSet(Ids(sorted));
    }
    forall i, id | 0 <= i < |ids| && id in Due(rows, now) && id !in ids ensures WaitsLonger(rows, ids[i], id) {
      assert id in ToSet(Ids(sorted));
      var k :| 0 <= k < |sorted| && Ids(sorted)[k] == id;
      assert forall m :: 0 <= m < |ids| ==> sorted[m].id == ids[m] != id;
      assert ByWaiting()(sorted[i], sorted[k]);
    }
    forall i, j | 0 <= i < j < |ids| ensures WaitsLonger(rows, ids[i], ids[j]) {
      assert ByWaiting()(sorted[i], sorted[j]);
    }
  }
}
