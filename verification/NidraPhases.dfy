/** What each event does to the daemon. */
module NidraPhases {
  import opened Collections
  import opened NidraCycle
  import opened NidraRuns

  // ---- When a notification forces DEEP_SLEEP ----------------------------------------

  /** Under a new generation, a bulk run of exactly `ids` has been started, if there is a handler. */
  predicate HandedOver(d: Daemon, s: Daemon, ids: seq<SessionId>) {
    && s.generation > d.generation
    && (d.bulkHandler ==> s.completionPending && s.runs == d.runs[s.generation := ids])
    && (!d.bulkHandler ==> s.runs == d.runs)
  }

  lemma NotedExactly(d: Daemon, id: SessionId, now: int, dbOk: bool)
    requires Sound(d) && AllCounted(d) && d.running
    ensures var n := Noted(d, id, now, dbOk);
      && n.mem.state == (if d.mem.state.DeepSleep? then Listening else d.mem.state)
      && n.mem.pending == (if id in d.mem.pending then d.mem.pending else d.mem.pending + [id])
      && n.mem.notifications == (if d.mem.state.DeepSleep? then 1 else d.mem.notifications + 1)
      && n.runs == d.runs && n.generation >= d.generation && n.bulkHandler == d.bulkHandler
      && n.sessionThreshold == d.sessionThreshold
      && n.mem.sessionsProcessed == |n.mem.pending| && !n.mem.preserve
  {
    UniqueOfDistinct(d.mem.pending);
    NotedState(d, id, now, dbOk);
  }

  /**
   * A notification puts the daemon to sleep exactly when the distinct ids pending with it reach
   * the threshold, and then hands exactly those over; otherwise it only ends a DEEP_SLEEP.
   */
  lemma NotifySleepsIff(d: Daemon, id: SessionId, now: int, dbOk: bool)
    requires Sound(d) && AllCounted(d) && d.running
    ensures var s := Step(d, Notify(id), now, dbOk);
      && (s.mem.state.DeepSleep? <==> |ToSet(d.mem.pending) + {id}| >= d.sessionThreshold)
      && (!s.mem.state.DeepSleep? ==> s.runs == d.runs)
      && (!s.mem.state.DeepSleep? ==> s.mem.state == if d.mem.state.DeepSleep? then Listening else d.mem.state)
      && (s.mem.state.DeepSleep? ==> HandedOver(d, s, s.mem.pending) && s.mem.lastStateChange == now)
      && s.mem.pending == (if id in d.mem.pending then d.mem.pending else d.mem.pending + [id])
      && s.mem.notifications == (if d.mem.state.DeepSleep? then 1 else d.mem.notifications + 1)
      && s.mem.sessionsProcessed == |s.mem.pending|
  {
    var n := Noted(d, id, now, dbOk);
    NotedExactly(d, id, now, dbOk);
    NotedState(d, id, now, dbOk);
    DistinctSize(n.mem.pending);
    ForcedSleep(n, now, dbOk);
    SleepRuns(n, true, now, dbOk);
  }

  /** While running, asleep just when the distinct ids reach the threshold, and then with exactly those handed over. */
  ghost predicate SleepsAtThreshold(d: Daemon, s: Daemon, id: SessionId) {
    d.running ==>
      && (s.mem.state.DeepSleep? <==> |ToSet(d.mem.pending) + {id}| >= d.sessionThreshold)
      && (s.mem.state.DeepSleep? ==> HandedOver(d, s, s.mem.pending))
      && ToSet(s.mem.pending) == ToSet(d.mem.pending) + {id}
  }

  lemma NotifiedSleepsIff(d: Daemon, id: SessionId, now: int, dbOk: bool)
    ensures Sound(d) && AllCounted(d) ==> SleepsAtThreshold(d, Step(d, Notify(id), now, dbOk), id)
  {
    if Sound(d) && AllCounted(d) && d.running { NotifySleepsIff(d, id, now, dbOk); }
  }

  lemma TransitionKeepsThreshold(d: Daemon, target: Phase, interrupt: bool, now: int, dbOk: bool)
    ensures Transition(d, target, interrupt, now, dbOk).sessionThreshold == d.sessionThreshold
  {
  }

  lemma NotedKeepsThreshold(d: Daemon, id: SessionId, now: int, dbOk: bool)
    ensures Noted(d, id, now, dbOk).sessionThreshold == d.sessionThreshold
  {
    TransitionKeepsThreshold(Marked(d.(mem := d.mem.(preserve := true))), Listening, true, now, dbOk);
  }

  lemma NotifyKeepsThreshold(d: Daemon, id: SessionId, now: int, dbOk: bool)
    ensures NotifySession(d, id, now, dbOk).sessionThreshold == d.sessionThreshold
  {
    NotedKeepsThreshold(d, id, now, dbOk);
    TransitionKeepsThreshold(Noted(d, id, now, dbOk), DeepSleep, true, now, dbOk);
  }

  lemma StepKeepsThreshold(d: Daemon, e: Event, now: int, dbOk: bool)
    ensures Step(d, e, now, dbOk).sessionThreshold == d.sessionThreshold
  {
    match e
    case Wake => TransitionKeepsThreshold(Marked(d), Listening, true, now, dbOk);
    case Notify(id) => NotifyKeepsThreshold(d, id, now, dbOk);
    case IdleTimer => TransitionKeepsThreshold(d, Dreaming, false, now, dbOk);
    case DreamTimer => TransitionKeepsThreshold(d, DeepSleep, false, now, dbOk);
    case DeepSleepTimer(_) => TransitionKeepsThreshold(d, Listening, false, now, dbOk);
    case Start =>
    case Stop =>
    case Crash =>
    case RegisterBulkHandler =>
    case BulkResolve(_, _) =>
    case BulkReject(_) =>
  }

  lemma {:induction false} ThresholdStays(threshold: int, begin: int, ticks: seq<Tick>)
    ensures Play(Beginning(threshold, begin), ticks).daemon.sessionThreshold == threshold
  {
    if ticks != [] {
      var t := ticks[|ticks| - 1];
      ThresholdStays(threshold, begin, ticks[..|ticks| - 1]);
      StepKeepsThreshold(Play(Beginning(threshold, begin), ticks[..|ticks| - 1]).daemon, t.event, t.now, t.dbOk);
    }
  }

  /** So it does at every moment of every run whose earlier writes succeeded. */
  lemma RunsSleepAtThreshold(threshold: int, begin: int, ticks: seq<Tick>, id: SessionId, now: int, dbOk: bool)
    requires forall i :: 0 <= i < |ticks| ==> ticks[i].dbOk
    requires Play(Beginning(threshold, begin), ticks).daemon.running
    ensures var d := Play(Beginning(threshold, begin), ticks).daemon;
      var s := Play(Beginning(threshold, begin), ticks + [Tick(Notify(id), now, dbOk)]).daemon;
      d.sessionThreshold == threshold && SleepsAtThreshold(d, s, id)
  {
    EveryRunIsDurable(threshold, begin, ticks);
    ThresholdStays(threshold, begin, ticks);
    PlayLast(Beginning(threshold, begin), ticks, Tick(Notify(id), now, dbOk));
    NotifiedIn(Play(Beginning(threshold, begin), ticks), id, now, dbOk);
  }

  lemma NotifiedIn(w: World, id: SessionId, now: int, dbOk: bool)
    requires Durable(w)
    ensures SleepsAtThreshold(w.daemon, Advance(w, Tick(Notify(id), now, dbOk)).daemon, id)
  {
    NotifiedSleepsIff(w.daemon, id, now, dbOk);
  }

  // ---- Every other step ---------------------------------------------------------------

  /** The bulk run of the current episode has come back to a daemon still in it. */
  predicate InTime(d: Daemon, gen: nat) {
    d.running && d.mem.state.DeepSleep? && gen == d.generation && gen in d.runs
  }

  /** The timer of the current episode finds no result outstanding. */
  predicate Ends(d: Daemon, at: int) {
    d.running && d.mem.state.DeepSleep? && d.mem.lastStateChange == at && !d.completionPending
  }

  /** Which phase each event other than a notification leads to. */
  function PhaseAfter(d: Daemon, e: Event, dbOk: bool): Phase
    requires !e.Notify?
  {
    var was := d.mem.state;
    match e
    case Start =>
      if d.running then was else if !dbOk then Listening else if d.row.Some? then d.row.value.currentState else was
    case Crash => Listening
    case Wake => if d.running then Listening else was
    case IdleTimer => if d.running && was.Listening? then Dreaming else was
    case DreamTimer => if d.running && was.Dreaming? then DeepSleep else was
    case DeepSleepTimer(at) => if Ends(d, at) then Listening else was
    case _ => was
  }

  lemma TransitionPhase(d: Daemon, target: Phase, interrupt: bool, now: int, dbOk: bool)
    ensures var s := Transition(d, target, interrupt, now, dbOk);
      && s.running == d.running
      && s.mem.state == if d.running && (interrupt || NextPhase(d.mem.state) == target) then target else d.mem.state
  {
  }

  lemma StepPhase(d: Daemon, e: Event, now: int, dbOk: bool)
    requires !e.Notify?
    ensures Step(d, e, now, dbOk).mem.state == PhaseAfter(d, e, dbOk)
    ensures Step(d, e, now, dbOk).running == (e.Start? || (d.running && !e.Stop? && !e.Crash?))
  {
    match e
    case Wake => TransitionPhase(Marked(d), Listening, true, now, dbOk);
    case IdleTimer => TransitionPhase(d, Dreaming, false, now, dbOk);
    case DreamTimer => TransitionPhase(d, DeepSleep, false, now, dbOk);
    case DeepSleepTimer(_) => TransitionPhase(d, Listening, false, now, dbOk);
    case Start =>
    case Stop =>
    case Crash =>
    case RegisterBulkHandler =>
    case BulkResolve(_, _) =>
    case BulkReject(_) =>
  }

  lemma TransitionClock(d: Daemon, target: Phase, interrupt: bool, now: int, dbOk: bool)
    requires d.mem.state != target
    ensures var s := Transition(d, target, interrupt, now, dbOk);
      s.mem.lastStateChange == if s.mem.state == d.mem.state then d.mem.lastStateChange else now
  {
  }

  /** The clock of a phase is set exactly when a running daemon changes phase. */
  lemma StepClock(d: Daemon, e: Event, now: int, dbOk: bool)
    requires d.running && !e.Notify? && !e.Crash?
    ensures var s := Step(d, e, now, dbOk);
      s.mem.lastStateChange == if s.mem.state == d.mem.state then d.mem.lastStateChange else now
  {
    match e
    case Wake => if !d.mem.state.Listening? { TransitionClock(Marked(d), Listening, true, now, dbOk); }
    case IdleTimer => if d.mem.state.Listening? { TransitionClock(d, Dreaming, false, now, dbOk); }
    case DreamTimer => if d.mem.state.Dreaming? { TransitionClock(d, DeepSleep, false, now, dbOk); }
    case DeepSleepTimer(_) => if d.mem.state.DeepSleep? { TransitionClock(d, Listening, false, now, dbOk); }
    case Start =>
    case Stop =>
    case RegisterBulkHandler =>
    case BulkResolve(_, _) =>
    case BulkReject(_) =>
  }

  /** What each event other than a notification leaves pending, in order. */
  function PendingAfter(d: Daemon, e: Event, dbOk: bool): seq<SessionId>
    requires !e.Notify?
  {
    match e
    case Start => if !d.running && dbOk && d.row.Some? then d.row.value.pendingIds else d.mem.pending
    case Crash => []
    case Wake => if d.running && d.mem.state.Dreaming? && !d.mem.preserve then [] else d.mem.pending
    case DeepSleepTimer(at) => if Ends(d, at) && !d.mem.preserve then [] else d.mem.pending
    case BulkResolve(gen, processed) =>
      if !InTime(d, gen) then d.mem.pending
      else if processed.None? then []
      else Filter(d.mem.pending, (id: SessionId) => id !in processed.value)
    case _ => d.mem.pending
  }

  lemma StepPending(d: Daemon, e: Event, now: int, dbOk: bool)
    requires Sound(d) && !e.Notify?
    ensures Step(d, e, now, dbOk).mem.pending == PendingAfter(d, e, dbOk)
  {
    match e
    case Wake => if d.running { WakeKeepsIds(d, now, dbOk); }
    case IdleTimer => if d.running { TimersKeepIds(d, 0, now, dbOk); }
    case DreamTimer => if d.running { TimersKeepIds(d, 0, now, dbOk); }
    case DeepSleepTimer(at) => if d.running { TimersKeepIds(d, at, now, dbOk); }
    case BulkResolve(gen, processed) => if InTime(d, gen) { ResolvedPending(d, gen, processed, dbOk); }
    case Start =>
    case Stop =>
    case Crash =>
    case RegisterBulkHandler =>
    case BulkReject(_) =>
  }

  lemma ResolvedPending(d: Daemon, gen: nat, processed: Option<seq<SessionId>>, dbOk: bool)
    requires Sound(d) && InTime(d, gen)
    ensures Resolve(d, gen, processed, dbOk).mem.pending == if processed.None? then []
      else Filter(d.mem.pending, (id: SessionId) => id !in processed.value)
  {
    var consumed := Consumed(d, gen, processed);
    match processed
    case None => FilterNone(d.mem.pending, (id: SessionId) => id !in consumed);
    case Some(ids) =>
      FilterCongruent(d.mem.pending, (id: SessionId) => id !in consumed, (id: SessionId) => id !in ids);
  }

  /** What each event other than a notification leaves marked to be kept. */
  function PreserveAfter(d: Daemon, e: Event, dbOk: bool): bool
    requires !e.Notify?
  {
    match e
    case Start => if !d.running && dbOk && d.row.Some? then d.row.value.preserveFlag == 1 else d.mem.preserve
    case Crash => false
    case Wake => (!d.running || d.mem.state.Listening?) && d.mem.preserve
    case DeepSleepTimer(at) => !Ends(d, at) && d.mem.preserve
    case BulkResolve(gen, _) => if InTime(d, gen) then PendingAfter(d, e, dbOk) != [] else d.mem.preserve
    case _ => d.mem.preserve
  }

  lemma TransitionPreserve(d: Daemon, target: Phase, interrupt: bool, now: int, dbOk: bool)
    ensures Transition(d, target, interrupt, now, dbOk).mem.preserve
      == (d.mem.preserve && !(d.running && (interrupt || NextPhase(d.mem.state) == target) && target.Listening?))
  {
  }

  lemma StepPreserve(d: Daemon, e: Event, now: int, dbOk: bool)
    requires Sound(d) && !e.Notify?
    ensures Step(d, e, now, dbOk).mem.preserve == PreserveAfter(d, e, dbOk)
  {
    match e
    case Wake => TransitionPreserve(Marked(d), Listening, true, now, dbOk);
    case IdleTimer => TransitionPreserve(d, Dreaming, false, now, dbOk);
    case DreamTimer => TransitionPreserve(d, DeepSleep, false, now, dbOk);
    case DeepSleepTimer(_) => TransitionPreserve(d, Listening, false, now, dbOk);
    case BulkResolve(gen, processed) => if InTime(d, gen) { ResolvedPending(d, gen, processed, dbOk); }
    case Start =>
    case Stop =>
    case Crash =>
    case RegisterBulkHandler =>
    case BulkReject(_) =>
  }

  /** Dreams without a session are counted when they are left, and sleeping deeply starts over. */
  predicate CyclesFollow(d: Daemon, s: Daemon) {
    var woke := d.mem.state.Dreaming? && !s.mem.state.Dreaming?;
    && s.mem.idleDreamCycles ==
      (if s.mem.state.DeepSleep? && !d.mem.state.DeepSleep? then 0
       else if woke then (if d.sessionSeenThisDream then 0 else d.mem.idleDreamCycles + 1)
       else d.mem.idleDreamCycles)
    && (s.sessionSeenThisDream <==>
         d.sessionSeenThisDream && !woke && !(d.mem.state.DeepSleep? && !s.mem.state.DeepSleep?))
    && s.mem.notifications ==
      (if s.mem.state.Listening? && !d.mem.state.Listening? then 0 else d.mem.notifications)
  }

  lemma TransitionCycles(d: Daemon, target: Phase, interrupt: bool, now: int, dbOk: bool)
    requires d.mem.state != target && (d.mem.state.DeepSleep? ==> target.Listening?)
    ensures CyclesFollow(d, Transition(d, target, interrupt, now, dbOk))
  {
  }

  lemma WakeCycles(d: Daemon, now: int, dbOk: bool)
    ensures CyclesFollow(d, WakeUp(d, now, dbOk))
  {
    if !d.mem.state.Listening? { TransitionCycles(Marked(d), Listening, true, now, dbOk); }
  }

  lemma TimersCycle(d: Daemon, at: int, now: int, dbOk: bool)
    ensures CyclesFollow(d, IdleFires(d, now, dbOk))
    ensures CyclesFollow(d, Transition(d, DeepSleep, false, now, dbOk))
    ensures CyclesFollow(d, SleepFires(d, at, now, dbOk))
  {
    if d.mem.state.Listening? { TransitionCycles(d, Dreaming, false, now, dbOk); }
    if d.mem.state.Dreaming? { TransitionCycles(d, DeepSleep, false, now, dbOk); }
    if d.mem.state.DeepSleep? { TransitionCycles(d, Listening, false, now, dbOk); }
  }

  lemma StepCycles(d: Daemon, e: Event, now: int, dbOk: bool)
    requires d.running && !e.Notify? && !e.Crash?
    ensures CyclesFollow(d, Step(d, e, now, dbOk))
  {
    match e
    case Wake => WakeCycles(d, now, dbOk);
    case IdleTimer => TimersCycle(d, 0, now, dbOk);
    case DreamTimer => TimersCycle(d, 0, now, dbOk);
    case DeepSleepTimer(at) => TimersCycle(d, at, now, dbOk);
    case Start =>
    case Stop =>
    case RegisterBulkHandler =>
    case BulkResolve(_, _) =>
    case BulkReject(_) =>
  }

  /** A notification is seen by the dream it falls into, unless it ends that dream in DEEP_SLEEP. */
  lemma NotifyCycles(d: Daemon, id: SessionId, now: int, dbOk: bool)
    requires d.running
    ensures var s := Step(d, Notify(id), now, dbOk);
      && (s.sessionSeenThisDream <==> !(d.mem.state.Dreaming? && s.mem.state.DeepSleep?))
      && s.mem.idleDreamCycles == if s.mem.state.DeepSleep? then 0 else d.mem.idleDreamCycles
  {
    var n := Noted(d, id, now, dbOk);
    NotedCycles(d, id, now, dbOk);
    TransitionCycles(n, DeepSleep, true, now, dbOk);
  }

  lemma NotedCycles(d: Daemon, id: SessionId, now: int, dbOk: bool)
    requires d.running
    ensures var n := Noted(d, id, now, dbOk);
      && n.sessionSeenThisDream && n.mem.idleDreamCycles == d.mem.idleDreamCycles
      && n.mem.state == if d.mem.state.DeepSleep? then Listening else d.mem.state
  {
    WakeCycles(d.(mem := d.mem.(preserve := true)), now, dbOk);
  }

  /** Which bulk runs are outstanding, and whether the episode is a new one. */
  predicate RunsFollow(d: Daemon, s: Daemon, settled: set<nat>) {
    var entered := s.running && s.mem.state.DeepSleep? && !(d.running && d.mem.state.DeepSleep?);
    var left := d.running && d.mem.state.DeepSleep? && s.running && !s.mem.state.DeepSleep?;
    && (entered ==> HandedOver(d, s, s.mem.pending))
    && (!entered ==> s.runs == d.runs - settled)
    && s.generation == d.generation + if entered || left then 1 else 0
  }

  lemma TransitionRunsFollow(d: Daemon, target: Phase, interrupt: bool, now: int, dbOk: bool)
    requires Sound(d) && d.mem.state != target && (d.mem.state.DeepSleep? ==> target.Listening?)
    ensures RunsFollow(d, Transition(d, target, interrupt, now, dbOk), {})
  {
    if d.running && (interrupt || NextPhase(d.mem.state) == target) {
      TransitionState(d, target, interrupt, now, dbOk);
      if target.DeepSleep? { SleepRuns(d, interrupt, now, dbOk); } else { OtherRuns(d, target, interrupt, now, dbOk); }
    }
  }

  lemma TimersRunsFollow(d: Daemon, at: int, now: int, dbOk: bool)
    requires Sound(d)
    ensures RunsFollow(d, IdleFires(d, now, dbOk), {})
    ensures RunsFollow(d, Transition(d, DeepSleep, false, now, dbOk), {})
    ensures RunsFollow(d, SleepFires(d, at, now, dbOk), {})
  {
    if d.mem.state.Listening? { TransitionRunsFollow(d, Dreaming, false, now, dbOk); }
    if d.mem.state.Dreaming? { TransitionRunsFollow(d, DeepSleep, false, now, dbOk); }
    if d.mem.state.DeepSleep? { TransitionRunsFollow(d, Listening, false, now, dbOk); }
  }

  lemma WakeRunsFollow(d: Daemon, now: int, dbOk: bool)
    requires Sound(d)
    ensures RunsFollow(d, WakeUp(d, now, dbOk), {})
  {
    if !d.mem.state.Listening? { TransitionRunsFollow(Marked(d), Listening, true, now, dbOk); }
  }

  /** The runs an event settles. */
  predicate Settles(e: Event, settled: set<nat>) {
    settled == if e.BulkResolve? || e.BulkReject? then {e.gen} else {}
  }

  /** A new bulk run is handed exactly the pending ids, just when an episode begins, and only settling ends one. */
  lemma StepRuns(d: Daemon, e: Event, now: int, dbOk: bool, settled: set<nat>)
    requires Sound(d) && !e.Notify? && !e.Crash? && Settles(e, settled)
    ensures RunsFollow(d, Step(d, e, now, dbOk), settled)
  {
    match e
    case Wake => WakeRunsFollow(d, now, dbOk);
    case IdleTimer => TimersRunsFollow(d, 0, now, dbOk);
    case DreamTimer => TimersRunsFollow(d, 0, now, dbOk);
    case DeepSleepTimer(at) => TimersRunsFollow(d, at, now, dbOk);
    case Start =>
    case Stop =>
    case RegisterBulkHandler =>
    case BulkResolve(_, _) =>
    case BulkReject(_) =>
  }

  /** A result is awaited until it comes, the run is rejected, or the episode is left. */
  lemma StepAwaits(d: Daemon, e: Event, now: int, dbOk: bool)
    requires Sound(d) && d.running && d.mem.state.DeepSleep? && !e.Crash? && !e.Stop?
    ensures var s := Step(d, e, now, dbOk);
      s.mem.state.DeepSleep? && !e.Notify? ==>
        s.completionPending == (d.completionPending && !((e.BulkResolve? || e.BulkReject?) && InTime(d, e.gen)))
  {
  }

  /** A failed write leaves the row; a good one makes it the memory. */
  predicate RowFollows(d: Daemon, s: Daemon, dbOk: bool) {
    s.row == d.row || (dbOk && s.row == Some(ToRow(s.mem)))
  }

  lemma TransitionRow(d: Daemon, target: Phase, interrupt: bool, now: int, dbOk: bool)
    ensures RowFollows(d, Transition(d, target, interrupt, now, dbOk), dbOk)
  {
  }

  lemma NotedRow(d: Daemon, id: SessionId, now: int, dbOk: bool)
    requires d.running
    ensures RowFollows(d, Noted(d, id, now, dbOk), dbOk)
  {
    TransitionRow(Marked(d.(mem := d.mem.(preserve := true))), Listening, true, now, dbOk);
  }

  lemma NotifyRow(d: Daemon, id: SessionId, now: int, dbOk: bool)
    ensures RowFollows(d, NotifySession(d, id, now, dbOk), dbOk)
  {
    if d.running {
      NotedRow(d, id, now, dbOk);
      TransitionRow(Noted(d, id, now, dbOk), DeepSleep, true, now, dbOk);
    }
  }

  /** Whatever happens, the row stays as it was or is what memory says by then. */
  lemma StepRow(d: Daemon, e: Event, now: int, dbOk: bool)
    ensures RowFollows(d, Step(d, e, now, dbOk), dbOk)
  {
    match e
    case Wake => TransitionRow(Marked(d), Listening, true, now, dbOk);
    case Notify(id) => NotifyRow(d, id, now, dbOk);
    case IdleTimer => TransitionRow(d, Dreaming, false, now, dbOk);
    case DreamTimer => TransitionRow(d, DeepSleep, false, now, dbOk);
    case DeepSleepTimer(_) => TransitionRow(d, Listening, false, now, dbOk);
    case Start =>
    case Stop =>
    case Crash =>
    case RegisterBulkHandler =>
    case BulkResolve(_, _) =>
    case BulkReject(_) =>
  }

  /** Which column of the row each durable field is written to. */
  lemma RowSays(m: Memory)
    ensures var r := ToRow(m);
      && r.currentState == m.state && r.lastStateChange == m.lastStateChange && r.pendingIds == m.pending
      && r.idleDreamCycles == m.idleDreamCycles && r.sessionsProcessed == m.sessionsProcessed
      && r.notifications == m.notifications && (r.preserveFlag == 1 <==> m.preserve)
  {
  }
}
