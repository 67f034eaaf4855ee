/** The sleep-cycle daemon as a state machine over atomic steps. */
module NidraCycle {
  import opened Collections

  type SessionId = string

  datatype Phase = Listening | Dreaming | DeepSleep

  /** The daemon fields that are written to the durable row. */
  datatype Memory = Memory(
    state: Phase,
    lastStateChange: int,
    idleDreamCycles: nat,
    sessionsProcessed: nat,
    notifications: nat,
    pending: seq<SessionId>,
    preserve: bool)

  /** The singleton row: the preserve flag is stored as an integer. */
  datatype Row = Row(
    currentState: Phase,
    lastStateChange: int,
    idleDreamCycles: nat,
    sessionsProcessed: nat,
    notifications: nat,
    pendingIds: seq<SessionId>,
    preserveFlag: int)

  function ToRow(m: Memory): Row {
    Row(m.state, m.lastStateChange, m.idleDreamCycles, m.sessionsProcessed, m.notifications,
        m.pending, if m.preserve then 1 else 0)
  }

  function FromRow(r: Row): Memory {
    Memory(r.currentState, r.lastStateChange, r.idleDreamCycles, r.sessionsProcessed, r.notifications,
           r.pendingIds, r.preserveFlag == 1)
  }

  /**
   * One daemon instance and the database row. `runs` holds the bulk consolidations
   * this instance started that have not settled, by generation, with the ids handed over.
   */
  datatype Daemon = Daemon(
    mem: Memory,
    sessionSeenThisDream: bool,
    running: bool,
    bulkHandler: bool,
    generation: nat,
    completionPending: bool,
    runs: map<nat, seq<SessionId>>,
    row: Option<Row>,
    sessionThreshold: int)

  datatype Event =
    | RegisterBulkHandler
    | Start
    | Stop
    | Crash
    | Wake
    | Notify(id: SessionId)
    | IdleTimer
    | DreamTimer
    | DeepSleepTimer(phaseStartedAt: int)
    | BulkResolve(gen: nat, processed: Option<seq<SessionId>>)
    | BulkReject(gen: nat)

  function NextPhase(p: Phase): Phase {
    match p
    case Listening => Dreaming
    case Dreaming => DeepSleep
    case DeepSleep => Listening
  }

  function FreshMemory(now: int): Memory { Memory(Listening, now, 0, 0, 0, [], false) }

  function FreshDaemon(row: Option<Row>, threshold: int, now: int): Daemon {
    Daemon(FreshMemory(now), false, false, false, 0, false, map[], row, threshold)
  }

  /** The distinct ids in order of first appearance. */
  function Unique(ids: seq<SessionId>): seq<SessionId> {
    if ids == [] then []
    else
      var front := Unique(ids[..|ids| - 1]);
      if ids[|ids| - 1] in front then front else front + [ids[|ids| - 1]]
  }

  /** Write memory to the row; a failed write leaves the old row. */
  function Persist(d: Daemon, dbOk: bool): Daemon {
    if dbOk then d.(row := Some(ToRow(d.mem))) else d
  }

  function Restore(d: Daemon, now: int, dbOk: bool): Daemon {
    if !dbOk then d.(mem := d.mem.(state := Listening, lastStateChange := now))
    else match d.row
      case None => d
      case Some(r) => d.(mem := FromRow(r))
  }

  function RunDeepSleep(d: Daemon): Daemon {
    var gen := d.generation + 1;
    if d.bulkHandler then d.(generation := gen, completionPending := true, runs := d.runs[gen := d.mem.pending])
    else d.(generation := gen)
  }

  function LeaveDream(d: Daemon): Daemon {
    d.(mem := d.mem.(idleDreamCycles := if d.sessionSeenThisDream then 0 else d.mem.idleDreamCycles + 1),
       sessionSeenThisDream := false)
  }

  function EnterListening(d: Daemon): Daemon {
    var kept := if d.mem.preserve then Unique(d.mem.pending) else [];
    d.(mem := d.mem.(pending := kept, sessionsProcessed := |kept|, notifications := 0, preserve := false),
       sessionSeenThisDream := false)
  }

  /** What leaving the current phase for `target` does to counters and generations. */
  function Depart(d: Daemon, target: Phase): Daemon {
    var d1 := if d.mem.state.Dreaming? && !target.Dreaming? then LeaveDream(d) else d;
    var d2 := if target.DeepSleep? then d1.(mem := d1.mem.(idleDreamCycles := 0)) else d1;
    if d.mem.state.DeepSleep? && !target.DeepSleep?
    then d2.(generation := d2.generation + 1, completionPending := false) else d2
  }

  function Arrive(d: Daemon, target: Phase, now: int, dbOk: bool): Daemon {
    var d1 := if target.Listening? then EnterListening(d) else d;
    var d2 := Persist(d1.(mem := d1.mem.(state := target, lastStateChange := now)), dbOk);
    if target.DeepSleep? then RunDeepSleep(d2) else d2
  }

  function Transition(d: Daemon, target: Phase, interrupt: bool, now: int, dbOk: bool): Daemon {
    if !d.running || (!interrupt && NextPhase(d.mem.state) != target) then d
    else Arrive(Depart(d, target), target, now, dbOk)
  }

  /** An interrupt out of DEEP_SLEEP marks the pending ids to be kept. */
  function Marked(d: Daemon): Daemon {
    if d.mem.state.DeepSleep? then d.(mem := d.mem.(preserve := d.mem.preserve || d.mem.pending != [])) else d
  }

  function WakeUp(d: Daemon, now: int, dbOk: bool): Daemon {
    if !d.running || d.mem.state.Listening? then d else Transition(Marked(d), Listening, true, now, dbOk)
  }

  function Record(d: Daemon, id: SessionId): Daemon {
    var m := if id in d.mem.pending then d.mem
             else d.mem.(pending := d.mem.pending + [id], sessionsProcessed := d.mem.sessionsProcessed + 1);
    d.(mem := m.(notifications := m.notifications + 1), sessionSeenThisDream := true)
  }

  function NotifySession(d: Daemon, id: SessionId, now: int, dbOk: bool): Daemon {
    if !d.running then d
    else
      var noted := Noted(d, id, now, dbOk);
      if noted.mem.sessionsProcessed >= d.sessionThreshold && !noted.mem.state.DeepSleep?
      then Transition(noted, DeepSleep, true, now, dbOk) else noted
  }

  function Without(ids: seq<SessionId>, gone: set<SessionId>): seq<SessionId> {
    Filter(ids, (id: SessionId) => id !in gone)
  }

  /** A bulk result counts only for the run of the current DEEP_SLEEP episode. */
  predicate Effective(d: Daemon, gen: nat) {
    d.running && d.mem.state.DeepSleep? && gen == d.generation && gen in d.runs
  }

  function Consumed(d: Daemon, gen: nat, processed: Option<seq<SessionId>>): set<SessionId>
    requires gen in d.runs
  {
    ToSet(processed.GetOr(d.runs[gen]))
  }

  function Resolve(d: Daemon, gen: nat, processed: Option<seq<SessionId>>, dbOk: bool): Daemon {
    var settled := d.(runs := d.runs - {gen});
    if !Effective(d, gen) then settled
    else
      var left := Without(d.mem.pending, Consumed(d, gen, processed));
      Persist(settled.(mem := d.mem.(pending := left, preserve := left != []), completionPending := false), dbOk)
  }

  function Reject(d: Daemon, gen: nat): Daemon {
    if gen !in d.runs then d
    else d.(runs := d.runs - {gen}, completionPending := d.completionPending && gen != d.generation)
  }

  /** The DEEP_SLEEP duration timer gets past its guards. */
  predicate TimerExits(d: Daemon, phaseStartedAt: int) {
    d.running && d.mem.state.DeepSleep? && d.mem.lastStateChange == phaseStartedAt && !d.completionPending
  }

  function StartUp(d: Daemon, now: int, dbOk: bool): Daemon {
    if d.running then d
    else
      var up := Restore(d.(running := true), now, dbOk);
      if up.mem.state.DeepSleep? then RunDeepSleep(up) else up
  }

  function IdleFires(d: Daemon, now: int, dbOk: bool): Daemon {
    if d.running && d.mem.state.Listening? then Transition(d, Dreaming, false, now, dbOk) else d
  }

  function SleepFires(d: Daemon, phaseStartedAt: int, now: int, dbOk: bool): Daemon {
    if TimerExits(d, phaseStartedAt) then Transition(d, Listening, false, now, dbOk) else d
  }

  function Step(d: Daemon, e: Event, now: int, dbOk: bool): Daemon {
    match e
    case RegisterBulkHandler => d.(bulkHandler := true)
    case Start => StartUp(d, now, dbOk)
    case Stop => if d.running then Persist(d.(running := false), dbOk) else d
    case Crash => FreshDaemon(d.row, d.sessionThreshold, now)
    case Wake => WakeUp(d, now, dbOk)
    case Notify(id) => NotifySession(d, id, now, dbOk)
    case IdleTimer => IdleFires(d, now, dbOk)
    case DreamTimer => Transition(d, DeepSleep, false, now, dbOk)
    case DeepSleepTimer(at) => SleepFires(d, at, now, dbOk)
    case BulkResolve(gen, processed) => Resolve(d, gen, processed, dbOk)
    case BulkReject(gen) => Reject(d, gen)
  }

  // ---- Invariant of a single instance -------------------------------------------------

  /** What holds whatever the database does. */
  ghost predicate Sound(d: Daemon) {
    && Distinct(d.mem.pending)
    && (d.row.Some? ==> Distinct(d.row.value.pendingIds))
    && (forall g :: g in d.runs ==> g <= d.generation)
    && (d.completionPending ==> d.bulkHandler)
    && (d.running && d.completionPending && d.mem.state.DeepSleep? ==> d.generation in d.runs)
    && (d.running && d.mem.state.DeepSleep? && d.generation in d.runs ==> d.runs[d.generation] == d.mem.pending)
  }

  /** Outside DEEP_SLEEP the counter is the number of pending ids and nothing is marked to keep. */
  predicate Counted(m: Memory) {
    !m.state.DeepSleep? ==> m.sessionsProcessed == |m.pending| && !m.preserve
  }

  predicate AllCounted(d: Daemon) {
    Counted(d.mem) && (d.row.Some? ==> Counted(FromRow(d.row.value)))
  }

  lemma {:induction false} UniqueOfDistinct(ids: seq<SessionId>)
    requires Distinct(ids)
    ensures Unique(ids) == ids
  {
    if ids != [] {
      var front := ids[..|ids| - 1];
      UniqueOfDistinct(front);
      assert ids[|ids| - 1] !in front;
      assert ids == front + [ids[|ids| - 1]];
    }
  }

  lemma RowRoundTrip(m: Memory)
    ensures FromRow(ToRow(m)) == m
  {
  }

  lemma WithoutKeepsDistinct(ids: seq<SessionId>, gone: set<SessionId>)
    requires Distinct(ids)
    ensures Distinct(Without(ids, gone))
  {
    FilterDistinct(ids, (id: SessionId) => id !in gone);
  }

  /** What entering LISTENING keeps of the pending list. */
  function KeptIn(d: Daemon, target: Phase): seq<SessionId> {
    if target.Listening? && !d.mem.preserve then [] else d.mem.pending
  }

  /** A transition that is taken, by its effect. */
  lemma TransitionState(d: Daemon, target: Phase, interrupt: bool, now: int, dbOk: bool)
    requires d.running && (interrupt || NextPhase(d.mem.state) == target) && Distinct(d.mem.pending)
    ensures var s := Transition(d, target, interrupt, now, dbOk);
      && s.running && s.mem.state == target && s.mem.pending == KeptIn(d, target)
      && s.row == (if dbOk then Some(ToRow(s.mem)) else d.row)
      && s.bulkHandler == d.bulkHandler && s.sessionThreshold == d.sessionThreshold
  {
    UniqueOfDistinct(d.mem.pending);
  }

  /** Entering DEEP_SLEEP begins an episode under a new generation. */
  lemma SleepRuns(d: Daemon, interrupt: bool, now: int, dbOk: bool)
    requires d.running && (interrupt || NextPhase(d.mem.state) == DeepSleep)
    ensures var s := Transition(d, DeepSleep, interrupt, now, dbOk);
      && s.generation == d.generation + 1
      && (d.bulkHandler ==> s.completionPending && s.runs == d.runs[s.generation := d.mem.pending])
      && (!d.bulkHandler ==> s.completionPending == d.completionPending && s.runs == d.runs)
  {
  }

  /** Leaving DEEP_SLEEP ends the episode; other transitions leave runs alone. */
  lemma OtherRuns(d: Daemon, target: Phase, interrupt: bool, now: int, dbOk: bool)
    requires d.running && (interrupt || NextPhase(d.mem.state) == target) && !target.DeepSleep?
    ensures var s, left := Transition(d, target, interrupt, now, dbOk), d.mem.state.DeepSleep?;
      && s.runs == d.runs
      && s.generation == d.generation + (if left then 1 else 0)
      && s.completionPending == (d.completionPending && !left)
  {
  }

  lemma TransitionKeepsSound(d: Daemon, target: Phase, interrupt: bool, now: int, dbOk: bool)
    requires Sound(d) && d.mem.state != target && (d.mem.state.DeepSleep? ==> target.Listening?)
    ensures Sound(Transition(d, target, interrupt, now, dbOk))
  {
    if d.running && (interrupt || NextPhase(d.mem.state) == target) {
      TransitionState(d, target, interrupt, now, dbOk);
      if target.DeepSleep? { SleepRuns(d, interrupt, now, dbOk); } else { OtherRuns(d, target, interrupt, now, dbOk); }
    }
  }

  lemma StartKeepsSound(d: Daemon, now: int, dbOk: bool)
    requires Sound(d)
    ensures Sound(StartUp(d, now, dbOk))
  {
  }

  lemma ResolveKeepsSound(d: Daemon, gen: nat, processed: Option<seq<SessionId>>, dbOk: bool)
    requires Sound(d)
    ensures Sound(Resolve(d, gen, processed, dbOk))
  {
    if Effective(d, gen) { WithoutKeepsDistinct(d.mem.pending, Consumed(d, gen, processed)); }
  }

  lemma WakeKeepsSound(d: Daemon, now: int, dbOk: bool)
    requires Sound(d)
    ensures Sound(WakeUp(d, now, dbOk))
  {
    if !d.mem.state.Listening? { TransitionKeepsSound(Marked(d), Listening, true, now, dbOk); }
  }

  lemma TimersKeepSound(d: Daemon, at: int, now: int, dbOk: bool)
    requires Sound(d)
    ensures Sound(IdleFires(d, now, dbOk))
    ensures Sound(Transition(d, DeepSleep, false, now, dbOk))
    ensures Sound(SleepFires(d, at, now, dbOk))
  {
    if d.mem.state.Listening? { TransitionKeepsSound(d, Dreaming, false, now, dbOk); }
    if d.mem.state.Dreaming? { TransitionKeepsSound(d, DeepSleep, false, now, dbOk); }
    if TimerExits(d, at) { TransitionKeepsSound(d, Listening, false, now, dbOk); }
  }

  /** Every step keeps the pending list duplicate-free and the handed-over ids exact. */
  lemma StepKeepsSound(d: Daemon, e: Event, now: int, dbOk: bool)
    requires Sound(d)
    ensures Sound(Step(d, e, now, dbOk))
  {
    match e
    case Start => StartKeepsSound(d, now, dbOk);
    case Wake => WakeKeepsSound(d, now, dbOk);
    case Notify(id) => if d.running { NotifyState(d, id, now, dbOk); }
    case IdleTimer => TimersKeepSound(d, 0, now, dbOk);
    case DreamTimer => TimersKeepSound(d, 0, now, dbOk);
    case DeepSleepTimer(at) => TimersKeepSound(d, at, now, dbOk);
    case BulkResolve(gen, processed) => ResolveKeepsSound(d, gen, processed, dbOk);
    case RegisterBulkHandler =>
    case Stop =>
    case Crash =>
    case BulkReject(_) =>
  }

  /** The daemon of a notification once it is out of DEEP_SLEEP. */
  function Awake(d: Daemon, now: int, dbOk: bool): Daemon {
    if d.mem.state.DeepSleep? then WakeUp(d.(mem := d.mem.(preserve := true)), now, dbOk) else d
  }

  lemma AwakeState(d: Daemon, now: int, dbOk: bool)
    requires Sound(d) && d.running
    ensures var a := Awake(d, now, dbOk);
      && Sound(a) && a.running && !a.mem.state.DeepSleep?
      && a.mem.pending == d.mem.pending && a.sessionThreshold == d.sessionThreshold
      && (AllCounted(d) ==> AllCounted(a))
  {
    WakeKeepsSound(d.(mem := d.mem.(preserve := true)), now, dbOk);
    UniqueOfDistinct(d.mem.pending);
  }

  function Noted(d: Daemon, id: SessionId, now: int, dbOk: bool): Daemon {
    Persist(Record(Awake(d, now, dbOk), id), dbOk)
  }

  lemma RecordState(a: Daemon, id: SessionId, dbOk: bool)
    requires Sound(a) && !a.mem.state.DeepSleep?
    ensures var n := Persist(Record(a, id), dbOk);
      && Sound(n) && n.running == a.running && n.mem.state == a.mem.state
      && ToSet(n.mem.pending) == ToSet(a.mem.pending) + {id}
      && (AllCounted(a) ==> AllCounted(n))
  {
  }

  lemma NotedState(d: Daemon, id: SessionId, now: int, dbOk: bool)
    requires Sound(d) && d.running
    ensures var n := Noted(d, id, now, dbOk);
      && Sound(n) && n.running && !n.mem.state.DeepSleep?
      && ToSet(n.mem.pending) == ToSet(d.mem.pending) + {id}
      && (AllCounted(d) ==> AllCounted(n))
  {
    AwakeState(d, now, dbOk);
    RecordState(Awake(d, now, dbOk), id, dbOk);
  }

  lemma ForcedSleep(n: Daemon, now: int, dbOk: bool)
    requires Sound(n) && n.running && !n.mem.state.DeepSleep?
    ensures var s := Transition(n, DeepSleep, true, now, dbOk);
      && Sound(s) && s.running && s.mem.state.DeepSleep? && s.mem.pending == n.mem.pending
      && (AllCounted(n) ==> AllCounted(s))
  {
    TransitionKeepsSound(n, DeepSleep, true, now, dbOk);
  }

  /** A notified id is pending afterwards, and nothing that was pending is lost. */
  lemma NotifyState(d: Daemon, id: SessionId, now: int, dbOk: bool)
    requires Sound(d) && d.running
    ensures var n := NotifySession(d, id, now, dbOk);
      && Sound(n) && n.running
      && ToSet(n.mem.pending) == ToSet(d.mem.pending) + {id}
      && (AllCounted(d) ==> AllCounted(n))
  {
    NotedState(d, id, now, dbOk);
    ForcedSleep(Noted(d, id, now, dbOk), now, dbOk);
  }

  lemma TransitionKeepsCounted(d: Daemon, target: Phase, interrupt: bool, now: int, dbOk: bool)
    requires AllCounted(d) && Distinct(d.mem.pending)
    requires d.mem.state.DeepSleep? ==> target.Listening?
    ensures AllCounted(Transition(d, target, interrupt, now, dbOk))
  {
    UniqueOfDistinct(d.mem.pending);
  }

  lemma WakeKeepsCounted(d: Daemon, now: int, dbOk: bool)
    requires AllCounted(d) && Distinct(d.mem.pending)
    ensures AllCounted(WakeUp(d, now, dbOk))
  {
    TransitionKeepsCounted(Marked(d), Listening, true, now, dbOk);
  }

  lemma TimersKeepCounted(d: Daemon, at: int, now: int, dbOk: bool)
    requires AllCounted(d) && Distinct(d.mem.pending)
    ensures AllCounted(IdleFires(d, now, dbOk)) && AllCounted(SleepFires(d, at, now, dbOk))
    ensures AllCounted(Transition(d, DeepSleep, false, now, dbOk))
  {
    if d.mem.state.Listening? { TransitionKeepsCounted(d, Dreaming, false, now, dbOk); }
    if d.mem.state.Dreaming? { TransitionKeepsCounted(d, DeepSleep, false, now, dbOk); }
    TransitionKeepsCounted(d, Listening, false, now, dbOk);
  }

  lemma StartKeepsCountedIff(d: Daemon, now: int, dbOk: bool)
    requires AllCounted(d)
    ensures AllCounted(StartUp(d, now, dbOk)) <==>
      (!d.running && !dbOk && d.mem.state.DeepSleep? ==>
        d.mem.sessionsProcessed == |d.mem.pending| && !d.mem.preserve)
  {
  }

  lemma ResolveKeepsCounted(d: Daemon, gen: nat, processed: Option<seq<SessionId>>, dbOk: bool)
    requires AllCounted(d)
    ensures AllCounted(Resolve(d, gen, processed, dbOk))
  {
  }

  /**
   * Every step keeps the counters right, except a start of a daemon stopped in
   * DEEP_SLEEP whose row cannot be read: it resumes LISTENING with what it had.
   */
  lemma StepKeepsCounted(d: Daemon, e: Event, now: int, dbOk: bool)
    requires Sound(d) && AllCounted(d)
    ensures AllCounted(Step(d, e, now, dbOk)) <==>
      (e.Start? && !d.running && !dbOk && d.mem.state.DeepSleep? ==>
        d.mem.sessionsProcessed == |d.mem.pending| && !d.mem.preserve)
  {
    match e
    case Start => StartKeepsCountedIff(d, now, dbOk);
    case Wake => WakeKeepsCounted(d, now, dbOk);
    case Notify(id) => if d.running { NotifyState(d, id, now, dbOk); }
    case IdleTimer => TimersKeepCounted(d, 0, now, dbOk);
    case DreamTimer => TimersKeepCounted(d, 0, now, dbOk);
    case DeepSleepTimer(at) => TimersKeepCounted(d, at, now, dbOk);
    case BulkResolve(gen, processed) => ResolveKeepsCounted(d, gen, processed, dbOk);
    case RegisterBulkHandler =>
    case Stop =>
    case Crash =>
    case BulkReject(_) =>
  }

  // ---- The ledger of session ids -------------------------------------------------------

  /** What has happened to the notified ids, across instances. */
  datatype Ledger = Ledger(
    notified: set<SessionId>,
    confirmed: set<SessionId>,
    dropped: set<SessionId>,
    episodeResolved: bool)

  /**
   * The only ways an id leaves the pending list unconfirmed: a wake out of DREAMING,
   * the end of a DEEP_SLEEP whose preserve flag is clear, a crash, or a start that
   * restores a row lacking it (a crash's ids count again once the row brings them back).
   */
  function Dropped(d: Daemon, e: Event, now: int, dbOk: bool): set<SessionId> {
    match e
    case Wake => if d.running && d.mem.state.Dreaming? && !d.mem.preserve then ToSet(d.mem.pending) else {}
    case DeepSleepTimer(at) => if TimerExits(d, at) && !d.mem.preserve then ToSet(d.mem.pending) else {}
    case Crash => ToSet(d.mem.pending) - RowIds(d.row)
    case Start =>
      if !d.running && dbOk && d.row.Some? then ToSet(d.mem.pending) - RowIds(d.row) else {}
    case _ => {}
  }

  function RowIds(row: Option<Row>): set<SessionId> {
    match row
    case None => {}
    case Some(r) => ToSet(r.pendingIds)
  }

  /** The ids a row still holds for an instance that has not restored it yet. */
  function Recoverable(d: Daemon): set<SessionId> {
    if d.running then {} else RowIds(d.row)
  }

  /** A start whose row cannot be read leaves what only the row knew behind. */
  function Unread(d: Daemon, e: Event, dbOk: bool): set<SessionId> {
    if e.Start? && !d.running && !dbOk then RowIds(d.row) - ToSet(d.mem.pending) else {}
  }

  function Note(l: Ledger, d: Daemon, e: Event, now: int, dbOk: bool): Ledger {
    Ledger(
      l.notified + (if e.Notify? && d.running then {e.id} else {}),
      l.confirmed + Confirmed(d, e),
      l.dropped + Dropped(d, e, now, dbOk) + Unread(d, e, dbOk),
      match e
        case BulkResolve(gen, _) => l.episodeResolved || Effective(d, gen)
        case Start => l.episodeResolved && d.running
        case Crash => false
        case Notify(_) => l.episodeResolved && !d.running
        case _ => l.episodeResolved && d.mem.state.DeepSleep? && Step(d, e, now, dbOk).mem.state.DeepSleep?)
  }

  ghost predicate Accounted(l: Ledger, d: Daemon) {
    l.notified <= Held(d) + l.confirmed + l.dropped
  }

  /** A resolved episode has set the flag to keep exactly what it left unconfirmed. */
  ghost predicate ResolvedFlag(l: Ledger, d: Daemon) {
    l.episodeResolved && d.mem.state.DeepSleep? ==> (d.mem.preserve <==> d.mem.pending != [])
  }

  /** The ids an instance still has, or will have once it is started. */
  function Held(d: Daemon): set<SessionId> { ToSet(d.mem.pending) + Recoverable(d) }

  /** What a step takes out: confirmed by the current run's result. */
  function Confirmed(d: Daemon, e: Event): set<SessionId> {
    if e.BulkResolve? && Effective(d, e.gen) then Consumed(d, e.gen, e.processed) else {}
  }

  lemma WakeKeepsIds(d: Daemon, now: int, dbOk: bool)
    requires Sound(d) && d.running
    ensures WakeUp(d, now, dbOk).running
    ensures WakeUp(d, now, dbOk).mem.pending ==
      if d.mem.state.Dreaming? && !d.mem.preserve then [] else d.mem.pending
  {
    if !d.mem.state.Listening? { TransitionState(Marked(d), Listening, true, now, dbOk); }
  }

  lemma TimersKeepIds(d: Daemon, at: int, now: int, dbOk: bool)
    requires Sound(d) && d.running
    ensures IdleFires(d, now, dbOk).running && IdleFires(d, now, dbOk).mem.pending == d.mem.pending
    ensures Transition(d, DeepSleep, false, now, dbOk).running
    ensures Transition(d, DeepSleep, false, now, dbOk).mem.pending == d.mem.pending
    ensures SleepFires(d, at, now, dbOk).running
    ensures SleepFires(d, at, now, dbOk).mem.pending ==
      if TimerExits(d, at) && !d.mem.preserve then [] else d.mem.pending
  {
    if d.mem.state.Listening? { TransitionState(d, Dreaming, false, now, dbOk); }
    if d.mem.state.Dreaming? { TransitionState(d, DeepSleep, false, now, dbOk); }
    if TimerExits(d, at) { TransitionState(d, Listening, false, now, dbOk); }
  }

  lemma StartKeepsIds(d: Daemon, now: int, dbOk: bool)
    ensures var s := StartUp(d, now, dbOk);
      && s.running
      && (!d.running && dbOk && d.row.Some? ==> ToSet(s.mem.pending) == RowIds(d.row))
      && (d.running || !dbOk || d.row.None? ==> s.mem.pending == d.mem.pending)
  {
  }

  lemma ResolveKeepsIds(d: Daemon, gen: nat, processed: Option<seq<SessionId>>, dbOk: bool)
    requires Sound(d)
    ensures var s, e := Resolve(d, gen, processed, dbOk), BulkResolve(gen, processed);
      && s.running == d.running && (!Effective(d, gen) ==> s.row == d.row)
      && ToSet(s.mem.pending) == ToSet(d.mem.pending) - Confirmed(d, e)
  {
  }

  /**
   * A step other than a notification accounts for every id exactly: what is held before is
   * held after, confirmed, dropped or left unread, and what is dropped or left unread is
   * held no more.
   */
  lemma StepKeepsIds(d: Daemon, e: Event, now: int, dbOk: bool)
    requires Sound(d) && !e.Notify?
    ensures var s, gone := Step(d, e, now, dbOk), Dropped(d, e, now, dbOk) + Unread(d, e, dbOk);
      && Held(d) <= Held(s) + Confirmed(d, e) + gone
      && Held(s) !! gone
  {
    match e
    case Start => StartKeepsIds(d, now, dbOk);
    case Wake => if d.running { WakeKeepsIds(d, now, dbOk); }
    case IdleTimer => if d.running { TimersKeepIds(d, 0, now, dbOk); }
    case DreamTimer => if d.running { TimersKeepIds(d, 0, now, dbOk); }
    case DeepSleepTimer(at) => if d.running { TimersKeepIds(d, at, now, dbOk); }
    case BulkResolve(gen, processed) => ResolveKeepsIds(d, gen, processed, dbOk);
    case RegisterBulkHandler =>
    case Stop =>
    case Crash =>
    case BulkReject(_) =>
  }

  lemma StepConserves(l: Ledger, d: Daemon, e: Event, now: int, dbOk: bool)
    requires Sound(d) && Accounted(l, d)
    ensures Accounted(Note(l, d, e, now, dbOk), Step(d, e, now, dbOk))
  {
    if e.Notify? {
      if d.running { NotifyState(d, e.id, now, dbOk); }
    } else {
      StepKeepsIds(d, e, now, dbOk);
    }
  }

  lemma StepKeepsResolvedFlag(l: Ledger, d: Daemon, e: Event, now: int, dbOk: bool)
    requires Sound(d) && ResolvedFlag(l, d)
    ensures ResolvedFlag(Note(l, d, e, now, dbOk), Step(d, e, now, dbOk))
  {
    UniqueOfDistinct(d.mem.pending);
  }
}
