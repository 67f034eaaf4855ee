/** Whole runs of the sleep-cycle daemon: conservation, durability, late results. */
module NidraRuns {
  import opened Collections
  import opened NidraCycle

  datatype World = World(daemon: Daemon, ledger: Ledger)

  /** One event with the clock and whether the database answers during it. */
  datatype Tick = Tick(event: Event, now: int, dbOk: bool)

  function Advance(w: World, t: Tick): World {
    World(Step(w.daemon, t.event, t.now, t.dbOk), Note(w.ledger, w.daemon, t.event, t.now, t.dbOk))
  }

  function Play(w: World, ticks: seq<Tick>): World {
    if ticks == [] then w else Advance(Play(w, ticks[..|ticks| - 1]), ticks[|ticks| - 1])
  }

  function Beginning(threshold: int, now: int): World {
    World(FreshDaemon(None, threshold, now), Ledger({}, {}, {}, false))
  }

  ghost predicate Consistent(w: World) {
    Sound(w.daemon) && Accounted(w.ledger, w.daemon) && ResolvedFlag(w.ledger, w.daemon)
  }

  lemma AdvanceKeepsConsistent(w: World, t: Tick)
    requires Consistent(w)
    ensures Consistent(Advance(w, t))
  {
    StepKeepsSound(w.daemon, t.event, t.now, t.dbOk);
    StepConserves(w.ledger, w.daemon, t.event, t.now, t.dbOk);
    StepKeepsResolvedFlag(w.ledger, w.daemon, t.event, t.now, t.dbOk);
  }

  lemma {:induction false} PlayKeepsConsistent(w: World, ticks: seq<Tick>)
    requires Consistent(w)
    ensures Consistent(Play(w, ticks))
  {
    if ticks != [] {
      PlayKeepsConsistent(w, ticks[..|ticks| - 1]);
      AdvanceKeepsConsistent(Play(w, ticks[..|ticks| - 1]), ticks[|ticks| - 1]);
    }
  }

  /**
   * In every run, crashes and failing writes included, each notified id is pending,
   * held by the row for the next start, confirmed by a bulk result, or dropped in
   * one of the named cases; and no id is pending twice.
   */
  lemma EveryRunConserves(threshold: int, begin: int, ticks: seq<Tick>)
    ensures var w := Play(Beginning(threshold, begin), ticks);
      && Distinct(w.daemon.mem.pending)
      && forall id :: id in w.ledger.notified ==>
           || id in w.daemon.mem.pending
           || id in Recoverable(w.daemon)
           || id in w.ledger.confirmed
           || id in w.ledger.dropped
  {
    PlayKeepsConsistent(Beginning(threshold, begin), ticks);
  }

  /** An interrupt out of DEEP_SLEEP keeps every pending id, in order. */
  lemma SleepInterruptKeepsAll(w: World, t: Tick)
    requires Consistent(w) && w.daemon.running && w.daemon.mem.state.DeepSleep?
    requires t.event.Wake? || t.event.Notify?
    ensures ToSet(Advance(w, t).daemon.mem.pending)
      == ToSet(w.daemon.mem.pending) + if t.event.Notify? then {t.event.id} else {}
    ensures Advance(w, t).ledger.dropped == w.ledger.dropped
  {
    if t.event.Notify? {
      NotifyState(w.daemon, t.event.id, t.now, t.dbOk);
    } else {
      WakeKeepsIds(w.daemon, t.now, t.dbOk);
    }
  }

  /** A resolved bulk run drops nothing: it removes exactly the confirmed ids it was handed. */
  lemma ResolvedRunRemovesConfirmed(w: World, gen: nat, processed: Option<seq<SessionId>>, now: int, dbOk: bool)
    requires Consistent(w) && Effective(w.daemon, gen)
    ensures var after := Advance(w, Tick(BulkResolve(gen, processed), now, dbOk));
      && after.daemon.mem.pending
           == Filter(w.daemon.runs[gen], (id: SessionId) => id !in Consumed(w.daemon, gen, processed))
      && (processed.None? ==> after.daemon.mem.pending == [])
      && after.ledger.dropped == w.ledger.dropped
      && after.ledger.episodeResolved
  {
    FilterCongruent(w.daemon.mem.pending,
      (id: SessionId) => id !in Consumed(w.daemon, gen, processed),
      (id: SessionId) => id !in Consumed(w.daemon, gen, processed));
    if processed.None? {
      FilterNone(w.daemon.mem.pending, (id: SessionId) => id !in Consumed(w.daemon, gen, processed));
    }
  }

  /** However the episode then ends by its timer, what the resolved run left is kept. */
  lemma ResolvedEpisodeDropsNothing(w: World, at: int, now: int, dbOk: bool)
    requires Consistent(w) && w.daemon.mem.state.DeepSleep? && w.ledger.episodeResolved
    ensures var after := Advance(w, Tick(DeepSleepTimer(at), now, dbOk));
      && after.daemon.mem.pending == w.daemon.mem.pending
      && after.ledger.dropped == w.ledger.dropped
  {
    UniqueOfDistinct(w.daemon.mem.pending);
  }

  /** An episode ends by its timer with ids dropped exactly when none were marked to keep. */
  lemma TimerDropsIff(w: World, at: int, now: int, dbOk: bool)
    requires Consistent(w) && TimerExits(w.daemon, at)
    ensures var after := Advance(w, Tick(DeepSleepTimer(at), now, dbOk));
      (after.daemon.mem.pending != w.daemon.mem.pending)
        <==> (!w.daemon.mem.preserve && w.daemon.mem.pending != [])
  {
    UniqueOfDistinct(w.daemon.mem.pending);
  }

  // ---- Results of earlier episodes ---------------------------------------------------

  /** The run of generation `g` no longer speaks for the current episode, or will not once the daemon runs again. */
  predicate Overtaken(d: Daemon, g: nat) {
    g < d.generation || (g == d.generation && (!d.mem.state.DeepSleep? || !d.running))
  }

  /** Generations never go back, and DEEP_SLEEP is entered or resumed only with a new one. */
  predicate Onward(d: Daemon, s: Daemon) {
    && d.generation <= s.generation
    && (s.running && s.mem.state.DeepSleep? ==> (d.running && d.mem.state.DeepSleep?) || s.generation > d.generation)
  }

  lemma TransitionOnward(d: Daemon, target: Phase, interrupt: bool, now: int, dbOk: bool)
    ensures Onward(d, Transition(d, target, interrupt, now, dbOk))
  {
  }

  lemma WakeOnward(d: Daemon, now: int, dbOk: bool)
    ensures Onward(d, WakeUp(d, now, dbOk))
  {
    TransitionOnward(Marked(d), Listening, true, now, dbOk);
  }

  lemma NotifyOnward(d: Daemon, id: SessionId, now: int, dbOk: bool)
    ensures Onward(d, NotifySession(d, id, now, dbOk))
  {
    if d.running {
      WakeOnward(d.(mem := d.mem.(preserve := true)), now, dbOk);
      TransitionOnward(Noted(d, id, now, dbOk), DeepSleep, true, now, dbOk);
    }
  }

  lemma StartOnward(d: Daemon, now: int, dbOk: bool)
    ensures Onward(d, StartUp(d, now, dbOk))
  {
  }

  lemma StepOnward(d: Daemon, e: Event, now: int, dbOk: bool)
    requires !e.Crash?
    ensures Onward(d, Step(d, e, now, dbOk))
  {
    match e
    case Start => StartOnward(d, now, dbOk);
    case Wake => WakeOnward(d, now, dbOk);
    case Notify(id) => NotifyOnward(d, id, now, dbOk);
    case IdleTimer => TransitionOnward(d, Dreaming, false, now, dbOk);
    case DreamTimer => TransitionOnward(d, DeepSleep, false, now, dbOk);
    case DeepSleepTimer(at) => TransitionOnward(d, Listening, false, now, dbOk);
    case RegisterBulkHandler =>
    case Stop =>
    case BulkResolve(_, _) =>
    case BulkReject(_) =>
  }

  lemma {:induction false} OvertakenForever(w: World, g: nat, ticks: seq<Tick>)
    requires Overtaken(w.daemon, g)
    requires NoCrash(ticks)
    ensures Overtaken(Play(w, ticks).daemon, g)
  {
    if ticks != [] {
      var t := ticks[|ticks| - 1];
      OvertakenForever(w, g, ticks[..|ticks| - 1]);
      StepOnward(Play(w, ticks[..|ticks| - 1]).daemon, t.event, t.now, t.dbOk);
    }
  }

  lemma PlayLast(w: World, ticks: seq<Tick>, t: Tick)
    ensures Play(w, ticks + [t]) == Advance(Play(w, ticks), t)
  {
    assert (ticks + [t])[..|ticks + [t]| - 1] == ticks;
  }

  lemma {:induction false} PlayAppend(w: World, before: seq<Tick>, after: seq<Tick>)
    ensures Play(w, before + after) == Play(Play(w, before), after)
  {
    if after == [] {
      assert before + after == before;
    } else {
      assert (before + after)[..|before + after| - 1] == before + after[..|after| - 1];
      PlayAppend(w, before, after[..|after| - 1]);
    }
  }

  predicate NoCrash(ticks: seq<Tick>) { forall i :: 0 <= i < |ticks| ==> !ticks[i].event.Crash? }

  /** Nothing pending, durable or accounted for has changed. */
  predicate Inert(w: World, v: World) {
    && v.daemon.mem == w.daemon.mem && v.daemon.row == w.daemon.row
    && v.daemon.completionPending == w.daemon.completionPending
    && v.ledger.dropped == w.ledger.dropped && v.ledger.confirmed == w.ledger.confirmed
  }

  /**
   * Once the daemon has left the DEEP_SLEEP episode of a run, or has been stopped in it, that
   * run's result changes nothing durable or pending, even if DEEP_SLEEP is entered again or
   * resumed by a new start.
   */
  lemma LateResultIsInert(
    w: World, before: seq<Tick>, after: seq<Tick>, processed: Option<seq<SessionId>>, now: int, dbOk: bool)
    requires NoCrash(before) && NoCrash(after)
    requires !(Play(w, before).daemon.running && Play(w, before).daemon.mem.state.DeepSleep?)
    ensures var late := Tick(BulkResolve(w.daemon.generation, processed), now, dbOk);
      Inert(Play(w, before + after), Advance(Play(w, before + after), late))
  {
    GenerationGrows(w, before);
    PlayAppend(w, before, after);
    LateAfter(Play(w, before), w.daemon.generation, after, processed, now, dbOk);
  }

  lemma LateAfter(w: World, g: nat, after: seq<Tick>, processed: Option<seq<SessionId>>, now: int, dbOk: bool)
    requires NoCrash(after) && Overtaken(w.daemon, g)
    ensures Inert(Play(w, after), Advance(Play(w, after), Tick(BulkResolve(g, processed), now, dbOk)))
  {
    OvertakenForever(w, g, after);
    OvertakenIsInert(Play(w, after), g, processed, now, dbOk);
  }

  lemma OvertakenIsInert(w: World, g: nat, processed: Option<seq<SessionId>>, now: int, dbOk: bool)
    requires Overtaken(w.daemon, g)
    ensures Inert(w, Advance(w, Tick(BulkResolve(g, processed), now, dbOk)))
  {
  }

  lemma {:induction false} GenerationGrows(w: World, ticks: seq<Tick>)
    requires NoCrash(ticks)
    ensures w.daemon.generation <= Play(w, ticks).daemon.generation
  {
    if ticks != [] {
      var t := ticks[|ticks| - 1];
      GenerationGrows(w, ticks[..|ticks| - 1]);
      StepOnward(Play(w, ticks[..|ticks| - 1]).daemon, t.event, t.now, t.dbOk);
    }
  }

  // ---- Durability -------------------------------------------------------------------------

  /** The row says what a running daemon's memory says; no row stands for fresh memory. */
  predicate RowMatches(d: Daemon) {
    d.running ==>
      match d.row
      case Some(r) => FromRow(r) == d.mem
      case None => d.mem == FreshMemory(d.mem.lastStateChange)
  }

  lemma RecordedThenWritten(d: Daemon)
    ensures RowMatches(Persist(d, true))
  {
    RowRoundTrip(d.mem);
  }

  lemma TransitionWrites(d: Daemon, target: Phase, interrupt: bool, now: int)
    ensures var s := Transition(d, target, interrupt, now, true);
      s == d || (s.row.Some? && FromRow(s.row.value) == s.mem)
  {
    if d.running && (interrupt || NextPhase(d.mem.state) == target) {
      var departed := Depart(d, target);
      var d1 := if target.Listening? then EnterListening(departed) else departed;
      RowRoundTrip(d1.mem.(state := target, lastStateChange := now));
    }
  }

  lemma NotifyWrites(d: Daemon, id: SessionId, now: int)
    requires d.running
    ensures RowMatches(NotifySession(d, id, now, true)) && NotifySession(d, id, now, true).row.Some?
  {
    RecordedThenWritten(Record(Awake(d, now, true), id));
    TransitionWrites(Noted(d, id, now, true), DeepSleep, true, now);
  }

  lemma ResolveWrites(d: Daemon, gen: nat, processed: Option<seq<SessionId>>)
    ensures var s := Resolve(d, gen, processed, true);
      (s.row == d.row && s.mem == d.mem && s.running == d.running) || (s.row.Some? && FromRow(s.row.value) == s.mem)
  {
  }

  /** A stopped instance has a row, or has memory that no row would change. */
  predicate Startable(d: Daemon) {
    !d.running ==> d.row.Some? || d.mem == FreshMemory(d.mem.lastStateChange)
  }

  lemma StartMatches(d: Daemon, now: int)
    requires RowMatches(d) && Startable(d)
    ensures RowMatches(StartUp(d, now, true)) && StartUp(d, now, true).running
  {
  }

  lemma StepKeepsRow(d: Daemon, e: Event, now: int)
    requires RowMatches(d) && Startable(d)
    ensures RowMatches(Step(d, e, now, true)) && Startable(Step(d, e, now, true))
  {
    match e
    case Start => StartMatches(d, now);
    case Wake => TransitionWrites(Marked(d), Listening, true, now);
    case Notify(id) => if d.running { NotifyWrites(d, id, now); }
    case IdleTimer => TransitionWrites(d, Dreaming, false, now);
    case DreamTimer => TransitionWrites(d, DeepSleep, false, now);
    case DeepSleepTimer(_) => TransitionWrites(d, Listening, false, now);
    case BulkResolve(gen, processed) => ResolveWrites(d, gen, processed);
    case RegisterBulkHandler =>
    case Stop =>
    case Crash =>
    case BulkReject(_) =>
  }

  ghost predicate Durable(w: World) {
    && Sound(w.daemon) && AllCounted(w.daemon) && RowMatches(w.daemon) && Startable(w.daemon)
  }

  /** While the database answers, the row equals memory after every step of every run. */
  lemma {:induction false} EveryRunIsDurable(threshold: int, begin: int, ticks: seq<Tick>)
    requires forall i :: 0 <= i < |ticks| ==> ticks[i].dbOk
    ensures Durable(Play(Beginning(threshold, begin), ticks))
  {
    if ticks != [] {
      EveryRunIsDurable(threshold, begin, ticks[..|ticks| - 1]);
      var d := Play(Beginning(threshold, begin), ticks[..|ticks| - 1]).daemon;
      var t := ticks[|ticks| - 1];
      StepKeepsSound(d, t.event, t.now, true);
      StepKeepsCounted(d, t.event, t.now, true);
      StepKeepsRow(d, t.event, t.now);
    }
  }

  /** Outside DEEP_SLEEP the session counter is the number of distinct pending ids. */
  lemma CounterIsPendingLength(threshold: int, begin: int, ticks: seq<Tick>)
    requires forall i :: 0 <= i < |ticks| ==> ticks[i].dbOk
    ensures var d := Play(Beginning(threshold, begin), ticks).daemon;
      && Distinct(d.mem.pending)
      && (!d.mem.state.DeepSleep? ==> d.mem.sessionsProcessed == |d.mem.pending|)
  {
    EveryRunIsDurable(threshold, begin, ticks);
  }

  /**
   * A crash at any step boundary, then a start with the bulk handler registered,
   * recovers the daemon and re-hands exactly the pending ids if it was in DEEP_SLEEP.
   */
  lemma CrashThenStartRecovers(w: World, crashAt: int, startAt: int)
    requires Durable(w) && w.daemon.running
    ensures var up := Play(w, [
        Tick(Crash, crashAt, true), Tick(RegisterBulkHandler, crashAt, true), Tick(Start, startAt, true)]);
      && up.daemon.running
      && up.daemon.mem == w.daemon.mem.(lastStateChange := up.daemon.mem.lastStateChange)
      && (w.daemon.row.Some? ==> up.daemon.mem == w.daemon.mem)
      && up.daemon.runs ==
        (if w.daemon.mem.state.DeepSleep? then map[up.daemon.generation := w.daemon.mem.pending] else map[])
      && up.ledger.dropped == w.ledger.dropped
  {
    var a, b, c := Tick(Crash, crashAt, true), Tick(RegisterBulkHandler, crashAt, true), Tick(Start, startAt, true);
    PlayLast(w, [], a);
    PlayLast(w, [a], b);
    PlayLast(w, [a, b], c);
    assert [] + [a] == [a] && [a] + [b] == [a, b] && [a, b] + [c] == [a, b, c];
  }

  // ---- Drops that do happen -------------------------------------------------------------

  /** Waking out of DREAMING drops every pending id, as does ending a rejected episode. */
  lemma DreamWakeDropsPending(d: Daemon, now: int, dbOk: bool)
    requires Sound(d) && AllCounted(d) && d.running && d.mem.state.Dreaming?
    ensures Step(d, Wake, now, dbOk).mem.pending == []
    ensures Dropped(d, Wake, now, dbOk) == ToSet(d.mem.pending)
  {
  }

  lemma RejectedEpisodeDropsUnlessKept(d: Daemon, now: int, dbOk: bool)
    requires Sound(d) && d.running && d.mem.state.DeepSleep? && d.generation in d.runs
    ensures var rejected := Step(d, BulkReject(d.generation), now, dbOk);
      var ended := Step(rejected, DeepSleepTimer(d.mem.lastStateChange), now, dbOk);
      && ended.mem.state.Listening?
      && ended.mem.pending == (if d.mem.preserve then d.mem.pending else [])
  {
    UniqueOfDistinct(d.mem.pending);
  }

  lemma PlayThree(w: World, a: Tick, b: Tick, c: Tick)
    ensures Play(w, [a, b, c]) == Advance(Advance(Advance(w, a), b), c)
  {
    PlayLast(w, [], a);
    PlayLast(w, [a], b);
    PlayLast(w, [a, b], c);
    assert [] + [a] == [a] && [a] + [b] == [a, b] && [a, b] + [c] == [a, b, c];
  }

  lemma StartedFresh(threshold: int, now: int) returns (w: World)
    ensures w == Advance(Beginning(threshold, now), Tick(Start, now, true))
    ensures w.daemon.running && w.daemon.mem == FreshMemory(now) && w.daemon.sessionThreshold == threshold
  {
    w := Advance(Beginning(threshold, now), Tick(Start, now, true));
  }

  lemma NotesFirst(d: Daemon, id: SessionId, now: int)
    requires d.running && d.mem == FreshMemory(now) && d.sessionThreshold > 1
    ensures var s := NotifySession(d, id, now, true);
      s.running && s.mem.state.Listening? && s.mem.pending == [id] && !s.mem.preserve
  {
  }

  lemma FallsToDreaming(d: Daemon, now: int)
    requires d.running && d.mem.state.Listening?
    ensures var s := IdleFires(d, now, true);
      s.running && s.mem.state.Dreaming? && s.mem.pending == d.mem.pending && s.mem.preserve == d.mem.preserve
  {
  }

  /** A fresh daemon that is started, told of a session, and falls to dreaming, still has it pending. */
  lemma NotifiedThenDreaming(id: SessionId, threshold: int, now: int) returns (w: World)
    requires threshold > 1
    ensures w == Play(Beginning(threshold, now), [
        Tick(Start, now, true), Tick(Notify(id), now, true), Tick(IdleTimer, now, true)])
    ensures id in w.ledger.notified && w.daemon.mem.pending == [id]
    ensures w.daemon.running && w.daemon.mem.state.Dreaming? && !w.daemon.mem.preserve
  {
    var a, b, c := Tick(Start, now, true), Tick(Notify(id), now, true), Tick(IdleTimer, now, true);
    PlayThree(Beginning(threshold, now), a, b, c);
    var started := StartedFresh(threshold, now);
    var noted := Advance(started, b);
    NotesFirst(started.daemon, id, now);
    FallsToDreaming(noted.daemon, now);
    w := Advance(noted, c);
  }

  /** A run from the beginning: a session notified while listening is lost when the dream after it is woken. */
  lemma NotifiedThenDreamtAway(id: SessionId, threshold: int, now: int)
    requires threshold > 1
    ensures var w := Play(Beginning(threshold, now), [
        Tick(Start, now, true), Tick(Notify(id), now, true), Tick(IdleTimer, now, true), Tick(Wake, now, true)]);
      && id in w.ledger.notified && id in w.ledger.dropped
      && w.daemon.mem.pending == [] && w.daemon.mem.state.Listening?
  {
    var a, b := Tick(Start, now, true), Tick(Notify(id), now, true);
    var c, d := Tick(IdleTimer, now, true), Tick(Wake, now, true);
    var w := NotifiedThenDreaming(id, threshold, now);
    PlayLast(Beginning(threshold, now), [a, b, c], d);
    assert [a, b, c] + [d] == [a, b, c, d];
  }
}
