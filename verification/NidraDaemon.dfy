/**
 * The sleep-cycle daemon as the class it is. Each method is proved to take the step of
 * the state machine in NidraCycle, so what that machine keeps holds of the class.
 */
module NidraDaemonClass {
  import opened Collections
  import opened NidraCycle
  import opened NidraPhases

  class NidraDaemon {
    var state: Phase
    var lastStateChange: int
    var consecutiveIdleDreamCycles: nat
    var pendingSessionIds: seq<SessionId>
    var sessionsProcessedSinceDeepSleep: nat
    var sessionNotificationsSinceDeepSleep: nat
    var sessionSeenThisDream: bool
    var preservePendingSessionsOnListening: bool
    var running: bool
    var bulkHandlerRegistered: bool
    var deepSleepRunGeneration: nat
    var deepSleepCompletionPending: bool
    /** Bulk runs in flight: what each pending handler promise closes over. */
    var inFlight: map<nat, seq<SessionId>>
    /** The nidra_state row this daemon reads and writes. */
    var row: Option<Row>
    const sessionCountThreshold: int

    ghost function Mem(): Memory
      reads this
    {
      Memory(state, lastStateChange, consecutiveIdleDreamCycles, sessionsProcessedSinceDeepSleep,
             sessionNotificationsSinceDeepSleep, pendingSessionIds, preservePendingSessionsOnListening)
    }

    ghost function Abs(): Daemon
      reads this
    {
      Daemon(Mem(), sessionSeenThisDream, running, bulkHandlerRegistered, deepSleepRunGeneration,
             deepSleepCompletionPending, inFlight, row, sessionCountThreshold)
    }

    constructor (threshold: int, storedRow: Option<Row>, now: int)
      ensures Abs() == FreshDaemon(storedRow, threshold, now)
      ensures state.Listening? && lastStateChange == now && pendingSessionIds == []
      ensures !running && !bulkHandlerRegistered && !deepSleepCompletionPending && !sessionSeenThisDream
      ensures !preservePendingSessionsOnListening && inFlight == map[] && row == storedRow
    {
      state, lastStateChange := Listening, now;
      consecutiveIdleDreamCycles, sessionsProcessedSinceDeepSleep, sessionNotificationsSinceDeepSleep := 0, 0, 0;
      pendingSessionIds := [];
      sessionSeenThisDream, preservePendingSessionsOnListening := false, false;
      running, bulkHandlerRegistered, deepSleepCompletionPending := false, false, false;
      deepSleepRunGeneration := 0;
      inFlight := map[];
      row := storedRow;
      sessionCountThreshold := threshold;
    }

    method PersistState(dbOk: bool)
      modifies this`row
      ensures Abs() == Persist(old(Abs()), dbOk)
    {
      if dbOk {
        row := Some(Row(state, lastStateChange, consecutiveIdleDreamCycles, sessionsProcessedSinceDeepSleep,
                        sessionNotificationsSinceDeepSleep, pendingSessionIds,
                        if preservePendingSessionsOnListening then 1 else 0));
      }
    }

    method RestoreState(now: int, dbOk: bool)
      modifies this
      ensures Abs() == Restore(old(Abs()), now, dbOk)
    {
      if !dbOk {
        state, lastStateChange := Listening, now;
      } else if row.Some? {
        var r := row.value;
        state, lastStateChange := r.currentState, r.lastStateChange;
        consecutiveIdleDreamCycles := r.idleDreamCycles;
        sessionsProcessedSinceDeepSleep := r.sessionsProcessed;
        sessionNotificationsSinceDeepSleep := r.notifications;
        pendingSessionIds := r.pendingIds;
        preservePendingSessionsOnListening := r.preserveFlag == 1;
      }
    }

    method RunDeepSleepPhase()
      modifies this
      ensures Abs() == RunDeepSleep(old(Abs()))
    {
      deepSleepRunGeneration := deepSleepRunGeneration + 1;
      if bulkHandlerRegistered {
        deepSleepCompletionPending := true;
        inFlight := inFlight[deepSleepRunGeneration := pendingSessionIds];
      }
    }

    /** The pending ids without repeats, by a scan that keeps first appearances. */
    method UniquePending() returns (ids: seq<SessionId>)
      ensures ids == Unique(pendingSessionIds)
    {
      ids := [];
      for i := 0 to |pendingSessionIds|
        invariant ids == Unique(pendingSessionIds[..i])
      {
        assert pendingSessionIds[..i + 1][..i] == pendingSessionIds[..i];
        if pendingSessionIds[i] !in ids {
          ids := ids + [pendingSessionIds[i]];
        }
      }
      assert pendingSessionIds[..|pendingSessionIds|] == pendingSessionIds;
    }

    method ExitDream()
      modifies this
      ensures Abs() == LeaveDream(old(Abs()))
    {
      if sessionSeenThisDream {
        consecutiveIdleDreamCycles := 0;
      } else {
        consecutiveIdleDreamCycles := consecutiveIdleDreamCycles + 1;
      }
      sessionSeenThisDream := false;
    }

    /** What entering LISTENING does to the pending ids and the counters. */
    method SettlePending()
      modifies this
      ensures Abs() == EnterListening(old(Abs()))
    {
      if preservePendingSessionsOnListening {
        var unique := UniquePending();
        pendingSessionIds := unique;
        sessionsProcessedSinceDeepSleep := |unique|;
      } else {
        sessionsProcessedSinceDeepSleep := 0;
        pendingSessionIds := [];
      }
      sessionNotificationsSinceDeepSleep := 0;
      sessionSeenThisDream := false;
      preservePendingSessionsOnListening := false;
    }

    method TransitionTo(target: Phase, interrupt: bool, now: int, dbOk: bool)
      modifies this
      ensures Abs() == Transition(old(Abs()), target, interrupt, now, dbOk)
    {
      if !running { return; }
      if !interrupt && NextPhase(state) != target { return; }
      LeavePhase(target);
      EnterPhase(target, now, dbOk);
    }

    method LeavePhase(target: Phase)
      modifies this
      ensures Abs() == Depart(old(Abs()), target)
    {
      var prev := state;
      if prev.Dreaming? && !target.Dreaming? {
        ExitDream();
      }
      if target.DeepSleep? {
        consecutiveIdleDreamCycles := 0;
      }
      if prev.DeepSleep? && !target.DeepSleep? {
        deepSleepRunGeneration := deepSleepRunGeneration + 1;
        deepSleepCompletionPending := false;
      }
    }

    method EnterPhase(target: Phase, now: int, dbOk: bool)
      modifies this
      ensures Abs() == Arrive(old(Abs()), target, now, dbOk)
    {
      if target.Listening? {
        SettlePending();
      }
      state, lastStateChange := target, now;
      PersistState(dbOk);
      if target.DeepSleep? {
        RunDeepSleepPhase();
      }
    }

    method StartDaemon(now: int, dbOk: bool)
      modifies this
      ensures Abs() == Step(old(Abs()), Start, now, dbOk)
    {
      if running { return; }
      running := true;
      RestoreState(now, dbOk);
      if state.DeepSleep? {
        RunDeepSleepPhase();
      }
    }

    method StopDaemon(now: int, dbOk: bool)
      modifies this
      ensures Abs() == Step(old(Abs()), Stop, now, dbOk)
    {
      if !running { return; }
      running := false;
      PersistState(dbOk);
    }

    method WakeDaemon(now: int, dbOk: bool)
      modifies this
      ensures Abs() == Step(old(Abs()), Wake, now, dbOk)
    {
      if !running || state.Listening? { return; }
      if state.DeepSleep? {
        preservePendingSessionsOnListening := preservePendingSessionsOnListening || pendingSessionIds != [];
      }
      TransitionTo(Listening, true, now, dbOk);
    }

    method RecordSession(id: SessionId)
      modifies this
      ensures Abs() == Record(old(Abs()), id)
    {
      if id !in pendingSessionIds {
        pendingSessionIds := pendingSessionIds + [id];
        sessionsProcessedSinceDeepSleep := sessionsProcessedSinceDeepSleep + 1;
      }
      sessionNotificationsSinceDeepSleep := sessionNotificationsSinceDeepSleep + 1;
      sessionSeenThisDream := true;
    }

    method Notify(id: SessionId, now: int, dbOk: bool)
      modifies this
      ensures Abs() == Step(old(Abs()), Event.Notify(id), now, dbOk)
      ensures Sound(old(Abs())) && AllCounted(old(Abs())) ==> SleepsAtThreshold(old(Abs()), Abs(), id)
    {
      NotifiedSleepsIff(Abs(), id, now, dbOk);
      if !running { return; }
      if state.DeepSleep? {
        preservePendingSessionsOnListening := true;
        WakeDaemon(now, dbOk);
      }
      RecordSession(id);
      PersistState(dbOk);
      if sessionsProcessedSinceDeepSleep >= sessionCountThreshold {
        ForceDeepSleep(now, dbOk);
      }
    }

    method ForceDeepSleep(now: int, dbOk: bool)
      modifies this
      ensures Abs() == if old(Abs()).running && !old(Abs()).mem.state.DeepSleep?
        then Transition(old(Abs()), DeepSleep, true, now, dbOk) else old(Abs())
    {
      if !running || state.DeepSleep? { return; }
      TransitionTo(DeepSleep, true, now, dbOk);
    }

    method OnIdleTimer(now: int, dbOk: bool)
      modifies this
      ensures Abs() == Step(old(Abs()), IdleTimer, now, dbOk)
    {
      if !running || !state.Listening? { return; }
      TransitionTo(Dreaming, false, now, dbOk);
    }

    method OnDreamTimer(now: int, dbOk: bool)
      modifies this
      ensures Abs() == Step(old(Abs()), DreamTimer, now, dbOk)
    {
      TransitionTo(DeepSleep, false, now, dbOk);
    }

    method OnDeepSleepTimer(phaseStartedAt: int, now: int, dbOk: bool)
      modifies this
      ensures Abs() == Step(old(Abs()), DeepSleepTimer(phaseStartedAt), now, dbOk)
    {
      if !running || !state.DeepSleep? || lastStateChange != phaseStartedAt { return; }
      if deepSleepCompletionPending { return; }
      preservePendingSessionsOnListening := preservePendingSessionsOnListening || deepSleepCompletionPending;
      TransitionTo(Listening, false, now, dbOk);
    }

    method Unconfirmed(consumed: seq<SessionId>) returns (left: seq<SessionId>)
      ensures left == Without(pendingSessionIds, ToSet(consumed))
    {
      left := [];
      for i := 0 to |pendingSessionIds|
        invariant left == Without(pendingSessionIds[..i], ToSet(consumed))
      {
        assert pendingSessionIds[..i + 1] == pendingSessionIds[..i] + [pendingSessionIds[i]];
        FilterAppend(pendingSessionIds[..i], [pendingSessionIds[i]], (id: SessionId) => id !in ToSet(consumed));
        if pendingSessionIds[i] !in consumed {
          left := left + [pendingSessionIds[i]];
        }
      }
      assert pendingSessionIds[..|pendingSessionIds|] == pendingSessionIds;
    }

    method OnBulkResolved(gen: nat, processed: Option<seq<SessionId>>, now: int, dbOk: bool)
      modifies this
      ensures Abs() == Step(old(Abs()), BulkResolve(gen, processed), now, dbOk)
    {
      if gen !in inFlight {
        assert inFlight - {gen} == inFlight;
        return;
      }
      var sessionIds := inFlight[gen];
      inFlight := inFlight - {gen};
      if !running || !state.DeepSleep? || gen != deepSleepRunGeneration { return; }
      Consume(processed.GetOr(sessionIds), dbOk);
    }

    /** Clear what the handler confirmed, and mark what is left to be kept. */
    method Consume(consumed: seq<SessionId>, dbOk: bool)
      modifies this
      ensures var before, left := old(Abs()), Without(old(pendingSessionIds), ToSet(consumed));
        Abs() == Persist(
          before.(mem := before.mem.(pending := left, preserve := left != []), completionPending := false), dbOk)
    {
      pendingSessionIds := Unconfirmed(consumed);
      preservePendingSessionsOnListening := pendingSessionIds != [];
      deepSleepCompletionPending := false;
      PersistState(dbOk);
    }

    method OnBulkRejected(gen: nat, now: int, dbOk: bool)
      modifies this
      ensures Abs() == Step(old(Abs()), BulkReject(gen), now, dbOk)
    {
      if gen !in inFlight { return; }
      inFlight := inFlight - {gen};
      if gen != deepSleepRunGeneration { return; }
      deepSleepCompletionPending := false;
    }
  }
}
