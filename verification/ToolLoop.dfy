/**
 * The agent loop and its tool executor, for every order in which parallel tools may finish.
 * The loops are proved against the batches and answers of ToolBatches; the trace records
 * what starts, ends and is answered.
 */
module ToolLoop {
  import opened Collections
  import opened ToolBatches
  import opened ToolAnswers

  // ---- What runs when ---------------------------------------------------------------

  /** A tool execution begins or ends; each execution has its own serial number. */
  datatype ToolEvent = Began(serial: nat, call: Call) | Ended(serial: nat)

  type Trace = seq<ToolEvent>

  function Running(trace: Trace): map<nat, Call> {
    if trace == [] then map[]
    else
      var before := Running(trace[..|trace| - 1]);
      match trace[|trace| - 1]
      case Began(serial, call) => before[serial := call]
      case Ended(serial) => before - {serial}
  }

  /** The calls that began, in the order they began. */
  function Begun(trace: Trace): seq<Call> {
    if trace == [] then []
    else Begun(trace[..|trace| - 1]) + if trace[|trace| - 1].Began? then [trace[|trace| - 1].call] else []
  }

  /** A running write is the only call running. */
  predicate WriteAlone(running: map<nat, Call>, writes: WriteTools) {
    forall s :: s in running && running[s].name in writes ==> running.Keys == {s}
  }

  /** At no moment of the trace, now or before, does a write run beside another call. */
  predicate NoOverlap(trace: Trace, writes: WriteTools) {
    WriteAlone(Running(trace), writes) && (trace == [] || NoOverlap(trace[..|trace| - 1], writes))
  }

  lemma {:induction false} NoOverlapEverywhere(trace: Trace, writes: WriteTools)
    ensures NoOverlap(trace, writes) <==> forall k :: 0 <= k <= |trace| ==> WriteAlone(Running(trace[..k]), writes)
  {
    assert trace[..|trace|] == trace;
    if trace != [] {
      var front := trace[..|trace| - 1];
      NoOverlapEverywhere(front, writes);
      assert forall k :: 0 <= k <= |front| ==> front[..k] == trace[..k];
    }
  }

  predicate ReadsOnly(running: map<nat, Call>, writes: WriteTools) {
    forall s :: s in running ==> !IsWrite(running[s], writes)
  }

  lemma AloneAfter(running: map<nat, Call>, serial: nat, call: Call, writes: WriteTools)
    requires WriteAlone(running, writes)
    ensures WriteAlone(running - {serial}, writes)
    ensures running == map[] || (!IsWrite(call, writes) && ReadsOnly(running, writes)) ==>
      WriteAlone(running[serial := call], writes)
  {
  }

  lemma TraceGrows(trace: Trace, e: ToolEvent, writes: WriteTools)
    ensures Running(trace + [e]) == if e.Began? then Running(trace)[e.serial := e.call] else Running(trace) - {e.serial}
    ensures Begun(trace + [e]) == Begun(trace) + if e.Began? then [e.call] else []
    ensures NoOverlap(trace, writes) && WriteAlone(Running(trace + [e]), writes) ==> NoOverlap(trace + [e], writes)
  {
    var longer := trace + [e];
    assert longer[..|trace|] == trace;
  }

  /** The calls that are executed rather than refused or unreadable, in call order. */
  function Executed(attempts: seq<Attempt>): seq<Call> {
    if attempts == [] then []
    else
      var x := attempts[|attempts| - 1];
      Executed(attempts[..|attempts| - 1]) + if x.outcome.Runs() then [x.call] else []
  }

  function CallsOf(attempts: seq<Attempt>): seq<Call> {
    seq(|attempts|, k requires 0 <= k < |attempts| => attempts[k].call)
  }

  /** Exactly the calls that came to a result or threw have run, in call order. */
  lemma {:induction false} ExecutedIs(attempts: seq<Attempt>)
    ensures Executed(attempts)
      == CallsOf(Filter(attempts, (a: Attempt) => a.outcome.Done? || a.outcome.Threw?))
  {
    if attempts != [] {
      var front, x := attempts[..|attempts| - 1], attempts[|attempts| - 1];
      var ran := (a: Attempt) => a.outcome.Done? || a.outcome.Threw?;
      ExecutedIs(front);
      assert attempts == front + [x];
      FilterAppend(front, [x], ran);
    }
  }

  lemma {:induction false} ExecutedAppend(s: seq<Attempt>, t: seq<Attempt>)
    ensures Executed(s + t) == Executed(s) + Executed(t)
  {
    if t == [] {
      assert s + t == s;
    } else {
      assert (s + t)[..|s + t| - 1] == s + t[..|t| - 1];
      ExecutedAppend(s, t[..|t| - 1]);
    }
  }

  // ---- The conversation -------------------------------------------------------------

  datatype Entry = Assistant(calls: seq<Attempt>) | Reply(answer: Answer) | Note

  function Replies(answers: seq<Answer>): (r: seq<Entry>)
    ensures |r| == |answers|
    ensures forall k :: 0 <= k < |answers| ==> r[k] == Reply(answers[k])
  {
    seq(|answers|, k requires 0 <= k < |answers| => Reply(answers[k]))
  }

  /** The ids of calls still waiting for a result. */
  function Pending(entries: seq<Entry>): multiset<string> {
    if entries == [] then multiset{}
    else PendingWith(Pending(entries[..|entries| - 1]), entries[|entries| - 1])
  }

  function PendingWith(before: multiset<string>, e: Entry): multiset<string> {
    match e
    case Assistant(calls) => before + CallIds(calls)
    case Reply(answer) => before - multiset{answer.toolCallId}
    case Note => before
  }

  lemma PendingPush(entries: seq<Entry>, e: Entry)
    ensures Pending(entries + [e]) == PendingWith(Pending(entries), e)
  {
    assert (entries + [e])[..|entries|] == entries;
  }

  lemma {:induction false} PendingAfterReplies(entries: seq<Entry>, answers: seq<Answer>)
    ensures AllDropped(entries, answers)
  {
    if answers == [] {
      assert entries + Replies(answers) == entries;
    } else {
      var front, last := answers[..|answers| - 1], answers[|answers| - 1];
      assert answers == front + [last];
      PendingAfterReplies(entries, front);
      DropNext(entries, front, last);
    }
  }

  predicate AllDropped(entries: seq<Entry>, answers: seq<Answer>) {
    Pending(entries + Replies(answers)) == Pending(entries) - AnswerIds(answers)
  }

  lemma DropNext(entries: seq<Entry>, front: seq<Answer>, last: Answer)
    requires AllDropped(entries, front)
    ensures AllDropped(entries, front + [last])
  {
    RepliesPush(entries, front, last);
    PendingPush(entries + Replies(front), Reply(last));
    AnswerIdsPush(front, last);
    DropTwice(Pending(entries), AnswerIds(front), last.toolCallId);
  }

  lemma RepliesPush(entries: seq<Entry>, front: seq<Answer>, last: Answer)
    ensures entries + Replies(front + [last]) == (entries + Replies(front)) + [Reply(last)]
  {
  }

  lemma DropTwice(m: multiset<string>, n: multiset<string>, id: string)
    ensures m - n - multiset{id} == m - (n + multiset{id})
  {
  }

  lemma RepliesAppend(s: seq<Answer>, t: seq<Answer>)
    ensures Replies(s + t) == Replies(s) + Replies(t)
  {
  }

  lemma SingleAnswers(a: Attempt)
    ensures AnswersWhere([a], true) + AnswersWhere([a], false) == [AnswerTo(a)]
  {
    assert [a][..0] == [];
    assert AnswersWhere([], true) == [] && AnswersWhere([], false) == [];
  }

  /** What starting one more call of a batch adds. */
  lemma StartsNext(entries: seq<Entry>, begun: seq<Call>, attempts: seq<Attempt>, i: nat)
    requires i < |attempts|
    ensures entries + Replies(AnswersWhere(attempts[..i + 1], true))
      == entries + Replies(AnswersWhere(attempts[..i], true))
           + Replies(if attempts[i].outcome.Blocked() then [AnswerTo(attempts[i])] else [])
    ensures begun + Executed(attempts[..i + 1])
      == begun + Executed(attempts[..i]) + if attempts[i].outcome.Runs() then [attempts[i].call] else []
  {
    assert attempts[..i + 1][..i] == attempts[..i];
    var answers: seq<Answer> := if attempts[i].outcome.Blocked() then [AnswerTo(attempts[i])] else [];
    var calls: seq<Call> := if attempts[i].outcome.Runs() then [attempts[i].call] else [];
    RepliesAppend(AnswersWhere(attempts[..i], true), answers);
    Regroup(entries, Replies(AnswersWhere(attempts[..i], true)), Replies(answers));
    Regroup(begun, Executed(attempts[..i]), calls);
  }

  /** What one more batch adds. */
  lemma BatchAdds(batches: seq<Batch>, i: nat)
    requires i < |batches|
    ensures Replies(AllAnswers(batches[..i + 1]))
      == Replies(AllAnswers(batches[..i])) + Replies(BatchAnswers(batches[i]))
    ensures Executed(Concat(batches[..i + 1])) == Executed(Concat(batches[..i])) + Executed(batches[i].attempts)
  {
    assert batches[..i + 1][..i] == batches[..i];
    ExecutedAppend(Concat(batches[..i]), batches[i].attempts);
    RepliesAppend(AllAnswers(batches[..i]), BatchAnswers(batches[i]));
  }

  /** What a turn brings: steering, the model's response, when the abort signal is seen, recalled memory. */
  datatype StreamResult = Response(calls: seq<Attempt>, toolUse: bool) | StreamFailed

  datatype Turn = Turn(steering: bool, response: StreamResult, abortAt: nat, recalled: bool, abortedAfter: bool)

  /** How a run ends: with a response, whose calls are never executed; at the turn limit; or by an error. */
  datatype LoopEnd = Responded(calls: seq<Attempt>) | TurnLimit | Thrown

  // ---- What a turn does ---------------------------------------------------------------

  /** The batches of a turn executed before the abort signal is seen. */
  function BatchesDone(turn: Turn, writes: WriteTools): seq<Batch>
    requires turn.response.Response?
  {
    var batches := Batches(turn.response.calls, writes);
    batches[..Min(turn.abortAt, |batches|)]
  }

  /** A response with calls to execute. */
  predicate Executes(turn: Turn) { turn.response.Response? && turn.response.calls != [] && turn.response.toolUse }

  predicate Interrupted(turn: Turn, writes: WriteTools)
    requires turn.response.Response?
  {
    turn.abortAt < |Batches(turn.response.calls, writes)|
  }

  function Steering(turn: Turn): seq<Entry> { if turn.steering then [Note] else [] }

  function TurnEntries(turn: Turn, writes: WriteTools): seq<Entry> {
    match turn.response
    case StreamFailed => Steering(turn)
    case Response(calls, _) =>
      Steering(turn) + [Assistant(calls)] + if Executes(turn) then Execution(turn, writes) else []
  }

  /** The results, and after all of them the memory recalled. */
  function Execution(turn: Turn, writes: WriteTools): seq<Entry>
    requires turn.response.Response?
  {
    Replies(AllAnswers(BatchesDone(turn, writes)))
      + if turn.recalled && !Interrupted(turn, writes) then [Note] else []
  }

  function TurnEnd(turn: Turn, writes: WriteTools): Option<LoopEnd> {
    match turn.response
    case StreamFailed => Some(Thrown)
    case Response(calls, _) =>
      if !Executes(turn) then Some(Responded(calls))
      else if Interrupted(turn, writes) || turn.abortedAfter then Some(Thrown) else None
  }

  function TurnCalls(turn: Turn, writes: WriteTools): seq<Call> {
    if Executes(turn) then Executed(Concat(BatchesDone(turn, writes))) else []
  }

  function LoopEntries(turns: seq<Turn>, writes: WriteTools): seq<Entry> {
    if turns == [] then []
    else LoopEntries(turns[..|turns| - 1], writes) + TurnEntries(turns[|turns| - 1], writes)
  }

  function LoopCalls(turns: seq<Turn>, writes: WriteTools): seq<Call> {
    if turns == [] then [] else LoopCalls(turns[..|turns| - 1], writes) + TurnCalls(turns[|turns| - 1], writes)
  }

  /**
   * A turn whose calls were all executed: steering, the response, a result for each call that
   * tells what became of it, and recalled memory; every call that ran is in the response, in order.
   */
  lemma WholeTurn(turn: Turn, writes: WriteTools) returns (results: seq<Answer>)
    requires TurnEnd(turn, writes).None?
    ensures turn.response.Response? && turn.response.toolUse && turn.response.calls != []
    ensures TurnEntries(turn, writes) ==
      (if turn.steering then [Note] else []) + [Assistant(turn.response.calls)]
        + (Replies(results) + if turn.recalled then [Note] else [])
    ensures Tells(results, turn.response.calls)
    ensures TurnCalls(turn, writes) ==
      CallsOf(Filter(turn.response.calls, (a: Attempt) => a.outcome.Done? || a.outcome.Threw?))
  {
    AllDone(turn, writes);
    results := WholeAnswers(turn.response.calls, writes);
    ExecutedIs(turn.response.calls);
  }

  lemma AllDone(turn: Turn, writes: WriteTools)
    requires TurnEnd(turn, writes).None?
    ensures Executes(turn) && !Interrupted(turn, writes)
    ensures BatchesDone(turn, writes) == Batches(turn.response.calls, writes)
    ensures Concat(BatchesDone(turn, writes)) == turn.response.calls
  {
    BatchesPartition(turn.response.calls, writes);
  }

  lemma WholeAnswers(calls: seq<Attempt>, writes: WriteTools) returns (results: seq<Answer>)
    ensures results == AllAnswers(Batches(calls, writes)) && Tells(results, calls)
  {
    BatchesPartition(calls, writes);
    AllTell(Batches(calls, writes));
    results := AllAnswers(Batches(calls, writes));
  }

  /**
   * How a turn ends the run: by an error when its stream fails or the abort is seen, by a
   * response that asks for no execution, else not at all.
   */
  lemma TurnEndIs(turn: Turn, writes: WriteTools)
    ensures var end, r := TurnEnd(turn, writes), turn.response;
      && (r.StreamFailed? ==> end == Some(Thrown))
      && (r.Response? && (r.calls == [] || !r.toolUse) ==> end == Some(Responded(r.calls)))
      && (r.Response? && r.calls != [] && r.toolUse ==>
           end == if turn.abortAt < |Batches(r.calls, writes)| || turn.abortedAfter then Some(Thrown) else None)
  {
  }

  /** What a turn that ends the run leaves: steering, a response if there was one, and the results before the abort. */
  lemma LastTurn(turn: Turn, writes: WriteTools) returns (n: nat)
    ensures turn.response.StreamFailed? ==>
      TurnEntries(turn, writes) == if turn.steering then [Note] else []
    ensures turn.response.Response? && (turn.response.calls == [] || !turn.response.toolUse) ==>
      TurnEntries(turn, writes) == (if turn.steering then [Note] else []) + [Assistant(turn.response.calls)]
        && TurnCalls(turn, writes) == []
    ensures Executes(turn) && turn.abortAt < |Batches(turn.response.calls, writes)| ==>
      ResultsAdded((if turn.steering then [Note] else []) + [Assistant(turn.response.calls)],
                   TurnEntries(turn, writes), turn.response.calls, n)
  {
    n := 0;
    if Executes(turn) && Interrupted(turn, writes) {
      var before := Steering(turn) + [Assistant(turn.response.calls)];
      BatchesPartition(turn.response.calls, writes);
      n := ResultsOfBatches(before, turn.response.calls, Batches(turn.response.calls, writes), turn.abortAt);
      assert Execution(turn, writes) == Replies(AllAnswers(BatchesDone(turn, writes)));
    }
  }

  /** Each stream saw a prefix of the run's entries in which every call had its result. */
  predicate AllAnswered(streams: seq<seq<Entry>>, entries: seq<Entry>) {
    forall k :: 0 <= k < |streams| ==> Pending(streams[k]) == multiset{} && streams[k] <= entries
  }

  lemma SoFarAnswered(streams: seq<seq<Entry>>, entries: seq<Entry>, more: seq<Entry>)
    requires AllAnswered(streams, entries) && entries <= more
    ensures AllAnswered(streams, more)
  {
  }

  lemma MoreAnswered(streams: seq<seq<Entry>>, entries: seq<Entry>, stream: seq<Entry>, more: seq<Entry>)
    requires AllAnswered(streams, entries) && entries <= more
    requires Pending(stream) == multiset{} && stream <= more
    ensures AllAnswered(streams + [stream], more)
  {
    SoFarAnswered(streams, entries, more);
  }

  /** The results added are those of the first calls, of all of them unless the abort came. */
  predicate ResultsAdded(before: seq<Entry>, after: seq<Entry>, attempts: seq<Attempt>, n: nat) {
    && n <= |attempts| && before <= after && |after| == |before| + n
    && (forall i :: |before| <= i < |after| ==> after[i].Reply?)
    && Tells(AnswersIn(after[|before|..]), attempts[..n])
  }

  function AnswersIn(entries: seq<Entry>): seq<Answer> {
    if entries == [] then []
    else
      var last := entries[|entries| - 1];
      AnswersIn(entries[..|entries| - 1]) + if last.Reply? then [last.answer] else []
  }

  lemma {:induction false} AnswersInReplies(answers: seq<Answer>)
    ensures AnswersIn(Replies(answers)) == answers
  {
    if answers != [] {
      var front, last := answers[..|answers| - 1], answers[|answers| - 1];
      AnswersInReplies(front);
      assert Replies(answers)[..|answers| - 1] == Replies(front);
    }
  }

  lemma ResultsOfBatches(before: seq<Entry>, attempts: seq<Attempt>, batches: seq<Batch>, count: nat) returns (n: nat)
    requires Concat(batches) == attempts && count <= |batches|
    ensures ResultsAdded(before, before + Replies(AllAnswers(batches[..count])), attempts, n)
    ensures count == |batches| ==> n == |attempts|
  {
    var done := batches[..count];
    var after := before + Replies(AllAnswers(done));
    n := |Concat(done)|;
    FirstBatches(batches, count);
    AllTell(done);
    AnswersInReplies(AllAnswers(done));
    assert after[|before|..] == Replies(AllAnswers(done));
    assert attempts[..n] == Concat(done);
    assert count == |batches| ==> done == batches;
  }

  /** What a turn adds, piece by piece. */
  lemma TurnGroups(run: seq<Entry>, turn: Turn, writes: WriteTools)
    requires turn.response.Response?
    ensures run + TurnEntries(turn, writes)
      == run + Steering(turn) + [Assistant(turn.response.calls)]
           + if Executes(turn) then Execution(turn, writes) else []
  {
    var answered: seq<Entry> := if Executes(turn) then Execution(turn, writes) else [];
    Regroup(run, Steering(turn), [Assistant(turn.response.calls)]);
    Regroup(run, Steering(turn) + [Assistant(turn.response.calls)], answered);
  }

  predicate HasAssistant(entries: seq<Entry>) { exists k :: 0 <= k < |entries| && entries[k].Assistant? }

  /** The loop took `n` turns, went on after all but the last, and ended as the last did or at the limit. */
  predicate LoopRan(
    before: seq<Entry>, turns: seq<Turn>, n: nat, run: seq<Entry>, end: LoopEnd, writes: WriteTools)
  {
    && n <= |turns|
    && (if end.TurnLimit?
        then
          && n == |turns| && AllGoOn(turns, n, writes)
          && run == LoopEntries(turns, writes)
               + if HasAssistant(before + LoopEntries(turns, writes)) then [] else [Assistant([])]
        else
          && n > 0 && AllGoOn(turns, n - 1, writes) && TurnEnd(turns[n - 1], writes) == Some(end)
          && run == LoopEntries(turns[..n], writes))
  }

  predicate AllGoOn(turns: seq<Turn>, n: nat, writes: WriteTools)
    requires n <= |turns|
  {
    forall k :: 0 <= k < n ==> TurnEnd(turns[k], writes).None?
  }

  lemma GoesOnNext(turns: seq<Turn>, t: nat, writes: WriteTools)
    requires t < |turns| && AllGoOn(turns, t, writes) && TurnEnd(turns[t], writes).None?
    ensures AllGoOn(turns, t + 1, writes)
  {
  }

  lemma LoopEnded(
    start: seq<Entry>, turns: seq<Turn>, t: nat, run: seq<Entry>, streams: seq<seq<Entry>>, end: LoopEnd,
    writes: WriteTools)
    requires t < |turns| && AllGoOn(turns, t, writes) && TurnEnd(turns[t], writes) == Some(end) && !end.TurnLimit?
    requires Taken(turns, t + 1, run, streams, writes)
    ensures LoopRan(start, turns, |streams|, run, end, writes)
  {
  }

  /** Each stream came after the earlier turns and the steering of its own. */
  predicate StreamsSaw(turns: seq<Turn>, streams: seq<seq<Entry>>, writes: WriteTools) {
    var last := |streams| - 1;
    streams == [] || (
      |streams| <= |turns| && Saw(turns, last, streams[last], writes) && StreamsSaw(turns, streams[..last], writes))
  }

  predicate Saw(turns: seq<Turn>, k: nat, stream: seq<Entry>, writes: WriteTools)
    requires k < |turns|
  {
    stream == LoopEntries(turns[..k], writes) + if turns[k].steering then [Note] else []
  }

  lemma LoopNext(turns: seq<Turn>, t: nat, writes: WriteTools)
    requires t < |turns|
    ensures LoopEntries(turns[..t + 1], writes) == LoopEntries(turns[..t], writes) + TurnEntries(turns[t], writes)
    ensures LoopCalls(turns[..t + 1], writes) == LoopCalls(turns[..t], writes) + TurnCalls(turns[t], writes)
  {
    assert turns[..t + 1][..t] == turns[..t];
  }

  lemma StreamsSawNext(turns: seq<Turn>, streams: seq<seq<Entry>>, stream: seq<Entry>, writes: WriteTools)
    requires StreamsSaw(turns, streams, writes) && |streams| < |turns| && Saw(turns, |streams|, stream, writes)
    ensures StreamsSaw(turns, streams + [stream], writes)
  {
    assert (streams + [stream])[..|streams|] == streams;
  }

  /** What the first `t` turns have left, and what their streams saw. */
  predicate Taken(turns: seq<Turn>, t: nat, run: seq<Entry>, streams: seq<seq<Entry>>, writes: WriteTools) {
    && |streams| == t <= |turns| && run == LoopEntries(turns[..t], writes)
    && StreamsSaw(turns, streams, writes) && AllAnswered(streams, run)
  }

  lemma TakenNext(
    turns: seq<Turn>, t: nat, run: seq<Entry>, streams: seq<seq<Entry>>, stream: seq<Entry>, more: seq<Entry>,
    writes: WriteTools)
    requires t < |turns| && Taken(turns, t, run, streams, writes)
    requires Saw(turns, t, stream, writes) && Pending(stream) == multiset{} && stream <= more
    requires more == LoopEntries(turns[..t + 1], writes) && run <= more
    ensures Taken(turns, t + 1, more, streams + [stream], writes)
  {
    MoreAnswered(streams, run, stream, more);
    StreamsSawNext(turns, streams, stream, writes);
  }

  lemma WholeDone(batches: seq<Batch>)
    ensures batches[..|batches|] == batches
  {
  }

  class AgentLoop {
    var messages: seq<Entry>
    var trace: Trace
    var nextSerial: nat
    const writes: WriteTools

    /** No tool is running, and none has overlapped a write. */
    predicate Idle()
      reads this
    {
      Running(trace) == map[] && NoOverlap(trace, writes)
    }

    constructor (messages: seq<Entry>)
      ensures this.messages == messages && trace == [] && Idle()
      ensures writes == {"write", "edit", "bash", "notebook_edit", "file_write", "file_edit", "file_delete",
                         "create_file", "delete_file", "move_file"}
    {
      this.messages, trace, nextSerial, writes := messages, [], 0, WRITE_TOOLS;
    }

    method Push(a: Attempt)
      modifies this`messages
      ensures messages == old(messages) + Replies([AnswerTo(a)])
    {
      messages := messages + [Reply(AnswerTo(a))];
    }

    method Begin(call: Call) returns (serial: nat)
      requires NoOverlap(trace, writes) && forall s :: s in Running(trace) ==> s < nextSerial
      requires Running(trace) == map[] || (!IsWrite(call, writes) && ReadsOnly(Running(trace), writes))
      modifies this`trace, this`nextSerial
      ensures NoOverlap(trace, writes) && forall s :: s in Running(trace) ==> s < nextSerial
      ensures serial == old(nextSerial) && Running(trace) == Running(old(trace))[serial := call]
      ensures Begun(trace) == Begun(old(trace)) + [call]
    {
      serial := nextSerial;
      TraceGrows(trace, Began(serial, call), writes);
      AloneAfter(Running(trace), serial, call, writes);
      trace, nextSerial := trace + [Began(serial, call)], nextSerial + 1;
    }

    method End(serial: nat)
      requires NoOverlap(trace, writes)
      modifies this`trace
      ensures NoOverlap(trace, writes)
      ensures Running(trace) == Running(old(trace)) - {serial} && Begun(trace) == Begun(old(trace))
    {
      TraceGrows(trace, Ended(serial), writes);
      AloneAfter(Running(trace), serial, Call("", ""), writes);
      trace := trace + [Ended(serial)];
    }

    /** Execute one call by itself. */
    method RunAlone(a: Attempt)
      requires Idle()
      modifies this
      ensures Idle() && messages == old(messages) + Replies([AnswerTo(a)])
      ensures Begun(trace) == Begun(old(trace)) + Executed([a])
    {
      if a.outcome.Runs() {
        var serial := Begin(a.call);
        End(serial);
      }
      Push(a);
    }

    /** Start every call of a parallel batch; refused ones are answered here and now. */
    method StartAll(attempts: seq<Attempt>)
      requires Idle() && forall k :: 0 <= k < |attempts| ==> !IsWrite(attempts[k].call, writes)
      modifies this
      ensures NoOverlap(trace, writes)
      ensures messages == old(messages) + Replies(AnswersWhere(attempts, true))
      ensures Begun(trace) == Begun(old(trace)) + Executed(attempts)
    {
      for i := 0 to |attempts|
        invariant NoOverlap(trace, writes) && ReadsOnly(Running(trace), writes)
        invariant forall s :: s in Running(trace) ==> s < nextSerial
        invariant messages == old(messages) + Replies(AnswersWhere(attempts[..i], true))
        invariant Begun(trace) == Begun(old(trace)) + Executed(attempts[..i])
      {
        StartsNext(old(messages), Begun(old(trace)), attempts, i);
        StartOne(attempts[i]);
      }
      assert attempts[..|attempts|] == attempts;
    }

    /** Start one more call beside running reads, unless it is refused, which is answered, or unreadable. */
    method StartOne(a: Attempt)
      requires NoOverlap(trace, writes) && ReadsOnly(Running(trace), writes) && !IsWrite(a.call, writes)
      requires forall s :: s in Running(trace) ==> s < nextSerial
      modifies this
      ensures NoOverlap(trace, writes) && ReadsOnly(Running(trace), writes)
      ensures forall s :: s in Running(trace) ==> s < nextSerial
      ensures messages == old(messages) + Replies(if a.outcome.Blocked() then [AnswerTo(a)] else [])
      ensures Begun(trace) == Begun(old(trace)) + if a.outcome.Runs() then [a.call] else []
    {
      if a.outcome.Blocked() {
        Push(a);
      } else if a.outcome.Runs() {
        var _ := Begin(a.call);
      }
    }

    /** Wait until everything running has ended, in whatever order that happens. */
    method AwaitAll()
      requires NoOverlap(trace, writes)
      modifies this`trace
      ensures Idle() && Begun(trace) == Begun(old(trace))
    {
      while Running(trace) != map[]
        invariant NoOverlap(trace, writes) && Begun(trace) == Begun(old(trace))
        decreases |Running(trace)|
      {
        assert Running(trace).Keys != {};
        var serial :| serial in Running(trace);
        assert Running(trace).Keys - {serial} < Running(trace).Keys;
        End(serial);
      }
    }

    /** Answer, in call order, every call of the batch that was not refused. */
    method PushSettled(attempts: seq<Attempt>)
      modifies this`messages
      ensures messages == old(messages) + Replies(AnswersWhere(attempts, false))
    {
      for i := 0 to |attempts|
        invariant messages == old(messages) + Replies(AnswersWhere(attempts[..i], false))
      {
        assert attempts[..i + 1][..i] == attempts[..i];
        if !attempts[i].outcome.Blocked() { Push(attempts[i]); }
      }
      assert attempts[..|attempts|] == attempts;
    }

    /** Start all, wait for all, answer all. */
    method RunTogether(attempts: seq<Attempt>)
      requires Idle() && forall k :: 0 <= k < |attempts| ==> !IsWrite(attempts[k].call, writes)
      modifies this
      ensures Idle()
      ensures messages == old(messages) + Replies(AnswersWhere(attempts, true) + AnswersWhere(attempts, false))
      ensures Begun(trace) == Begun(old(trace)) + Executed(attempts)
    {
      StartAll(attempts);
      AwaitAll();
      PushSettled(attempts);
      RepliesAppend(AnswersWhere(attempts, true), AnswersWhere(attempts, false));
    }

    method RunBatch(b: Batch)
      requires Idle() && GoodBatch(b, writes)
      modifies this
      ensures Idle() && messages == old(messages) + Replies(BatchAnswers(b))
      ensures Begun(trace) == Begun(old(trace)) + Executed(b.attempts)
    {
      if b.parallel && |b.attempts| > 1 {
        RunTogether(b.attempts);
      } else {
        assert b.attempts == [b.attempts[0]];
        SingleAnswers(b.attempts[0]);
        RunAlone(b.attempts[0]);
      }
    }

    /** Execute the calls batch by batch; the abort signal is looked at before each batch. */
    method ExecuteToolCalls(attempts: seq<Attempt>, abortAt: nat) returns (aborted: bool)
      requires Idle()
      modifies this
      ensures Idle()
      ensures aborted <==> abortAt < |Batches(attempts, writes)|
      ensures var done := Batches(attempts, writes)[..Min(abortAt, |Batches(attempts, writes)|)];
        && messages == old(messages) + Replies(AllAnswers(done))
        && Begun(trace) == Begun(old(trace)) + Executed(Concat(done))
      ensures !aborted ==> Begun(trace) == Begun(old(trace)) + Executed(attempts)
      ensures exists n :: ResultsAdded(old(messages), messages, attempts, n) && (aborted || n == |attempts|)
    {
      var batches := MakeBatches(attempts, writes);
      BatchesPartition(attempts, writes);
      WholeDone(batches);
      ghost var n := ResultsOfBatches(messages, attempts, batches, Min(abortAt, |batches|));
      var count := RunBatches(batches, abortAt);
      aborted := count < |batches|;
    }

    /** From `entries` and `begun`, the batches before `count` have been executed. */
    predicate Reached(entries: seq<Entry>, begun: seq<Call>, batches: seq<Batch>, count: nat)
      requires count <= |batches|
      reads this
    {
      && messages == entries + Replies(AllAnswers(batches[..count]))
      && Begun(trace) == begun + Executed(Concat(batches[..count]))
    }

    method RunBatches(batches: seq<Batch>, abortAt: nat) returns (count: nat)
      requires Idle() && AllGood(batches, writes)
      modifies this
      ensures Idle() && count == Min(abortAt, |batches|)
      ensures Reached(old(messages), Begun(old(trace)), batches, count)
    {
      count := 0;
      ghost var entries, begun := messages, Begun(trace);
      while count < |batches| && count != abortAt
        invariant Idle() && count <= |batches| && count <= abortAt
        invariant Reached(entries, begun, batches, count)
      {
        RunNext(batches, count, entries, begun);
        count := count + 1;
      }
    }

    method RunNext(batches: seq<Batch>, i: nat, ghost entries: seq<Entry>, ghost begun: seq<Call>)
      requires Idle() && i < |batches| && AllGood(batches, writes) && Reached(entries, begun, batches, i)
      modifies this
      ensures Idle() && Reached(entries, begun, batches, i + 1)
    {
      BatchAdds(batches, i);
      Regroup(entries, Replies(AllAnswers(batches[..i])), Replies(BatchAnswers(batches[i])));
      Regroup(begun, Executed(Concat(batches[..i])), Executed(batches[i].attempts));
      RunBatch(batches[i]);
    }

    /** Run the agent: every stream happens with all earlier calls of the run answered. */
    method RunAgentLoop(turns: seq<Turn>) returns (end: LoopEnd, ghost run: seq<Entry>, ghost streams: seq<seq<Entry>>)
      requires Idle()
      modifies this
      ensures Idle() && messages == old(messages) + run
      ensures AllAnswered(streams, run)
      ensures LoopRan(old(messages), turns, |streams|, run, end, writes) && StreamsSaw(turns, streams, writes)
      ensures |streams| <= |turns| && Begun(trace) == Begun(old(trace)) + LoopCalls(turns[..|streams|], writes)
      ensures end.TurnLimit? ==> |streams| == |turns| && Pending(run) == multiset{}
      ensures end.Responded? ==> Pending(run) == CallIds(end.calls)
    {
      run, streams := [], [];
      ghost var start, begun := messages, Begun(trace);
      for t := 0 to |turns|
        invariant Idle() && messages == start + run && Taken(turns, t, run, streams, writes)
        invariant begun == Begun(old(trace)) && Begun(trace) == begun + LoopCalls(turns[..t], writes)
        invariant AllGoOn(turns, t, writes) && Pending(run) == multiset{}
      {
        var ended: Option<LoopEnd>;
        ended, run, streams := TakeNext(turns, t, start, begun, run, streams);
        if ended.Some? {
          LoopEnded(start, turns, t, run, streams, ended.value, writes);
          return ended.value, run, streams;
        }
        GoesOnNext(turns, t, writes);
      }
      end := TurnLimit;
      assert turns[..|turns|] == turns;
      run := FallBack(turns, start, run, streams);
    }

    /** At the turn limit a closing message is added when there is no assistant message at all. */
    method FallBack(
      turns: seq<Turn>, ghost start: seq<Entry>, ghost run: seq<Entry>, ghost streams: seq<seq<Entry>>)
      returns (ghost more: seq<Entry>)
      requires messages == start + run && Pending(run) == multiset{}
      requires Taken(turns, |turns|, run, streams, writes) && AllGoOn(turns, |turns|, writes)
      modifies this`messages
      ensures messages == start + more && Pending(more) == multiset{}
      ensures AllAnswered(streams, more) && LoopRan(start, turns, |turns|, more, TurnLimit, writes)
    {
      more := run;
      assert turns[..|turns|] == turns;
      if !exists k :: 0 <= k < |messages| && messages[k].Assistant? {
        more := Add(Assistant([]), start, run);
        SoFarAnswered(streams, run, more);
      }
    }

    /** One more turn of the loop. */
    method TakeNext(
      turns: seq<Turn>, t: nat, ghost start: seq<Entry>, ghost begun: seq<Call>,
      ghost run: seq<Entry>, ghost streams: seq<seq<Entry>>)
      returns (ended: Option<LoopEnd>, ghost more: seq<Entry>, ghost streams': seq<seq<Entry>>)
      requires t < |turns| && Idle() && messages == start + run && Pending(run) == multiset{}
      requires Taken(turns, t, run, streams, writes) && Begun(trace) == begun + LoopCalls(turns[..t], writes)
      modifies this
      ensures Idle() && messages == start + more && Taken(turns, t + 1, more, streams', writes)
      ensures Begun(trace) == begun + LoopCalls(turns[..t + 1], writes)
      ensures ended == TurnEnd(turns[t], writes)
      ensures ended.None? ==> Pending(more) == multiset{}
      ensures ended.Some? ==> !ended.value.TurnLimit?
      ensures ended.Some? && ended.value.Responded? ==> Pending(more) == CallIds(ended.value.calls)
    {
      ghost var stream;
      ended, more, stream := TakeTurn(turns[t], start, run);
      LoopNext(turns, t, writes);
      TakenNext(turns, t, run, streams, stream, more, writes);
      Regroup(begun, LoopCalls(turns[..t], writes), TurnCalls(turns[t], writes));
      streams' := streams + [stream];
    }

    method Add(e: Entry, ghost start: seq<Entry>, ghost run: seq<Entry>) returns (ghost more: seq<Entry>)
      requires messages == start + run
      modifies this`messages
      ensures messages == start + more && more == run + [e]
      ensures Pending(more) == PendingWith(Pending(run), e)
    {
      PendingPush(run, e);
      messages := messages + [e];
      more := run + [e];
    }

    /** One turn: steer, stream, execute the calls asked for. */
    method TakeTurn(turn: Turn, ghost start: seq<Entry>, ghost run: seq<Entry>)
      returns (ended: Option<LoopEnd>, ghost more: seq<Entry>, ghost stream: seq<Entry>)
      requires Idle() && messages == start + run && Pending(run) == multiset{}
      modifies this
      ensures Idle() && messages == start + more && run <= more && Begun(old(trace)) <= Begun(trace)
      ensures Pending(stream) == multiset{} && stream <= more && stream == run + Steering(turn)
      ensures more == run + TurnEntries(turn, writes) && ended == TurnEnd(turn, writes)
      ensures Begun(trace) == Begun(old(trace)) + TurnCalls(turn, writes)
      ensures ended.None? ==> Pending(more) == multiset{}
      ensures ended.Some? ==> !ended.value.TurnLimit?
      ensures ended.Some? && ended.value.Responded? ==> Pending(more) == CallIds(ended.value.calls)
    {
      more := run;
      if turn.steering { more := Add(Note, start, more); }
      stream := more;
      if turn.response.StreamFailed? { return Some(Thrown), more, stream; }
      ended, more := Respond(turn, start, stream);
      TurnGroups(run, turn, writes);
    }

    /** Add the response and what follows it. */
    method Respond(turn: Turn, ghost start: seq<Entry>, ghost stream: seq<Entry>)
      returns (ended: Option<LoopEnd>, ghost more: seq<Entry>)
      requires turn.response.Response? && Idle() && messages == start + stream && Pending(stream) == multiset{}
      modifies this
      ensures Idle() && messages == start + more && stream <= more
      ensures more == stream + [Assistant(turn.response.calls)]
        + if Executes(turn) then Execution(turn, writes) else []
      ensures ended == TurnEnd(turn, writes) && Begun(trace) == Begun(old(trace)) + TurnCalls(turn, writes)
      ensures ended.None? ==> Pending(more) == multiset{}
      ensures ended.Some? ==> !ended.value.TurnLimit?
      ensures ended.Some? && ended.value.Responded? ==> Pending(more) == CallIds(ended.value.calls)
    {
      more := Add(Assistant(turn.response.calls), start, stream);
      ended, more := Follow(turn, turn.response.calls, start, more);
    }

    /** What follows a response: return it, or execute its calls. */
    method Follow(turn: Turn, calls: seq<Attempt>, ghost start: seq<Entry>, ghost run: seq<Entry>)
      returns (ended: Option<LoopEnd>, ghost more: seq<Entry>)
      requires turn.response.Response? && calls == turn.response.calls
      requires Idle() && messages == start + run && Pending(run) == CallIds(calls)
      modifies this
      ensures Idle() && messages == start + more && run <= more && Begun(old(trace)) <= Begun(trace)
      ensures more == run + (if Executes(turn) then Execution(turn, writes) else []) && ended == TurnEnd(turn, writes)
      ensures Begun(trace) == Begun(old(trace)) + TurnCalls(turn, writes)
      ensures ended.None? ==> Pending(more) == multiset{}
      ensures ended.Some? ==> !ended.value.TurnLimit?
      ensures ended.Some? && ended.value.Responded? ==> Pending(more) == CallIds(ended.value.calls)
    {
      more := run;
      if calls == [] || !turn.response.toolUse { return Some(Responded(calls)), more; }
      var aborted;
      aborted, more := AnswerCalls(calls, turn.abortAt, start, more);
      Regroup(run, Replies(AllAnswers(BatchesDone(turn, writes))), [Note]);
      if aborted { return Some(Thrown), more; }
      if turn.recalled { more := Add(Note, start, more); }
      ended := if turn.abortedAfter then Some(Thrown) else None;
    }

    /** Execute the calls of a turn: unless it is aborted, nothing is left unanswered. */
    method AnswerCalls(calls: seq<Attempt>, abortAt: nat, ghost start: seq<Entry>, ghost run: seq<Entry>)
      returns (aborted: bool, ghost more: seq<Entry>)
      requires Idle() && messages == start + run && Pending(run) == CallIds(calls)
      modifies this
      ensures Idle() && messages == start + more && run <= more && Begun(old(trace)) <= Begun(trace)
      ensures aborted <==> abortAt < |Batches(calls, writes)|
      ensures var done := Batches(calls, writes)[..Min(abortAt, |Batches(calls, writes)|)];
        more == run + Replies(AllAnswers(done)) && Begun(trace) == Begun(old(trace)) + Executed(Concat(done))
      ensures !aborted ==> Pending(more) == multiset{}
    {
      ghost var batches := Batches(calls, writes);
      ghost var done := batches[..Min(abortAt, |batches|)];
      aborted := ExecuteToolCalls(calls, abortAt);
      more := run + Replies(AllAnswers(done));
      Regroup(start, run, Replies(AllAnswers(done)));
      if !aborted {
        assert done == batches;
        BatchesPartition(calls, writes);
        OneAnswerPerCall(batches);
        PendingAfterReplies(run, AllAnswers(batches));
      }
    }
  }
}
