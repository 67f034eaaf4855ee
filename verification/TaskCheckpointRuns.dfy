/** Whole runs of the checkpoint runtime, restarts, and the plan shown to an operator. */
module TaskCheckpointRuns {
  import opened Collections
  import opened Text
  import opened TaskCheckpoint

  function Run(s: State, actions: seq<Action>): (r: State)
    requires Sound(s)
    ensures Sound(r)
    decreases actions
  {
    if actions == [] then s
    else
      StepKeepsSound(s, actions[0]);
      Run(Step(s, actions[0]), actions[1..])
  }

  /** One more action at the end of a run. */
  lemma {:induction false} RunAppend(s: State, actions: seq<Action>, more: seq<Action>)
    requires Sound(s)
    ensures Run(s, actions + more) == Run(Run(s, actions), more)
    decreases actions
  {
    if actions == [] {
      assert actions + more == more;
    } else {
      assert (actions + more)[1..] == actions[1..] + more;
      StepKeepsSound(s, actions[0]);
      RunAppend(Step(s, actions[0]), actions[1..], more);
    }
  }

  /**
   * After any interleaving of prompts, events, finishes, save completions and restarts:
   * saves were attempted in call order; once the chain is empty after a good save the
   * record stored is the live status, phase and snapshot; and while every prompt went on
   * from all events, the live snapshot lists the last twelve of the process's history.
   */
  lemma EveryRunSettles(stored: Option<Record>, actions: seq<Action>)
    ensures Sound(Fresh(stored))
    ensures var s := Run(Fresh(stored), actions);
      && s.ledger.attempts <= s.ledger.calls
      && (s.queue == [] ==> s.ledger.attempts == s.ledger.calls)
      && (Settled(s) ==>
        s.stored == Some(Record(s.status.value, s.cells[s.live.value].phase, s.cells[s.live.value], true)))
      && (s.ledger.intact && s.ledger.calls != [] ==>
        s.live.Some? && s.cells[s.live.value].recentEvents == LastTwelve(s.ledger.history))
  {
    FreshIsSound(stored);
    var s := Run(Fresh(stored), actions);
    if s.ledger.calls != [] { RecentIsTrace(s); }
  }

  /** Something was queued, nothing is, and the last save was good. */
  predicate Settled(s: State) { s.queue == [] && s.ledger.calls != [] && s.live.Some? && !s.failed }

  /** Once something was queued, the live snapshot lists the last twelve of the events behind it. */
  lemma RecentIsTrace(s: State)
    requires Sound(s) && s.ledger.calls != []
    ensures s.live.Some? && s.live.value < |s.cells| == |s.ledger.traces|
    ensures s.cells[s.live.value].recentEvents == LastTwelve(s.ledger.traces[s.live.value])
    ensures s.ledger.intact ==> s.ledger.traces[s.live.value] == s.ledger.history
  {
    assert ListsAt(s.cells[s.live.value], s.ledger.traces[s.live.value]);
  }

  // ---- The list of recent events ----------------------------------------------------

  /** Actions that start no prompt and change no process. */
  predicate Steady(a: Action) { a.CallPrompt? || a.Event? || a.Finish? || a.SaveNext? }

  /** The history and what the live snapshot knows have grown by the same events. */
  predicate GrownBy(s: State, r: State, events: seq<Recent>)
    requires s.InBounds() && s.live.Some?
  {
    && r.live.Some? && r.live.value < |r.ledger.traces|
    && r.ledger.history == s.ledger.history + events
    && r.ledger.traces[r.live.value] == s.ledger.traces[s.live.value] + events
  }

  lemma GrownTwice(s: State, m: State, r: State, first: seq<Recent>, rest: seq<Recent>)
    requires s.InBounds() && s.live.Some? && m.InBounds() && GrownBy(s, m, first) && GrownBy(m, r, rest)
    ensures GrownBy(s, r, first + rest)
  {
    Regroup(s.ledger.history, first, rest);
    Regroup(s.ledger.traces[s.live.value], first, rest);
  }

  /**
   * Within one prompt nothing is lost: the events recorded since are added to the history
   * and to what the live snapshot knows, in the same order.
   */
  lemma {:induction false} WithinPrompt(s: State, actions: seq<Action>) returns (events: seq<Recent>)
    requires Sound(s) && s.live.Some?
    requires forall i :: 0 <= i < |actions| ==> Steady(actions[i])
    ensures GrownBy(s, Run(s, actions), events)
    decreases actions
  {
    events := [];
    if actions != [] {
      StepKeepsSound(s, actions[0]);
      var m := Step(s, actions[0]);
      var first := SteadyStep(s, actions[0]);
      var rest := WithinPrompt(m, actions[1..]);
      GrownTwice(s, m, Run(s, actions), first, rest);
      events := first + rest;
    }
  }

  lemma SteadyStep(s: State, a: Action) returns (events: seq<Recent>)
    requires Sound(s) && s.live.Some? && Steady(a)
    ensures GrownBy(s, Step(s, a), events)
  {
    events := [];
    match a
    case Event(event, data, messages, at, copiedAt) =>
      if s.CanRecord() && Persisted(event) {
        events := [BuildRecentEvent(event, data, at)];
        var c := ApplyEvent(s.cells[s.live.value], event, data, messages, at);
        RecordedGrows(s, c, events[0], EventStatus(event), copiedAt);
      }
    case Finish(outcome, error, messages, at, copiedAt) =>
      var c := s.cells[s.live.value];
      events := [FinishEvent(c, outcome, error, at)];
      RecordedGrows(s, ApplyFinish(c, outcome, error, messages, at), events[0], outcome, copiedAt);
    case SaveNext(ok) => SaveGrows(s, ok);
    case CallPrompt(_) =>
  }

  lemma RecordedGrows(s: State, c: Content, e: Recent, status: Status, copiedAt: int)
    requires s.InBounds() && s.live.Some?
    ensures GrownBy(s, Recorded(s, c, e, status, copiedAt), [e])
  {
    RecordedFacts(s, c, e, status, copiedAt);
  }

  lemma SaveGrows(s: State, ok: bool)
    requires s.InBounds() && s.live.Some?
    ensures GrownBy(s, SaveStep(s, ok), [])
  {
  }

  /** A prompt goes on from the whole history exactly when what it found is live, or changed for the last event. */
  lemma PromptGoesOnIff(s: State)
    requires Sound(s) && s.ledger.intact && s.pending.Some? && s.pending.value.Waiting?
    ensures StartStep(s).ledger.intact <==> GoesOn(s, s.pending.value.found)
  {
    TraceIsHistoryIff(s, s.pending.value.found);
  }

  /** A prompt called on a settled chain, and started before anything else is recorded, goes on from everything. */
  lemma SettledPromptGoesOn(s: State, input: PromptInput)
    requires Sound(s) && Settled(s) && s.ledger.intact && s.pending.None?
    ensures StartStep(CallStep(s, input)).ledger.intact
  {
    CallKeepsSound(s, input);
    PromptGoesOnIff(CallStep(s, input));
  }

  /** The situation after a prompt has begun and been saved: nothing queued, and events are recorded. */
  predicate Ready(s: State) {
    Sound(s) && s.queue == [] && s.CanRecord() && s.persisted == s.live && s.pending.None? && s.ledger.intact
  }

  function Begun(input: PromptInput): seq<Action> {
    [CallPrompt(input), ReadDone(true), StartPrompt, SaveNext(true)]
  }

  lemma RunFirst(s: State, a: Action, rest: seq<Action>)
    requires Sound(s)
    ensures Sound(Step(s, a)) && Run(s, [a] + rest) == Run(Step(s, a), rest)
  {
    StepKeepsSound(s, a);
    assert ([a] + rest)[1..] == rest;
  }

  lemma RunTwo(s: State, a: Action, b: Action) returns (m: State)
    requires Sound(s)
    ensures m == Step(s, a) && Sound(m)
    ensures Run(s, [a, b]) == Step(m, b)
  {
    RunFirst(s, a, [b]);
    m := Step(s, a);
    RunFirst(m, b, []);
    assert [a, b] == [a] + [b] && [b] == [b] + [];
  }

  lemma RunReads(stored: Option<Record>, input: PromptInput) returns (read: State)
    ensures Sound(Fresh(stored)) && Sound(read)
    ensures read == Run(Fresh(stored), [CallPrompt(input), ReadDone(true)]) == FirstRead(stored, input, true)
  {
    FreshIsSound(stored);
    var m := RunTwo(Fresh(stored), CallPrompt(input), ReadDone(true));
    read := Run(Fresh(stored), [CallPrompt(input), ReadDone(true)]);
  }

  lemma RunStarts(s: State) returns (begun: State)
    requires Sound(s)
    ensures Sound(begun) && begun == StartStep(s)
    ensures Run(s, [StartPrompt, SaveNext(true)]) == SaveStep(begun, true)
  {
    begun := RunTwo(s, StartPrompt, SaveNext(true));
  }

  /** The process after its first prompt has been called and its read has come back. */
  function FirstRead(stored: Option<Record>, input: PromptInput, readOk: bool): State {
    ReadStep(CallStep(Fresh(stored), input), readOk)
  }

  lemma FirstReadIsSound(stored: Option<Record>, input: PromptInput, readOk: bool)
    ensures Sound(FirstRead(stored, input, readOk))
  {
    FreshIsSound(stored);
    CallKeepsSound(Fresh(stored), input);
    ReadKeepsSound(CallStep(Fresh(stored), input), readOk);
  }

  lemma RunBegun(stored: Option<Record>, input: PromptInput, read: State) returns (begun: State)
    requires Sound(Fresh(stored)) && Sound(read)
    requires read == Run(Fresh(stored), [CallPrompt(input), ReadDone(true)])
    ensures Sound(begun) && begun == StartStep(read)
    ensures Run(Fresh(stored), Begun(input)) == SaveStep(begun, true)
  {
    begun := RunStarts(read);
    RunAppend(Fresh(stored), [CallPrompt(input), ReadDone(true)], [StartPrompt, SaveNext(true)]);
    assert Begun(input) == [CallPrompt(input), ReadDone(true)] + [StartPrompt, SaveNext(true)];
  }

  lemma BegunIsReady(input: PromptInput)
    ensures Sound(Fresh(None))
    ensures Ready(Run(Fresh(None), Begun(input)))
  {
    var read := RunReads(None, input);
    var begun := RunBegun(None, input, read);
    StartedFresh(read, input, begun);
    SaveKeepsSound(begun, true);
  }

  lemma StartedFresh(read: State, input: PromptInput, begun: State)
    requires read == FirstRead(None, input, true) && read.InBounds() && begun == StartStep(read)
    ensures begun.queue == [Write(0, Active, PROMPT_START)] && begun.live == Some(0) && begun.status == Some(Active)
    ensures begun.pending.None? && begun.ledger.intact && |begun.cells| == 1
  {
  }

  /** What changing the live object and queueing a copy of it does, field by field. */
  lemma RecordedFacts(s: State, c: Content, e: Recent, status: Status, copiedAt: int)
    requires s.InBounds() && s.live.Some?
    ensures var r, l := Recorded(s, c, e, status, copiedAt), s.live.value;
      && r.cells == s.cells[l := c] + [c.(updatedAt := copiedAt)]
      && r.live == Some(|s.cells|) && r.status == Some(status)
      && r.queue == s.queue + [Write(|s.cells|, status, c.phase)]
      && r.persisted == s.persisted && r.persistedStatus == s.persistedStatus && r.stored == s.stored
      && r.pending == s.pending && r.hydrated == s.hydrated
      && r.ledger.history == s.ledger.history + [e]
      && r.ledger.traces == s.ledger.traces[l := s.ledger.traces[l] + [e]] + [s.ledger.traces[l] + [e]]
  {
  }

  /** A prompt goes on from the events behind the checkpoint it found. */
  lemma StartsFromFound(s: State, input: PromptInput, found: Found) returns (t: State)
    requires Sound(s) && s.hydrated && s.pending.None? && FoundBy(s) == Some(found) && found.address < |s.cells|
    ensures CallStep(s, input).InBounds() && t == StartStep(CallStep(s, input))
    ensures t.ledger.history == s.ledger.history + [StartEvent(input)]
    ensures ListsLive(t, s.ledger.traces[found.address] + [StartEvent(input)])
  {
    CallKeepsSound(s, input);
    t := StartStep(CallStep(s, input));
    var c := StartLists(CallStep(s, input), Some(found), input);
  }

  /** The live snapshot lists the last twelve of these events. */
  predicate ListsLive(s: State, events: seq<Recent>) {
    s.live.Some? && s.live.value < |s.cells| && s.cells[s.live.value].recentEvents == LastTwelve(events)
  }

  /** The ledger and the objects after one more change of the live snapshot. */
  predicate Grown(s: State, e: Recent, t: State)
    requires s.InBounds() && s.live.Some?
  {
    var l := s.live.value;
    && t.live == Some(|s.cells|) && |t.cells| == |s.cells| + 1
    && FoundBy(t) == FoundBy(s) && t.pending == s.pending && t.hydrated == s.hydrated
    && t.ledger.history == s.ledger.history + [e]
    && t.ledger.traces == s.ledger.traces[l := s.ledger.traces[l] + [e]] + [s.ledger.traces[l] + [e]]
  }

  lemma EventGrows(s: State, event: string, at: int) returns (t: State)
    requires Sound(s) && s.CanRecord() && Persisted(event)
    ensures t == EventStep(s, event, NoData, 1, at, at) && Sound(t)
    ensures t.status == Some(EventStatus(event)) && Grown(s, BuildRecentEvent(event, NoData, at), t)
  {
    EventKeepsSound(s, event, NoData, 1, at, at);
    t := EventStep(s, event, NoData, 1, at, at);
    RecordedFacts(s, ApplyEvent(s.cells[s.live.value], event, NoData, 1, at), BuildRecentEvent(event, NoData, at),
                  EventStatus(event), at);
  }

  lemma ReadyKnows(s: State)
    requires Ready(s)
    ensures s.live.Some? && s.live.value == |s.cells| - 1
    ensures FoundBy(s).Some? && FoundBy(s).value.address == s.live.value
    ensures s.ledger.traces[s.live.value] == s.ledger.history && s.hydrated
  {
  }

  lemma GrownPast(s: State, one: State, two: State, e: Recent, f: Recent)
    requires s.InBounds() && s.live.Some? && s.live.value < |s.cells| && one.InBounds()
    requires Grown(s, e, one) && Grown(one, f, two)
    ensures var l := s.live.value;
      && two.ledger.history == s.ledger.history + [e] + [f]
      && l < |two.ledger.traces| && two.ledger.traces[l] == s.ledger.traces[l] + [e]
  {
  }

  /** A prompt that finds a checkpoint one event short of the history loses that event. */
  lemma LosesLastEvent(s: State, known: seq<Recent>, f: Recent, input: PromptInput, found: Found)
    returns (begun: State)
    requires Sound(s) && s.hydrated && s.pending.None? && FoundBy(s) == Some(found) && found.address < |s.cells|
    requires s.ledger.traces[found.address] == known && s.ledger.history == known + [f]
    ensures CallStep(s, input).InBounds() && begun == StartStep(CallStep(s, input))
    ensures begun.ledger.history == known + [f, StartEvent(input)] && ListsLive(begun, known + [StartEvent(input)])
  {
    begun := StartsFromFound(s, input, found);
    assert known + [f] + [StartEvent(input)] == known + [f, StartEvent(input)];
  }

  /**
   * Two events recorded and not saved before the next prompt of the same process: the new
   * snapshot lists the first of them and not the second.
   */
  lemma SecondUnsavedEventIsLost(s: State, first: string, second: string, at: int, input: PromptInput)
    returns (one: State, two: State, begun: State)
    requires Ready(s) && Persisted(first) && Persisted(second) && first != "agent:abort"
    ensures one == EventStep(s, first, NoData, 1, at, at) && one.InBounds()
    ensures two == EventStep(one, second, NoData, 1, at, at) && CallStep(two, input).InBounds()
    ensures begun == StartStep(CallStep(two, input))
    ensures var e, f := BuildRecentEvent(first, NoData, at), BuildRecentEvent(second, NoData, at);
      && begun.ledger.history == s.ledger.history + [e] + [f, StartEvent(input)]
      && ListsLive(begun, s.ledger.history + [e] + [StartEvent(input)])
  {
    var e, f := BuildRecentEvent(first, NoData, at), BuildRecentEvent(second, NoData, at);
    ReadyKnows(s);
    one := EventGrows(s, first, at);
    two := EventGrows(one, second, at);
    GrownPast(s, one, two, e, f);
    begun := LosesLastEvent(two, s.ledger.history + [e], f, input, FoundBy(s).value);
  }

  // ---- What a reader of the recent events can tell ----------------------------------------

  predicate AllBefore(events: seq<Recent>, at: int) { forall i :: 0 <= i < |events| ==> events[i].at < at }

  /** A proper beginning of the history, all of it earlier than the last event. */
  predicate ShortOf(trace: seq<Recent>, history: seq<Recent>) {
    |trace| < |history| && trace == history[..|trace|] && AllBefore(trace, history[|history| - 1].at)
  }

  /** While intact, what a snapshot knows is the history, or visibly less. */
  predicate Apart(s: State) {
    s.ledger.intact ==> forall a :: 0 <= a < |s.ledger.traces| ==> KnownApart(s.ledger.traces[a], s.ledger.history)
  }

  predicate KnownApart(trace: seq<Recent>, history: seq<Recent>) { trace == history || ShortOf(trace, history) }

  /** The clock has moved past every event of the history by the time of the next. */
  predicate Passes(s: State, a: Action) {
    match a
    case Event(_, _, _, at, _) => AllBefore(s.ledger.history, at)
    case Finish(_, _, _, at, _) => AllBefore(s.ledger.history, at)
    case StartPrompt =>
      s.pending.Some? && s.pending.value.Waiting? ==> AllBefore(s.ledger.history, s.pending.value.input.at)
    case _ => true
  }

  predicate ClockPasses(s: State, actions: seq<Action>)
    requires Sound(s)
    decreases actions
  {
    actions == [] || (
      StepKeepsSound(s, actions[0]);
      Passes(s, actions[0]) && ClockPasses(Step(s, actions[0]), actions[1..]))
  }

  lemma KnownThenLonger(trace: seq<Recent>, history: seq<Recent>, e: Recent)
    requires KnownApart(trace, history) && AllBefore(history, e.at)
    ensures ShortOf(trace, history + [e])
  {
  }

  /** One more event, known to some snapshots in full. */
  lemma TracesStayApart(traces: seq<seq<Recent>>, next: seq<seq<Recent>>, history: seq<Recent>, e: Recent)
    requires forall a :: 0 <= a < |traces| ==> KnownApart(traces[a], history)
    requires AllBefore(history, e.at)
    requires forall a :: 0 <= a < |next| ==> next[a] == history + [e] || (a < |traces| && next[a] == traces[a])
    ensures forall a :: 0 <= a < |next| ==> KnownApart(next[a], history + [e])
  {
    forall a | 0 <= a < |next| ensures KnownApart(next[a], history + [e]) {
      if next[a] != history + [e] { KnownThenLonger(traces[a], history, e); }
    }
  }

  lemma RecordedKeepsApart(s: State, c: Content, e: Recent, status: Status, copiedAt: int)
    requires Sound(s) && Apart(s) && s.live.Some? && AllBefore(s.ledger.history, e.at)
    ensures Apart(Recorded(s, c, e, status, copiedAt))
  {
    RecordedFacts(s, c, e, status, copiedAt);
    if s.ledger.intact {
      TracesStayApart(s.ledger.traces, Recorded(s, c, e, status, copiedAt).ledger.traces, s.ledger.history, e);
    }
  }

  lemma StartKeepsApart(s: State)
    requires Sound(s) && Apart(s) && Passes(s, StartPrompt)
    ensures Apart(StartStep(s))
  {
    if s.pending.Some? && s.pending.value.Waiting? {
      var input, found := s.pending.value.input, s.pending.value.found;
      var c := StartLists(s, found, input);
      if StartStep(s).ledger.intact {
        TracesStayApart(s.ledger.traces, StartStep(s).ledger.traces, s.ledger.history, StartEvent(input));
      }
    }
  }

  lemma ReadKeepsApart(s: State, ok: bool)
    requires Sound(s) && Apart(s)
    ensures Apart(ReadStep(s, ok))
  {
  }

  lemma StepKeepsApart(s: State, a: Action)
    requires Sound(s) && Apart(s) && Passes(s, a)
    ensures Apart(Step(s, a))
  {
    match a
    case Event(event, data, messages, at, copiedAt) =>
      if s.CanRecord() && Persisted(event) {
        RecordedKeepsApart(s, ApplyEvent(s.cells[s.live.value], event, data, messages, at),
                           BuildRecentEvent(event, data, at), EventStatus(event), copiedAt);
      }
    case Finish(outcome, error, messages, at, copiedAt) =>
      if s.live.Some? {
        var c := s.cells[s.live.value];
        RecordedKeepsApart(s, ApplyFinish(c, outcome, error, messages, at), FinishEvent(c, outcome, error, at),
                           outcome, copiedAt);
      }
    case StartPrompt => StartKeepsApart(s);
    case ReadDone(ok) => ReadKeepsApart(s, ok);
    case CallPrompt(_) =>
    case SaveNext(_) =>
    case Restart =>
  }

  lemma {:induction false} RunKeepsApart(s: State, actions: seq<Action>)
    requires Sound(s) && Apart(s) && ClockPasses(s, actions)
    ensures Apart(Run(s, actions))
    decreases actions
  {
    if actions != [] {
      StepKeepsApart(s, actions[0]);
      StepKeepsSound(s, actions[0]);
      RunKeepsApart(Step(s, actions[0]), actions[1..]);
    }
  }

  lemma TwelveDiffer(trace: seq<Recent>, history: seq<Recent>, e: Recent)
    requires ShortOf(trace, history)
    ensures LastTwelve(trace + [e]) != LastTwelve(history + [e])
  {
    var t, h := LastTwelve(trace + [e]), LastTwelve(history + [e]);
    assert |h| >= 2 && h[|h| - 2] == history[|history| - 1];
    if trace != [] {
      assert |t| >= 2 && t[|t| - 2] == trace[|trace| - 1];
    }
  }

  /** What a prompt found is the history, or visibly less than it. */
  lemma FoundApart(s: State, found: Option<Found>)
    requires Sound(s) && Apart(s) && s.ledger.intact && (found.Some? ==> found.value.address < |s.cells|)
    ensures KnownApart(TraceOf(s, found), s.ledger.history)
  {
  }

  /** Once a prompt has started, its snapshot lists the last twelve of all events exactly when it went on from them. */
  lemma StartListsAllIff(s: State)
    requires Sound(s) && Apart(s) && s.ledger.intact && s.pending.Some? && s.pending.value.Waiting?
    ensures ListsLive(StartStep(s), StartStep(s).ledger.history) <==> GoesOn(s, s.pending.value.found)
  {
    var input, found := s.pending.value.input, s.pending.value.found;
    var c := StartLists(s, found, input);
    TraceIsHistoryIff(s, found);
    FoundApart(s, found);
    if !GoesOn(s, found) { TwelveDiffer(TraceOf(s, found), s.ledger.history, StartEvent(input)); }
  }

  /**
   * In every run whose clock passes each event before the next, as long as every prompt so far
   * went on from all events: the next one does exactly when its recent events are the last twelve.
   */
  lemma RunListsAllIff(stored: Option<Record>, actions: seq<Action>)
    ensures Sound(Fresh(stored))
    ensures ClockPasses(Fresh(stored), actions) ==>
      var s := Run(Fresh(stored), actions);
      s.ledger.intact && s.pending.Some? && s.pending.value.Waiting? ==>
        && (ListsLive(StartStep(s), StartStep(s).ledger.history) <==> GoesOn(s, s.pending.value.found))
        && (StartStep(s).ledger.intact <==> GoesOn(s, s.pending.value.found))
  {
    FreshIsSound(stored);
    if ClockPasses(Fresh(stored), actions) {
      RunKeepsApart(Fresh(stored), actions);
      var s := Run(Fresh(stored), actions);
      if s.ledger.intact && s.pending.Some? && s.pending.value.Waiting? {
        StartListsAllIff(s);
        PromptGoesOnIff(s);
      }
    }
  }

  // ---- What is reported as persisted ------------------------------------------------

  /** The snapshot reported as persisted is what the store holds. */
  predicate ReportIsStored(s: State) {
    && s.persisted.Some? && s.persisted.value < |s.cells|
    && s.stored.Some? && s.stored.value.content == s.cells[s.persisted.value]
  }

  /** A good save makes the report true, whatever it was. */
  lemma GoodSaveReports(s: State)
    requires Sound(s) && s.queue != []
    ensures ReportIsStored(SaveStep(s, true)) && !SaveStep(s, true).ledger.ahead
  {
  }

  /** A recorded event keeps the report true exactly when the persisted snapshot is no longer the live one. */
  lemma EventKeepsReportIff(s: State, event: string, data: EventData, messages: int, at: int, copiedAt: int)
    requires Sound(s) && ReportIsStored(s) && s.CanRecord() && Persisted(event)
    requires at > s.cells[s.live.value].updatedAt
    ensures ReportIsStored(EventStep(s, event, data, messages, at, copiedAt)) <==> s.persisted != s.live
  {
    EventFacts(s.cells[s.live.value], event, data, messages, at);
  }

  lemma FinishKeepsReportIff(s: State, outcome: Status, error: Option<string>, messages: int, at: int, copiedAt: int)
    requires Sound(s) && ReportIsStored(s) && s.live.Some? && at > s.cells[s.live.value].updatedAt
    ensures ReportIsStored(FinishStep(s, outcome, error, messages, at, copiedAt)) <==> s.persisted != s.live
  {
  }

  /** The clock moves between one change of the live snapshot and the next. */
  predicate Ticks(s: State, a: Action)
    requires s.InBounds()
  {
    match a
    case Event(_, _, _, at, _) => s.live.Some? ==> at > s.cells[s.live.value].updatedAt
    case Finish(_, _, _, at, _) => s.live.Some? ==> at > s.cells[s.live.value].updatedAt
    case _ => true
  }

  predicate ClockTicks(s: State, actions: seq<Action>)
    requires Sound(s)
    decreases actions
  {
    actions == [] || (
      StepKeepsSound(s, actions[0]);
      Ticks(s, actions[0]) && ClockTicks(Step(s, actions[0]), actions[1..]))
  }

  /** A snapshot that has changed since it was saved is not live any more, and differs from the store. */
  predicate AheadDiffers(s: State) {
    s.ledger.ahead ==>
      && s.persisted.Some? && s.persisted != s.live && s.persisted.value < |s.cells|
      && s.stored.Some? && s.stored.value.content != s.cells[s.persisted.value]
  }

  lemma StepKeepsAhead(s: State, a: Action)
    requires Sound(s) && AheadDiffers(s) && Ticks(s, a)
    ensures AheadDiffers(Step(s, a))
  {
    match a
    case Event(event, data, messages, at, copiedAt) =>
      if s.CanRecord() && Persisted(event) {
        var c := s.cells[s.live.value];
        EventFacts(c, event, data, messages, at);
        RecordedKeepsAhead(s, ApplyEvent(c, event, data, messages, at), BuildRecentEvent(event, data, at),
                           EventStatus(event), copiedAt);
      }
    case Finish(outcome, error, messages, at, copiedAt) =>
      if s.live.Some? {
        var c := s.cells[s.live.value];
        RecordedKeepsAhead(s, ApplyFinish(c, outcome, error, messages, at), FinishEvent(c, outcome, error, at),
                           outcome, copiedAt);
      }
    case SaveNext(ok) => SaveKeepsAhead(s, ok);
    case StartPrompt => StartKeepsAhead(s);
    case CallPrompt(_) =>
    case ReadDone(ok) => ReadKeepsAhead(s, ok);
    case Restart =>
  }

  lemma RecordedKeepsAhead(s: State, c: Content, e: Recent, status: Status, copiedAt: int)
    requires Ordered(s) && StoredUnlessAhead(s) && AheadDiffers(s) && s.live.Some?
    requires c.updatedAt > s.cells[s.live.value].updatedAt
    ensures AheadDiffers(Recorded(s, c, e, status, copiedAt))
  {
    RecordedFacts(s, c, e, status, copiedAt);
  }

  lemma SaveKeepsAhead(s: State, ok: bool)
    requires Ordered(s) && AheadDiffers(s)
    ensures AheadDiffers(SaveStep(s, ok))
  {
  }

  lemma StartKeepsAhead(s: State)
    requires Ordered(s) && ListsTraces(s) && AheadDiffers(s)
    ensures AheadDiffers(StartStep(s))
  {
    if s.pending.Some? && s.pending.value.Waiting? {
      var c := StartLists(s, s.pending.value.found, s.pending.value.input);
    }
  }

  lemma ReadKeepsAhead(s: State, ok: bool)
    requires Ordered(s) && ReadsFirst(s) && AheadDiffers(s)
    ensures AheadDiffers(ReadStep(s, ok))
  {
  }

  lemma {:induction false} RunKeepsAhead(s: State, actions: seq<Action>)
    requires Sound(s) && AheadDiffers(s) && ClockTicks(s, actions)
    ensures AheadDiffers(Run(s, actions))
    decreases actions
  {
    if actions != [] {
      StepKeepsAhead(s, actions[0]);
      StepKeepsSound(s, actions[0]);
      RunKeepsAhead(Step(s, actions[0]), actions[1..]);
    }
  }

  /**
   * In every run the report is true unless the persisted snapshot has been changed since its
   * save, by an event or finish that came while it was live; with a clock that ticks it is
   * true exactly then. So it is true whenever the chain is settled.
   */
  lemma ReportInRuns(stored: Option<Record>, actions: seq<Action>)
    ensures Sound(Fresh(stored))
    ensures var s := Run(Fresh(stored), actions);
      && (s.persisted.Some? && !s.ledger.ahead ==> ReportIsStored(s))
      && (Settled(s) ==> ReportIsStored(s))
      && (ClockTicks(Fresh(stored), actions) ==> (ReportIsStored(s) <==> s.persisted.Some? && !s.ledger.ahead))
  {
    FreshIsSound(stored);
    var s := Run(Fresh(stored), actions);
    if ClockTicks(Fresh(stored), actions) { RunKeepsAhead(Fresh(stored), actions); }
  }

  // ---- After a terminal status ------------------------------------------------------

  predicate Unmoved(s: State, r: State) {
    && r.cells == s.cells && r.live == s.live && r.status == s.status
    && r.ledger.history == s.ledger.history && r.ledger.calls == s.ledger.calls
  }

  predicate Quiet(a: Action) { a.Event? || a.SaveNext? }

  /** Events after a terminal status change nothing in memory, whatever saves complete meanwhile. */
  lemma {:induction false} TerminalIsFinal(s: State, actions: seq<Action>)
    requires Sound(s) && Terminal(s.status)
    requires forall i :: 0 <= i < |actions| ==> Quiet(actions[i])
    ensures Unmoved(s, Run(s, actions))
    decreases actions
  {
    if actions != [] {
      StepKeepsSound(s, actions[0]);
      QuietStep(s, actions[0]);
      TerminalIsFinal(Step(s, actions[0]), actions[1..]);
    }
  }

  lemma QuietStep(s: State, a: Action)
    requires s.InBounds() && Terminal(s.status) && Quiet(a)
    ensures Unmoved(s, Step(s, a))
  {
  }

  /** A finished outcome is what the store holds once the chain drains with its last save good. */
  lemma OutcomeIsStored(
    s: State, outcome: Status, error: Option<string>, messages: int, at: int, copiedAt: int, actions: seq<Action>)
    requires Sound(s) && s.live.Some? && !outcome.Active?
    requires forall i :: 0 <= i < |actions| ==> Quiet(actions[i])
    ensures Sound(FinishStep(s, outcome, error, messages, at, copiedAt))
    ensures var r := Run(FinishStep(s, outcome, error, messages, at, copiedAt), actions);
      r.queue == [] && !r.failed ==>
        r.stored == Some(Record(outcome, "prompt:" + StatusName(outcome),
          ApplyFinish(s.cells[s.live.value], outcome, error, messages, at).(updatedAt := copiedAt), true))
  {
    FinishKeepsSound(s, outcome, error, messages, at, copiedAt);
    var f := FinishStep(s, outcome, error, messages, at, copiedAt);
    TerminalIsFinal(f, actions);
    FinishedCell(s, outcome, error, messages, at, copiedAt);
  }

  lemma FinishedCell(s: State, outcome: Status, error: Option<string>, messages: int, at: int, copiedAt: int)
    requires Sound(s) && s.live.Some?
    ensures var f, c := FinishStep(s, outcome, error, messages, at, copiedAt), s.cells[s.live.value];
      && f.live.Some? && f.live.value < |f.cells|
      && f.cells[f.live.value] == ApplyFinish(c, outcome, error, messages, at).(updatedAt := copiedAt)
      && f.status == Some(outcome)
  {
  }

  // ---- Restarts without progress ----------------------------------------------------

  function BoundaryOf(r: Record): Boundary { ResolveBoundary(Previous(r.status, r.content)) }

  /** The record a new process leaves when it begins a prompt, saves it, and stops. */
  function Restarted(r: Record, input: PromptInput): Record {
    var sequence := Max(0, r.content.promptSequence) + 1;
    var c := StartContent(Some(Previous(r.status, r.content)), sequence, input);
    Record(Active, PROMPT_START, c.(updatedAt := input.copiedAt), true)
  }

  lemma RestartIsARun(r: Record, input: PromptInput)
    requires r.readable
    ensures Sound(Fresh(Some(r)))
    ensures Run(Fresh(Some(r)), Begun(input)).stored == Some(Restarted(r, input))
  {
    var read := RunReads(Some(r), input);
    var begun := RunBegun(Some(r), input, read);
    RestartCells(r, input, read);
  }

  lemma RestartCells(r: Record, input: PromptInput, read: State)
    requires r.readable && read == FirstRead(Some(r), input, true)
    ensures read.InBounds()
    ensures StartStep(read).cells == [r.content, Restarted(r, input).content]
    ensures StartStep(read).queue == [Write(1, Active, PROMPT_START)]
  {
    assert read.pending == Some(Waiting(input, Some(Found(r.status, 0))));
    assert PreviousOf(read, Some(Found(r.status, 0))) == Some(Previous(r.status, r.content));
  }

  /** The next prompt's snapshot carries the boundary of the record it found. */
  lemma RestartCarriesBoundary(r: Record, input: PromptInput)
    ensures var c := Restarted(r, input).content;
      && Carries(c, BoundaryOf(r)) && c.promptPreview == TruncatePreview(input.prompt)
      && c.phase == PROMPT_START && c.promptRunId == input.promptRunId && c.updatedAt == input.copiedAt
  {
  }

  /** One restart keeps the boundary exactly when its phase is not blank and its preview is known or again blank. */
  lemma RestartKeepsBoundaryIff(r: Record, input: PromptInput)
    ensures var b := BoundaryOf(r);
      BoundaryOf(Restarted(r, input)) == b <==> !Blank(b.phase) && (b.promptPreview.Some? || Blank(input.prompt))
    ensures !Blank(BoundaryOf(Restarted(r, input)).phase)
    ensures !Blank(input.prompt) ==> BoundaryOf(Restarted(r, input)).promptPreview.Some?
    ensures BoundaryOf(r).promptPreview.Some? && !Blank(BoundaryOf(r).phase) ==>
      BoundaryOf(Restarted(r, input)).promptPreview.Some?
  {
    RestartCarriesBoundary(r, input);
    TrimWord(PROMPT_START);
  }

  lemma TrimWord(s: string)
    requires s != "" && !IsSpace(s[0]) && !IsSpace(s[|s| - 1])
    ensures Trim(s) == s && !Blank(s)
  {
  }

  function RestartedMany(r: Record, inputs: seq<PromptInput>): Record
    decreases inputs
  {
    if inputs == [] then r else RestartedMany(Restarted(r, inputs[0]), inputs[1..])
  }

  /** Any number of restarts without progress keeps the boundary under exactly that condition. */
  lemma {:induction false} RestartsKeepBoundaryIff(r: Record, inputs: seq<PromptInput>)
    requires inputs != []
    ensures var b := BoundaryOf(r);
      BoundaryOf(RestartedMany(r, inputs)) == b <==>
        !Blank(b.phase) && (b.promptPreview.Some? || forall i :: 0 <= i < |inputs| ==> Blank(inputs[i].prompt))
    decreases inputs
  {
    var b, next, rest := BoundaryOf(r), Restarted(r, inputs[0]), inputs[1..];
    RestartKeepsBoundaryIff(r, inputs[0]);
    assert forall i :: 0 < i < |inputs| ==> inputs[i] == rest[i - 1];
    if rest != [] {
      RestartsKeepBoundaryIff(next, rest);
      if BoundaryOf(next) != b {
        StaysAway(next, rest);
      }
    }
  }

  lemma {:induction false} StaysAway(r: Record, inputs: seq<PromptInput>)
    requires !Blank(BoundaryOf(r).phase)
    ensures !Blank(BoundaryOf(RestartedMany(r, inputs)).phase)
    ensures BoundaryOf(r).promptPreview.Some? ==> BoundaryOf(RestartedMany(r, inputs)).promptPreview.Some?
    decreases inputs
  {
    if inputs != [] {
      RestartKeepsBoundaryIff(r, inputs[0]);
      StaysAway(Restarted(r, inputs[0]), inputs[1..]);
    }
  }

  /** Once a prompt with text has begun, its boundary survives every later restart. */
  lemma BoundarySurvivesRestarts(r: Record, first: PromptInput, inputs: seq<PromptInput>)
    requires !Blank(first.prompt)
    ensures BoundaryOf(RestartedMany(Restarted(r, first), inputs)) == BoundaryOf(Restarted(r, first))
  {
    RestartKeepsBoundaryIff(r, first);
    if inputs != [] { RestartsKeepBoundaryIff(Restarted(r, first), inputs); }
  }

  lemma {:induction false} PromptSequenceCountsRestarts(r: Record, inputs: seq<PromptInput>)
    requires inputs != []
    ensures RestartedMany(r, inputs).content.promptSequence == Max(0, r.content.promptSequence) + |inputs|
    ensures RestartedMany(r, inputs).content.promptSequence > r.content.promptSequence
    decreases inputs
  {
    if |inputs| > 1 { PromptSequenceCountsRestarts(Restarted(r, inputs[0]), inputs[1..]); }
  }

  // ---- Restarts after progress ------------------------------------------------------

  /** Events and finishes never touch what identifies the run or where it resumed from. */
  predicate SameRun(c: Content, d: Content) {
    && c.promptRunId == d.promptRunId && c.promptSequence == d.promptSequence && c.promptPreview == d.promptPreview
    && c.resumeFromStatus == d.resumeFromStatus && c.resumeFromPhase == d.resumeFromPhase
    && c.resumeFromPromptRunId == d.resumeFromPromptRunId
    && c.resumeFromPromptPreview == d.resumeFromPromptPreview && c.resumeFromUpdatedAt == d.resumeFromUpdatedAt
  }

  /** Once an event is recorded and saved, the next prompt resumes from that event of that run. */
  lemma ProgressMovesBoundary(s: State, event: string, data: EventData, messages: int, at: int, copiedAt: int)
    requires Sound(s) && s.queue == [] && s.CanRecord() && Persisted(event)
    ensures Sound(EventStep(s, event, data, messages, at, copiedAt))
    ensures var r := SaveStep(EventStep(s, event, data, messages, at, copiedAt), true).stored;
      var c := s.cells[s.live.value];
      && r.Some? && SameRun(r.value.content, c)
      && BoundaryOf(r.value) == Boundary(
           if event == "agent:abort" then Aborted else Active, event, c.promptRunId, c.promptPreview, copiedAt)
  {
    EventKeepsSound(s, event, data, messages, at, copiedAt);
    var c := s.cells[s.live.value];
    EventKeepsRun(c, event, data, messages, at);
    var t := EventStep(s, event, data, messages, at, copiedAt);
    assert t.cells[|s.cells|] == ApplyEvent(c, event, data, messages, at).(updatedAt := copiedAt);
    assert t.queue == [Write(|s.cells|, EventStatus(event), event)];
    NotAStart(event);
  }

  lemma EventKeepsRun(c: Content, event: string, data: EventData, messages: int, at: int)
    ensures SameRun(ApplyEvent(c, event, data, messages, at), c)
    ensures ApplyEvent(c, event, data, messages, at).phase == event
  {
  }

  // ---- The operator's plan ----------------------------------------------------------

  datatype PlanBoundary = PlanBoundary(status: Option<Status>, phase: Option<string>, promptRunId: Option<string>)

  function NonBlank(s: string): Option<string> { if Blank(s) then None else Some(Trim(s)) }

  /** What the plan built from the stored record names. */
  function PlanOf(r: Record): PlanBoundary {
    var c, recordPhase := r.content, NonBlank(r.phase);
    if recordPhase == Some(PROMPT_START) && c.resumeFromPhase.Some? && !Blank(c.resumeFromPhase.value) then
      PlanBoundary(
        Some(c.resumeFromStatus.GetOr(r.status)),
        c.resumeFromPhase,
        Some(c.resumeFromPromptRunId.GetOr(c.promptRunId)))
    else PlanBoundary(Some(r.status), recordPhase, Some(c.promptRunId))
  }

  predicate PlanAgrees(r: Record) {
    var b := BoundaryOf(r);
    PlanOf(r) == PlanBoundary(Some(b.status), Some(b.phase), Some(b.promptRunId))
  }

  /** Of record and snapshot one is at the start of a prompt, and what it resumed from is what the other says. */
  predicate ResumedFromItself(r: Record) {
    var c := r.content;
    && c.resumeFromPhase.Some? && !Blank(c.resumeFromPhase.value)
    && c.resumeFromStatus.GetOr(r.status) == r.status && c.resumeFromPromptRunId.GetOr(c.promptRunId) == c.promptRunId
    && ((NonBlank(r.phase) == Some(PROMPT_START) && c.phase == c.resumeFromPhase.value)
        || (c.phase == PROMPT_START && NonBlank(r.phase) == c.resumeFromPhase))
  }

  /**
   * The plan names what the next prompt resumes from exactly when the record's phase, trimmed,
   * is the snapshot's phase, or what was resumed from coincides with the record itself. An
   * older run that is never this one rules the second out.
   */
  lemma PlanAgreesIff(r: Record)
    ensures PlanAgrees(r) <==> (!Blank(r.phase) && Trim(r.phase) == r.content.phase) || ResumedFromItself(r)
    ensures !Blank(r.phase) && Trim(r.phase) == r.content.phase ==> PlanAgrees(r)
    ensures r.content.resumeFromPromptRunId.Some? && r.content.resumeFromPromptRunId.value != r.content.promptRunId
      ==> !ResumedFromItself(r)
  {
  }

  lemma KnownPhaseIsTrimmed(phase: string)
    requires IsPhase(phase)
    ensures Trim(phase) == phase && !Blank(phase)
  {
    if phase == PROMPT_START || Persisted(phase) {
      TrimWord(phase);
    } else {
      var status :| phase == "prompt:" + StatusName(status);
      TrimWord(phase);
    }
  }

  /** When the chain has drained after a good save, the plan agrees with the next prompt. */
  lemma SettledPlanAgrees(stored: Option<Record>, actions: seq<Action>)
    ensures Sound(Fresh(stored))
    ensures var s := Run(Fresh(stored), actions);
      Settled(s) ==> s.stored.Some? && PlanAgrees(s.stored.value)
  {
    EveryRunSettles(stored, actions);
    var s := Run(Fresh(stored), actions);
    if Settled(s) {
      KnownPhaseIsTrimmed(s.cells[s.live.value].phase);
    }
  }

  // ---- What the shared objects cost -------------------------------------------------

  /**
   * A write stores what its object holds by the time it runs. Stopping after an event and
   * the finish that follows it, with only the event's write saved, leaves a record whose
   * phase is the event's while its snapshot has finished, and the plan then disagrees
   * with the next prompt.
   */
  lemma StoppedBetweenSaves(s: State, event: string, data: EventData, outcome: Status, messages: int, at: int)
    requires Ready(s) && Persisted(event) && event != "agent:abort"
    ensures Sound(EventStep(s, event, data, messages, at, at))
    ensures Sound(FinishStep(EventStep(s, event, data, messages, at, at), outcome, None, messages, at, at))
    ensures var finished := FinishStep(EventStep(s, event, data, messages, at, at), outcome, None, messages, at, at);
      var stored := SaveStep(finished, true).stored;
      && stored.Some?
      && stored.value.status == Active && stored.value.phase == event
      && stored.value.content.phase == "prompt:" + StatusName(outcome)
      && !PlanAgrees(stored.value)
  {
    var c := ApplyEvent(s.cells[s.live.value], event, data, messages, at);
    EventKeepsSound(s, event, data, messages, at, at);
    EventFacts(s.cells[s.live.value], event, data, messages, at);
    RecordedFacts(s, c, BuildRecentEvent(event, data, at), Active, at);
    var one := EventStep(s, event, data, messages, at, at);
    FinishKeepsSound(one, outcome, None, messages, at, at);
    var was := one.cells[one.live.value];
    var d := ApplyFinish(was, outcome, None, messages, at);
    RecordedFacts(one, d, FinishEvent(was, outcome, None, at), outcome, at);
    FinishPhase(Record(Active, event, d, true));
  }

  lemma FinishPhase(r: Record)
    requires Persisted(r.phase) && exists outcome :: r.content.phase == "prompt:" + StatusName(outcome)
    ensures !PlanAgrees(r)
  {
    KnownPhaseIsTrimmed(r.phase);
    var outcome :| r.content.phase == "prompt:" + StatusName(outcome);
    assert r.content.phase[7] != 's' || r.content.phase == PROMPT_START;
    assert r.phase[0] != 'p';
  }

  // ---- The first read ---------------------------------------------------------------

  /** The same memory over possibly different stores. */
  predicate SameMemory(s: State, t: State) { s.(stored := t.stored) == t }

  /** Past its first read the process looks at the store no more. */
  predicate PastRead(s: State) { s.hydrated && !(s.pending.Some? && s.pending.value.Reading?) }

  lemma StepKeepsAlike(s: State, t: State, a: Action)
    requires Sound(s) && Sound(t) && SameMemory(s, t) && !a.Restart? && PastRead(s)
    ensures SameMemory(Step(s, a), Step(t, a)) && PastRead(Step(s, a))
  {
    match a
    case CallPrompt(input) =>
    case ReadDone(ok) =>
    case StartPrompt => StartAlike(s, t);
    case Event(event, data, messages, at, copiedAt) => EventAlike(s, t, event, data, messages, at, copiedAt);
    case Finish(outcome, error, messages, at, copiedAt) => FinishAlike(s, t, outcome, error, messages, at, copiedAt);
    case SaveNext(ok) => SaveAlike(s, t, ok);
  }

  lemma StartAlike(s: State, t: State)
    requires s.InBounds() && t.InBounds() && SameMemory(s, t) && PastRead(s)
    ensures SameMemory(StartStep(s), StartStep(t)) && PastRead(StartStep(s))
  {
    if s.pending.Some? {
      var input, found := s.pending.value.input, s.pending.value.found;
      assert PreviousOf(s, found) == PreviousOf(t, found) && TraceOf(s, found) == TraceOf(t, found);
    }
  }

  lemma RecordedAlike(s: State, t: State, c: Content, e: Recent, status: Status, copiedAt: int)
    requires s.InBounds() && t.InBounds() && s.live.Some? && SameMemory(s, t) && PastRead(s)
    ensures SameMemory(Recorded(s, c, e, status, copiedAt), Recorded(t, c, e, status, copiedAt))
    ensures PastRead(Recorded(s, c, e, status, copiedAt))
  {
  }

  lemma EventAlike(s: State, t: State, event: string, data: EventData, messages: int, at: int, copiedAt: int)
    requires s.InBounds() && t.InBounds() && SameMemory(s, t) && PastRead(s)
    ensures SameMemory(
      EventStep(s, event, data, messages, at, copiedAt), EventStep(t, event, data, messages, at, copiedAt))
    ensures PastRead(EventStep(s, event, data, messages, at, copiedAt))
  {
    if s.CanRecord() && Persisted(event) {
      RecordedAlike(s, t, ApplyEvent(s.cells[s.live.value], event, data, messages, at),
                    BuildRecentEvent(event, data, at), EventStatus(event), copiedAt);
    }
  }

  lemma FinishAlike(
    s: State, t: State, outcome: Status, error: Option<string>, messages: int, at: int, copiedAt: int)
    requires s.InBounds() && t.InBounds() && SameMemory(s, t) && PastRead(s)
    ensures SameMemory(
      FinishStep(s, outcome, error, messages, at, copiedAt), FinishStep(t, outcome, error, messages, at, copiedAt))
    ensures PastRead(FinishStep(s, outcome, error, messages, at, copiedAt))
  {
    if s.live.Some? {
      var c := s.cells[s.live.value];
      RecordedAlike(s, t, ApplyFinish(c, outcome, error, messages, at), FinishEvent(c, outcome, error, at),
                    outcome, copiedAt);
    }
  }

  lemma SaveAlike(s: State, t: State, ok: bool)
    requires s.InBounds() && t.InBounds() && SameMemory(s, t) && PastRead(s)
    ensures SameMemory(SaveStep(s, ok), SaveStep(t, ok)) && PastRead(SaveStep(s, ok))
  {
  }

  lemma {:induction false} RunsAlike(s: State, t: State, actions: seq<Action>)
    requires Sound(s) && Sound(t) && SameMemory(s, t) && PastRead(s)
    requires forall i :: 0 <= i < |actions| ==> !actions[i].Restart?
    ensures SameMemory(Run(s, actions), Run(t, actions))
    decreases actions
  {
    if actions != [] {
      StepKeepsSound(s, actions[0]);
      StepKeepsSound(t, actions[0]);
      StepKeepsAlike(s, t, actions[0]);
      RunsAlike(Step(s, actions[0]), Step(t, actions[0]), actions[1..]);
    }
  }

  /**
   * If the first read fails, or finds an unreadable record, the process behaves for good as
   * over an empty store: in every later step its memory is the same.
   */
  lemma FailedReadForgets(r: Record, input: PromptInput, readOk: bool, actions: seq<Action>)
    requires !(readOk && r.readable)
    requires forall i :: 0 <= i < |actions| ==> !actions[i].Restart?
    ensures Sound(FirstRead(Some(r), input, readOk)) && Sound(FirstRead(None, input, readOk))
    ensures SameMemory(Run(FirstRead(Some(r), input, readOk), actions), Run(FirstRead(None, input, readOk), actions))
  {
    FirstReadIsSound(Some(r), input, readOk);
    FirstReadIsSound(None, input, readOk);
    FirstReadAlike(r, input, readOk);
    RunsAlike(FirstRead(Some(r), input, readOk), FirstRead(None, input, readOk), actions);
  }

  lemma FirstReadAlike(r: Record, input: PromptInput, readOk: bool)
    requires !(readOk && r.readable)
    ensures SameMemory(FirstRead(Some(r), input, readOk), FirstRead(None, input, readOk))
    ensures PastRead(FirstRead(Some(r), input, readOk))
  {
  }

  /** A snapshot carries all five parts of a boundary. */
  predicate Carries(c: Content, b: Boundary) {
    && c.resumeFromStatus == Some(b.status) && c.resumeFromPhase == Some(b.phase)
    && c.resumeFromPromptRunId == Some(b.promptRunId) && c.resumeFromPromptPreview == b.promptPreview
    && c.resumeFromUpdatedAt == Some(b.updatedAt)
  }

  predicate CarriesNothing(c: Content) {
    && c.resumeFromStatus.None? && c.resumeFromPhase.None? && c.resumeFromPromptRunId.None?
    && c.resumeFromPromptPreview.None? && c.resumeFromUpdatedAt.None?
  }

  /** The first prompt to start, called again if its read failed. */
  function FirstStart(stored: Option<Record>, input: PromptInput, readOk: bool): State
  {
    FirstReadIsSound(stored, input, readOk);
    CallKeepsSound(FirstRead(stored, input, readOk), input);
    StartStep(CallStep(FirstRead(stored, input, readOk), input))
  }

  /** The first prompt resumes from the stored boundary exactly when the read comes back with a readable record. */
  lemma FirstReadDecides(r: Record, readOk: bool, input: PromptInput)
    ensures var s := FirstStart(Some(r), input, readOk);
      && s.live.Some? && s.live.value < |s.cells|
      && (if readOk && r.readable then Carries(s.cells[s.live.value], BoundaryOf(r))
          else CarriesNothing(s.cells[s.live.value]))
  {
  }
}
