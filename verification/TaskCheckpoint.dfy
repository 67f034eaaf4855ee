/** The durable checkpoint of a task: its snapshot objects, its chain of writes and its stored record. */
module TaskCheckpoint {
  import opened Collections
  import opened Text

  datatype Status = Active | Completed | Aborted | Errored

  predicate Terminal(s: Option<Status>) { s.Some? && !s.value.Active? }

  function StatusName(s: Status): string {
    match s
    case Active => "active"
    case Completed => "completed"
    case Aborted => "aborted"
    case Errored => "error"
  }

  const PROMPT_START := "prompt:start"

  datatype Recent = Recent(
    event: string,
    phase: string,
    at: int,
    toolName: Option<string>,
    subagentId: Option<string>,
    subagentPurpose: Option<string>,
    error: Option<string>,
    summary: Option<string>)

  /** What one snapshot object holds at one moment. */
  datatype Content = Content(
    promptRunId: string,
    promptSequence: int,
    phase: string,
    latestEvent: string,
    promptPreview: Option<string>,
    latestToolName: Option<string>,
    latestSubagentId: Option<string>,
    latestSubagentPurpose: Option<string>,
    latestError: Option<string>,
    resumeFromStatus: Option<Status>,
    resumeFromPhase: Option<string>,
    resumeFromPromptRunId: Option<string>,
    resumeFromPromptPreview: Option<string>,
    resumeFromUpdatedAt: Option<int>,
    recentEvents: seq<Recent>,
    messagesCount: int,
    updatedAt: int)

  // ---- Events and their data --------------------------------------------------------

  /** The string fields an event carries; an error object also carries a message. */
  datatype EventData = NoData | Fields(strings: map<string, string>, errorMessage: Option<string>)

  function ResolveField(data: EventData, keys: seq<string>): Option<string> {
    if data.NoData? || keys == [] then None
    else if keys[0] in data.strings && !Blank(data.strings[keys[0]]) then Some(Trim(data.strings[keys[0]]))
    else ResolveField(data, keys[1..])
  }

  function ResolveToolName(data: EventData): Option<string> { ResolveField(data, ["toolName", "name"]) }

  function ResolveErrorText(data: EventData): Option<string> {
    var error := ResolveField(data, ["error", "reason"]);
    if error.Some? then error else if data.Fields? then data.errorMessage else None
  }

  function BuildRecentEvent(event: string, data: EventData, at: int): Recent {
    Recent(event, event, at,
      ResolveToolName(data),
      ResolveField(data, ["childId", "sourceAgentId"]),
      ResolveField(data, ["purpose", "sourcePurpose"]),
      ResolveErrorText(data),
      ResolveField(data, ["summary", "reason", "purpose", "toolName", "name", "error"]))
  }

  predicate Persisted(event: string) {
    event in [
      "turn:start", "tool:start", "tool:done", "tool:error",
      "subagent:spawn", "subagent:done", "subagent:error", "agent:abort"]
  }

  const MAX_RECENT_EVENTS := 12

  function AppendRecent(existing: seq<Recent>, event: Recent): seq<Recent> {
    var next := existing + [event];
    if |next| <= MAX_RECENT_EVENTS then next else next[|next| - MAX_RECENT_EVENTS..]
  }

  function LastTwelve(history: seq<Recent>): seq<Recent> {
    if |history| <= MAX_RECENT_EVENTS then history else history[|history| - MAX_RECENT_EVENTS..]
  }

  lemma AppendKeepsLastTwelve(history: seq<Recent>, event: Recent)
    ensures AppendRecent(LastTwelve(history), event) == LastTwelve(history + [event])
  {
  }

  /** The event's effect on the snapshot object it happens to. */
  function ApplyEvent(c: Content, event: string, data: EventData, messages: int, at: int): Content {
    var noted := c.(
      phase := event,
      latestEvent := event,
      messagesCount := messages,
      updatedAt := at,
      recentEvents := AppendRecent(c.recentEvents, BuildRecentEvent(event, data, at)));
    if "tool:" <= event then
      var tooled := noted.(latestToolName := ResolveToolName(data));
      if event == "tool:error" then tooled.(latestError := ResolveErrorText(data)) else tooled
    else if "subagent:" <= event then
      var spawned := noted.(
        latestSubagentId := ResolveField(data, ["childId", "sourceAgentId"]),
        latestSubagentPurpose := ResolveField(data, ["purpose", "sourcePurpose"]));
      if event == "subagent:error" then spawned.(latestError := ResolveErrorText(data)) else spawned
    else noted
  }

  function FinalError(c: Content, error: Option<string>): Option<string> {
    if error.Some? then error else c.latestError
  }

  function FinishEvent(c: Content, status: Status, error: Option<string>, at: int): Recent {
    var phase := "prompt:" + StatusName(status);
    Recent(phase, phase, at, None, None, None, FinalError(c, error), FinalError(c, error))
  }

  function ApplyFinish(c: Content, status: Status, error: Option<string>, messages: int, at: int): Content {
    var phase := "prompt:" + StatusName(status);
    c.(
      phase := phase,
      latestEvent := phase,
      latestError := FinalError(c, error),
      recentEvents := AppendRecent(c.recentEvents, FinishEvent(c, status, error, at)),
      messagesCount := messages,
      updatedAt := at)
  }

  // ---- The resume boundary ----------------------------------------------------------

  datatype Boundary = Boundary(
    status: Status,
    phase: string,
    promptRunId: string,
    promptPreview: Option<string>,
    updatedAt: int)

  datatype Previous = Previous(status: Status, snapshot: Content)

  predicate ChainsFromPriorRun(c: Content) {
    c.phase == PROMPT_START && c.resumeFromPhase.Some? && !Blank(c.resumeFromPhase.value)
  }

  /** Where the next prompt resumes from: a restart that made no progress keeps the older boundary. */
  function ResolveBoundary(previous: Previous): Boundary {
    var c := previous.snapshot;
    if ChainsFromPriorRun(c) then
      Boundary(
        c.resumeFromStatus.GetOr(previous.status),
        c.resumeFromPhase.value,
        c.resumeFromPromptRunId.GetOr(c.promptRunId),
        if c.resumeFromPromptPreview.Some? then c.resumeFromPromptPreview else c.promptPreview,
        c.resumeFromUpdatedAt.GetOr(c.updatedAt))
    else
      Boundary(previous.status, c.phase, c.promptRunId, c.promptPreview, c.updatedAt)
  }

  function TruncatePreview(prompt: string): Option<string> {
    var trimmed := Trim(prompt);
    if trimmed == "" then None else Some(if |trimmed| > 400 then trimmed[..397] + "..." else trimmed)
  }

  datatype PromptInput = PromptInput(prompt: string, promptRunId: string, messages: int, at: int, copiedAt: int)

  function StartEvent(input: PromptInput): Recent {
    Recent(PROMPT_START, PROMPT_START, input.at, None, None, None, None, TruncatePreview(input.prompt))
  }

  function RecentOf(previous: Option<Previous>): seq<Recent> {
    if previous.Some? then previous.value.snapshot.recentEvents else []
  }

  function StartContent(previous: Option<Previous>, sequence: int, input: PromptInput): Content {
    var b := if previous.Some? then Some(ResolveBoundary(previous.value)) else None;
    Content(
      input.promptRunId, sequence, PROMPT_START, PROMPT_START, TruncatePreview(input.prompt),
      None, None, None, None,
      if b.Some? then Some(b.value.status) else None,
      if b.Some? then Some(b.value.phase) else None,
      if b.Some? then Some(b.value.promptRunId) else None,
      if b.Some? then b.value.promptPreview else None,
      if b.Some? then Some(b.value.updatedAt) else None,
      AppendRecent(RecentOf(previous), StartEvent(input)),
      input.messages, input.at)
  }

  // ---- The runtime as a state machine -----------------------------------------------

  /** The row in the store. An unreadable one fails the checks made when it is read back. */
  datatype Record = Record(status: Status, phase: string, content: Content, readable: bool)

  /** A queued write keeps its own status and phase, but only the address of its snapshot object. */
  datatype Write = Write(address: nat, status: Status, phase: string)

  /** The checkpoint a prompt found: its status at that moment, and the address of its snapshot object. */
  datatype Found = Found(status: Status, address: nat)

  /** A prompt that has been called and waits for the store, or for its turn to start. */
  datatype Pending =
    | Reading(input: PromptInput)
    | Waiting(input: PromptInput, found: Option<Found>)

  /**
   * What no field of the runtime records: every event since the process started, after those
   * of the checkpoint it read; for each snapshot object the events behind its list; whether
   * every prompt so far went on from all of them; whether the persisted object has changed
   * since it was saved; and the writes called and attempted.
   */
  datatype Ledger = Ledger(
    history: seq<Recent>,
    traces: seq<seq<Recent>>,
    intact: bool,
    ahead: bool,
    calls: seq<Write>,
    attempts: seq<Write>)

  datatype State = State(
    cells: seq<Content>,
    live: Option<nat>,
    status: Option<Status>,
    queue: seq<Write>,
    persisted: Option<nat>,
    persistedStatus: Option<Status>,
    failed: bool,
    hydrated: bool,
    promptSequence: int,
    pending: Option<Pending>,
    stored: Option<Record>,
    ledger: Ledger)
  {
    predicate InBounds() {
      && |ledger.traces| == |cells|
      && (live.Some? ==> live.value < |cells|)
      && (persisted.Some? ==> persisted.value < |cells|)
      && (forall i :: 0 <= i < |queue| ==> queue[i].address < |cells|)
      && (pending.Some? && pending.value.Waiting? && pending.value.found.Some? ==>
        pending.value.found.value.address < |cells|)
    }

    predicate CanRecord() { live.Some? && !Terminal(status) }
  }

  /** A new process over the same store. */
  function Fresh(stored: Option<Record>): State {
    State([], None, None, [], None, None, false, false, 0, None, stored, Ledger([], [], true, false, [], []))
  }

  /** What can happen between two awaits; a prompt is called, reads the store once, and starts. */
  datatype Action =
    | CallPrompt(input: PromptInput)
    | ReadDone(ok: bool)
    | StartPrompt
    | Event(event: string, data: EventData, messages: int, at: int, copiedAt: int)
    | Finish(outcome: Status, error: Option<string>, messages: int, at: int, copiedAt: int)
    | SaveNext(ok: bool)
    | Restart

  function FoundBy(s: State): Option<Found> {
    if s.persisted.Some? && s.persistedStatus.Some?
    then Some(Found(s.persistedStatus.value, s.persisted.value))
    else None
  }

  /** A prompt looks up the previous checkpoint; only the first one reads the store, whatever comes of it. */
  function CallStep(s: State, input: PromptInput): State {
    if s.pending.Some? then s
    else if s.hydrated then s.(pending := Some(Waiting(input, FoundBy(s))))
    else s.(hydrated := true, pending := Some(Reading(input)))
  }

  /** Take the stored checkpoint as both the live and the persisted snapshot: one object. */
  function Adopt(s: State, r: Record, input: PromptInput): State {
    var a := |s.cells|;
    s.(
      cells := s.cells + [r.content],
      promptSequence := Max(s.promptSequence, r.content.promptSequence),
      live := Some(a),
      status := Some(r.status),
      persisted := Some(a),
      persistedStatus := Some(r.status),
      pending := Some(Waiting(input, Some(Found(r.status, a)))),
      ledger := s.ledger.(
        history := r.content.recentEvents,
        traces := s.ledger.traces + [r.content.recentEvents]))
  }

  /** The read comes back; a failed one ends the prompt before anything is queued. */
  function ReadStep(s: State, ok: bool): State {
    if s.pending.None? || !s.pending.value.Reading? then s
    else if !ok then s.(pending := None)
    else
      var input := s.pending.value.input;
      if s.stored.Some? && s.stored.value.readable then Adopt(s, s.stored.value, input)
      else s.(pending := Some(Waiting(input, None)))
  }

  /** The checkpoint found, as its object is now. */
  function PreviousOf(s: State, found: Option<Found>): Option<Previous>
    requires found.Some? ==> found.value.address < |s.cells|
  {
    if found.Some? then Some(Previous(found.value.status, s.cells[found.value.address])) else None
  }

  function TraceOf(s: State, found: Option<Found>): seq<Recent>
    requires found.Some? ==> found.value.address < |s.ledger.traces|
  {
    if found.Some? then s.ledger.traces[found.value.address] else []
  }

  /** Copy the given content into a new live object and queue a write of that object. */
  function Persist(s: State, c: Content, trace: seq<Recent>, status: Status, phase: string, copiedAt: int): State {
    var w := Write(|s.cells|, status, phase);
    s.(
      cells := s.cells + [c.(updatedAt := copiedAt)],
      live := Some(|s.cells|),
      status := Some(status),
      queue := s.queue + [w],
      ledger := s.ledger.(traces := s.ledger.traces + [trace], calls := s.ledger.calls + [w]))
  }

  /** What is noted when a prompt starts from what it found. */
  function Started(s: State, found: Option<Found>, input: PromptInput): State
    requires found.Some? ==> found.value.address < |s.ledger.traces|
  {
    s.(
      promptSequence := s.promptSequence + 1,
      pending := None,
      ledger := s.ledger.(
        history := s.ledger.history + [StartEvent(input)],
        intact := s.ledger.intact && TraceOf(s, found) == s.ledger.history))
  }

  function StartStep(s: State): State
    requires s.InBounds()
  {
    if s.pending.None? || !s.pending.value.Waiting? then s
    else
      var input, found := s.pending.value.input, s.pending.value.found;
      Persist(
        Started(s, found, input),
        StartContent(PreviousOf(s, found), s.promptSequence + 1, input),
        TraceOf(s, found) + [StartEvent(input)], Active, PROMPT_START, input.copiedAt)
  }

  /** Change the live object where it stands, for the given event. */
  function Changed(s: State, c: Content, e: Recent): State
    requires s.InBounds() && s.live.Some?
  {
    var a := s.live.value;
    s.(
      cells := s.cells[a := c],
      ledger := s.ledger.(
        history := s.ledger.history + [e],
        traces := s.ledger.traces[a := s.ledger.traces[a] + [e]],
        ahead := s.ledger.ahead || s.persisted == s.live))
  }

  /** Change the live object for an event, copy it, and queue a write of the copy. */
  function Recorded(s: State, c: Content, e: Recent, status: Status, copiedAt: int): State
    requires s.InBounds() && s.live.Some?
  {
    Persist(Changed(s, c, e), c, s.ledger.traces[s.live.value] + [e], status, c.phase, copiedAt)
  }

  function EventStatus(event: string): Status { if event == "agent:abort" then Aborted else Active }

  function EventStep(s: State, event: string, data: EventData, messages: int, at: int, copiedAt: int): State
    requires s.InBounds()
  {
    if !s.CanRecord() || !Persisted(event) then s
    else
      Recorded(s, ApplyEvent(s.cells[s.live.value], event, data, messages, at), BuildRecentEvent(event, data, at),
               EventStatus(event), copiedAt)
  }

  function FinishStep(s: State, outcome: Status, error: Option<string>, messages: int, at: int, copiedAt: int): State
    requires s.InBounds()
  {
    if s.live.None? then s
    else
      var c := s.cells[s.live.value];
      Recorded(s, ApplyFinish(c, outcome, error, messages, at), FinishEvent(c, outcome, error, at), outcome, copiedAt)
  }

  /** The head of the chain saves whatever its object holds by then. */
  function SaveStep(s: State, ok: bool): State
    requires s.InBounds()
  {
    if s.queue == [] then s
    else
      var w := s.queue[0];
      var left := s.(queue := s.queue[1..], ledger := s.ledger.(attempts := s.ledger.attempts + [w]));
      if ok then
        left.(
          stored := Some(Record(w.status, w.phase, s.cells[w.address], true)),
          persisted := Some(w.address),
          persistedStatus := Some(w.status),
          failed := false,
          ledger := left.ledger.(ahead := false))
      else left.(failed := true)
  }

  function Step(s: State, action: Action): State
    requires s.InBounds()
  {
    match action
    case CallPrompt(input) => CallStep(s, input)
    case ReadDone(ok) => ReadStep(s, ok)
    case StartPrompt => StartStep(s)
    case Event(event, data, messages, at, copiedAt) => EventStep(s, event, data, messages, at, copiedAt)
    case Finish(outcome, error, messages, at, copiedAt) => FinishStep(s, outcome, error, messages, at, copiedAt)
    case SaveNext(ok) => SaveStep(s, ok)
    case Restart => Fresh(s.stored)
  }

  // ---- What every step keeps --------------------------------------------------------

  /** Before the first read comes back there is no snapshot, and nothing waits before it is asked for. */
  predicate ReadsFirst(s: State) {
    && (!s.hydrated ==> s.pending.None?)
    && (!s.hydrated || (s.pending.Some? && s.pending.value.Reading?) ==>
      s.cells == [] && s.live.None? && s.persisted.None? && s.ledger.calls == [] && s.ledger.history == [])
  }

  /** The queued writes point at the newest objects, in order; the last of them is the live one. */
  predicate QueueSound(s: State) {
    && |s.queue| <= |s.cells|
    && (forall i :: 0 <= i < |s.queue| ==> s.queue[i].address == |s.cells| - |s.queue| + i)
    && (s.persisted.Some? <==> s.persistedStatus.Some?)
    && (s.persisted.Some? ==> s.persisted.value < |s.cells| - |s.queue|)
    && (s.live.None? ==> s.cells == [] && s.ledger.calls == [] && s.status.None?)
    && (s.live.Some? ==> s.live.value == |s.cells| - 1 && s.status.Some? && s.hydrated)
  }

  /** The last write queued carries the live status and phase. */
  predicate LastIsLive(s: State) {
    s.queue != [] && s.live.Some? && s.live.value < |s.cells| ==>
      && Some(s.queue[|s.queue| - 1].status) == s.status
      && s.queue[|s.queue| - 1].phase == s.cells[s.live.value].phase
  }

  /** With nothing queued and the last save good, the store holds the live snapshot. */
  predicate SettledIsStored(s: State) {
    s.queue == [] && s.ledger.calls != [] && s.live.Some? && s.live.value < |s.cells| && s.status.Some? && !s.failed ==>
      && s.stored == Some(Record(s.status.value, s.cells[s.live.value].phase, s.cells[s.live.value], true))
      && s.persisted == s.live
  }

  /** Each snapshot lists the last twelve of the events behind it. */
  predicate Lists(cells: seq<Content>, traces: seq<seq<Recent>>) {
    && |traces| == |cells|
    && (forall a :: 0 <= a < |cells| ==> ListsAt(cells[a], traces[a]))
  }

  predicate ListsAt(c: Content, trace: seq<Recent>) { LastTwelve(c.recentEvents) == LastTwelve(trace) }

  predicate ListsTraces(s: State) {
    && Lists(s.cells, s.ledger.traces)
    && (s.ledger.calls != [] && s.cells != [] ==> |s.cells[|s.cells| - 1].recentEvents| <= MAX_RECENT_EVENTS)
  }

  /** The newest snapshot is one that a prompt started with. */
  predicate JustStarted(cells: seq<Content>) { cells != [] && cells[|cells| - 1].phase == PROMPT_START }

  /**
   * The newest trace is the whole history; the one before it is too, unless a prompt has
   * just started; older ones are shorter.
   */
  predicate Knows(traces: seq<seq<Recent>>, started: bool, history: seq<Recent>) {
    var n := |traces|;
    && (n == 0 ==> history == [])
    && (n > 0 ==> traces[n - 1] == history)
    && (n > 1 && !started ==> traces[n - 2] == history)
    && (n > 1 && started ==> |traces[n - 2]| < |history|)
    && (forall a :: 0 <= a < n - 2 ==> |traces[a]| < |history|)
  }

  /** While every prompt went on from all events, the snapshots know the history as far as they can. */
  predicate KnowsHistory(s: State) {
    s.ledger.intact ==> Knows(s.ledger.traces, JustStarted(s.cells), s.ledger.history)
  }

  /** The persisted snapshot is what is stored, unless it is known to have changed since. */
  predicate StoredUnlessAhead(s: State) {
    s.persisted.Some? && s.persisted.value < |s.cells| && !s.ledger.ahead ==>
      s.stored.Some? && s.stored.value.content == s.cells[s.persisted.value]
  }

  /** The phases the runtime itself ever records. */
  predicate IsPhase(phase: string) {
    phase == PROMPT_START || Persisted(phase) || exists status :: phase == "prompt:" + StatusName(status)
  }

  predicate PhaseIsKnown(s: State) {
    s.ledger.calls != [] && s.cells != [] ==> IsPhase(s.cells[|s.cells| - 1].phase)
  }

  /** Saves are attempted in call order, each once. */
  predicate InCallOrder(s: State) { s.ledger.calls == s.ledger.attempts + s.queue }

  predicate Ordered(s: State) { s.InBounds() && QueueSound(s) && InCallOrder(s) }

  predicate Stores(s: State) { LastIsLive(s) && SettledIsStored(s) && StoredUnlessAhead(s) }

  predicate Remembers(s: State) { ReadsFirst(s) && ListsTraces(s) && KnowsHistory(s) && PhaseIsKnown(s) }

  predicate Sound(s: State) { Ordered(s) && Stores(s) && Remembers(s) }

  lemma FreshIsSound(stored: Option<Record>)
    ensures Sound(Fresh(stored))
  {
  }

  lemma CallKeepsSound(s: State, input: PromptInput)
    requires Sound(s)
    ensures Sound(CallStep(s, input))
  {
    CallKeepsOrder(s, input);
    CallStores(s, input);
    CallKeepsMemory(s, input);
  }

  lemma CallKeepsOrder(s: State, input: PromptInput)
    requires Ordered(s)
    ensures Ordered(CallStep(s, input))
  {
  }

  lemma CallStores(s: State, input: PromptInput)
    requires Stores(s)
    ensures Stores(CallStep(s, input))
  {
  }

  lemma CallKeepsMemory(s: State, input: PromptInput)
    requires Remembers(s)
    ensures Remembers(CallStep(s, input))
  {
  }

  lemma ReadKeepsSound(s: State, ok: bool)
    requires Sound(s)
    ensures Sound(ReadStep(s, ok))
  {
    if s.pending.Some? && s.pending.value.Reading? && ok && s.stored.Some? && s.stored.value.readable {
      AdoptKeepsSound(s, s.stored.value, s.pending.value.input);
    }
  }

  lemma AdoptKeepsSound(s: State, r: Record, input: PromptInput)
    requires Sound(s) && s.pending == Some(Reading(input)) && s.stored == Some(r) && r.readable
    ensures Sound(Adopt(s, r, input))
  {
    assert ListsAt(r.content, r.content.recentEvents);
  }

  lemma SaveKeepsOrder(s: State, ok: bool)
    requires Ordered(s) && LastIsLive(s) && s.queue != []
    ensures Ordered(SaveStep(s, ok)) && LastIsLive(SaveStep(s, ok))
  {
    var t := SaveStep(s, ok);
    assert forall i :: 0 <= i < |t.queue| ==> t.queue[i] == s.queue[i + 1];
  }

  lemma SaveStores(s: State, ok: bool)
    requires Ordered(s) && Stores(s) && s.queue != []
    ensures SettledIsStored(SaveStep(s, ok)) && StoredUnlessAhead(SaveStep(s, ok))
  {
    assert s.queue[0].address == |s.cells| - |s.queue|;
  }

  lemma SaveKeepsMemory(s: State, ok: bool)
    requires s.InBounds() && Remembers(s) && s.queue != []
    ensures Remembers(SaveStep(s, ok))
  {
    assert s.queue[0].address < |s.cells|;
    SameMemory(s, SaveStep(s, ok));
  }

  lemma SameMemory(s: State, t: State)
    requires Remembers(s) && ReadsFirst(t)
    requires t.cells == s.cells && t.ledger.calls == s.ledger.calls
    requires t.ledger.(attempts := s.ledger.attempts, ahead := s.ledger.ahead) == s.ledger
    ensures Remembers(t)
  {
  }

  lemma SaveKeepsSound(s: State, ok: bool)
    requires Sound(s)
    ensures Sound(SaveStep(s, ok))
  {
    if s.queue != [] {
      SaveKeepsMemory(s, ok);
      SaveKeepsOrder(s, ok);
      SaveStores(s, ok);
    }
  }

  // ---- Queueing a copy --------------------------------------------------------------

  lemma PersistKeepsOrder(s: State, c: Content, trace: seq<Recent>, status: Status, copiedAt: int)
    requires Ordered(s) && StoredUnlessAhead(s) && s.hydrated
    ensures var p := Persist(s, c, trace, status, c.phase, copiedAt);
      Ordered(p) && Stores(p)
  {
  }

  lemma PersistKeepsLists(s: State, c: Content, trace: seq<Recent>, status: Status, copiedAt: int)
    requires Lists(s.cells, s.ledger.traces)
    requires c.recentEvents == LastTwelve(trace) && IsPhase(c.phase)
    ensures var p := Persist(s, c, trace, status, c.phase, copiedAt);
      ListsTraces(p) && PhaseIsKnown(p)
  {
    assert ListsAt(c.(updatedAt := copiedAt), trace);
  }

  // ---- Starting a prompt ------------------------------------------------------------

  lemma StartFacts(previous: Option<Previous>, trace: seq<Recent>, sequence: int, input: PromptInput)
    requires LastTwelve(RecentOf(previous)) == LastTwelve(trace)
    ensures var c := StartContent(previous, sequence, input);
      c.phase == PROMPT_START && c.recentEvents == LastTwelve(trace + [StartEvent(input)])
  {
    AppendFollows(RecentOf(previous), trace, StartEvent(input));
  }

  /** Appending to lists that show the same last twelve shows the same again. */
  lemma AppendFollows(existing: seq<Recent>, trace: seq<Recent>, e: Recent)
    requires LastTwelve(existing) == LastTwelve(trace)
    ensures AppendRecent(existing, e) == LastTwelve(trace + [e])
  {
    AppendLast(existing, e);
    AppendLast(trace, e);
  }

  lemma AppendLast(s: seq<Recent>, e: Recent)
    ensures LastTwelve(s + [e]) == LastTwelve(LastTwelve(s) + [e])
    ensures AppendRecent(s, e) == LastTwelve(s + [e])
  {
  }

  /** The prompt goes on from every event: what it found is live, or was changed for the last of them. */
  predicate GoesOn(s: State, found: Option<Found>) {
    match found
    case None => s.ledger.history == []
    case Some(f) => f.address == |s.cells| - 1 || (f.address == |s.cells| - 2 && !JustStarted(s.cells))
  }

  /** While the history is intact, the events behind what a prompt found are all of them exactly in that case. */
  lemma TraceIsHistoryIff(s: State, found: Option<Found>)
    requires Sound(s) && s.ledger.intact
    requires found.Some? ==> found.value.address < |s.cells|
    ensures TraceOf(s, found) == s.ledger.history <==> GoesOn(s, found)
  {
  }

  lemma KnowsStart(traces: seq<seq<Recent>>, started: bool, history: seq<Recent>, e: Recent)
    requires Knows(traces, started, history)
    ensures Knows(traces + [history + [e]], true, history + [e])
  {
  }

  lemma KnowsChange(traces: seq<seq<Recent>>, started: bool, history: seq<Recent>, e: Recent)
    requires Knows(traces, started, history) && traces != []
    ensures Knows(traces[|traces| - 1 := history + [e]] + [history + [e]], false, history + [e])
  {
  }

  lemma StartKeepsHistory(s: State, found: Option<Found>, input: PromptInput, c: Content)
    requires |s.ledger.traces| == |s.cells| && KnowsHistory(s) && c.phase == PROMPT_START
    requires found.Some? ==> found.value.address < |s.cells|
    ensures var trace := TraceOf(s, found) + [StartEvent(input)];
      KnowsHistory(Persist(Started(s, found, input), c, trace, Active, PROMPT_START, input.copiedAt))
  {
    if s.ledger.intact && TraceOf(s, found) == s.ledger.history {
      KnowsStart(s.ledger.traces, JustStarted(s.cells), s.ledger.history, StartEvent(input));
    }
  }

  lemma StartWith(s: State, found: Option<Found>, input: PromptInput, c: Content)
    requires Sound(s) && s.pending == Some(Waiting(input, found)) && c.phase == PROMPT_START
    requires c.recentEvents == LastTwelve(TraceOf(s, found) + [StartEvent(input)])
    ensures var trace := TraceOf(s, found) + [StartEvent(input)];
      Sound(Persist(Started(s, found, input), c, trace, Active, PROMPT_START, input.copiedAt))
  {
    var trace := TraceOf(s, found) + [StartEvent(input)];
    StartKeepsHistory(s, found, input, c);
    PersistKeepsOrder(Started(s, found, input), c, trace, Active, input.copiedAt);
    PersistKeepsLists(Started(s, found, input), c, trace, Active, input.copiedAt);
  }

  lemma StartKeepsSound(s: State)
    requires Sound(s)
    ensures Sound(StartStep(s))
  {
    if s.pending.Some? && s.pending.value.Waiting? {
      var input, found := s.pending.value.input, s.pending.value.found;
      var c := StartLists(s, found, input);
      StartWith(s, found, input, c);
    }
  }

  lemma StartLists(s: State, found: Option<Found>, input: PromptInput) returns (c: Content)
    requires s.InBounds() && Lists(s.cells, s.ledger.traces) && s.pending == Some(Waiting(input, found))
    ensures c.phase == PROMPT_START && c.recentEvents == LastTwelve(TraceOf(s, found) + [StartEvent(input)])
    ensures StartStep(s) == Persist(
      Started(s, found, input), c, TraceOf(s, found) + [StartEvent(input)], Active, PROMPT_START, input.copiedAt)
  {
    c := StartContent(PreviousOf(s, found), s.promptSequence + 1, input);
    assert found.Some? ==> ListsAt(s.cells[found.value.address], TraceOf(s, found));
    StartFacts(PreviousOf(s, found), TraceOf(s, found), s.promptSequence + 1, input);
  }

  // ---- Recording an event -----------------------------------------------------------

  lemma ChangedKeepsOrder(s: State, c: Content, e: Recent)
    requires Ordered(s) && StoredUnlessAhead(s) && s.live.Some?
    ensures Ordered(Changed(s, c, e)) && StoredUnlessAhead(Changed(s, c, e))
  {
  }

  lemma ChangedKeepsLists(s: State, c: Content, e: Recent)
    requires s.InBounds() && Lists(s.cells, s.ledger.traces) && s.live.Some?
    requires c.recentEvents == AppendRecent(s.cells[s.live.value].recentEvents, e)
    ensures c.recentEvents == LastTwelve(s.ledger.traces[s.live.value] + [e])
    ensures Lists(Changed(s, c, e).cells, Changed(s, c, e).ledger.traces)
  {
    var l := s.live.value;
    assert ListsAt(s.cells[l], s.ledger.traces[l]);
    AppendFollows(s.cells[l].recentEvents, s.ledger.traces[l], e);
    assert ListsAt(c, s.ledger.traces[l] + [e]);
  }

  lemma RecordedKeepsHistory(s: State, c: Content, e: Recent, status: Status, copiedAt: int)
    requires s.InBounds() && KnowsHistory(s) && s.live == Some(|s.cells| - 1) && c.phase != PROMPT_START
    ensures KnowsHistory(Recorded(s, c, e, status, copiedAt))
  {
    if s.ledger.intact { KnowsChange(s.ledger.traces, JustStarted(s.cells), s.ledger.history, e); }
  }

  /** Changing the live object in place and queueing a copy of it keeps everything in order. */
  lemma RecordedKeepsSound(s: State, c: Content, e: Recent, status: Status, copiedAt: int)
    requires Sound(s) && s.live.Some?
    requires c.recentEvents == AppendRecent(s.cells[s.live.value].recentEvents, e)
    requires IsPhase(c.phase) && c.phase != PROMPT_START
    ensures Sound(Recorded(s, c, e, status, copiedAt))
  {
    ChangedKeepsOrder(s, c, e);
    ChangedKeepsLists(s, c, e);
    RecordedKeepsHistory(s, c, e, status, copiedAt);
    PersistKeepsOrder(Changed(s, c, e), c, s.ledger.traces[s.live.value] + [e], status, copiedAt);
    PersistKeepsLists(Changed(s, c, e), c, s.ledger.traces[s.live.value] + [e], status, copiedAt);
  }

  lemma EventKeepsSound(s: State, event: string, data: EventData, messages: int, at: int, copiedAt: int)
    requires Sound(s)
    ensures Sound(EventStep(s, event, data, messages, at, copiedAt))
  {
    if s.CanRecord() && Persisted(event) {
      var c := s.cells[s.live.value];
      EventFacts(c, event, data, messages, at);
      NotAStart(event);
      RecordedKeepsSound(s, ApplyEvent(c, event, data, messages, at), BuildRecentEvent(event, data, at),
                         EventStatus(event), copiedAt);
    }
  }

  lemma EventFacts(c: Content, event: string, data: EventData, messages: int, at: int)
    ensures var changed := ApplyEvent(c, event, data, messages, at);
      && changed.phase == event
      && changed.updatedAt == at
      && changed.recentEvents == AppendRecent(c.recentEvents, BuildRecentEvent(event, data, at))
  {
  }

  lemma NotAStart(event: string)
    requires Persisted(event)
    ensures event != PROMPT_START
  {
    assert event[0] != 'p';
  }

  lemma FinishKeepsSound(s: State, outcome: Status, error: Option<string>, messages: int, at: int, copiedAt: int)
    requires Sound(s)
    ensures Sound(FinishStep(s, outcome, error, messages, at, copiedAt))
  {
    if s.live.Some? {
      var c := s.cells[s.live.value];
      FinishIsNotAStart(outcome);
      RecordedKeepsSound(s, ApplyFinish(c, outcome, error, messages, at), FinishEvent(c, outcome, error, at),
                         outcome, copiedAt);
    }
  }

  lemma FinishIsNotAStart(outcome: Status)
    ensures "prompt:" + StatusName(outcome) != PROMPT_START
  {
    assert ("prompt:" + StatusName(outcome))[7] == StatusName(outcome)[0] != 's';
  }

  /** Every step, taken in any order, keeps the checkpoint sound. */
  lemma StepKeepsSound(s: State, action: Action)
    requires Sound(s)
    ensures Sound(Step(s, action))
  {
    match action
    case CallPrompt(input) => CallKeepsSound(s, input);
    case ReadDone(ok) => ReadKeepsSound(s, ok);
    case StartPrompt => StartKeepsSound(s);
    case Event(event, data, messages, at, copiedAt) => EventKeepsSound(s, event, data, messages, at, copiedAt);
    case Finish(outcome, error, messages, at, copiedAt) => FinishKeepsSound(s, outcome, error, messages, at, copiedAt);
    case SaveNext(ok) => SaveKeepsSound(s, ok);
    case Restart => FreshIsSound(s.stored);
  }
}
