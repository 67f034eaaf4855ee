/** What each step writes down. */
module CheckpointEvents {
  import opened Collections
  import opened Text
  import opened TaskCheckpoint
  import opened TaskCheckpointRuns

  // ---- What an event's data says ----------------------------------------------------

  predicate Given(data: EventData, key: string) {
    data.Fields? && key in data.strings && !Blank(data.strings[key])
  }

  /** The first of the keys that the data gives decides, and its text is trimmed. */
  lemma {:induction false} FieldIsFirstGiven(data: EventData, keys: seq<string>) returns (k: nat)
    ensures k <= |keys| && forall i :: 0 <= i < k ==> !Given(data, keys[i])
    ensures if k == |keys| then ResolveField(data, keys).None?
      else Given(data, keys[k]) && ResolveField(data, keys) == Some(Trim(data.strings[keys[k]]))
  {
    k := 0;
    if keys != [] && !Given(data, keys[0]) {
      var rest := FieldIsFirstGiven(data, keys[1..]);
      k := 1 + rest;
      forall i | 0 <= i < k ensures !Given(data, keys[i]) {
        if i > 0 { assert keys[i] == keys[1..][i - 1]; }
      }
    }
  }

  function Said(data: EventData, key: string): Option<string> {
    if Given(data, key) then Some(Trim(data.strings[key])) else None
  }

  function Either(a: Option<string>, b: Option<string>): Option<string> { if a.Some? then a else b }

  function ToolSaid(data: EventData): Option<string> { Either(Said(data, "toolName"), Said(data, "name")) }

  function AgentSaid(data: EventData): Option<string> { Either(Said(data, "childId"), Said(data, "sourceAgentId")) }

  function PurposeSaid(data: EventData): Option<string> { Either(Said(data, "purpose"), Said(data, "sourcePurpose")) }

  function ErrorSaid(data: EventData): Option<string> {
    Either(Either(Said(data, "error"), Said(data, "reason")), if data.Fields? then data.errorMessage else None)
  }

  function SummarySaid(data: EventData): Option<string> {
    Either(Said(data, "summary"), Either(Said(data, "reason"), Either(Said(data, "purpose"),
      Either(Said(data, "toolName"), Either(Said(data, "name"), Said(data, "error"))))))
  }

  lemma FieldOrRest(data: EventData, key: string, rest: seq<string>)
    ensures ResolveField(data, [key] + rest) == Either(Said(data, key), ResolveField(data, rest))
  {
    assert ([key] + rest)[1..] == rest;
  }

  lemma TwoFields(data: EventData, a: string, b: string)
    ensures ResolveField(data, [a, b]) == Either(Said(data, a), Said(data, b))
  {
    FieldOrRest(data, a, [b]);
    FieldOrRest(data, b, []);
    assert [a, b] == [a] + [b] && [b] == [b] + [];
  }

  /** The entry an event leaves in the list of recent events. */
  lemma RecentSays(event: string, data: EventData, at: int)
    ensures BuildRecentEvent(event, data, at) == Recent(
      event, event, at, ToolSaid(data), AgentSaid(data), PurposeSaid(data), ErrorSaid(data), SummarySaid(data))
  {
    TwoFields(data, "toolName", "name");
    TwoFields(data, "childId", "sourceAgentId");
    TwoFields(data, "purpose", "sourcePurpose");
    TwoFields(data, "error", "reason");
    SummaryFields(data);
  }

  lemma {:induction false} SummaryFields(data: EventData)
    ensures ResolveField(data, ["summary", "reason", "purpose", "toolName", "name", "error"]) == SummarySaid(data)
  {
    TwoFields(data, "name", "error");
    FieldOrRest(data, "toolName", ["name", "error"]);
    FieldOrRest(data, "purpose", ["toolName"] + ["name", "error"]);
    FieldOrRest(data, "reason", ["purpose"] + (["toolName"] + ["name", "error"]));
    FieldOrRest(data, "summary", ["reason"] + (["purpose"] + (["toolName"] + ["name", "error"])));
    assert ["summary"] + (["reason"] + (["purpose"] + (["toolName"] + ["name", "error"])))
      == ["summary", "reason", "purpose", "toolName", "name", "error"];
  }

  // ---- Recording an event -----------------------------------------------------------

  /** The events that are recorded, and only before the run has ended. */
  predicate Records(s: State, event: string) {
    && s.live.Some? && s.status !in [Some(Completed), Some(Aborted), Some(Errored)]
    && event in {"turn:start", "tool:start", "tool:done", "tool:error",
                 "subagent:spawn", "subagent:done", "subagent:error", "agent:abort"}
  }

  /** The newest entry at the end of at most twelve. */
  predicate ListedLast(was: seq<Recent>, now: seq<Recent>, e: Recent) {
    && |now| <= 12 && |now| >= 1 && now[|now| - 1] == e
    && (|was| < 12 ==> now == was + [e])
    && (|was| >= 12 ==> |now| == 12 && now[..11] == was[|was| - 11..])
  }

  /** What an event changes in a snapshot, field by field. */
  predicate Notes(was: Content, now: Content, event: string, data: EventData, messages: int, at: int) {
    && SameRun(was, now)
    && now.phase == event && now.latestEvent == event && now.messagesCount == messages
    && now.latestToolName
         == (if event in {"tool:start", "tool:done", "tool:error"} then ToolSaid(data) else was.latestToolName)
    && now.latestError
         == (if event in {"tool:error", "subagent:error"} then ErrorSaid(data) else was.latestError)
    && (if event in {"subagent:spawn", "subagent:done", "subagent:error"}
        then now.latestSubagentId == AgentSaid(data) && now.latestSubagentPurpose == PurposeSaid(data)
        else now.latestSubagentId == was.latestSubagentId && now.latestSubagentPurpose == was.latestSubagentPurpose)
    && ListedLast(was.recentEvents, now.recentEvents, Recent(
         event, event, at, ToolSaid(data), AgentSaid(data), PurposeSaid(data), ErrorSaid(data), SummarySaid(data)))
  }

  lemma ApplyNotes(c: Content, event: string, data: EventData, messages: int, at: int)
    requires Persisted(event)
    ensures Notes(c, ApplyEvent(c, event, data, messages, at), event, data, messages, at)
    ensures ApplyEvent(c, event, data, messages, at).updatedAt == at
  {
    RecentSays(event, data, at);
    EventKinds(event);
    AppendLists(c.recentEvents, BuildRecentEvent(event, data, at));
    ApplyFields(c, event, data, messages, at);
    var e := BuildRecentEvent(event, data, at);
    assert e.toolName == ResolveToolName(data) && e.error == ResolveErrorText(data);
  }

  lemma AppendLists(was: seq<Recent>, e: Recent)
    ensures ListedLast(was, AppendRecent(was, e), e)
  {
  }

  /** The fields by the kind of event, as the texts of its entry. */
  lemma ApplyFields(c: Content, event: string, data: EventData, messages: int, at: int)
    requires "tool:" <= event ==> !("subagent:" <= event)
    ensures var now, e := ApplyEvent(c, event, data, messages, at), BuildRecentEvent(event, data, at);
      && SameRun(c, now) && now.phase == event && now.latestEvent == event && now.messagesCount == messages
      && now.updatedAt == at && now.recentEvents == AppendRecent(c.recentEvents, e)
      && now.latestToolName == (if "tool:" <= event then e.toolName else c.latestToolName)
      && now.latestError == (if event in {"tool:error", "subagent:error"} then e.error else c.latestError)
      && now.latestSubagentId == (if "subagent:" <= event then e.subagentId else c.latestSubagentId)
      && now.latestSubagentPurpose == (if "subagent:" <= event then e.subagentPurpose else c.latestSubagentPurpose)
  {
    assert "tool:error"[..5] == "tool:" && "subagent:error"[..9] == "subagent:";
  }

  lemma EventKinds(event: string)
    requires Persisted(event)
    ensures "tool:" <= event <==> event in {"tool:start", "tool:done", "tool:error"}
    ensures "subagent:" <= event <==> event in {"subagent:spawn", "subagent:done", "subagent:error"}
  {
    assert "tool:" <= event ==> event[..2] == "to";
    assert "subagent:" <= event ==> event[0] == 's';
    assert "tool:start"[..5] == "tool:" && "tool:done"[..5] == "tool:" && "tool:error"[..5] == "tool:";
    assert "subagent:spawn"[..9] == "subagent:" && "subagent:done"[..9] == "subagent:";
    assert "subagent:error"[..9] == "subagent:";
    assert "turn:start"[1] == 'u' && "agent:abort"[0] == 'a';
  }

  /** One more object, live, and one more write of it queued; of the others only the live one has changed. */
  predicate Queued(s: State, t: State, status: Status, phase: string, copiedAt: int)
    requires s.live.Some? && s.live.value < |s.cells|
  {
    var l, n := s.live.value, |s.cells|;
    && t.live == Some(n) && t.status == Some(status) && |t.cells| == n + 1
    && t.queue == s.queue + [Write(n, status, phase)]
    && t.cells[n].updatedAt == copiedAt
    && t.cells[l] == t.cells[n].(updatedAt := t.cells[l].updatedAt)
    && (forall a :: 0 <= a < n && a != l ==> t.cells[a] == s.cells[a])
    && t.stored == s.stored && t.persisted == s.persisted && t.persistedStatus == s.persistedStatus
  }

  /** What one event does: nothing unless it is recorded, and an abort, alone, ends the run. */
  lemma EventIs(s: State, event: string, data: EventData, messages: int, at: int, copiedAt: int)
    requires s.InBounds()
    ensures var t := EventStep(s, event, data, messages, at, copiedAt);
      if !Records(s, event) then t == s
      else
        && Queued(s, t, if event == "agent:abort" then Aborted else Active, event, copiedAt)
        && Notes(s.cells[s.live.value], t.cells[|s.cells|], event, data, messages, at)
  {
    if s.CanRecord() && Persisted(event) {
      var c := s.cells[s.live.value];
      ApplyNotes(c, event, data, messages, at);
      RecordedFacts(s, ApplyEvent(c, event, data, messages, at), BuildRecentEvent(event, data, at),
                    EventStatus(event), copiedAt);
    }
  }

  // ---- Finishing ----------------------------------------------------------------------

  function OutcomePhase(outcome: Status): string {
    match outcome
    case Completed => "prompt:completed"
    case Aborted => "prompt:aborted"
    case Errored => "prompt:error"
    case Active => "prompt:active"
  }

  lemma OutcomePhaseIs(outcome: Status)
    ensures "prompt:" + StatusName(outcome) == OutcomePhase(outcome)
  {
  }

  /** What a finish changes in a snapshot, field by field. */
  predicate Ends(was: Content, now: Content, outcome: Status, error: Option<string>, messages: int, at: int) {
    var last := Either(error, was.latestError);
    && SameRun(was, now)
    && now.phase == OutcomePhase(outcome) && now.latestEvent == OutcomePhase(outcome) && now.messagesCount == messages
    && now.latestError == last && now.latestToolName == was.latestToolName
    && now.latestSubagentId == was.latestSubagentId && now.latestSubagentPurpose == was.latestSubagentPurpose
    && ListedLast(was.recentEvents, now.recentEvents,
         Recent(OutcomePhase(outcome), OutcomePhase(outcome), at, None, None, None, last, last))
  }

  /** What finishing does: nothing before a prompt, else the outcome is the status whatever it was. */
  lemma FinishIs(s: State, outcome: Status, error: Option<string>, messages: int, at: int, copiedAt: int)
    requires s.InBounds()
    ensures var t := FinishStep(s, outcome, error, messages, at, copiedAt);
      if s.live.None? then t == s
      else
        && Queued(s, t, outcome, OutcomePhase(outcome), copiedAt)
        && Ends(s.cells[s.live.value], t.cells[|s.cells|], outcome, error, messages, at)
  {
    OutcomePhaseIs(outcome);
    if s.live.Some? {
      var c := s.cells[s.live.value];
      RecordedFacts(s, ApplyFinish(c, outcome, error, messages, at), FinishEvent(c, outcome, error, at),
                    outcome, copiedAt);
    }
  }

  // ---- An abort ends the run ------------------------------------------------------------

  /**
   * Once an abort is recorded, later events change nothing in memory; and when the chain has
   * drained with its last save good, the store, the next prompt and the operator's plan all
   * say that the run was aborted, at the abort.
   */
  lemma AbortEndsRun(s: State, data: EventData, messages: int, at: int, copiedAt: int, actions: seq<Action>)
    requires Sound(s) && Records(s, "agent:abort")
    requires forall i :: 0 <= i < |actions| ==> actions[i].Event? || actions[i].SaveNext?
    ensures Sound(EventStep(s, "agent:abort", data, messages, at, copiedAt))
    ensures var a := EventStep(s, "agent:abort", data, messages, at, copiedAt);
      var r, c := Run(a, actions), s.cells[s.live.value];
      && Unmoved(a, r) && r.status == Some(Aborted)
      && (r.queue == [] && !r.failed ==>
           && r.stored.Some? && r.stored.value.status == Aborted && r.stored.value.phase == "agent:abort"
           && BoundaryOf(r.stored.value)
                == Boundary(Aborted, "agent:abort", c.promptRunId, c.promptPreview, copiedAt)
           && PlanOf(r.stored.value) == PlanBoundary(Some(Aborted), Some("agent:abort"), Some(c.promptRunId)))
  {
    EventIs(s, "agent:abort", data, messages, at, copiedAt);
    EventKeepsSound(s, "agent:abort", data, messages, at, copiedAt);
    var a := EventStep(s, "agent:abort", data, messages, at, copiedAt);
    TerminalIsFinal(a, actions);
    var r := Run(a, actions);
    if r.queue == [] && !r.failed {
      AbortedRecord(r.stored.value, s.cells[s.live.value], copiedAt);
    }
  }

  lemma AbortedRecord(r: Record, c: Content, copiedAt: int)
    requires r.status == Aborted && r.phase == "agent:abort" == r.content.phase && SameRun(c, r.content)
    requires r.content.updatedAt == copiedAt
    ensures BoundaryOf(r) == Boundary(Aborted, "agent:abort", c.promptRunId, c.promptPreview, copiedAt)
    ensures PlanOf(r) == PlanBoundary(Some(Aborted), Some("agent:abort"), Some(c.promptRunId))
  {
    TrimWord("agent:abort");
    assert "agent:abort"[0] != PROMPT_START[0];
  }

  /** Whatever else was recorded, the run is still active, and a later event is recorded too. */
  lemma OtherEventsGoOn(
    s: State, event: string, later: string, data: EventData, messages: int, at: int, copiedAt: int)
    requires s.InBounds() && Records(s, event)
    ensures Records(EventStep(s, event, data, messages, at, copiedAt), later)
      <==> event != "agent:abort" && Persisted(later)
  {
    EventIs(s, event, data, messages, at, copiedAt);
  }

  // ---- Starting a prompt ----------------------------------------------------------------

  /** At most 400 characters of the trimmed prompt, the last three of a longer one being dots. */
  predicate Previews(prompt: string, preview: Option<string>) {
    var text := Trim(prompt);
    if text == "" then preview.None?
    else
      && preview.Some? && |preview.value| <= 400
      && (|text| <= 400 ==> preview.value == text)
      && (|text| > 400 ==> |preview.value| == 400)
      && (|text| > 400 ==> preview.value[..397] == text[..397] && preview.value[397..] == "...")
  }

  /** A snapshot as a prompt starts with it. */
  predicate Starts(now: Content, sequence: int, input: PromptInput) {
    && now.promptRunId == input.promptRunId && now.promptSequence == sequence
    && now.phase == "prompt:start" && now.latestEvent == "prompt:start" && Previews(input.prompt, now.promptPreview)
    && now.latestToolName.None? && now.latestSubagentId.None? && now.latestSubagentPurpose.None?
    && now.latestError.None? && now.messagesCount == input.messages && now.updatedAt == input.copiedAt
  }

  /** A fresh live snapshot that resumes from what was found, as that is by then, and a write of it. */
  predicate Begins(s: State, t: State)
    requires s.InBounds() && s.pending.Some? && s.pending.value.Waiting?
  {
    var input, found, n := s.pending.value.input, s.pending.value.found, |s.cells|;
    && |t.cells| == n + 1 && t.cells[..n] == s.cells && t.live == Some(n) && t.status == Some(Active)
    && t.pending.None? && t.promptSequence == s.promptSequence + 1
    && t.queue == s.queue + [Write(n, Active, "prompt:start")]
    && t.stored == s.stored && t.persisted == s.persisted && t.persistedStatus == s.persistedStatus
    && Starts(t.cells[n], s.promptSequence + 1, input)
    && (if found.Some?
        then Carries(t.cells[n], ResolveBoundary(Previous(found.value.status, s.cells[found.value.address])))
        else CarriesNothing(t.cells[n]))
    && ListedLast(if found.Some? then s.cells[found.value.address].recentEvents else [], t.cells[n].recentEvents,
         Recent("prompt:start", "prompt:start", input.at, None, None, None, None, t.cells[n].promptPreview))
  }

  lemma StartIs(s: State, input: PromptInput, found: Option<Found>)
    requires s.InBounds() && s.pending == Some(Waiting(input, found))
    ensures Begins(s, StartStep(s))
  {
  }

  /** An older boundary is passed on, part by part, only by a snapshot that is still at its start. */
  lemma BoundaryIs(status: Status, c: Content)
    ensures var b := ResolveBoundary(Previous(status, c));
      var older := c.phase == "prompt:start" && c.resumeFromPhase.Some? && !Blank(c.resumeFromPhase.value);
      && b.phase == (if older then c.resumeFromPhase.value else c.phase)
      && b.status == (if older && c.resumeFromStatus.Some? then c.resumeFromStatus.value else status)
      && b.promptRunId
           == (if older && c.resumeFromPromptRunId.Some? then c.resumeFromPromptRunId.value else c.promptRunId)
      && b.promptPreview
           == (if older && c.resumeFromPromptPreview.Some? then c.resumeFromPromptPreview else c.promptPreview)
      && b.updatedAt == if older && c.resumeFromUpdatedAt.Some? then c.resumeFromUpdatedAt.value else c.updatedAt
  {
  }

  // ---- Reading and saving -----------------------------------------------------------------

  /** Nothing in memory but the marks of the first read and of the prompt has changed. */
  predicate SameObjects(s: State, t: State) {
    && t.cells == s.cells && t.live == s.live && t.status == s.status && t.queue == s.queue
    && t.persisted == s.persisted && t.persistedStatus == s.persistedStatus && t.failed == s.failed
    && t.promptSequence == s.promptSequence
  }

  /** A prompt asks the store on the first call only, and later takes the persisted object. */
  lemma CallIs(s: State, input: PromptInput)
    requires s.pending.None?
    ensures var t := CallStep(s, input);
      && SameObjects(s, t) && t.stored == s.stored && t.hydrated
      && t.pending == (
           if !s.hydrated then Some(Reading(input))
           else if s.persisted.Some? && s.persistedStatus.Some?
           then Some(Waiting(input, Some(Found(s.persistedStatus.value, s.persisted.value))))
           else Some(Waiting(input, None)))
  {
  }

  /** A failed read ends the prompt; a readable record becomes one object, live and persisted; else nothing is found. */
  lemma ReadIs(s: State, input: PromptInput, ok: bool)
    requires s.pending == Some(Reading(input))
    ensures var t, n := ReadStep(s, ok), |s.cells|;
      && t.queue == s.queue && t.failed == s.failed && t.hydrated == s.hydrated && t.stored == s.stored
      && if ok && s.stored.Some? && s.stored.value.readable
         then
           var r := s.stored.value;
           && t.cells == s.cells + [r.content] && t.live == Some(n) && t.persisted == Some(n)
           && t.status == Some(r.status) && t.persistedStatus == Some(r.status)
           && t.promptSequence
                == (if r.content.promptSequence > s.promptSequence then r.content.promptSequence else s.promptSequence)
           && t.pending == Some(Waiting(input, Some(Found(r.status, n))))
         else SameObjects(s, t) && t.pending == if ok then Some(Waiting(input, None)) else None
  {
  }

  /** A save takes the oldest write off the queue and stores what its object holds by now, or fails and stores none. */
  predicate Saves(s: State, t: State, ok: bool)
    requires s.queue != [] && s.queue[0].address < |s.cells|
  {
    var w := s.queue[0];
    && t.queue == s.queue[1..] && t.cells == s.cells && t.live == s.live && t.status == s.status
    && t.pending == s.pending && t.hydrated == s.hydrated && t.promptSequence == s.promptSequence
    && t.failed == !ok
    && t.stored == (if ok then Some(Record(w.status, w.phase, s.cells[w.address], true)) else s.stored)
    && t.persisted == (if ok then Some(w.address) else s.persisted)
    && t.persistedStatus == if ok then Some(w.status) else s.persistedStatus
  }

  lemma SaveIs(s: State, ok: bool)
    requires s.InBounds() && s.queue != []
    ensures Saves(s, SaveStep(s, ok), ok)
  {
  }
}
