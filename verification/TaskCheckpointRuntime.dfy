/**
 * The checkpoint writer as the class it is: snapshots are objects that queued writes share
 * with it. Each method is proved to take the step of the state machine in TaskCheckpoint.
 */
module TaskCheckpointRuntime {
  import opened Collections
  import opened Text
  import opened TaskCheckpoint
  import opened CheckpointEvents

  class Snapshot {
    var content: Content

    constructor (content: Content)
      ensures this.content == content
    {
      this.content := content;
    }
  }

  datatype QueuedSave = QueuedSave(snapshot: Snapshot, status: Status, phase: string)

  /** The address stands for the object, or for none. */
  ghost predicate PointsAt(objects: seq<Snapshot>, address: Option<nat>, o: Snapshot?) {
    if o == null then address.None?
    else address.Some? && address.value < |objects| && objects[address.value] == o
  }

  ghost predicate MatchesAt(objects: seq<Snapshot>, chain: seq<QueuedSave>, queue: seq<Write>, i: nat)
    requires |chain| == |queue| && i < |chain|
  {
    && queue[i] == Write(queue[i].address, chain[i].status, chain[i].phase)
    && queue[i].address < |objects| && objects[queue[i].address] == chain[i].snapshot
  }

  ghost predicate Hold(objects: seq<Snapshot>, cells: seq<Content>)
    reads objects
  {
    |cells| == |objects| && forall i :: 0 <= i < |objects| ==> objects[i].content == cells[i]
  }

  /** The queued writes are the saves of the chain, by address. */
  ghost predicate Matches(objects: seq<Snapshot>, chain: seq<QueuedSave>, queue: seq<Write>) {
    |chain| == |queue| && forall i :: 0 <= i < |chain| ==> MatchesAt(objects, chain, queue, i)
  }

  lemma MatchesMoreObjects(objects: seq<Snapshot>, o: Snapshot, chain: seq<QueuedSave>, queue: seq<Write>)
    requires Matches(objects, chain, queue)
    ensures Matches(objects + [o], chain, queue)
  {
    forall i | 0 <= i < |chain| ensures MatchesAt(objects + [o], chain, queue, i) {
      assert MatchesAt(objects, chain, queue, i);
    }
  }

  lemma MatchesPush(objects: seq<Snapshot>, chain: seq<QueuedSave>, queue: seq<Write>, save: QueuedSave, w: Write)
    requires Matches(objects, chain, queue)
    requires MatchesAt(objects, [save], [w], 0)
    ensures Matches(objects, chain + [save], queue + [w])
  {
    forall i | 0 <= i < |chain + [save]| ensures MatchesAt(objects, chain + [save], queue + [w], i) {
      if i < |chain| { assert MatchesAt(objects, chain, queue, i); }
    }
  }

  lemma MatchesPop(objects: seq<Snapshot>, chain: seq<QueuedSave>, queue: seq<Write>)
    requires Matches(objects, chain, queue) && chain != []
    ensures MatchesAt(objects, chain, queue, 0)
    ensures Matches(objects, chain[1..], queue[1..])
  {
    forall i | 0 <= i < |chain[1..]| ensures MatchesAt(objects, chain[1..], queue[1..], i) {
      assert MatchesAt(objects, chain, queue, i + 1);
    }
  }

  /** A prompt between its call and its start, holding the snapshot object it found. */
  datatype PendingPrompt =
    | Reads(input: PromptInput)
    | Waits(input: PromptInput, previousStatus: Option<Status>, previous: Snapshot?)

  /** The pending prompt of the class is the one of the model, by address. */
  ghost predicate SamePending(objects: seq<Snapshot>, p: Option<PendingPrompt>, q: Option<Pending>) {
    match p
    case None => q.None?
    case Some(Reads(input)) => q == Some(Reading(input))
    case Some(Waits(input, status, o)) =>
      && q.Some? && q.value.Waiting? && q.value.input == input
      && (q.value.found.None? <==> status.None?) && (q.value.found.None? <==> o == null)
      && (o != null ==>
        && q.value.found.value.status == status.value
        && PointsAt(objects, Some(q.value.found.value.address), o))
  }

  class AgentTaskCheckpointRuntime {
    var snapshot: Snapshot?
    var snapshotStatus: Option<Status>
    /** The promise chain: saves waiting their turn. */
    var chain: seq<QueuedSave>
    var persistedSnapshot: Snapshot?
    var persistedSnapshotStatus: Option<Status>
    var lastPersistFailed: bool
    var hydrated: bool
    var promptSequence: int
    /** What a prompt that is waiting holds in its local variables. */
    var pending: Option<PendingPrompt>
    /** The row of this task key in the checkpoint store. */
    var stored: Option<Record>
    /** Every snapshot object ever made; its place here is its address in the model. */
    ghost var objects: seq<Snapshot>
    ghost var model: State

    ghost predicate Valid()
      reads this, objects
    {
      && Distinct(objects)
      && Hold(objects, model.cells)
      && PointsAt(objects, model.live, snapshot)
      && PointsAt(objects, model.persisted, persistedSnapshot)
      && Matches(objects, chain, model.queue)
      && SamePending(objects, pending, model.pending)
      && SameFields()
    }

    ghost predicate SameFields()
      reads this
    {
      && snapshotStatus == model.status && persistedSnapshotStatus == model.persistedStatus
      && lastPersistFailed == model.failed && hydrated == model.hydrated
      && promptSequence == model.promptSequence && stored == model.stored
    }

    constructor (stored: Option<Record>)
      ensures Valid() && model == Fresh(stored) && objects == []
      ensures snapshot == null && persistedSnapshot == null && chain == [] && pending.None?
      ensures !hydrated && !lastPersistFailed && promptSequence == 0 && this.stored == stored
    {
      snapshot, snapshotStatus, chain := null, None, [];
      persistedSnapshot, persistedSnapshotStatus := null, None;
      lastPersistFailed, hydrated, promptSequence, pending := false, false, 0, None;
      this.stored := stored;
      objects, model := [], Fresh(stored);
    }

    /** Make a snapshot object at the next address. */
    method AddObject(content: Content) returns (o: Snapshot)
      requires Valid()
      modifies this`objects, this`model
      ensures Valid() && objects == old(objects) + [o] && o.content == content
      ensures model == old(model).(cells := old(model).cells + [content])
    {
      o := new Snapshot(content);
      MatchesMoreObjects(objects, o, chain, model.queue);
      objects, model := objects + [o], model.(cells := model.cells + [content]);
    }

    method MakeLive(o: Snapshot, status: Status, ghost address: nat)
      requires Valid() && PointsAt(objects, Some(address), o)
      modifies this`snapshot, this`snapshotStatus, this`model
      ensures Valid() && model == old(model).(live := Some(address), status := Some(status))
    {
      snapshot, snapshotStatus, model := o, Some(status), model.(live := Some(address), status := Some(status));
    }

    method MakePersisted(o: Snapshot, status: Status, ghost address: nat)
      requires Valid() && PointsAt(objects, Some(address), o)
      modifies this`persistedSnapshot, this`persistedSnapshotStatus, this`model
      ensures Valid() && model == old(model).(persisted := Some(address), persistedStatus := Some(status))
    {
      persistedSnapshot, persistedSnapshotStatus := o, Some(status);
      model := model.(persisted := Some(address), persistedStatus := Some(status));
    }

    /** Copy the snapshot into a new object, make it the live one, and queue a write of it. */
    method PersistSnapshot(content: Content, ghost trace: seq<Recent>, status: Status, phase: string, copiedAt: int)
      requires Valid()
      modifies this
      ensures Valid() && model == Persist(old(model), content, trace, status, phase, copiedAt)
    {
      ghost var address := |model.cells|;
      var checkpoint := AddObject(content.(updatedAt := copiedAt));
      MakeLive(checkpoint, status, address);
      MatchesPush(objects, chain, model.queue, QueuedSave(checkpoint, status, phase), Write(address, status, phase));
      chain := chain + [QueuedSave(checkpoint, status, phase)];
      model := Persist(old(model), content, trace, status, phase, copiedAt);
    }

    /** Up to the first await: find the previous checkpoint, or ask the store for it once. */
    method BeginPrompt(input: PromptInput)
      requires Valid() && model.InBounds()
      modifies this
      ensures Valid() && model == CallStep(old(model), input)
    {
      if pending.Some? { return; }
      if hydrated {
        pending := Some(
          if persistedSnapshot != null && persistedSnapshotStatus.Some?
          then Waits(input, persistedSnapshotStatus, persistedSnapshot)
          else Waits(input, None, null));
      } else {
        hydrated, pending := true, Some(Reads(input));
      }
      model := CallStep(model, input);
    }

    /** The store answers; a failed read ends the prompt. */
    method FinishRead(ok: bool)
      requires Valid()
      modifies this
      ensures Valid() && model == ReadStep(old(model), ok)
    {
      if pending.None? || !pending.value.Reads? { return; }
      var input := pending.value.input;
      if !ok {
        pending, model := None, ReadStep(model, ok);
      } else if stored.Some? && stored.value.readable {
        AdoptStored(stored.value, input);
      } else {
        pending, model := Some(Waits(input, None, null)), ReadStep(model, ok);
      }
    }

    /** Take the stored checkpoint as both the live and the persisted snapshot: one object. */
    method AdoptStored(r: Record, input: PromptInput)
      requires Valid()
      modifies this
      ensures Valid() && model == Adopt(old(model), r, input)
    {
      ghost var before := model;
      var read := AddObject(r.content);
      MakeLive(read, r.status, |before.cells|);
      MakePersisted(read, r.status, |before.cells|);
      HandOver(r, input, read, before);
    }

    /** The prompt goes on with the checkpoint just read. */
    method HandOver(r: Record, input: PromptInput, read: Snapshot, ghost before: State)
      requires Valid() && PointsAt(objects, Some(|before.cells|), read)
      requires var a := |before.cells|;
        model == before.(
          cells := before.cells + [r.content],
          live := Some(a), status := Some(r.status), persisted := Some(a), persistedStatus := Some(r.status))
      modifies this`promptSequence, this`pending, this`model
      ensures Valid() && model == Adopt(before, r, input)
    {
      promptSequence := Max(promptSequence, r.content.promptSequence);
      pending, model := Some(Waits(input, Some(r.status), read)), Adopt(before, r, input);
    }

    function LookAtFound(): (previous: Option<Previous>)
      requires Valid() && model.InBounds() && pending.Some? && pending.value.Waits?
      reads this, objects
      ensures previous == PreviousOf(model, model.pending.value.found)
    {
      var o := pending.value.previous;
      if o == null then None else Some(Previous(pending.value.previousStatus.value, o.content))
    }

    /** After the awaits: start from what was found, as its object is by now. */
    method StartPrompt()
      requires Valid() && model.InBounds()
      modifies this
      ensures Valid() && model == StartStep(old(model))
    {
      if pending.None? || !pending.value.Waits? { return; }
      var input, previous := pending.value.input, LookAtFound();
      ghost var found := model.pending.value.found;
      ghost var trace := TraceOf(model, found) + [StartEvent(input)];
      pending, promptSequence, model := None, promptSequence + 1, Started(model, found, input);
      PersistSnapshot(StartContent(previous, promptSequence, input), trace, Active, PROMPT_START, input.copiedAt);
    }

    /** Change the live object where it stands; queued writes of it see the change. */
    method Change(content: Content, ghost event: Recent)
      requires Valid() && model.InBounds() && snapshot != null
      modifies this`model, snapshot
      ensures Valid() && old(model).live.Some? && model == Changed(old(model), content, event)
    {
      snapshot.content := content;
      model := Changed(model, content, event);
    }

    /** Record an event; nothing happens before a prompt, for other events, or once the run has ended. */
    method RecordEvent(event: string, data: EventData, messages: int, at: int, copiedAt: int)
      requires Valid() && model.InBounds()
      modifies this, snapshot
      ensures Valid() && model == EventStep(old(model), event, data, messages, at, copiedAt)
      ensures if !Records(old(model), event) then model == old(model)
        else
          && Queued(old(model), model, if event == "agent:abort" then Aborted else Active, event, copiedAt)
          && Notes(old(model).cells[old(model).live.value], model.cells[|old(model).cells|], event, data, messages, at)
    {
      EventIs(model, event, data, messages, at, copiedAt);
      if snapshot == null || !Persisted(event) || Terminal(snapshotStatus) { return; }
      var changed := ApplyEvent(snapshot.content, event, data, messages, at);
      ghost var e := BuildRecentEvent(event, data, at);
      ghost var trace := model.ledger.traces[model.live.value] + [e];
      Change(changed, e);
      PersistSnapshot(changed, trace, EventStatus(event), changed.phase, copiedAt);
    }

    method FinishPrompt(outcome: Status, error: Option<string>, messages: int, at: int, copiedAt: int)
      requires Valid() && model.InBounds()
      modifies this, snapshot
      ensures Valid() && model == FinishStep(old(model), outcome, error, messages, at, copiedAt)
      ensures if old(model).live.None? then model == old(model)
        else
          && Queued(old(model), model, outcome, OutcomePhase(outcome), copiedAt)
          && Ends(old(model).cells[old(model).live.value], model.cells[|old(model).cells|],
                  outcome, error, messages, at)
    {
      FinishIs(model, outcome, error, messages, at, copiedAt);
      if snapshot == null { return; }
      var before := snapshot.content;
      var changed := ApplyFinish(before, outcome, error, messages, at);
      ghost var e := FinishEvent(before, outcome, error, at);
      ghost var trace := model.ledger.traces[model.live.value] + [e];
      Change(changed, e);
      PersistSnapshot(changed, trace, outcome, changed.phase, copiedAt);
    }

    /** The head of the chain runs: it saves its object as it is now, or fails. */
    method RunNextSave(ok: bool)
      requires Valid() && model.InBounds()
      modifies this
      ensures Valid() && model == SaveStep(old(model), ok)
    {
      if chain == [] { return; }
      MatchesPop(objects, chain, model.queue);
      var save := chain[0];
      chain, model := chain[1..], SaveStep(model, ok);
      if ok {
        stored := Some(Record(save.status, save.phase, save.snapshot.content, true));
        persistedSnapshot, persistedSnapshotStatus := save.snapshot, Some(save.status);
      }
      lastPersistFailed := !ok;
    }
  }
}
