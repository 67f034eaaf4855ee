/** Which tool calls run together, and the results they leave in the conversation. */
module ToolBatches {
  import opened Collections

  datatype Call = Call(id: string, name: string)

  /** What becomes of a call: refused before it runs, unreadable, or run to a result or an error. */
  datatype Outcome =
    | PolicyDenied(reason: string)
    | PolicyFailed(message: string)
    | Disabled
    | Malformed
    | Done(content: string, isError: bool)
    | Threw(message: string)
  {
    /** Refused calls push their own result at once. */
    predicate Blocked() { PolicyDenied? || PolicyFailed? || Disabled? }
    predicate Runs() { Done? || Threw? }
  }

  datatype Attempt = Attempt(call: Call, outcome: Outcome)

  /** The tools that change something, as a parameter: what follows holds for any such set. */
  type WriteTools = set<string>

  /** The runtime's own list; every other tool counts as read-only. */
  const WRITE_TOOLS: WriteTools := {
    "write", "edit", "bash", "notebook_edit",
    "file_write", "file_edit", "file_delete",
    "create_file", "delete_file", "move_file"}

  predicate IsWrite(c: Call, writes: WriteTools) { c.name in writes }

  datatype Batch = Batch(parallel: bool, attempts: seq<Attempt>)

  /** Extend the last batch when it and the call are both read-only; otherwise open a new one. */
  function Place(batches: seq<Batch>, x: Attempt, writes: WriteTools): seq<Batch> {
    var last := |batches| - 1;
    if !IsWrite(x.call, writes) && batches != [] && batches[last].parallel
    then batches[..last] + [Batch(true, batches[last].attempts + [x])]
    else batches + [Batch(!IsWrite(x.call, writes), [x])]
  }

  function Batches(attempts: seq<Attempt>, writes: WriteTools): seq<Batch> {
    if attempts == [] then [] else Place(Batches(attempts[..|attempts| - 1], writes), attempts[|attempts| - 1], writes)
  }

  method MakeBatches(attempts: seq<Attempt>, writes: WriteTools) returns (batches: seq<Batch>)
    ensures batches == Batches(attempts, writes)
  {
    batches := [];
    for i := 0 to |attempts|
      invariant batches == Batches(attempts[..i], writes)
    {
      assert attempts[..i + 1][..i] == attempts[..i];
      var readOnly, last := !IsWrite(attempts[i].call, writes), |batches| - 1;
      if readOnly && batches != [] && batches[last].parallel {
        batches := batches[last := Batch(true, batches[last].attempts + [attempts[i]])];
      } else {
        batches := batches + [Batch(readOnly, [attempts[i]])];
      }
    }
    assert attempts[..|attempts|] == attempts;
  }

  function Concat(batches: seq<Batch>): seq<Attempt> {
    if batches == [] then [] else Concat(batches[..|batches| - 1]) + batches[|batches| - 1].attempts
  }

  /** A parallel batch has read-only calls only; any other is one write. */
  predicate GoodBatch(b: Batch, writes: WriteTools) {
    && b.attempts != []
    && (if b.parallel then forall k :: 0 <= k < |b.attempts| ==> b.attempts[k].call.name !in writes
        else |b.attempts| == 1 && b.attempts[0].call.name in writes)
  }

  /** No two parallel batches are neighbours: each is as long as it can be. */
  predicate WellBatched(batches: seq<Batch>, writes: WriteTools) {
    AllGood(batches, writes) && AllApart(batches)
  }

  predicate AllGood(batches: seq<Batch>, writes: WriteTools) {
    forall k :: 0 <= k < |batches| ==> GoodBatch(batches[k], writes)
  }

  predicate AllApart(batches: seq<Batch>) {
    forall k :: 0 <= k < |batches| - 1 ==> Apart(batches, k)
  }

  predicate Apart(batches: seq<Batch>, k: nat)
    requires k + 1 < |batches|
  {
    !(batches[k].parallel && batches[k + 1].parallel)
  }

  lemma ConcatPush(batches: seq<Batch>, b: Batch)
    ensures Concat(batches + [b]) == Concat(batches) + b.attempts
  {
    assert (batches + [b])[..|batches|] == batches;
  }

  lemma ApartPush(batches: seq<Batch>, b: Batch)
    requires AllApart(batches)
    requires batches != [] ==> !(batches[|batches| - 1].parallel && b.parallel)
    ensures AllApart(batches + [b])
  {
    var longer := batches + [b];
    forall k | 0 <= k < |longer| - 1 ensures Apart(longer, k) {
      if k < |batches| - 1 { assert Apart(batches, k); }
    }
  }

  lemma GoodPush(batches: seq<Batch>, b: Batch, writes: WriteTools)
    requires AllGood(batches, writes) && GoodBatch(b, writes)
    ensures AllGood(batches + [b], writes)
  {
  }

  /** All but the last batch, when that one is dropped or shortened. */
  lemma FrontApart(batches: seq<Batch>, writes: WriteTools)
    requires WellBatched(batches, writes) && batches != []
    ensures var front := batches[..|batches| - 1];
      WellBatched(front, writes) && (front != [] ==> !(front[|front| - 1].parallel && batches[|front|].parallel))
  {
    var front := batches[..|batches| - 1];
    forall k | 0 <= k < |front| - 1 ensures Apart(front, k) { assert Apart(batches, k); }
    if front != [] { assert Apart(batches, |front| - 1); }
  }

  predicate Partitions(batches: seq<Batch>, attempts: seq<Attempt>, writes: WriteTools) {
    WellBatched(batches, writes) && Concat(batches) == attempts
  }

  lemma {:induction false} BatchesPartition(attempts: seq<Attempt>, writes: WriteTools)
    ensures Partitions(Batches(attempts, writes), attempts, writes)
  {
    if attempts != [] {
      var front, x := attempts[..|attempts| - 1], attempts[|attempts| - 1];
      BatchesPartition(front, writes);
      PartitionGrows(Batches(front, writes), front, x, writes);
      assert attempts == front + [x];
    }
  }

  lemma PartitionGrows(batches: seq<Batch>, attempts: seq<Attempt>, x: Attempt, writes: WriteTools)
    requires Partitions(batches, attempts, writes)
    ensures Partitions(Place(batches, x, writes), attempts + [x], writes)
  {
    PlaceKeeps(batches, x, writes);
  }

  lemma PlaceKeeps(batches: seq<Batch>, x: Attempt, writes: WriteTools)
    requires WellBatched(batches, writes)
    ensures WellBatched(Place(batches, x, writes), writes) && Concat(Place(batches, x, writes)) == Concat(batches) + [x]
  {
    var last := |batches| - 1;
    if !IsWrite(x.call, writes) && batches != [] && batches[last].parallel {
      var front, longer := batches[..last], Batch(true, batches[last].attempts + [x]);
      FrontApart(batches, writes);
      LongerIsGood(batches[last], x, writes);
      GoodPush(front, longer, writes);
      ApartPush(front, longer);
      ConcatPush(front, longer);
      assert batches == front + [batches[last]];
      ConcatPush(front, batches[last]);
    } else {
      var b := Batch(!IsWrite(x.call, writes), [x]);
      GoodPush(batches, b, writes);
      ApartPush(batches, b);
      ConcatPush(batches, b);
    }
  }

  lemma LongerIsGood(b: Batch, x: Attempt, writes: WriteTools)
    requires GoodBatch(b, writes) && b.parallel && !IsWrite(x.call, writes)
    ensures GoodBatch(Batch(true, b.attempts + [x]), writes)
  {
  }

  /** A well-batched sequence comes from placing its last call on what precedes it. */
  lemma Unplace(batches: seq<Batch>, writes: WriteTools) returns (rest: seq<Batch>, x: Attempt)
    requires WellBatched(batches, writes) && batches != []
    ensures WellBatched(rest, writes) && batches == Place(rest, x, writes) && Concat(batches) == Concat(rest) + [x]
  {
    var last := |batches| - 1;
    var front, b := batches[..last], batches[last];
    assert GoodBatch(b, writes) && batches == front + [b];
    FrontApart(batches, writes);
    x := b.attempts[|b.attempts| - 1];
    if |b.attempts| == 1 {
      rest := front;
      assert b.attempts == [x];
      ConcatPush(front, b);
    } else {
      var shorter := Batch(true, b.attempts[..|b.attempts| - 1]);
      rest := front + [shorter];
      assert b == Batch(true, shorter.attempts + [x]);
      GoodPush(front, shorter, writes);
      ApartPush(front, shorter);
      ConcatPush(front, shorter);
      ConcatPush(front, b);
      assert rest[..last] == front;
    }
  }

  /** The partition is the only one into maximal read-only runs and single writes. */
  lemma {:induction false} BatchesAreUnique(batches: seq<Batch>, attempts: seq<Attempt>, writes: WriteTools)
    requires WellBatched(batches, writes) && Concat(batches) == attempts
    ensures batches == Batches(attempts, writes)
    decreases |attempts|
  {
    if batches != [] {
      var rest, x := Unplace(batches, writes);
      assert attempts[..|attempts| - 1] == Concat(rest);
      BatchesAreUnique(rest, Concat(rest), writes);
    }
  }

  // ---- Results ----------------------------------------------------------------------

  datatype Answer = Answer(toolCallId: string, content: string, isError: bool)

  function AnswerText(a: Attempt): string {
    match a.outcome
    case PolicyDenied(reason) => "Policy denied: " + reason
    case PolicyFailed(message) => "Policy engine error: " + message
    case Disabled => "Error: Tool \"" + a.call.name + "\" is temporarily disabled due to repeated failures"
    case Malformed => "Error: Failed to parse tool arguments as JSON for \"" + a.call.name + "\""
    case Done(content, _) => content
    case Threw(message) => "Error: " + message
  }

  function AnswerTo(a: Attempt): (r: Answer)
    ensures r.toolCallId == a.call.id
    ensures !a.outcome.Done? ==> r.isError
  {
    Answer(a.call.id, AnswerText(a), a.outcome.Done? ==> a.outcome.isError)
  }

  /** The answers of the calls whose being blocked is `blocked`, in call order. */
  function AnswersWhere(attempts: seq<Attempt>, blocked: bool): seq<Answer> {
    if attempts == [] then []
    else
      var x := attempts[|attempts| - 1];
      AnswersWhere(attempts[..|attempts| - 1], blocked) + if x.outcome.Blocked() == blocked then [AnswerTo(x)] else []
  }

  /** Calls started together: refusals are answered while starting, the others once all have settled. */
  function BatchAnswers(b: Batch): seq<Answer> {
    AnswersWhere(b.attempts, true) + AnswersWhere(b.attempts, false)
  }

  function AllAnswers(batches: seq<Batch>): seq<Answer> {
    if batches == [] then [] else AllAnswers(batches[..|batches| - 1]) + BatchAnswers(batches[|batches| - 1])
  }

  function CallIds(attempts: seq<Attempt>): multiset<string> {
    if attempts == [] then multiset{}
    else CallIds(attempts[..|attempts| - 1]) + multiset{attempts[|attempts| - 1].call.id}
  }

  function AnswerIds(answers: seq<Answer>): multiset<string> {
    if answers == [] then multiset{}
    else AnswerIds(answers[..|answers| - 1]) + multiset{answers[|answers| - 1].toolCallId}
  }

  lemma {:induction false} AnswerIdsAppend(s: seq<Answer>, t: seq<Answer>)
    ensures AnswerIds(s + t) == AnswerIds(s) + AnswerIds(t)
  {
    if t == [] {
      assert s + t == s;
    } else {
      assert (s + t)[..|s + t| - 1] == s + t[..|t| - 1];
      AnswerIdsAppend(s, t[..|t| - 1]);
    }
  }

  lemma {:induction false} CallIdsAppend(s: seq<Attempt>, t: seq<Attempt>)
    ensures CallIds(s + t) == CallIds(s) + CallIds(t)
  {
    if t == [] {
      assert s + t == s;
    } else {
      assert (s + t)[..|s + t| - 1] == s + t[..|t| - 1];
      CallIdsAppend(s, t[..|t| - 1]);
    }
  }

  lemma {:induction false} HalvesAnswerAll(attempts: seq<Attempt>)
    ensures AnswerIds(AnswersWhere(attempts, true)) + AnswerIds(AnswersWhere(attempts, false)) == CallIds(attempts)
  {
    if attempts != [] {
      var front, x := attempts[..|attempts| - 1], attempts[|attempts| - 1];
      HalvesAnswerAll(front);
      AnswerIdsStep(attempts, true);
      AnswerIdsStep(attempts, false);
    }
  }

  lemma AnswerIdsStep(attempts: seq<Attempt>, blocked: bool)
    requires attempts != []
    ensures var front, x := attempts[..|attempts| - 1], attempts[|attempts| - 1];
      AnswerIds(AnswersWhere(attempts, blocked)) ==
        AnswerIds(AnswersWhere(front, blocked))
          + if x.outcome.Blocked() == blocked then multiset{x.call.id} else multiset{}
  {
    var front, x := attempts[..|attempts| - 1], attempts[|attempts| - 1];
    var before := AnswersWhere(front, blocked);
    if x.outcome.Blocked() == blocked {
      AnswerIdsPush(before, AnswerTo(x));
    } else {
      assert AnswersWhere(attempts, blocked) == before;
    }
  }

  lemma AnswerIdsPush(answers: seq<Answer>, a: Answer)
    ensures AnswerIds(answers + [a]) == AnswerIds(answers) + multiset{a.toolCallId}
  {
    assert (answers + [a])[..|answers|] == answers;
  }

  /** Every call is answered exactly once, whatever becomes of it. */
  lemma {:induction false} OneAnswerPerCall(batches: seq<Batch>)
    ensures AnswerIds(AllAnswers(batches)) == CallIds(Concat(batches))
  {
    if batches != [] {
      var front, b := batches[..|batches| - 1], batches[|batches| - 1];
      OneAnswerPerCall(front);
      HalvesAnswerAll(b.attempts);
      AnswerIdsAppend(AnswersWhere(b.attempts, true), AnswersWhere(b.attempts, false));
      AnswerIdsAppend(AllAnswers(front), BatchAnswers(b));
      CallIdsAppend(Concat(front), b.attempts);
    }
  }

  /** All answers in call order. */
  function InOrder(attempts: seq<Attempt>): (r: seq<Answer>)
    ensures |r| == |attempts|
    ensures forall k :: 0 <= k < |attempts| ==> r[k] == AnswerTo(attempts[k])
  {
    seq(|attempts|, k requires 0 <= k < |attempts| => AnswerTo(attempts[k]))
  }

  predicate IdsDiffer(attempts: seq<Attempt>) {
    forall i, j :: 0 <= i < j < |attempts| ==> attempts[i].call.id != attempts[j].call.id
  }

  /** No refused call comes after one that was not refused. */
  predicate RefusalsFirst(attempts: seq<Attempt>) {
    forall i, j :: 0 <= i < j < |attempts| && attempts[j].outcome.Blocked() ==> attempts[i].outcome.Blocked()
  }

  /**
   * The answers of a batch come in call order exactly when no refused call follows one
   * that was not refused: refusals are answered first.
   */
  lemma {:induction false} BatchInCallOrderIff(b: Batch)
    requires IdsDiffer(b.attempts)
    ensures BatchAnswers(b) == InOrder(b.attempts) <==> RefusalsFirst(b.attempts)
  {
    var s := b.attempts;
    if RefusalsFirst(s) {
      RefusalsFirstKeepsOrder(s);
    } else {
      var i, j :| 0 <= i < j < |s| && s[j].outcome.Blocked() && !s[i].outcome.Blocked();
      RefusedPosition(s, j);
      RefusedBefore(s, i, j);
    }
  }

  lemma {:induction false} RefusalsFirstKeepsOrder(s: seq<Attempt>)
    requires RefusalsFirst(s)
    ensures AnswersWhere(s, true) + AnswersWhere(s, false) == InOrder(s)
  {
    if s != [] {
      var front, x := s[..|s| - 1], s[|s| - 1];
      RefusalsFirstKeepsOrder(front);
      assert InOrder(s) == InOrder(front) + [AnswerTo(x)];
      if x.outcome.Blocked() {
        AllRefused(s);
      }
    }
  }

  lemma {:induction false} AllRefused(s: seq<Attempt>)
    requires forall i :: 0 <= i < |s| ==> s[i].outcome.Blocked()
    ensures AnswersWhere(s, false) == []
  {
    if s != [] { AllRefused(s[..|s| - 1]); }
  }

  /** A refused call is answered no later than its position among the refused, counted from the front. */
  lemma {:induction false} RefusedPosition(s: seq<Attempt>, j: nat)
    requires j < |s| && s[j].outcome.Blocked()
    ensures |AnswersWhere(s[..j], true)| < |AnswersWhere(s, true)|
    ensures AnswersWhere(s, true)[|AnswersWhere(s[..j], true)|] == AnswerTo(s[j])
    decreases |s|
  {
    var front := s[..|s| - 1];
    if j < |s| - 1 {
      assert front[..j] == s[..j];
      RefusedPosition(front, j);
    }
  }

  lemma {:induction false} RefusedCount(s: seq<Attempt>)
    ensures |AnswersWhere(s, true)| <= |s|
    ensures (exists i :: 0 <= i < |s| && !s[i].outcome.Blocked()) ==> |AnswersWhere(s, true)| < |s|
  {
    if s != [] {
      RefusedCount(s[..|s| - 1]);
      if i :| 0 <= i < |s| && !s[i].outcome.Blocked() {
        if i < |s| - 1 { assert !s[..|s| - 1][i].outcome.Blocked(); }
      }
    }
  }

  lemma {:induction false} RefusedBefore(s: seq<Attempt>, i: nat, j: nat)
    requires i < j < |s| && !s[i].outcome.Blocked() && s[j].outcome.Blocked() && IdsDiffer(s)
    ensures AnswersWhere(s, true) + AnswersWhere(s, false) != InOrder(s)
  {
    RefusedPosition(s, j);
    assert !s[..j][i].outcome.Blocked();
    RefusedCount(s[..j]);
    var at := |AnswersWhere(s[..j], true)|;
    assert (AnswersWhere(s, true) + AnswersWhere(s, false))[at].toolCallId == s[j].call.id;
    assert InOrder(s)[at].toolCallId == s[at].call.id != s[j].call.id;
  }
}
