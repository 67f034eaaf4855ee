/** What each result tells. */
module ToolAnswers {
  import opened Collections
  import opened ToolBatches

  /** The result tells what became of the call: the tool's own content and error flag, or why there is none. */
  predicate Says(r: Answer, a: Attempt) {
    && r.toolCallId == a.call.id
    && match a.outcome
       case Done(content, isError) => r.content == content && r.isError == isError
       case Threw(message) => r.content == "Error: " + message && r.isError
       case PolicyDenied(reason) => r.content == "Policy denied: " + reason && r.isError
       case PolicyFailed(message) => r.content == "Policy engine error: " + message && r.isError
       case Disabled =>
         && r.content == "Error: Tool \"" + a.call.name + "\" is temporarily disabled due to repeated failures"
         && r.isError
       case Malformed =>
         r.content == "Error: Failed to parse tool arguments as JSON for \"" + a.call.name + "\"" && r.isError
  }

  lemma AnswerSays(a: Attempt)
    ensures Says(AnswerTo(a), a)
  {
  }

  /** Stopped by the policy engine or by the autonomy layer before it ran. */
  predicate Refused(a: Attempt) { a.outcome.PolicyDenied? || a.outcome.PolicyFailed? || a.outcome.Disabled? }

  function RefusedIn(attempts: seq<Attempt>): nat {
    if attempts == [] then 0
    else RefusedIn(attempts[..|attempts| - 1]) + if Refused(attempts[|attempts| - 1]) then 1 else 0
  }

  lemma {:induction false} RefusedAtMost(attempts: seq<Attempt>, k: nat)
    requires k <= |attempts|
    ensures RefusedIn(attempts[..k]) <= k && RefusedIn(attempts[..k]) <= RefusedIn(attempts)
    ensures RefusedIn(attempts) - RefusedIn(attempts[..k]) <= |attempts| - k
    decreases |attempts|
  {
    if k == |attempts| {
      assert attempts[..k] == attempts;
      if attempts != [] {
        assert attempts[..k - 1] == attempts[..|attempts| - 1];
        RefusedAtMost(attempts[..k - 1], k - 1);
        assert attempts[..k - 1][..k - 1] == attempts[..k - 1];
      }
    } else {
      var front := attempts[..|attempts| - 1];
      RefusedAtMost(front, k);
      assert front[..k] == attempts[..k];
    }
  }

  /** Where the result of the `k`th call of a batch stands: refusals first, then the others, each in call order. */
  function PlaceOf(attempts: seq<Attempt>, k: nat): int
    requires k < |attempts|
  {
    var before := RefusedIn(attempts[..k]);
    if Refused(attempts[k]) then before else RefusedIn(attempts) + k - before
  }

  lemma {:induction false} WhereSizes(attempts: seq<Attempt>)
    ensures |AnswersWhere(attempts, true)| == RefusedIn(attempts)
    ensures |AnswersWhere(attempts, false)| == |attempts| - RefusedIn(attempts)
  {
    if attempts != [] { WhereSizes(attempts[..|attempts| - 1]); }
  }

  lemma {:induction false} WhereSays(attempts: seq<Attempt>, k: nat)
    requires k < |attempts|
    ensures var before, refused := RefusedIn(attempts[..k]), Refused(attempts[k]);
      var at, answers := if refused then before else k - before, AnswersWhere(attempts, refused);
      0 <= at < |answers| && Says(answers[at], attempts[k])
    decreases |attempts|
  {
    var front := attempts[..|attempts| - 1];
    RefusedAtMost(attempts, k);
    WhereSizes(front);
    WhereSizes(attempts);
    if k < |attempts| - 1 {
      WhereSays(front, k);
      assert front[..k] == attempts[..k];
      RefusedAtMost(front, k);
    } else {
      AnswerSays(attempts[k]);
    }
  }

  /** Every call of a batch has its result, and its place among the results is known. */
  lemma BatchSays(b: Batch, k: nat)
    requires k < |b.attempts|
    ensures |BatchAnswers(b)| == |b.attempts|
    ensures 0 <= PlaceOf(b.attempts, k) < |b.attempts|
    ensures Says(BatchAnswers(b)[PlaceOf(b.attempts, k)], b.attempts[k])
  {
    WhereSizes(b.attempts);
    WhereSays(b.attempts, k);
    RefusedAtMost(b.attempts, k);
  }

  /** No two calls of a batch share a place, so nothing else stands among its results. */
  lemma PlacesDiffer(attempts: seq<Attempt>, j: nat, k: nat)
    requires j < k < |attempts|
    ensures PlaceOf(attempts, j) != PlaceOf(attempts, k)
  {
    var upTo := attempts[..k];
    assert upTo[..j] == attempts[..j] && attempts[..j + 1][..j] == attempts[..j] && upTo[..j + 1] == attempts[..j + 1];
    RefusedAtMost(attempts, j);
    RefusedAtMost(attempts, k);
    RefusedAtMost(upTo, j + 1);
    RefusedAtMost(attempts, k + 1);
    assert attempts[..k + 1][..k] == attempts[..k];
  }

  // ---- Whole responses ------------------------------------------------------------------

  predicate Answered(answers: seq<Answer>, a: Attempt) { exists i :: 0 <= i < |answers| && Says(answers[i], a) }

  predicate Answers(r: Answer, attempts: seq<Attempt>) { exists k :: 0 <= k < |attempts| && Says(r, attempts[k]) }

  /** As many results as calls: each call has one that tells what became of it, and each belongs to a call. */
  predicate Tells(answers: seq<Answer>, attempts: seq<Attempt>) {
    && |answers| == |attempts|
    && (forall k :: 0 <= k < |attempts| ==> Answered(answers, attempts[k]))
    && (forall i :: 0 <= i < |answers| ==> Answers(answers[i], attempts))
  }

  lemma AnswersMore(r: Answer, front: seq<Attempt>, rest: seq<Attempt>)
    ensures Answers(r, front) || Answers(r, rest) ==> Answers(r, front + rest)
  {
    if k :| 0 <= k < |front| && Says(r, front[k]) {
      assert Says(r, (front + rest)[k]);
    } else if k :| 0 <= k < |rest| && Says(r, rest[k]) {
      assert Says(r, (front + rest)[|front| + k]);
    }
  }

  lemma AnsweredMore(front: seq<Answer>, rest: seq<Answer>, a: Attempt)
    ensures Answered(front, a) || Answered(rest, a) ==> Answered(front + rest, a)
  {
    if i :| 0 <= i < |front| && Says(front[i], a) {
      assert Says((front + rest)[i], a);
    } else if i :| 0 <= i < |rest| && Says(rest[i], a) {
      assert Says((front + rest)[|front| + i], a);
    }
  }

  lemma {:induction false} WhereAnswers(attempts: seq<Attempt>, blocked: bool, i: nat)
    requires i < |AnswersWhere(attempts, blocked)|
    ensures Answers(AnswersWhere(attempts, blocked)[i], attempts)
  {
    var front, x := attempts[..|attempts| - 1], attempts[|attempts| - 1];
    assert attempts == front + [x];
    AnswersMore(AnswersWhere(attempts, blocked)[i], front, [x]);
    if i < |AnswersWhere(front, blocked)| {
      WhereAnswers(front, blocked, i);
    } else {
      AnswerSays(x);
      assert Says(AnswersWhere(attempts, blocked)[i], [x][0]);
    }
  }

  lemma BatchTells(b: Batch)
    ensures Tells(BatchAnswers(b), b.attempts)
  {
    var answers, refused := BatchAnswers(b), AnswersWhere(b.attempts, true);
    WhereSizes(b.attempts);
    forall k | 0 <= k < |b.attempts| ensures Answered(answers, b.attempts[k]) { BatchSays(b, k); }
    forall i | 0 <= i < |answers| ensures Answers(answers[i], b.attempts) {
      if i < |refused| {
        WhereAnswers(b.attempts, true, i);
      } else {
        WhereAnswers(b.attempts, false, i - |refused|);
      }
    }
  }

  lemma TellsAppend(answers: seq<Answer>, attempts: seq<Attempt>, more: seq<Answer>, rest: seq<Attempt>)
    requires Tells(answers, attempts) && Tells(more, rest)
    ensures Tells(answers + more, attempts + rest)
  {
    var all, calls := answers + more, attempts + rest;
    forall k | 0 <= k < |calls| ensures Answered(all, calls[k]) { AnsweredMore(answers, more, calls[k]); }
    forall i | 0 <= i < |all| ensures Answers(all[i], calls) { AnswersMore(all[i], attempts, rest); }
  }

  lemma {:induction false} AllTell(batches: seq<Batch>)
    ensures Tells(AllAnswers(batches), Concat(batches))
  {
    if batches != [] {
      AllTell(batches[..|batches| - 1]);
      BatchTells(batches[|batches| - 1]);
      TellsAppend(AllAnswers(batches[..|batches| - 1]), Concat(batches[..|batches| - 1]),
                  BatchAnswers(batches[|batches| - 1]), batches[|batches| - 1].attempts);
    }
  }

  /** The first batches hold the first calls. */
  lemma {:induction false} FirstBatches(batches: seq<Batch>, n: nat)
    requires n <= |batches|
    ensures Concat(batches[..n]) <= Concat(batches)
    decreases |batches|
  {
    if n == |batches| {
      assert batches[..n] == batches;
    } else {
      var front := batches[..|batches| - 1];
      assert front[..n] == batches[..n];
      FirstBatches(front, n);
    }
  }
}
