/** Runs that are rescued only when nothing is outstanding: no live worker, no batch in flight and no
    poller at work on one. At most one request is then outstanding at any time, the counters are sums,
    and the state follows the documented edges - whether or not tool results were lost on the way.

    Workers and pollers may still fail or die anywhere, instances may be deleted, and tool executions
    may be retried, snoozed, orphaned or answered early. */
module OrderlyRuns {
  import opened Content
  import opened Rows
  import opened RunMachine
  import opened RunInvariants

  // ---------------------------------------------------------------------------
  // What a rescue must wait for
  // ---------------------------------------------------------------------------

  ghost predicate NoneInProgress(iterations: seq<Iteration>) {
    forall i :: 0 <= i < |iterations| ==> iterations[i].batchStatus != InProgress
  }

  /** No worker will write to the run, and no batch result is on its way. */
  ghost predicate Quiet(rec: RunRec) {
    rec.workers == [] && rec.pollers == [] && NoneInProgress(rec.iterations)
  }

  ghost predicate OrderlyStep(rec: RunRec, ev: Event) {
    ev.Rescue? ==> Quiet(rec)
  }

  ghost predicate OrderlyFeasible(rec: RunRec, events: seq<Event>)
    decreases |events|
  {
    events == []
    || (Enabled(rec, events[0]) && OrderlyStep(rec, events[0]) && OrderlyFeasible(Apply(rec, events[0]), events[1..]))
  }

  // ---------------------------------------------------------------------------
  // Books
  // ---------------------------------------------------------------------------

  function SumUsage(iterations: seq<Iteration>): Usage {
    if iterations == [] then NO_USAGE
    else
      var last := iterations[|iterations| - 1];
      var rest := SumUsage(iterations[..|iterations| - 1]);
      if last.completed then rest.Plus(last.usage) else rest
  }

  function CountCompleted(iterations: seq<Iteration>): nat {
    if iterations == [] then 0
    else
      CountCompleted(iterations[..|iterations| - 1]) + if iterations[|iterations| - 1].completed then 1 else 0
  }

  function CountTools(iterations: seq<Iteration>): nat {
    if iterations == [] then 0
    else
      var last := iterations[|iterations| - 1];
      CountTools(iterations[..|iterations| - 1]) + if last.completed && last.hasToolUse then 1 else 0
  }

  /** The run's counters are the sums over its completed iterations. */
  ghost predicate Balanced(rec: RunRec) {
    && rec.row.usage == SumUsage(rec.iterations)
    && rec.row.iterationCount == CountCompleted(rec.iterations)
    && rec.row.toolIterations == CountTools(rec.iterations)
    && rec.row.toolIterations == rec.hist.toolRounds
  }

  // ---------------------------------------------------------------------------
  // The invariant
  // ---------------------------------------------------------------------------

  ghost predicate SameCounters(copy: RunRow, row: RunRow) {
    && copy.mode == row.mode && copy.usage == row.usage && copy.iterationCount == row.iterationCount
    && copy.toolIterations == row.toolIterations
  }

  /** What a worker's copy still says truly about the run. */
  ghost predicate WorkerTrue(rec: RunRec, worker: Worker) {
    && SameCounters(worker.copy, rec.row)
    && rec.row.state in {ClaimedState(rec.row.mode), Failed}
    && match worker.phase
       case Claimed => worker.copy.currentIteration == rec.row.currentIteration
       case Requested(id) =>
         && id < |rec.iterations|
         && !rec.iterations[id].completed
         && rec.iterations[id].batchStatus == NotSubmitted
         && (if rec.row.mode == Streaming then rec.row.currentIterationId == Some(id)
             else rec.iterations[id].number == rec.row.currentIteration + 1)
  }

  /** A batch that is not over, or whose result a poller is about to fetch. */
  ghost predicate InFlight(rec: RunRec, i: nat) {
    i < |rec.iterations|
    && (rec.iterations[i].batchStatus == InProgress || (rec.pollers != [] && rec.pollers[0].iteration == i))
  }

  ghost predicate InFlightTrue(rec: RunRec, i: nat)
    requires i < |rec.iterations|
  {
    && rec.row.mode == Batch
    && !rec.iterations[i].completed
    && rec.row.state in {BatchPending, BatchProcessing, Failed}
    && (rec.row.state != Failed ==> rec.row.currentIterationId == Some(i))
  }

  /** The run's poller belongs to its claimant, and is the only one with an eye on a batch. */
  ghost predicate PollerTrue(rec: RunRec, q: Poller) {
    && q.iteration < |rec.iterations|
    && rec.row.claimedBy == Some(q.instance)
    && (if q.fetching then rec.iterations[q.iteration].batchStatus == Ended && NoneInProgress(rec.iterations)
        else rec.iterations[q.iteration].batchStatus == InProgress)
  }

  /** At most one request is outstanding, and only in the states that wait for it. */
  ghost predicate ShapeOk(rec: RunRec) {
    && RunCheck(rec.row)
    && |rec.workers| <= 1 && |rec.pollers| <= 1
    && (rec.workers != [] ==>
          rec.pollers == [] && NoneInProgress(rec.iterations) && WorkerTrue(rec, rec.workers[0]))
    && (rec.pollers != [] ==> PollerTrue(rec, rec.pollers[0]))
    && (forall i, j :: 0 <= i < j < |rec.iterations| ==>
          rec.iterations[i].batchStatus != InProgress || rec.iterations[j].batchStatus != InProgress)
    && (forall i :: InFlight(rec, i) ==> InFlightTrue(rec, i))
    && rec.row.state != AwaitingInput && rec.row.state != Cancelled
    && (rec.row.mode == Batch ==> rec.row.state != StreamingRun)
    && (rec.row.mode == Streaming ==> rec.row.state !in {BatchSubmitting, BatchPending, BatchProcessing})
  }

  /** The highest iteration number a run can have: a batch run raises current_iteration only when the
      batch was submitted. */
  function HighestNumber(row: RunRow): nat {
    row.currentIteration
    + if row.mode == Batch && row.state != BatchPending && row.state != BatchProcessing then 1 else 0
  }

  ghost predicate NumbersOk(rec: RunRec) {
    forall i :: 0 <= i < |rec.iterations| ==> rec.iterations[i].number <= HighestNumber(rec.row)
  }

  ghost predicate BooksOk(rec: RunRec) {
    rec.row.state != Failed || !Quiet(rec) ==> Balanced(rec)
  }

  ghost predicate Orderly(rec: RunRec) {
    ShapeOk(rec) && NumbersOk(rec) && BooksOk(rec)
  }

  lemma PendingIsQuiet(rec: RunRec)
    requires ShapeOk(rec) && rec.row.state in {Pending, PendingTools, Completed}
    ensures Quiet(rec)
  {
    assert rec.workers == [];
    assert rec.pollers != [] ==> InFlight(rec, rec.pollers[0].iteration);
    forall i | 0 <= i < |rec.iterations| ensures rec.iterations[i].batchStatus != InProgress {
      assert InFlight(rec, i) ==> InFlightTrue(rec, i);
    }
  }

  // ---------------------------------------------------------------------------
  // Totals
  // ---------------------------------------------------------------------------

  /** The totals over iterations, as one value. */
  datatype Totals = Totals(usage: Usage, completed: nat, withTools: nat)

  function TotalsOf(iterations: seq<Iteration>): Totals {
    Totals(SumUsage(iterations), CountCompleted(iterations), CountTools(iterations))
  }

  lemma TotalsSplit(iterations: seq<Iteration>)
    requires iterations != []
    ensures var last := iterations[|iterations| - 1];
            var rest := TotalsOf(iterations[..|iterations| - 1]);
            TotalsOf(iterations)
            == if last.completed then
                 Totals(rest.usage.Plus(last.usage), rest.completed + 1,
                        rest.withTools + if last.hasToolUse then 1 else 0)
               else rest
  {
  }

  /** Opening an iteration, or moving its batch status, leaves the totals alone. */
  lemma {:induction false} TotalsOfOpened(iterations: seq<Iteration>, it: Iteration)
    requires !it.completed
    ensures TotalsOf(iterations + [it]) == TotalsOf(iterations)
  {
    TotalsSplit(iterations + [it]);
    assert (iterations + [it])[..|iterations|] == iterations;
  }

  lemma {:induction false} TotalsOfStatus(iterations: seq<Iteration>, i: nat, status: BatchStatus)
    requires i < |iterations|
    ensures TotalsOf(iterations[i := iterations[i].(batchStatus := status)]) == TotalsOf(iterations)
    decreases |iterations|
  {
    var n := |iterations| - 1;
    var updated := iterations[i := iterations[i].(batchStatus := status)];
    TotalsSplit(iterations);
    TotalsSplit(updated);
    if i < n {
      TotalsOfStatus(iterations[..n], i, status);
      assert updated[..n] == iterations[..n][i := iterations[i].(batchStatus := status)];
    } else {
      assert updated[..n] == iterations[..n];
    }
  }

  /** Completing an iteration adds it. */
  lemma {:induction false} TotalsOfCompleted(iterations: seq<Iteration>, i: nat, it: Iteration)
    requires i < |iterations| && !iterations[i].completed && it.completed
    ensures var before := TotalsOf(iterations);
            TotalsOf(iterations[i := it])
            == Totals(before.usage.Plus(it.usage), before.completed + 1,
                      before.withTools + if it.hasToolUse then 1 else 0)
    decreases |iterations|
  {
    var n := |iterations| - 1;
    var updated := iterations[i := it];
    TotalsSplit(iterations);
    TotalsSplit(updated);
    if i < n {
      TotalsOfCompleted(iterations[..n], i, it);
      assert updated[..n] == iterations[..n][i := it];
    } else {
      assert updated[..n] == iterations[..n];
    }
  }

  // ---------------------------------------------------------------------------
  // Steps
  // ---------------------------------------------------------------------------

  lemma ExecStepOrderly(rec: RunRec, ev: Event)
    requires Orderly(rec) && Enabled(rec, ev) && IsExecEvent(ev)
    ensures Orderly(Apply(rec, ev))
  {
    ExecStepsKeepRun(rec, ev);
    SameRunOrderly(rec, Apply(rec, ev));
  }

  lemma SameRunOrderly(rec: RunRec, rec': RunRec)
    requires Orderly(rec) && SameRun(rec, rec')
    ensures Orderly(rec')
  {
    assert forall i :: InFlight(rec', i) ==> InFlight(rec, i);
  }

  lemma ClaimOrderly(rec: RunRec, ev: Event)
    requires Orderly(rec) && Enabled(rec, ev) && ev.Claim?
    ensures Orderly(Apply(rec, ev))
  {
    PendingIsQuiet(rec);
  }

  lemma FailedOrderly(rec: RunRec, message: string)
    requires Orderly(rec) && rec.row.state != Completed
    ensures Orderly(WithRow(rec, FailRun(rec.row, message)))
  {
    var rec' := WithRow(rec, FailRun(rec.row, message));
    assert forall i :: InFlight(rec', i) ==> InFlight(rec, i);
  }

  lemma WithoutWorker(rec: RunRec)
    requires Orderly(rec)
    ensures Orderly(rec.(workers := []))
  {
    var rec' := rec.(workers := []);
    assert forall i :: InFlight(rec', i) ==> InFlight(rec, i);
  }

  lemma WithoutPoller(rec: RunRec)
    requires Orderly(rec)
    ensures Orderly(rec.(pollers := []))
  {
    var rec' := rec.(pollers := []);
    assert forall i :: InFlight(rec', i) ==> InFlight(rec, i);
  }

  lemma OneWorker(rec: RunRec, w: nat)
    requires ShapeOk(rec) && w < |rec.workers|
    ensures w == 0 && WorkerTrue(rec, rec.workers[0]) && DropWorker(rec, w) == rec.(workers := [])
  {
    assert rec.workers[..w] + rec.workers[w + 1..] == [];
  }

  lemma OnePoller(rec: RunRec, p: nat)
    requires ShapeOk(rec) && p < |rec.pollers|
    ensures p == 0 && PollerTrue(rec, rec.pollers[0]) && DropPoller(rec, p) == rec.(pollers := [])
    ensures rec.workers == [] && InFlightTrue(rec, rec.pollers[0].iteration)
  {
    assert InFlight(rec, rec.pollers[0].iteration);
    assert rec.pollers[..p] + rec.pollers[p + 1..] == [];
  }

  lemma WorkerFailsOrderly(rec: RunRec, ev: Event)
    requires Orderly(rec) && Enabled(rec, ev) && ev.WorkerFails?
    ensures Orderly(Apply(rec, ev))
  {
    GivingUp(rec, ev);
    OneWorker(rec, ev.w);
    WithoutWorker(rec);
    FailedOrderly(rec.(workers := []), ev.message);
  }

  lemma GivingUp(rec: RunRec, ev: Event)
    requires ShapeOk(rec) && Enabled(rec, ev) && ev.WorkerFails?
    ensures Apply(rec, ev) == WithRow(rec.(workers := []), FailRun(rec.row, ev.message))
  {
    OneWorker(rec, ev.w);
  }

  lemma WorkerDiesOrderly(rec: RunRec, ev: Event)
    requires Orderly(rec) && Enabled(rec, ev) && ev.WorkerDies?
    ensures Orderly(Apply(rec, ev))
  {
    OneWorker(rec, ev.w);
    WithoutWorker(rec);
  }

  lemma BeginOrderly(rec: RunRec, ev: Event)
    requires Orderly(rec) && Enabled(rec, ev) && ev.Begin?
    ensures Orderly(Apply(rec, ev))
  {
    BeginRunOrderly(rec);
    assert Apply(rec, ev) == BeginRun(rec, 0);
  }

  lemma BeginRunOrderly(rec: RunRec)
    requires Orderly(rec) && rec.workers != [] && rec.workers[0].phase.Claimed?
    ensures Orderly(BeginRun(rec, 0))
  {
    assert WorkerTrue(rec, rec.workers[0]);
    if NumberTaken(rec.iterations, rec.workers[0].copy.currentIteration + 1) {
      RefusedOrderly(rec);
    } else {
      StartOrderly(rec);
    }
  }

  lemma RefusedOrderly(rec: RunRec)
    requires Orderly(rec) && rec.workers != [] && WorkerTrue(rec, rec.workers[0])
    requires NumberTaken(rec.iterations, rec.workers[0].copy.currentIteration + 1)
    ensures Orderly(BeginRun(rec, 0))
  {
    assert BeginRun(rec, 0).workers == [];
  }

  lemma StartOrderly(rec: RunRec)
    requires Orderly(rec) && rec.workers != [] && WorkerTrue(rec, rec.workers[0]) && rec.workers[0].phase.Claimed?
    ensures Orderly(StartIteration(rec, 0))
  {
    TotalsOfOpened(rec.iterations, StartIteration(rec, 0).iterations[|rec.iterations|]);
  }

  lemma SubmittedOrderly(rec: RunRec, ev: Event)
    requires Orderly(rec) && Enabled(rec, ev) && ev.Submitted?
    ensures Orderly(Apply(rec, ev))
  {
    assert WorkerTrue(rec, rec.workers[0]);
    SubmitOrderly(rec);
  }

  lemma AcceptedSubmitOrderly(rec: RunRec)
    requires Orderly(rec) && rec.row.mode == Batch && rec.row.state != Failed
    requires rec.workers != [] && WorkerTrue(rec, rec.workers[0]) && rec.workers[0].phase.Requested?
    ensures Orderly(FinishSubmit(rec, 0))
  {
    assert FinishSubmit(rec, 0).workers == [];
    TotalsOfStatus(rec.iterations, rec.workers[0].phase.iteration, InProgress);
  }

  lemma RefusedSubmitOrderly(rec: RunRec)
    requires Orderly(rec) && rec.row.mode == Batch && rec.row.state == Failed
    requires rec.workers != [] && WorkerTrue(rec, rec.workers[0]) && rec.workers[0].phase.Requested?
    ensures Orderly(FinishSubmit(rec, 0))
  {
    assert FinishSubmit(rec, 0).workers == [];
    TotalsOfStatus(rec.iterations, rec.workers[0].phase.iteration, InProgress);
  }

  lemma SubmitOrderly(rec: RunRec)
    requires Orderly(rec) && rec.row.mode == Batch
    requires rec.workers != [] && WorkerTrue(rec, rec.workers[0]) && rec.workers[0].phase.Requested?
    ensures Orderly(FinishSubmit(rec, 0))
  {
    if rec.row.state == Failed {
      RefusedSubmitOrderly(rec);
    } else {
      AcceptedSubmitOrderly(rec);
    }
  }

  /** A result that arrives while nothing else is outstanding. */
  ghost predicate AwaitsResult(rec: RunRec, id: nat, read: RunRow) {
    && RunCheck(rec.row)
    && id < |rec.iterations| && !rec.iterations[id].completed
    && NoneInProgress(rec.iterations)
    && SameCounters(read, rec.row)
    && Balanced(rec)
    && (rec.row.state != Failed ==> rec.row.currentIterationId == Some(id))
    && (IsTerminal(rec.row.state) ==> rec.row.state == Failed)
  }

  lemma ResultBooks(rec: RunRec, id: nat, read: RunRow, response: Response, maxAttempts: int, now: int)
    requires AwaitsResult(rec, id, read)
    ensures var (rec', accepted) := ProcessResult(rec, id, read, response, maxAttempts, now);
            && NoneInProgress(rec'.iterations) && rec'.workers == rec.workers && rec'.pollers == rec.pollers
            && RunCheck(rec'.row) && rec'.row.mode == rec.row.mode
            && rec'.row.currentIterationId == rec.row.currentIterationId
            && (accepted ==> Balanced(rec')
                             && rec'.row.state == if HasToolUse(response.blocks) then PendingTools else Completed)
            && (!accepted ==> rec'.row == rec.row && rec.row.state == Failed)
  {
    var it := rec.iterations[id].(
      completed := true, hasToolUse := HasToolUse(response.blocks),
      toolExecutionCount := |ToolExecs(response.blocks, id, maxAttempts, now)|, usage := response.usage);
    TotalsOfCompleted(rec.iterations, id, it);
  }

  lemma ResultNumbers(rec: RunRec, id: nat, read: RunRow, response: Response, maxAttempts: int, now: int)
    requires NumbersOk(rec) && id < |rec.iterations|
    ensures NumbersOk(ProcessResult(rec, id, read, response, maxAttempts, now).0)
  {
  }

  /** What a result leaves behind when everybody has gone. */
  lemma AcceptedOrderly(rec: RunRec, id: nat, read: RunRow, response: Response, maxAttempts: int, now: int)
    requires AwaitsResult(rec, id, read) && NumbersOk(rec)
    requires ProcessResult(rec, id, read, response, maxAttempts, now).1
    ensures Orderly(ProcessResult(rec, id, read, response, maxAttempts, now).0.(workers := [], pollers := []))
  {
    ResultBooks(rec, id, read, response, maxAttempts, now);
    ResultNumbers(rec, id, read, response, maxAttempts, now);
  }

  /** A refused result: the run has failed before. */
  lemma RefusedResultOrderly(rec: RunRec, id: nat, read: RunRow, response: Response, maxAttempts: int, now: int)
    requires AwaitsResult(rec, id, read) && NumbersOk(rec)
    requires !ProcessResult(rec, id, read, response, maxAttempts, now).1
    ensures Orderly(ProcessResult(rec, id, read, response, maxAttempts, now).0.(workers := [], pollers := []))
  {
    ResultBooks(rec, id, read, response, maxAttempts, now);
    ResultNumbers(rec, id, read, response, maxAttempts, now);
  }

  lemma ResultOrderly(rec: RunRec, id: nat, read: RunRow, response: Response, maxAttempts: int, now: int)
    requires AwaitsResult(rec, id, read) && NumbersOk(rec)
    ensures Orderly(ProcessResult(rec, id, read, response, maxAttempts, now).0.(workers := [], pollers := []))
  {
    if ProcessResult(rec, id, read, response, maxAttempts, now).1 {
      AcceptedOrderly(rec, id, read, response, maxAttempts, now);
    } else {
      RefusedResultOrderly(rec, id, read, response, maxAttempts, now);
    }
  }

  /** A stream that ends, while nothing else is outstanding. */
  lemma Stream(rec: RunRec, ev: Event)
    requires ShapeOk(rec) && Enabled(rec, ev) && ev.Streamed?
    ensures rec.pollers == [] && |rec.workers| == 1
    ensures WorkerTrue(rec, rec.workers[0]) && rec.workers[0].phase.Requested?
    ensures var worker := rec.workers[0];
            var (processed, accepted) :=
              ProcessResult(rec, worker.phase.iteration, worker.copy, ev.response, ev.maxAttempts, ev.now);
            var done := processed.(workers := [], pollers := []);
            Apply(rec, ev) == if accepted then done else WithRow(done, FailRun(done.row, "failed to update run"))
  {
    OneWorker(rec, ev.w);
    var worker := rec.workers[0];
    var processed :=
      ProcessResult(rec, worker.phase.iteration, worker.copy, ev.response, ev.maxAttempts, ev.now).0;
    assert processed.workers == rec.workers && processed.pollers == [];
  }

  lemma AwaitsStream(rec: RunRec)
    requires Orderly(rec) && rec.pollers == [] && |rec.workers| == 1 && WorkerTrue(rec, rec.workers[0])
    requires rec.workers[0].phase.Requested? && rec.workers[0].copy.mode == Streaming
    ensures AwaitsResult(rec, rec.workers[0].phase.iteration, rec.workers[0].copy)
  {
  }

  lemma StreamedOrderly(rec: RunRec, ev: Event)
    requires Orderly(rec) && Enabled(rec, ev) && ev.Streamed?
    ensures Orderly(Apply(rec, ev))
  {
    Stream(rec, ev);
    AwaitsStream(rec);
    var id, copy := rec.workers[0].phase.iteration, rec.workers[0].copy;
    ResultOrderly(rec, id, copy, ev.response, ev.maxAttempts, ev.now);
    ResultBooks(rec, id, copy, ev.response, ev.maxAttempts, ev.now);
    var (processed, accepted) := ProcessResult(rec, id, copy, ev.response, ev.maxAttempts, ev.now);
    if !accepted {
      FailedOrderly(processed.(workers := [], pollers := []), "failed to update run");
    }
  }

  /** The delivery of a batch, while nothing else is outstanding. */
  lemma Delivery(rec: RunRec, ev: Event)
    requires ShapeOk(rec) && Enabled(rec, ev) && ev.PollSucceeded?
    ensures rec.workers == [] && |rec.pollers| == 1 && rec.pollers[0].iteration < |rec.iterations|
    ensures NoneInProgress(rec.iterations) && InFlightTrue(rec, rec.pollers[0].iteration)
    ensures Apply(rec, ev)
            == ProcessResult(rec, rec.pollers[0].iteration, rec.row, ev.response, ev.maxAttempts, ev.now).0
               .(workers := [], pollers := [])
  {
    OnePoller(rec, ev.p);
    var processed := ProcessResult(rec, rec.pollers[0].iteration, rec.row, ev.response, ev.maxAttempts, ev.now).0;
    assert processed.pollers == rec.pollers && processed.workers == [];
  }

  lemma PollSucceededOrderly(rec: RunRec, ev: Event)
    requires Orderly(rec) && Enabled(rec, ev) && ev.PollSucceeded?
    ensures Orderly(Apply(rec, ev))
  {
    Delivery(rec, ev);
    ResultOrderly(rec, rec.pollers[0].iteration, rec.row, ev.response, ev.maxAttempts, ev.now);
  }

  lemma PollBeginsOrderly(rec: RunRec, ev: Event)
    requires Orderly(rec) && Enabled(rec, ev) && ev.PollBegins?
    ensures Orderly(Apply(rec, ev))
  {
    assert InFlight(rec, ev.i);
    assert rec.workers == [];
    assert rec.pollers == [];
    var rec' := Apply(rec, ev);
    assert forall i :: InFlight(rec', i) ==> InFlight(rec, i);
  }

  lemma EndedOrderly(rec: RunRec)
    requires Orderly(rec) && rec.pollers != [] && !rec.pollers[0].fetching && PollerTrue(rec, rec.pollers[0])
    ensures Orderly(WithStatus(rec, rec.pollers[0].iteration, Ended).(pollers := [rec.pollers[0].(fetching := true)]))
  {
    var i := rec.pollers[0].iteration;
    var rec' := WithStatus(rec, i, Ended).(pollers := [rec.pollers[0].(fetching := true)]);
    assert InFlight(rec, i);
    TotalsOfStatus(rec.iterations, i, Ended);
    assert forall j :: InFlight(rec', j) ==> InFlight(rec, j);
  }

  lemma PollEndedOrderly(rec: RunRec, ev: Event)
    requires Orderly(rec) && Enabled(rec, ev) && ev.PollEnded?
    ensures Orderly(Apply(rec, ev))
  {
    OnePoller(rec, ev.p);
    EndedOrderly(rec);
    assert rec.pollers[0 := rec.pollers[0].(fetching := true)] == [rec.pollers[0].(fetching := true)];
  }

  lemma CanceledOrderly(rec: RunRec)
    requires Orderly(rec) && rec.pollers != [] && PollerTrue(rec, rec.pollers[0])
    ensures Orderly(WithStatus(rec, rec.pollers[0].iteration, Canceling).(pollers := []))
  {
    var i := rec.pollers[0].iteration;
    var rec' := WithStatus(rec, i, Canceling).(pollers := []);
    assert InFlight(rec, i);
    TotalsOfStatus(rec.iterations, i, Canceling);
    assert forall j :: InFlight(rec', j) ==> InFlight(rec, j);
  }

  lemma MarkedOrderly(rec: RunRec)
    requires Orderly(rec)
    ensures Orderly(MarkProcessing(rec))
  {
    assert forall j :: InFlight(MarkProcessing(rec), j) ==> InFlight(rec, j);
  }

  lemma PollRunningOrderly(rec: RunRec, ev: Event)
    requires Orderly(rec) && Enabled(rec, ev) && ev.PollRunning?
    ensures Orderly(Apply(rec, ev))
  {
    OnePoller(rec, ev.p);
    MarkedOrderly(rec);
    WithoutPoller(MarkProcessing(rec));
    assert MarkProcessing(rec).pollers == rec.pollers;
  }

  lemma PollErroredOrderly(rec: RunRec, ev: Event)
    requires Orderly(rec) && Enabled(rec, ev) && ev.PollErrored?
    ensures Orderly(Apply(rec, ev))
  {
    OnePoller(rec, ev.p);
    WithoutPoller(rec);
    FailedOrderly(rec.(pollers := []), ev.message);
  }

  /** The other ends of a poll: the poller goes. */
  lemma PollOtherOrderly(rec: RunRec, ev: Event)
    requires Orderly(rec) && Enabled(rec, ev) && (ev.PollCanceling? || ev.PollLost?)
    ensures Orderly(Apply(rec, ev))
  {
    OnePoller(rec, ev.p);
    WithoutPoller(rec);
    CanceledOrderly(rec);
  }

  lemma ContinueOrderly(rec: RunRec, ev: Event)
    requires Orderly(rec) && Enabled(rec, ev) && ev.Continue?
    ensures Orderly(Apply(rec, ev))
  {
    PendingIsQuiet(rec);
  }

  lemma RescueOrderly(rec: RunRec, ev: Event)
    requires Orderly(rec) && Enabled(rec, ev) && OrderlyStep(rec, ev) && ev.Rescue?
    ensures Orderly(Apply(rec, ev))
  {
  }

  lemma OrphanOrderly(rec: RunRec, ev: Event)
    requires Orderly(rec) && Enabled(rec, ev) && ev.Orphan?
    ensures Orderly(Apply(rec, ev))
  {
    if OrphanRun(rec.row, ev.instance) == rec.row {
      SameRunOrderly(rec, Apply(rec, ev));
    } else {
      FailedOrderly(rec, "Instance disconnected");
    }
  }

  lemma PollGoesOnOrderly(rec: RunRec, ev: Event)
    requires Orderly(rec) && Enabled(rec, ev) && (ev.PollBegins? || ev.PollEnded? || ev.PollSucceeded?)
    ensures Orderly(Apply(rec, ev))
  {
    if ev.PollBegins? {
      PollBeginsOrderly(rec, ev);
    } else if ev.PollEnded? {
      PollEndedOrderly(rec, ev);
    } else {
      PollSucceededOrderly(rec, ev);
    }
  }

  lemma PollStopsOrderly(rec: RunRec, ev: Event)
    requires Orderly(rec) && Enabled(rec, ev)
    requires ev.PollRunning? || ev.PollErrored? || ev.PollCanceling? || ev.PollLost?
    ensures Orderly(Apply(rec, ev))
  {
    if ev.PollRunning? {
      PollRunningOrderly(rec, ev);
    } else if ev.PollErrored? {
      PollErroredOrderly(rec, ev);
    } else {
      PollOtherOrderly(rec, ev);
    }
  }

  lemma WorkerGoesOnOrderly(rec: RunRec, ev: Event)
    requires Orderly(rec) && Enabled(rec, ev) && (ev.Begin? || ev.Submitted? || ev.Streamed?)
    ensures Orderly(Apply(rec, ev))
  {
    if ev.Begin? {
      BeginOrderly(rec, ev);
    } else if ev.Submitted? {
      SubmittedOrderly(rec, ev);
    } else {
      StreamedOrderly(rec, ev);
    }
  }

  lemma WorkerStopsOrderly(rec: RunRec, ev: Event)
    requires Orderly(rec) && Enabled(rec, ev) && (ev.WorkerFails? || ev.WorkerDies?)
    ensures Orderly(Apply(rec, ev))
  {
    if ev.WorkerFails? {
      WorkerFailsOrderly(rec, ev);
    } else {
      WorkerDiesOrderly(rec, ev);
    }
  }

  lemma RowStepOrderly(rec: RunRec, ev: Event)
    requires Orderly(rec) && Enabled(rec, ev) && OrderlyStep(rec, ev)
    requires ev.Claim? || ev.Orphan? || ev.Continue? || ev.Rescue?
    ensures Orderly(Apply(rec, ev))
  {
    if ev.Claim? {
      ClaimOrderly(rec, ev);
    } else if ev.Orphan? {
      OrphanOrderly(rec, ev);
    } else if ev.Continue? {
      ContinueOrderly(rec, ev);
    } else {
      RescueOrderly(rec, ev);
    }
  }

  lemma StepOrderly(rec: RunRec, ev: Event)
    requires Orderly(rec) && Enabled(rec, ev) && OrderlyStep(rec, ev)
    ensures Orderly(Apply(rec, ev))
  {
    if IsExecEvent(ev) {
      ExecStepOrderly(rec, ev);
    } else if ev.PollBegins? || ev.PollEnded? || ev.PollSucceeded? {
      PollGoesOnOrderly(rec, ev);
    } else if IsPollEvent(ev) {
      PollStopsOrderly(rec, ev);
    } else if ev.WorkerFails? || ev.WorkerDies? {
      WorkerStopsOrderly(rec, ev);
    } else if IsWorkerEvent(ev) {
      WorkerGoesOnOrderly(rec, ev);
    } else {
      RowStepOrderly(rec, ev);
    }
  }

  // ---------------------------------------------------------------------------
  // Main results
  // ---------------------------------------------------------------------------

  lemma FreshOrderly(row: RunRow)
    requires Fresh(row)
    ensures Orderly(NewRec(row))
  {
  }

  lemma {:induction false} OrderlyReachable(rec: RunRec, events: seq<Event>)
    requires Orderly(rec) && OrderlyFeasible(rec, events)
    ensures Feasible(rec, events) && Orderly(After(rec, events))
    decreases |events|
  {
    if events != [] {
      StepOrderly(rec, events[0]);
      OrderlyReachable(Apply(rec, events[0]), events[1..]);
    }
  }

  /** The counters of a run that did not fail are the sums over its completed iterations. */
  lemma CountersAreSums(row: RunRow, events: seq<Event>)
    requires Fresh(row) && OrderlyFeasible(NewRec(row), events)
    ensures Feasible(NewRec(row), events)
    ensures var rec := After(NewRec(row), events);
            rec.row.state != Failed ==> Balanced(rec)
  {
    FreshOrderly(row);
    OrderlyReachable(NewRec(row), events);
  }

  /** tool_iterations counts the tool rounds, of failed runs too. */
  ghost predicate RoundsOk(rec: RunRec) {
    rec.row.toolIterations == rec.hist.toolRounds
  }

  lemma ResultRounds(rec: RunRec, id: nat, read: RunRow, response: Response, maxAttempts: int, now: int)
    requires RoundsOk(rec) && id < |rec.iterations| && read.toolIterations == rec.row.toolIterations
    ensures var (rec', _) := ProcessResult(rec, id, read, response, maxAttempts, now);
            RoundsOk(rec') && RoundsOk(WithRow(rec', FailRun(rec'.row, "failed to update run")))
  {
  }

  lemma StreamedRounds(rec: RunRec, ev: Event)
    requires Orderly(rec) && RoundsOk(rec) && Enabled(rec, ev) && ev.Streamed?
    ensures RoundsOk(Apply(rec, ev))
  {
    var worker := rec.workers[0];
    assert WorkerTrue(rec, worker);
    ResultRounds(rec, worker.phase.iteration, worker.copy, ev.response, ev.maxAttempts, ev.now);
  }

  lemma DeliveredRounds(rec: RunRec, ev: Event)
    requires Orderly(rec) && RoundsOk(rec) && Enabled(rec, ev) && ev.PollSucceeded?
    ensures RoundsOk(Apply(rec, ev))
  {
    ResultRounds(rec, rec.pollers[0].iteration, rec.row, ev.response, ev.maxAttempts, ev.now);
  }

  /** No other step touches the column or the count. */
  lemma OtherRounds(rec: RunRec, ev: Event)
    requires RoundsOk(rec) && Enabled(rec, ev) && !IsExecEvent(ev) && !ev.Streamed? && !ev.PollSucceeded?
    ensures RoundsOk(Apply(rec, ev))
  {
  }

  lemma {:induction false} RoundsReachable(rec: RunRec, events: seq<Event>)
    requires Orderly(rec) && RoundsOk(rec) && OrderlyFeasible(rec, events)
    ensures Feasible(rec, events) && RoundsOk(After(rec, events))
    decreases |events|
  {
    if events != [] {
      var ev := events[0];
      StepOrderly(rec, ev);
      if IsExecEvent(ev) {
        ExecStepsKeepRun(rec, ev);
      } else if ev.Streamed? {
        StreamedRounds(rec, ev);
      } else if ev.PollSucceeded? {
        DeliveredRounds(rec, ev);
      } else {
        OtherRounds(rec, ev);
      }
      RoundsReachable(Apply(rec, ev), events[1..]);
    }
  }

  /** Bounded progress by the columns of the row: in every history in which rescues wait for what is
      outstanding, failed runs included, the changes of state are paid for by tool_iterations and
      rescue_attempts. */
  lemma ProgressInColumns(row: RunRow, events: seq<Event>, maxRescues: nat)
    requires Fresh(row) && OrderlyFeasible(NewRec(row), events) && RescuesBounded(events, maxRescues)
    ensures Feasible(NewRec(row), events)
    ensures var rec := After(NewRec(row), events);
            && rec.hist.changes <= 5 * rec.row.toolIterations + 4 * rec.row.rescueAttempts + 4
            && rec.row.rescueAttempts <= maxRescues
  {
    FreshOrderly(row);
    RoundsReachable(NewRec(row), events);
    BoundedProgress(row, events, maxRescues);
  }

  /** The documented transitions of a run that has not ended, and rescues. */
  predicate Edge(mode: RunMode, s: RunState, s': RunState) {
    || s == s'
    || (s == Pending && s' == ClaimedState(mode))
    || (s == BatchSubmitting && s' == BatchPending)
    || (s == BatchPending && s' == BatchProcessing)
    || (s in {BatchPending, BatchProcessing, StreamingRun} && s' in {PendingTools, Completed})
    || (s == PendingTools && s' == Pending)
    || (!IsTerminal(s) && s' == Failed)
  }

  predicate RescueEdge(s: RunState, s': RunState) {
    s in {BatchSubmitting, BatchPending, BatchProcessing, StreamingRun, PendingTools} && s' == Pending
  }

  ghost predicate FollowsEdges(rec: RunRec, ev: Event, rec': RunRec) {
    var s, s' := rec.row.state, rec'.row.state;
    && (!IsTerminal(s) && !ev.Rescue? ==> Edge(rec.row.mode, s, s'))
    && (ev.Rescue? ==> RescueEdge(s, s'))
    && (s == Completed ==> rec'.row == rec.row)
    && (s == Failed && s' != s ==> s' == Completed && !Quiet(rec))
  }

  /** Every change of a live run follows a documented edge or is a rescue; a completed run changes no
      more in any column; a failed one can only be completed, by the request that outlived it. */
  lemma StepsFollowEdges(rec: RunRec, ev: Event)
    requires Orderly(rec) && Enabled(rec, ev) && OrderlyStep(rec, ev)
    ensures FollowsEdges(rec, ev, Apply(rec, ev))
  {
    if IsExecEvent(ev) {
      ExecStepsKeepRun(rec, ev);
    } else if ev.PollSucceeded? {
      DeliveryFollowsEdges(rec, ev);
    } else if IsPollEvent(ev) {
      PollsFollowEdges(rec, ev);
    } else if ev.Streamed? {
      StreamFollowsEdges(rec, ev);
    } else if IsWorkerEvent(ev) {
      WorkersFollowEdges(rec, ev);
    } else {
      OthersFollowEdges(rec, ev);
    }
  }

  lemma WorkersFollowEdges(rec: RunRec, ev: Event)
    requires Orderly(rec) && Enabled(rec, ev) && IsWorkerEvent(ev) && !ev.Streamed?
    ensures FollowsEdges(rec, ev, Apply(rec, ev))
  {
    OneWorker(rec, ev.w);
  }

  lemma StreamFollowsEdges(rec: RunRec, ev: Event)
    requires Orderly(rec) && Enabled(rec, ev) && ev.Streamed?
    ensures FollowsEdges(rec, ev, Apply(rec, ev))
  {
    Stream(rec, ev);
    var worker := rec.workers[0];
    ResultFollowsEdges(rec, worker.phase.iteration, worker.copy, ev.response, ev.maxAttempts, ev.now);
  }

  lemma PollsFollowEdges(rec: RunRec, ev: Event)
    requires Orderly(rec) && Enabled(rec, ev) && IsPollEvent(ev) && !ev.PollSucceeded?
    ensures FollowsEdges(rec, ev, Apply(rec, ev))
  {
    if ev.PollRunning? || ev.PollErrored? {
      OnePoller(rec, ev.p);
      PollOutcomeFollowsEdges(rec, ev);
    }
  }

  lemma PollOutcomeFollowsEdges(rec: RunRec, ev: Event)
    requires Enabled(rec, ev) && (ev.PollRunning? || ev.PollErrored?) && RunCheck(rec.row)
    requires rec.row.state in {BatchPending, BatchProcessing, Failed}
    ensures FollowsEdges(rec, ev, Apply(rec, ev))
  {
  }

  lemma ResultFollowsEdges(rec: RunRec, id: nat, read: RunRow, response: Response, maxAttempts: int, now: int)
    requires id < |rec.iterations| && rec.row.state in {BatchPending, BatchProcessing, StreamingRun, Failed}
    requires RunCheck(rec.row)
    ensures var rec' := ProcessResult(rec, id, read, response, maxAttempts, now).0;
            && (rec.row.state != Failed ==> Edge(rec.row.mode, rec.row.state, rec'.row.state))
            && (rec.row.state == Failed ==> rec'.row.state in {Failed, Completed})
  {
  }

  lemma DeliveryFollowsEdges(rec: RunRec, ev: Event)
    requires Orderly(rec) && Enabled(rec, ev) && ev.PollSucceeded?
    ensures FollowsEdges(rec, ev, Apply(rec, ev))
  {
    Delivery(rec, ev);
    ResultFollowsEdges(rec, rec.pollers[0].iteration, rec.row, ev.response, ev.maxAttempts, ev.now);
  }

  lemma OthersFollowEdges(rec: RunRec, ev: Event)
    requires Orderly(rec) && Enabled(rec, ev) && OrderlyStep(rec, ev)
    requires ev.Claim? || ev.Orphan? || ev.Continue? || ev.Rescue?
    ensures FollowsEdges(rec, ev, Apply(rec, ev))
  {
  }

  lemma {:induction false} CompletedIsFinal(rec: RunRec, events: seq<Event>)
    requires Orderly(rec) && OrderlyFeasible(rec, events) && rec.row.state == Completed
    ensures Feasible(rec, events) && After(rec, events).row == rec.row
    decreases |events|
  {
    if events != [] {
      StepOrderly(rec, events[0]);
      StepsFollowEdges(rec, events[0]);
      CompletedIsFinal(Apply(rec, events[0]), events[1..]);
    }
  }
}
