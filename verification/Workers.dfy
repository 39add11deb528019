/** The routines of the workers, statement by statement, each proved to have the effect of the step of
    the same name in `RunMachine`. */
module Workers {
  import opened Content
  import opened Rows
  import opened RunMachine
  import opened Store
  import System

  // ---------------------------------------------------------------------------
  // run_worker.go, streaming_worker.go: processRun up to the request
  // ---------------------------------------------------------------------------

  /** The prompt, on the first iteration. */
  method StorePrompt(db: Database, id: RunId, run: RunRow)
    requires id in db.runs
    modifies db
    ensures db.runs == old(db.runs)[id := old(db.runs[id]).(messages := Prompted(old(db.runs[id]), run))]
  {
    if run.currentIteration == 0 && run.prompt != "" {
      db.CreateMessage(id, User, [TextBlock(run.prompt)]);
    }
  }

  /** failRun, and the end of the worker. */
  method FailAndLeave(db: Database, id: RunId, w: nat, message: string)
    requires id in db.runs && w < |db.runs[id].workers| && RunCheck(db.runs[id].row)
    modifies db
    ensures db.runs
            == old(db.runs)[id := DropWorker(WithRow(old(db.runs[id]), FailRun(old(db.runs[id]).row, message)), w)]
  {
    StoreFailure(db, id, message);
    db.runs := db.runs[id := DropWorker(db.runs[id], w)];
  }

  /** processRun until the request goes out; a taken iteration number is an error, and fails the run. */
  method StartProcessRun(db: Database, id: RunId, w: nat)
    requires id in db.runs && w < |db.runs[id].workers| && RunCheck(db.runs[id].row)
    modifies db
    ensures db.runs == old(db.runs)[id := BeginRun(old(db.runs[id]), w)]
  {
    var worker := db.runs[id].workers[w];
    var run := worker.copy;
    StorePrompt(db, id, run);
    var number := run.currentIteration + 1;
    var iteration := db.CreateIteration(id, number);
    if iteration.None? {
      FailAndLeave(db, id, w, "failed to create iteration");
      return;
    }
    if run.mode == Streaming {
      var _ := db.UpdateRun(id, EnterIteration(db.runs[id].row, number, iteration.value));
    }
    var started := db.runs[id];
    db.runs := db.runs[id := started.(workers := started.workers[w := worker.(phase := Requested(iteration.value))])];
  }

  // ---------------------------------------------------------------------------
  // batch_poller.go, streaming_worker.go: processResult
  // ---------------------------------------------------------------------------

  lemma {:induction false} ContentOfMore(mode: RunMode, blocks: seq<ResponseBlock>, b: ResponseBlock)
    ensures ContentOf(mode, blocks + [b]) == ContentOf(mode, blocks) + ContentOfBlock(mode, b)
  {
    if blocks == [] {
      assert blocks + [b] == [b];
      assert ContentOf(mode, [b]) == ContentOfBlock(mode, b) + ContentOf(mode, []);
    } else {
      var head, rest := ContentOfBlock(mode, blocks[0]), blocks[1..];
      assert (blocks + [b])[1..] == rest + [b];
      ContentOfMore(mode, rest, b);
      assert ContentOf(mode, blocks + [b]) == head + ContentOf(mode, rest + [b]);
    }
  }

  lemma {:induction false} TextOfMore(blocks: seq<ResponseBlock>, b: ResponseBlock)
    ensures ResponseText(blocks + [b]) == ResponseText(blocks) + if b.RText? then b.text else ""
  {
    if blocks == [] {
      assert blocks + [b] == [b];
      assert ResponseText([b]) == (if b.RText? then b.text else "") + ResponseText([]);
    } else {
      var head, rest := if blocks[0].RText? then blocks[0].text else "", blocks[1..];
      assert (blocks + [b])[1..] == rest + [b];
      TextOfMore(rest, b);
      assert ResponseText(blocks + [b]) == head + ResponseText(rest + [b]);
    }
  }

  lemma ReadOneMore(mode: RunMode, blocks: seq<ResponseBlock>, j: nat)
    requires j < |blocks|
    ensures ContentOf(mode, blocks[..j + 1]) == ContentOf(mode, blocks[..j]) + ContentOfBlock(mode, blocks[j])
    ensures ResponseText(blocks[..j + 1])
            == ResponseText(blocks[..j]) + if blocks[j].RText? then blocks[j].text else ""
  {
    assert blocks[..j + 1] == blocks[..j] + [blocks[j]];
    ContentOfMore(mode, blocks[..j], blocks[j]);
    TextOfMore(blocks[..j], blocks[j]);
  }

  /** The first loop: content blocks, response text, and whether any tool is used. */
  method ReadResponse(mode: RunMode, blocks: seq<ResponseBlock>)
    returns (content: seq<ContentBlock>, text: string, hasToolUse: bool)
    ensures content == ContentOf(mode, blocks)
    ensures text == ResponseText(blocks)
    ensures hasToolUse <==> HasToolUse(blocks)
  {
    content, text, hasToolUse := [], "", false;
    for j := 0 to |blocks|
      invariant content == ContentOf(mode, blocks[..j])
      invariant text == ResponseText(blocks[..j])
      invariant hasToolUse <==> exists i :: 0 <= i < j && blocks[i].RToolUse?
    {
      ReadOneMore(mode, blocks, j);
      ghost var before := content;
      match blocks[j] {
        case RText(t) =>
          content := content + [TextBlock(t)];
          text := text + t;
        case RToolUse(id, name, input, _) =>
          content := content + [ToolUseBlock(id, name, input)];
          hasToolUse := true;
        case ROther(kind) =>
          if mode == Batch {
            content := content + [EmptyBlock(kind)];
          }
      }
      assert content == before + ContentOfBlock(mode, blocks[j]);
    }
    assert blocks[..|blocks|] == blocks;
  }

  lemma ToolExecsFrom(blocks: seq<ResponseBlock>, j: nat, iteration: nat, maxAttempts: int, now: int)
    requires j < |blocks|
    ensures ToolExecs(blocks[j..], iteration, maxAttempts, now)
            == ExecsOfBlock(blocks[j], iteration, maxAttempts, now)
               + ToolExecs(blocks[j + 1..], iteration, maxAttempts, now)
  {
    assert blocks[j..][1..] == blocks[j + 1..];
  }

  /** The second loop: how many tools are used. */
  method CountToolUses(blocks: seq<ResponseBlock>, iteration: nat, maxAttempts: int, now: int) returns (n: nat)
    ensures n == |ToolExecs(blocks, iteration, maxAttempts, now)|
  {
    n := 0;
    for j := 0 to |blocks|
      invariant n + |ToolExecs(blocks[j..], iteration, maxAttempts, now)|
             == |ToolExecs(blocks, iteration, maxAttempts, now)|
    {
      ToolExecsFrom(blocks, j, iteration, maxAttempts, now);
      if blocks[j].RToolUse? {
        n := n + 1;
      }
    }
  }

  /** buildToolParams, and the defaults createToolExecutions fills in. */
  method BuildToolParams(blocks: seq<ResponseBlock>, iteration: nat, maxAttempts: int, now: int)
    returns (params: seq<ExecRow>)
    ensures params == ToolExecs(blocks, iteration, maxAttempts, now)
  {
    params := [];
    ghost var all := ToolExecs(blocks, iteration, maxAttempts, now);
    for j := 0 to |blocks|
      invariant params + ToolExecs(blocks[j..], iteration, maxAttempts, now) == all
    {
      ghost var before := params;
      ParamsGrow(before, blocks, j, iteration, maxAttempts, now);
      if blocks[j].RToolUse? {
        var b := blocks[j];
        params := params + [NewExec(iteration, b.id, b.name, b.input, b.agent, maxAttempts, now)];
      }
      assert params == before + ExecsOfBlock(blocks[j], iteration, maxAttempts, now);
    }
  }

  lemma ParamsGrow(params: seq<ExecRow>, blocks: seq<ResponseBlock>, j: nat, iteration: nat, maxAttempts: int, now: int)
    requires j < |blocks|
    ensures (params + ExecsOfBlock(blocks[j], iteration, maxAttempts, now))
            + ToolExecs(blocks[j + 1..], iteration, maxAttempts, now)
            == params + ToolExecs(blocks[j..], iteration, maxAttempts, now)
  {
    ToolExecsFrom(blocks, j, iteration, maxAttempts, now);
  }

  /** processResult. `read` is the row the counters are computed from: freshly read by the poller, the
      claimed copy for the streaming worker. When the table refuses the last write, the message and the
      iteration stay written. */
  method RecordResult(db: Database, id: RunId, iteration: nat, read: RunRow, response: Response,
                      maxAttempts: int, now: int)
    returns (ok: bool)
    requires id in db.runs && iteration < |db.runs[id].iterations| && RunCheck(db.runs[id].row)
    modifies db
    ensures ok == ProcessResult(old(db.runs[id]), iteration, read, response, maxAttempts, now).1
    ensures db.runs
            == old(db.runs)[id := ProcessResult(old(db.runs[id]), iteration, read, response, maxAttempts, now).0]
  {
    var content, text, hasToolUse := ReadResponse(db.runs[id].row.mode, response.blocks);
    db.CreateMessage(id, Assistant, content);
    var toolExecutionCount := CountToolUses(response.blocks, iteration, maxAttempts, now);
    db.UpdateIteration(id, iteration, db.runs[id].iterations[iteration].(
      completed := true, hasToolUse := hasToolUse, toolExecutionCount := toolExecutionCount, usage := response.usage));

    var row := db.runs[id].row;
    if hasToolUse {
      var params := BuildToolParams(response.blocks, iteration, maxAttempts, now);
      ok := db.CreateToolExecutionsAndUpdateRun(id, params, row.(
        state := PendingTools,
        toolIterations := read.toolIterations + 1,
        iterationCount := read.iterationCount + 1,
        usage := read.usage.Plus(response.usage)));
    } else {
      ok := db.UpdateRun(id, CompleteRun(row, read, response.usage, text));
    }
  }

  /** processRun after the batch was accepted. */
  method FinishSubmission(db: Database, id: RunId, w: nat)
    requires id in db.runs && WorkerAt(db.runs[id], w, Batch) && RunCheck(db.runs[id].row)
    modifies db
    ensures db.runs == old(db.runs)[id := FinishSubmit(old(db.runs[id]), w)]
  {
    var i := db.runs[id].workers[w].phase.iteration;
    var iteration := db.runs[id].iterations[i];
    db.UpdateIteration(id, i, iteration.(batchStatus := InProgress));
    var ok := db.UpdateRun(id, db.runs[id].row.(
      state := BatchPending, currentIteration := iteration.number, currentIterationId := Some(i)));
    if !ok {
      var _ := db.UpdateRun(id, FailRun(db.runs[id].row, "failed to update run state"));
    }
    db.runs := db.runs[id := DropWorker(db.runs[id], w)];
  }

  /** processRun after the stream ended: the counters come from the claimed copy. */
  method FinishStreaming(db: Database, id: RunId, w: nat, response: Response, maxAttempts: int, now: int)
    requires id in db.runs && WorkerAt(db.runs[id], w, Streaming) && RunCheck(db.runs[id].row)
    modifies db
    ensures db.runs == old(db.runs)[id := FinishStream(old(db.runs[id]), w, response, maxAttempts, now)]
  {
    var worker := db.runs[id].workers[w];
    var ok := RecordResult(db, id, worker.phase.iteration, worker.copy, response, maxAttempts, now);
    if !ok {
      ResultKeepsCheck(old(db.runs[id]), worker.phase.iteration, worker.copy, response, maxAttempts, now);
      var _ := db.UpdateRun(id, FailRun(db.runs[id].row, "failed to update run"));
    }
    db.runs := db.runs[id := DropWorker(db.runs[id], w)];
  }

  lemma ResultKeepsCheck(rec: RunRec, i: nat, read: RunRow, response: Response, maxAttempts: int, now: int)
    requires i < |rec.iterations| && RunCheck(rec.row)
    ensures RunCheck(ProcessResult(rec, i, read, response, maxAttempts, now).0.row)
  {
  }

  // ---------------------------------------------------------------------------
  // batch_poller.go: pollIteration, handleBatchComplete
  // ---------------------------------------------------------------------------

  /** What the batch API says about the batch; `Unreachable` is a failed request. */
  datatype BatchAnswer = Unreachable | Processing | BeingCanceled | HasEnded

  function PollEvent(p: nat, answer: BatchAnswer): Event {
    match answer
    case Unreachable => PollLost(p)
    case Processing => PollRunning(p)
    case BeingCanceled => PollCanceling(p)
    case HasEnded => PollEnded(p)
  }

  /** pollIteration from the answer on; a batch that has ended keeps the poller busy with its results. */
  method PollIteration(db: Database, id: RunId, p: nat, answer: BatchAnswer)
    requires id in db.runs && PollerAt(db.runs[id], p, false) && RunCheck(db.runs[id].row)
    modifies db
    ensures db.runs == old(db.runs)[id := Apply(old(db.runs[id]), PollEvent(p, answer))]
  {
    var i := db.runs[id].pollers[p].iteration;
    var iteration := db.runs[id].iterations[i];
    match answer {
      case Unreachable =>
      case Processing =>
        if db.runs[id].row.state == BatchPending {
          var _ := db.UpdateRun(id, db.runs[id].row.(state := BatchProcessing));
        }
      case BeingCanceled =>
        db.UpdateIteration(id, i, iteration.(batchStatus := Canceling));
      case HasEnded =>
        db.UpdateIteration(id, i, iteration.(batchStatus := Ended));
        var polled := db.runs[id];
        db.runs := db.runs[id := polled.(pollers := polled.pollers[p := polled.pollers[p].(fetching := true)])];
        return;
    }
    db.runs := db.runs[id := DropPoller(db.runs[id], p)];
  }

  /** What the results endpoint says; `Missing` is a result file without our request, or a result without
      a message. */
  datatype BatchResult =
    | FetchFailed(message: string)
    | Missing
    | Errored(message: string)
    | Result(response: Response)

  function ResultEvent(p: nat, result: BatchResult, maxAttempts: int, now: int): Event {
    match result
    case FetchFailed(m) => PollErrored(p, m)
    case Missing => PollLost(p)
    case Errored(m) => PollErrored(p, m)
    case Result(response) => PollSucceeded(p, response, maxAttempts, now)
  }

  /** UpdateRunState(failed). */
  method StoreFailure(db: Database, id: RunId, message: string)
    requires id in db.runs && RunCheck(db.runs[id].row)
    modifies db
    ensures db.runs == old(db.runs)[id := WithRow(old(db.runs[id]), FailRun(old(db.runs[id]).row, message))]
  {
    var _ := db.UpdateRun(id, FailRun(db.runs[id].row, message));
  }

  /** handleBatchComplete after the fetch: the run is read only now. */
  method HandleBatchComplete(db: Database, id: RunId, p: nat, result: BatchResult, maxAttempts: int, now: int)
    requires id in db.runs && PollerAt(db.runs[id], p, true) && RunCheck(db.runs[id].row)
    modifies db
    ensures db.runs == old(db.runs)[id := Apply(old(db.runs[id]), ResultEvent(p, result, maxAttempts, now))]
  {
    var i := db.runs[id].pollers[p].iteration;
    match result {
      case FetchFailed(m) => StoreFailure(db, id, m);
      case Missing =>
      case Errored(m) => StoreFailure(db, id, m);
      case Result(response) => var _ := RecordResult(db, id, i, db.runs[id].row, response, maxAttempts, now);
    }
    db.runs := db.runs[id := DropPoller(db.runs[id], p)];
  }

  // ---------------------------------------------------------------------------
  // tool_worker.go
  // ---------------------------------------------------------------------------

  /** executeTool behind Execute, with handleToolError: which statement each outcome leads to. */
  method FinishTool(db: Database, id: RunId, k: nat, attempt: nat, outcome: Outcome, delay: int, now: int)
    requires id in db.runs && k < |db.runs[id].execs|
    requires ExecCheck(db.runs[id].execs[k])
    modifies db
    ensures var r := ToolResultRow(old(db.runs[id]).execs[k], attempt, outcome, delay, now);
            db.runs == if r.Some? then old(db.runs)[id := WithExec(old(db.runs[id]), k, r.value)] else old(db.runs)
  {
    var exec := db.runs[id].execs[k];
    match outcome {
      case AgentRefused(m) =>
        var _ := db.UpdateToolExecution(id, k, CompleteTool(exec, "", true, m));
      case ToolMissing =>
        var _ := db.UpdateToolExecution(id, k, CompleteTool(exec, "", true, "tool not found"));
      case Succeeded(output) =>
        var _ := db.UpdateToolExecution(id, k, CompleteTool(exec, output, false, ""));
      case CancelError(m) =>
        var _ := db.UpdateToolExecution(id, k, DiscardTool(exec, m));
      case DiscardError(m) =>
        var _ := db.UpdateToolExecution(id, k, DiscardTool(exec, m));
      case SnoozeError(duration) =>
        var _ := db.UpdateToolExecution(id, k, exec.(
          state := ExecPending, claimedBy := None, scheduledAt := now + duration,
          attemptCount := if exec.attemptCount == 0 then 0 else exec.attemptCount - 1,
          snoozeCount := exec.snoozeCount + 1));
      case OtherError(m) =>
        if attempt >= exec.maxAttempts {
          var _ := db.UpdateToolExecution(id, k, CompleteTool(exec, m, true, m));
        } else {
          var _ := db.UpdateToolExecution(id, k, exec.(
            state := ExecPending, claimedBy := None, scheduledAt := now + delay));
        }
    }
  }

  /** handleAllToolsComplete: nothing unless the run waits for tools and knows its iteration; then one
      result per execution fetched, and the continuation. */
  method HandleAllToolsComplete(db: Database, id: RunId, fetched: seq<nat>)
    requires id in db.runs
    requires db.runs[id].row.currentIterationId.Some? ==>
      Fetches(db.runs[id].execs, db.runs[id].row.currentIterationId.value, fetched)
    modifies db
    ensures var rec := old(db.runs[id]);
            db.runs ==
            if rec.row.state == PendingTools && rec.row.currentIterationId.Some?
            then old(db.runs)[id := CompleteToolsAndContinue(rec, ResultBlocks(rec.execs, fetched))]
            else old(db.runs)
  {
    var rec := db.runs[id];
    if rec.row.state != PendingTools {
      return;
    }
    if rec.row.currentIterationId.None? {
      return;
    }
    var blocks: seq<ContentBlock> := [];
    for j := 0 to |fetched|
      invariant |blocks| == j
      invariant forall m :: 0 <= m < j ==> blocks[m] == ResultBlock(rec.execs[fetched[m]])
    {
      var exec := rec.execs[fetched[j]];
      var output := exec.output;
      if output == "" && exec.isError {
        output := exec.errorMessage;
      }
      blocks := blocks + [ToolResultBlock(exec.toolUseId, output, exec.isError)];
    }
    assert blocks == ResultBlocks(rec.execs, fetched);
    var _ := db.CompleteToolsAndContinueRun(id, blocks);
  }

  /** What the query of the stuck check finds, with the executions of the run's iteration. */
  ghost predicate ReadyToContinue(rec: RunRec, fetched: seq<nat>) {
    && rec.row.state == PendingTools && rec.row.currentIterationId.Some?
    && Fetches(rec.execs, rec.row.currentIterationId.value, fetched)
    && IterationFinished(rec.execs, rec.row.currentIterationId.value)
  }

  ghost predicate Continued(rec: RunRec, fetched: seq<nat>, rec': RunRec) {
    && (forall j :: 0 <= j < |fetched| ==> fetched[j] < |rec.execs| && ExecTerminal(rec.execs[fetched[j]].state))
    && rec' == CompleteToolsAndContinue(rec, ResultBlocks(rec.execs, fetched))
  }

  method ContinueStuckRun(db: Database, id: RunId, fetched: seq<nat>)
    requires id in db.runs && ReadyToContinue(db.runs[id], fetched)
    modifies db
    ensures db.runs.Keys == old(db.runs).Keys
    ensures forall r :: r in db.runs && r != id ==> db.runs[r] == old(db.runs)[r]
    ensures Continued(old(db.runs[id]), fetched, db.runs[id])
  {
    HandleAllToolsComplete(db, id, fetched);
  }

  /** checkForStuckRuns: every run of the query goes on, with final results only, and no other run
      changes. */
  method CheckForStuckRuns(db: Database, stuck: seq<RunId>, fetched: map<RunId, seq<nat>>)
    requires forall j, j' :: 0 <= j < j' < |stuck| ==> stuck[j] != stuck[j']
    requires forall r :: r in stuck ==> r in db.runs && r in fetched && ReadyToContinue(db.runs[r], fetched[r])
    modifies db
    ensures db.runs.Keys == old(db.runs).Keys
    ensures forall r :: r in db.runs && r !in stuck ==> db.runs[r] == old(db.runs)[r]
    ensures forall r :: r in stuck ==> Continued(old(db.runs)[r], fetched[r], db.runs[r])
  {
    for j := 0 to |stuck|
      invariant db.runs.Keys == old(db.runs).Keys
      invariant forall r :: r in db.runs && r !in stuck ==> db.runs[r] == old(db.runs)[r]
      invariant forall m :: j <= m < |stuck| ==> db.runs[stuck[m]] == old(db.runs)[stuck[m]]
      invariant forall m :: 0 <= m < j ==> Continued(old(db.runs)[stuck[m]], fetched[stuck[m]], db.runs[stuck[m]])
    {
      ContinueStuckRun(db, stuck[j], fetched[stuck[j]]);
    }
  }

  /** executeAgentTool, when its input could be read: a child run, then the link to it. */
  method ExecuteAgentTool(db: Database, parent: RunId, t: nat, child: RunId, task: string)
    requires System.SystemEnabled(db.runs, System.Spawn(parent, t, child, task))
    requires ExecCheck(db.runs[parent].execs[db.runs[parent].toolWorkers[t].exec])
    modifies db
    ensures db.runs == System.SystemApply(old(db.runs), System.Spawn(parent, t, child, task))
  {
    var k := db.runs[parent].toolWorkers[t].exec;
    db.CreateRun(child, System.ChildRow(db.runs[parent].row, parent, k, task));
    var _ := db.UpdateToolExecution(parent, k, db.runs[parent].execs[k].(childRun := Some(child)));
    db.runs := db.runs[parent := DropToolWorker(db.runs[parent], t)];
  }

  // ---------------------------------------------------------------------------
  // rescuer.go
  // ---------------------------------------------------------------------------

  /** What the rescuer does with a run it was given. */
  function Rescued(rec: RunRec, maxRescues: nat): RunRec {
    if rec.row.rescueAttempts >= maxRescues
    then WithRow(rec, FailRun(rec.row, "run exceeded maximum rescue attempts"))
    else RescueRec(rec)
  }

  method RescueAll(db: Database, ids: seq<RunId>, maxRescues: nat)
    requires forall j :: 0 <= j < |ids| ==> ids[j] in db.runs
    requires forall j, j' :: 0 <= j < j' < |ids| ==> ids[j] != ids[j']
    requires forall r :: r in db.runs ==> RunCheck(db.runs[r].row)
    modifies db
    ensures db.runs.Keys == old(db.runs).Keys
    ensures forall r :: r in db.runs ==>
      db.runs[r] == if r in ids then Rescued(old(db.runs)[r], maxRescues) else old(db.runs)[r]
  {
    for j := 0 to |ids|
      invariant db.runs.Keys == old(db.runs).Keys
      invariant forall r :: r in db.runs ==>
        db.runs[r] == if r in ids[..j] then Rescued(old(db.runs)[r], maxRescues) else old(db.runs)[r]
    {
      var id := ids[j];
      assert id !in ids[..j];
      assert ids[..j + 1] == ids[..j] + [id];
      var run := db.runs[id].row;
      if run.rescueAttempts >= maxRescues {
        var _ := db.UpdateRun(id, FailRun(run, "run exceeded maximum rescue attempts"));
      } else {
        db.RescueRunRow(id);
      }
    }
    assert ids[..|ids|] == ids;
  }

  /** rescueStuckRuns. The query already leaves out runs that used up their rescues, so the branch that
      would fail them is never taken: such a run is left exactly as it is, tick after tick. */
  method RescueStuckRuns(db: Database, isLeader: bool, order: seq<RunId>, locked: set<RunId>,
                         now: int, timeout: int, maxRescues: nat)
    requires forall j :: 0 <= j < |order| ==> order[j] in db.runs
    requires forall j, j' :: 0 <= j < j' < |order| ==> order[j] != order[j']
    requires forall r :: r in db.runs ==> RunCheck(db.runs[r].row)
    modifies db
    ensures !isLeader ==> db.runs == old(db.runs)
    ensures db.runs.Keys == old(db.runs).Keys
    ensures forall r :: r in db.runs ==>
      db.runs[r] == old(db.runs)[r]
      || (Stuck(old(db.runs)[r], now, timeout, maxRescues) && db.runs[r] == RescueRec(old(db.runs)[r]))
    ensures forall r :: r in db.runs && old(db.runs)[r].row.rescueAttempts >= maxRescues ==>
      db.runs[r] == old(db.runs)[r]
    ensures forall r :: r in db.runs && old(db.runs)[r].row.state != Failed ==> db.runs[r].row.state != Failed
  {
    if !isLeader {
      return;
    }
    var ids := db.GetStuckRuns(order, locked, now, timeout, maxRescues, 100);
    if ids == [] {
      return;
    }
    RescueAll(db, ids, maxRescues);
    forall r | r in db.runs && r in ids ensures Stuck(old(db.runs)[r], now, timeout, maxRescues) {
      var j :| 0 <= j < |ids| && ids[j] == r;
    }
  }
}
