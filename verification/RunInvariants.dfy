/** What every step of every instance keeps, whatever the interleaving: workers may be slow, die, be
    overtaken by a rescue and write stale copies. */
module RunInvariants {
  import opened Content
  import opened Rows
  import opened RunMachine

  // ---------------------------------------------------------------------------
  // Tool executions: attempts, claims and the workers that hold them
  // ---------------------------------------------------------------------------

  ghost predicate ExecOk(e: ExecRow) {
    && ExecCheck(e)
    && e.maxAttempts > 0
    && e.attemptCount <= e.maxAttempts
    && e.attemptCount + e.snoozeCount == e.claims
    && (e.state == ExecPending ==> e.attemptCount < e.maxAttempts && e.claimedBy.None?)
    && (e.state == ExecRunning ==> e.attemptCount > 0 && e.claimedBy.Some?)
  }

  ghost predicate ExecsOk(execs: seq<ExecRow>) {
    forall k :: 0 <= k < |execs| ==> ExecOk(execs[k])
  }

  /** No two workers hold one execution, and a held execution is not up for claiming. */
  ghost predicate HoldersOk(execs: seq<ExecRow>, holders: seq<ToolWorker>) {
    && (forall t :: 0 <= t < |holders| ==>
          && holders[t].exec < |execs|
          && execs[holders[t].exec].state != ExecPending
          && holders[t].attempt == execs[holders[t].exec].attemptCount)
    && (forall t, u :: 0 <= t < u < |holders| ==> holders[t].exec != holders[u].exec)
  }

  // ---------------------------------------------------------------------------
  // Runs: constraints, progress, continuations and claims
  // ---------------------------------------------------------------------------

  /** Changes of state a run can still make before its next tool round or rescue. */
  function Ahead(s: RunState): nat {
    match s
    case PendingTools => 4
    case Pending => 3
    case BatchPending => 1
    case _ => 0
  }

  /** Every change of state is paid for by a tool round or a rescue, apart from the first four. */
  ghost predicate ProgressOk(rec: RunRec) {
    var budget := 5 * rec.hist.toolRounds + 4 * rec.row.rescueAttempts + 4;
    if IsTerminal(rec.row.state) then rec.hist.changes <= budget
    else rec.hist.changes + 2 * |rec.workers| + Ahead(rec.row.state) + 1 <= budget
  }

  /** Each entry into pending_tools is answered at most once, and the claim is reset between claims. */
  ghost predicate CountsOk(rec: RunRec) {
    && rec.hist.results + (if rec.row.state == PendingTools then 1 else 0) <= rec.hist.toolRounds
    && rec.hist.claims <= rec.hist.clears + (if rec.row.claimedBy.Some? then 1 else 0)
    && rec.hist.clears == rec.hist.results + rec.row.rescueAttempts
  }

  ghost predicate WorkersOk(rec: RunRec) {
    forall w :: 0 <= w < |rec.workers| && rec.workers[w].phase.Requested? ==>
      rec.workers[w].phase.iteration < |rec.iterations|
  }

  ghost predicate RunOk(rec: RunRec) {
    RunCheck(rec.row) && ProgressOk(rec) && CountsOk(rec) && WorkersOk(rec)
  }

  ghost predicate ToolsOk(rec: RunRec) {
    ExecsOk(rec.execs) && HoldersOk(rec.execs, rec.toolWorkers)
  }

  ghost predicate Inv(rec: RunRec) {
    RunOk(rec) && ToolsOk(rec)
  }

  // ---------------------------------------------------------------------------
  // Steps on executions
  // ---------------------------------------------------------------------------

  ghost predicate SameRun(rec: RunRec, rec': RunRec) {
    && rec'.row == rec.row && rec'.iterations == rec.iterations && rec'.workers == rec.workers
    && rec'.pollers == rec.pollers && rec'.messages == rec.messages
    && rec'.hist == rec.hist.(notified := rec'.hist.notified, announced := rec'.hist.announced)
  }

  lemma ExecStepsKeepRun(rec: RunRec, ev: Event)
    requires Enabled(rec, ev) && IsExecEvent(ev)
    ensures SameRun(rec, Apply(rec, ev))
  {
  }

  /** What a tool's outcome does to the row: retries and snoozes only within the attempts left. */
  lemma OutcomeKeepsExec(e: ExecRow, outcome: Outcome, delay: int, now: int)
    requires ExecOk(e) && e.state != ExecPending && (e.agent.Some? ==> outcome.AgentRefused?)
    ensures var r := ToolResultRow(e, e.attemptCount, outcome, delay, now);
            r.Some? ==> ExecOk(r.value) && ExecAdvances(e, r.value)
  {
  }

  /** An execution keeps what it is for, and once ended stays ended; one that calls an agent is not
      queued again once it was claimed. */
  predicate ExecAdvances(e: ExecRow, e': ExecRow) {
    && e'.iteration == e.iteration
    && e'.toolUseId == e.toolUseId
    && e'.agent == e.agent
    && e'.maxAttempts == e.maxAttempts
    && (ExecTerminal(e.state) ==> ExecTerminal(e'.state))
    && (e.agent.Some? && e.state != ExecPending ==> e'.state != ExecPending)
  }

  /** Executions are never removed. */
  ghost predicate ExecsAdvance(execs: seq<ExecRow>, execs': seq<ExecRow>) {
    && |execs| <= |execs'|
    && forall k :: 0 <= k < |execs| ==> ExecAdvances(execs[k], execs'[k])
  }

  predicate Unheld(holders: seq<ToolWorker>, k: nat) {
    forall t :: 0 <= t < |holders| ==> holders[t].exec != k
  }

  /** Only a queued execution finds a new holder. */
  ghost predicate ToolsAdvance(execs: seq<ExecRow>, holders: seq<ToolWorker>,
                               execs': seq<ExecRow>, holders': seq<ToolWorker>) {
    && ExecsOk(execs') && HoldersOk(execs', holders') && ExecsAdvance(execs, execs')
    && (forall k :: 0 <= k < |execs| && execs[k].state != ExecPending && Unheld(holders, k) ==> Unheld(holders', k))
  }

  ghost predicate ToolStepOk(rec: RunRec, rec': RunRec) {
    ToolsAdvance(rec.execs, rec.toolWorkers, rec'.execs, rec'.toolWorkers)
  }

  /** A holder leaves, with or without a last update. */
  lemma DropHolder(execs: seq<ExecRow>, holders: seq<ToolWorker>, t: nat, e: ExecRow)
    requires ExecsOk(execs) && HoldersOk(execs, holders) && t < |holders|
    requires ExecOk(e) && ExecAdvances(execs[holders[t].exec], e)
    ensures ToolsAdvance(execs, holders, execs, holders[..t] + holders[t + 1..])
    ensures ToolsAdvance(execs, holders, execs[holders[t].exec := e], holders[..t] + holders[t + 1..])
  {
    var rest := holders[..t] + holders[t + 1..];
    forall u | 0 <= u < |rest| ensures rest[u] == holders[if u < t then u else u + 1] {}
  }

  /** Updating a row that keeps its attempt count, and does not go back to pending, disturbs no holder. */
  lemma UpdateHeld(execs: seq<ExecRow>, holders: seq<ToolWorker>, k: nat, e: ExecRow)
    requires ExecsOk(execs) && HoldersOk(execs, holders) && k < |execs|
    requires ExecOk(e) && ExecAdvances(execs[k], e) && e.attemptCount == execs[k].attemptCount
    requires e.state == ExecPending ==> execs[k].state == ExecPending
    ensures ToolsAdvance(execs, holders, execs[k := e], holders)
  {
  }

  lemma AddHolder(execs: seq<ExecRow>, holders: seq<ToolWorker>, k: nat, instance: InstanceId)
    requires ExecsOk(execs) && HoldersOk(execs, holders) && k < |execs| && execs[k].state == ExecPending
    ensures var e := ClaimTool(execs[k], instance);
            ToolsAdvance(execs, holders, execs[k := e], holders + [ToolWorker(k, e.attemptCount)])
  {
  }

  lemma StartStepOk(rec: RunRec, ev: Event)
    requires ToolsOk(rec) && Enabled(rec, ev) && ev.StartExec?
    ensures ToolStepOk(rec, Apply(rec, ev))
  {
    var k := rec.toolWorkers[ev.t].exec;
    DropHolder(rec.execs, rec.toolWorkers, ev.t, rec.execs[k]);
    if StartTool(rec.execs[k]).Some? {
      UpdateHeld(rec.execs, rec.toolWorkers, k, StartTool(rec.execs[k]).value);
    }
  }

  /** Finishing updates one execution, if the table allows it, and lets its holder go. */
  lemma FinishEffect(rec: RunRec, ev: Event)
    requires Enabled(rec, ev) && ev.FinishExec?
    ensures var k := rec.toolWorkers[ev.t].exec;
            && Apply(rec, ev).toolWorkers == rec.toolWorkers[..ev.t] + rec.toolWorkers[ev.t + 1..]
            && Apply(rec, ev).execs
               == (match ToolResultRow(rec.execs[k], rec.toolWorkers[ev.t].attempt, ev.outcome, ev.delay, ev.now)
                   case None => rec.execs
                   case Some(e) => rec.execs[k := e])
  {
  }

  lemma FinishedOk(execs: seq<ExecRow>, holders: seq<ToolWorker>, t: nat, outcome: Outcome, delay: int, now: int)
    requires ExecsOk(execs) && HoldersOk(execs, holders) && t < |holders|
    requires execs[holders[t].exec].agent.Some? ==> outcome.AgentRefused?
    ensures var k := holders[t].exec;
            var result := ToolResultRow(execs[k], holders[t].attempt, outcome, delay, now);
            ToolsAdvance(execs, holders, if result.Some? then execs[k := result.value] else execs,
                         holders[..t] + holders[t + 1..])
  {
    var k := holders[t].exec;
    OutcomeKeepsExec(execs[k], outcome, delay, now);
    var result := ToolResultRow(execs[k], holders[t].attempt, outcome, delay, now);
    DropHolder(execs, holders, t, if result.Some? then result.value else execs[k]);
  }

  lemma FinishStepOk(rec: RunRec, ev: Event)
    requires ToolsOk(rec) && Enabled(rec, ev) && ev.FinishExec?
    ensures ToolStepOk(rec, Apply(rec, ev))
  {
    FinishEffect(rec, ev);
    FinishedOk(rec.execs, rec.toolWorkers, ev.t, ev.outcome, ev.delay, ev.now);
  }

  lemma ClaimExecStepOk(rec: RunRec, ev: Event)
    requires ToolsOk(rec) && Enabled(rec, ev) && ev.ClaimExec?
    ensures ToolStepOk(rec, Apply(rec, ev))
  {
    AddHolder(rec.execs, rec.toolWorkers, ev.k, ev.instance);
  }

  lemma LeaveStepsOk(rec: RunRec, ev: Event)
    requires ToolsOk(rec) && Enabled(rec, ev)
    requires ev.ToolWorkerDies? || ev.SpawnChild?
    ensures ToolStepOk(rec, Apply(rec, ev))
  {
    match ev
    case ToolWorkerDies(t) =>
      DropHolder(rec.execs, rec.toolWorkers, t, rec.execs[rec.toolWorkers[t].exec]);
      assert Apply(rec, ev).execs == rec.execs;
    case SpawnChild(t, child) =>
      var k := rec.toolWorkers[t].exec;
      var e := rec.execs[k].(childRun := Some(child));
      DropHolder(rec.execs, rec.toolWorkers, t, e);
      assert Apply(rec, ev).execs == rec.execs[k := e];
  }

  lemma OutsideStepsOk(rec: RunRec, ev: Event)
    requires ToolsOk(rec) && Enabled(rec, ev)
    requires ev.ChildEnds? || ev.OrphanExec?
    ensures ToolStepOk(rec, Apply(rec, ev))
  {
    match ev
    case ChildEnds(k, ended) =>
      UpdateHeld(rec.execs, rec.toolWorkers, k, ChildDone(rec.execs[k], ended));
    case OrphanExec(k, instance) =>
      UpdateHeld(rec.execs, rec.toolWorkers, k, OrphanTool(rec.execs[k], instance));
  }

  lemma ExecStepOk(rec: RunRec, ev: Event)
    requires ToolsOk(rec) && Enabled(rec, ev) && IsExecEvent(ev)
    ensures ToolStepOk(rec, Apply(rec, ev))
  {
    if ev.StartExec? {
      StartStepOk(rec, ev);
    } else if ev.FinishExec? {
      FinishStepOk(rec, ev);
    } else if ev.ClaimExec? {
      ClaimExecStepOk(rec, ev);
    } else if ev.ChildEnds? || ev.OrphanExec? {
      OutsideStepsOk(rec, ev);
    } else {
      LeaveStepsOk(rec, ev);
    }
  }

  // ---------------------------------------------------------------------------
  // Steps on the run
  // ---------------------------------------------------------------------------

  lemma {:induction false} NewExecsOk(blocks: seq<ResponseBlock>, id: nat, maxAttempts: int, now: int)
    ensures ExecsOk(ToolExecs(blocks, id, maxAttempts, now))
  {
    if blocks != [] {
      NewExecsOk(blocks[1..], id, maxAttempts, now);
    }
  }

  /** Where a run stands: no step changes it. */
  ghost predicate SameIdentity(row: RunRow, row': RunRow) {
    && row'.parentRun == row.parentRun && row'.parentExec == row.parentExec && row'.depth == row.depth
    && row'.session == row.session && row'.mode == row.mode && row'.variables == row.variables
    && row'.prompt == row.prompt
  }

  /** What a step keeps of the run itself, unless it is a rescue. */
  ghost predicate RunKept(rec: RunRec, rec': RunRec) {
    && SameIdentity(rec.row, rec'.row)
    && RunOk(rec')
    && (IsTerminal(rec.row.state) ==> IsTerminal(rec'.row.state))
    && rec'.row.rescueAttempts == rec.row.rescueAttempts
  }

  /** What every step keeps of it, and what it may do to the rescues. */
  ghost predicate RunStepOk(rec: RunRec, ev: Event, rec': RunRec) {
    && SameIdentity(rec.row, rec'.row)
    && RunOk(rec')
    && (IsTerminal(rec.row.state) ==> IsTerminal(rec'.row.state))
    && rec.row.rescueAttempts <= rec'.row.rescueAttempts
    && (rec.row.rescueAttempts < rec'.row.rescueAttempts ==> ev.Rescue?)
    && rec'.row.rescueAttempts <= rec.row.rescueAttempts + 1
  }

  predicate SameTools(rec: RunRec, rec': RunRec) {
    rec'.execs == rec.execs && rec'.toolWorkers == rec.toolWorkers
  }

  lemma SameToolsOk(rec: RunRec, rec': RunRec)
    requires ToolsOk(rec) && SameTools(rec, rec')
    ensures ToolStepOk(rec, rec')
  {
  }

  lemma FailingOk(rec: RunRec, message: string)
    requires RunOk(rec)
    ensures RunKept(rec, WithRow(rec, FailRun(rec.row, message)))
  {
  }

  /** A worker leaves, after whatever it did last. */
  lemma LeavingOk(rec: RunRec, rec': RunRec, w: nat)
    requires RunKept(rec, rec') && w < |rec'.workers|
    ensures RunKept(rec, DropWorker(rec', w)) && SameTools(rec', DropWorker(rec', w))
  {
    var left := DropWorker(rec', w);
    assert forall v :: 0 <= v < |left.workers| ==> left.workers[v] == rec'.workers[if v < w then v else v + 1];
  }

  /** ProcessResult writes the run only through statements that the constraints accept. */
  lemma ResultKeepsRun(rec: RunRec, id: nat, read: RunRow, response: Response, maxAttempts: int, now: int)
    requires RunOk(rec) && id < |rec.iterations|
    ensures var (rec', accepted) := ProcessResult(rec, id, read, response, maxAttempts, now);
            && RunKept(rec, rec') && rec'.workers == rec.workers
            && (!accepted ==> rec'.row == rec.row && rec'.hist == rec.hist)
  {
  }

  /** And adds executions that are as they should be. */
  lemma ResultKeepsTools(rec: RunRec, id: nat, read: RunRow, response: Response, maxAttempts: int, now: int)
    requires ToolsOk(rec) && id < |rec.iterations|
    ensures ToolStepOk(rec, ProcessResult(rec, id, read, response, maxAttempts, now).0)
  {
    NewExecsOk(response.blocks, id, maxAttempts, now);
  }

  lemma ClaimStepOk(rec: RunRec, ev: Event)
    requires RunOk(rec) && Enabled(rec, ev) && ev.Claim?
    ensures RunKept(rec, Apply(rec, ev)) && SameTools(rec, Apply(rec, ev))
  {
    var rec' := Apply(rec, ev);
    assert rec'.workers[..|rec.workers|] == rec.workers;
  }

  lemma FailStepOk(rec: RunRec, ev: Event)
    requires RunOk(rec) && Enabled(rec, ev) && ev.WorkerFails?
    ensures RunKept(rec, Apply(rec, ev)) && SameTools(rec, Apply(rec, ev))
  {
    FailingOk(rec, ev.message);
    LeavingOk(rec, WithRow(rec, FailRun(rec.row, ev.message)), ev.w);
  }

  lemma StartingOk(rec: RunRec, w: nat)
    requires RunOk(rec) && w < |rec.workers|
    ensures RunKept(rec, StartIteration(rec, w)) && SameTools(rec, StartIteration(rec, w))
  {
  }

  lemma RefusedOk(rec: RunRec, w: nat)
    requires RunOk(rec) && w < |rec.workers|
    requires NumberTaken(rec.iterations, rec.workers[w].copy.currentIteration + 1)
    ensures RunKept(rec, BeginRun(rec, w)) && SameTools(rec, BeginRun(rec, w))
  {
    var prompted := rec.(messages := Prompted(rec, rec.workers[w].copy));
    FailingOk(prompted, "failed to create iteration");
    LeavingOk(rec, WithRow(prompted, FailRun(rec.row, "failed to create iteration")), w);
  }

  lemma BeginStepOk(rec: RunRec, ev: Event)
    requires RunOk(rec) && Enabled(rec, ev) && ev.Begin?
    ensures RunKept(rec, Apply(rec, ev)) && SameTools(rec, Apply(rec, ev))
  {
    if NumberTaken(rec.iterations, rec.workers[ev.w].copy.currentIteration + 1) {
      RefusedOk(rec, ev.w);
    } else {
      StartingOk(rec, ev.w);
    }
  }

  /** The change to batch_pending is paid for by the worker that leaves. */
  lemma SubmittingOk(rec: RunRec, w: nat, id: nat, number: nat)
    requires RunOk(rec) && w < |rec.workers| && SubmitRun(rec.row, number, id).Some?
    ensures RunKept(rec, DropWorker(WithRow(rec, SubmitRun(rec.row, number, id).value), w))
  {
    UntouchedOk(rec, rec);
    LeavingOk(rec, rec, w);
  }

  lemma SubmitStepOk(rec: RunRec, ev: Event)
    requires RunOk(rec) && Enabled(rec, ev) && ev.Submitted?
    ensures RunKept(rec, Apply(rec, ev)) && SameTools(rec, Apply(rec, ev))
  {
    var id := rec.workers[ev.w].phase.iteration;
    var submitted := WithStatus(rec, id, InProgress);
    var updated := SubmitRun(rec.row, rec.iterations[id].number, id);
    if updated.Some? {
      SubmittingOk(submitted, ev.w, id, rec.iterations[id].number);
    } else {
      FailingOk(submitted, "failed to update run state");
      LeavingOk(rec, WithRow(submitted, FailRun(rec.row, "failed to update run state")), ev.w);
    }
  }

  lemma StreamStepOk(rec: RunRec, ev: Event)
    requires Inv(rec) && Enabled(rec, ev) && ev.Streamed?
    ensures RunKept(rec, Apply(rec, ev)) && ToolStepOk(rec, Apply(rec, ev))
  {
    var id, copy := rec.workers[ev.w].phase.iteration, rec.workers[ev.w].copy;
    var (processed, accepted) := ProcessResult(rec, id, copy, ev.response, ev.maxAttempts, ev.now);
    ResultKeepsRun(rec, id, copy, ev.response, ev.maxAttempts, ev.now);
    ResultKeepsTools(rec, id, copy, ev.response, ev.maxAttempts, ev.now);
    if accepted {
      LeavingOk(rec, processed, ev.w);
    } else {
      FailingOk(processed, "failed to update run");
      LeavingOk(rec, WithRow(processed, FailRun(processed.row, "failed to update run")), ev.w);
    }
  }

  lemma DeliverStepOk(rec: RunRec, ev: Event)
    requires Inv(rec) && Enabled(rec, ev) && ev.PollSucceeded?
    ensures RunKept(rec, Apply(rec, ev)) && ToolStepOk(rec, Apply(rec, ev))
  {
    ResultKeepsRun(rec, rec.pollers[ev.p].iteration, rec.row, ev.response, ev.maxAttempts, ev.now);
    ResultKeepsTools(rec, rec.pollers[ev.p].iteration, rec.row, ev.response, ev.maxAttempts, ev.now);
  }

  lemma MarkingOk(rec: RunRec)
    requires RunOk(rec)
    ensures RunKept(rec, MarkProcessing(rec)) && SameTools(rec, MarkProcessing(rec))
  {
  }

  lemma RunningStepOk(rec: RunRec, ev: Event)
    requires RunOk(rec) && Enabled(rec, ev) && ev.PollRunning?
    ensures RunKept(rec, Apply(rec, ev)) && SameTools(rec, Apply(rec, ev))
  {
    MarkingOk(rec);
  }

  lemma ErrorStepOk(rec: RunRec, ev: Event)
    requires RunOk(rec) && Enabled(rec, ev) && ev.PollErrored?
    ensures RunKept(rec, Apply(rec, ev)) && SameTools(rec, Apply(rec, ev))
  {
    FailingOk(rec, ev.message);
  }

  /** A step that leaves row, workers and history alone. */
  lemma UntouchedOk(rec: RunRec, rec': RunRec)
    requires RunOk(rec) && rec'.row == rec.row && rec'.hist == rec.hist && rec'.workers == rec.workers
    requires |rec'.iterations| == |rec.iterations|
    ensures RunKept(rec, rec')
  {
  }

  lemma OtherPollStepOk(rec: RunRec, ev: Event)
    requires RunOk(rec) && Enabled(rec, ev)
    requires ev.PollBegins? || ev.PollCanceling? || ev.PollEnded? || ev.PollLost?
    ensures RunKept(rec, Apply(rec, ev)) && SameTools(rec, Apply(rec, ev))
  {
    UntouchedOk(rec, Apply(rec, ev));
  }

  lemma PollStepsOk(rec: RunRec, ev: Event)
    requires Inv(rec) && Enabled(rec, ev) && IsPollEvent(ev)
    ensures RunKept(rec, Apply(rec, ev)) && ToolStepOk(rec, Apply(rec, ev))
  {
    if ev.PollSucceeded? {
      DeliverStepOk(rec, ev);
    } else {
      if ev.PollRunning? {
        RunningStepOk(rec, ev);
      } else if ev.PollErrored? {
        ErrorStepOk(rec, ev);
      } else {
        OtherPollStepOk(rec, ev);
      }
      SameToolsOk(rec, Apply(rec, ev));
    }
  }

  lemma WorkerStepsOk(rec: RunRec, ev: Event)
    requires Inv(rec) && Enabled(rec, ev) && IsWorkerEvent(ev)
    ensures RunKept(rec, Apply(rec, ev)) && ToolStepOk(rec, Apply(rec, ev))
  {
    if ev.Streamed? {
      StreamStepOk(rec, ev);
    } else {
      if ev.Begin? {
        BeginStepOk(rec, ev);
      } else if ev.Submitted? {
        SubmitStepOk(rec, ev);
      } else if ev.WorkerFails? {
        FailStepOk(rec, ev);
      } else {
        UntouchedOk(rec, rec);
        LeavingOk(rec, rec, ev.w);
      }
      SameToolsOk(rec, Apply(rec, ev));
    }
  }

  lemma ContinueStepOk(rec: RunRec, ev: Event)
    requires RunOk(rec) && Enabled(rec, ev) && ev.Continue?
    ensures RunKept(rec, Apply(rec, ev)) && SameTools(rec, Apply(rec, ev))
  {
  }

  lemma RescueStepOk(rec: RunRec, ev: Event)
    requires RunOk(rec) && Enabled(rec, ev) && ev.Rescue?
    ensures RunStepOk(rec, ev, Apply(rec, ev)) && SameTools(rec, Apply(rec, ev))
  {
  }

  lemma OrphanStepOk(rec: RunRec, ev: Event)
    requires RunOk(rec) && Enabled(rec, ev) && ev.Orphan?
    ensures RunKept(rec, Apply(rec, ev)) && SameTools(rec, Apply(rec, ev))
  {
    FailingOk(rec, "Instance disconnected");
    UntouchedOk(rec, rec);
  }

  lemma RowStepsOk(rec: RunRec, ev: Event)
    requires Inv(rec) && Enabled(rec, ev) && (ev.Claim? || ev.Continue? || ev.Rescue? || ev.Orphan?)
    ensures RunStepOk(rec, ev, Apply(rec, ev)) && ToolStepOk(rec, Apply(rec, ev))
  {
    match ev {
      case Claim(_, _) => ClaimStepOk(rec, ev);
      case Continue(_) => ContinueStepOk(rec, ev);
      case Rescue(_, _, _) => RescueStepOk(rec, ev);
      case Orphan(_) => OrphanStepOk(rec, ev);
    }
    SameToolsOk(rec, Apply(rec, ev));
  }

  // ---------------------------------------------------------------------------
  // Every step, and every run
  // ---------------------------------------------------------------------------

  lemma StepOk(rec: RunRec, ev: Event)
    requires Inv(rec) && Enabled(rec, ev)
    ensures Inv(Apply(rec, ev)) && RunStepOk(rec, ev, Apply(rec, ev)) && ToolStepOk(rec, Apply(rec, ev))
  {
    if IsExecEvent(ev) {
      ExecStepsKeepRun(rec, ev);
      ExecStepOk(rec, ev);
    } else if IsPollEvent(ev) {
      PollStepsOk(rec, ev);
    } else if IsWorkerEvent(ev) {
      WorkerStepsOk(rec, ev);
    } else {
      RowStepsOk(rec, ev);
    }
  }

  lemma FreshInv(row: RunRow)
    requires Fresh(row)
    ensures Inv(NewRec(row))
  {
  }

  lemma {:induction false} Reachable(rec: RunRec, events: seq<Event>)
    requires Inv(rec) && Feasible(rec, events)
    ensures Inv(After(rec, events))
    decreases |events|
  {
    if events != [] {
      StepOk(rec, events[0]);
      Reachable(Apply(rec, events[0]), events[1..]);
    }
  }

  /** Once a run has ended it never leaves the terminal states again, although most updates are
      unguarded and workers that were overtaken still write: the table's constraint stops them. */
  lemma {:induction false} TerminalIsAbsorbing(rec: RunRec, events: seq<Event>)
    requires Inv(rec) && Feasible(rec, events) && IsTerminal(rec.row.state)
    ensures IsTerminal(After(rec, events).row.state)
    decreases |events|
  {
    if events != [] {
      StepOk(rec, events[0]);
      TerminalIsAbsorbing(Apply(rec, events[0]), events[1..]);
    }
  }

  /** So does a tool execution. */
  lemma {:induction false} ToolEndIsAbsorbing(rec: RunRec, events: seq<Event>)
    requires Inv(rec) && Feasible(rec, events)
    ensures ExecsAdvance(rec.execs, After(rec, events).execs)
    decreases |events|
  {
    if events != [] {
      StepOk(rec, events[0]);
      ToolEndIsAbsorbing(Apply(rec, events[0]), events[1..]);
    }
  }

  predicate RescuesBounded(events: seq<Event>, maxRescues: nat) {
    forall j :: 0 <= j < |events| && events[j].Rescue? ==> events[j].maxRescues <= maxRescues
  }

  lemma {:induction false} RescueBound(rec: RunRec, events: seq<Event>, maxRescues: nat)
    requires Inv(rec) && Feasible(rec, events) && RescuesBounded(events, maxRescues)
    requires rec.row.rescueAttempts <= maxRescues
    ensures After(rec, events).row.rescueAttempts <= maxRescues
    decreases |events|
  {
    if events != [] {
      StepOk(rec, events[0]);
      assert events[0].Rescue? ==> rec.row.rescueAttempts < maxRescues;
      RescueBound(Apply(rec, events[0]), events[1..], maxRescues);
    }
  }

  /** Bounded progress: while it is alive a run changes state at most 5 times per tool round and 4 times
      per rescue, plus 4; and it is rescued at most `maxRescues` times. */
  lemma BoundedProgress(row: RunRow, events: seq<Event>, maxRescues: nat)
    requires Fresh(row) && Feasible(NewRec(row), events) && RescuesBounded(events, maxRescues)
    ensures var rec := After(NewRec(row), events);
            && rec.row.rescueAttempts <= maxRescues
            && rec.hist.changes <= 5 * rec.hist.toolRounds + 4 * rec.row.rescueAttempts + 4
  {
    FreshInv(row);
    Reachable(NewRec(row), events);
    RescueBound(NewRec(row), events, maxRescues);
  }

  function Waits(rec: RunRec): nat {
    if rec.row.state == PendingTools then 1 else 0
  }

  lemma AnswersOneRound(rec: RunRec, ev: Event)
    requires Enabled(rec, ev)
    ensures var rec' := Apply(rec, ev);
            rec'.hist.results + Waits(rec') - rec.hist.results - Waits(rec)
            <= rec'.hist.toolRounds - rec.hist.toolRounds
  {
    if IsExecEvent(ev) {
      ExecStepsKeepRun(rec, ev);
    } else if IsPollEvent(ev) {
      PollAnswersOneRound(rec, ev);
    } else if ev.Streamed? {
      StreamAnswersOneRound(rec, ev);
    } else if IsWorkerEvent(ev) {
      WorkAnswersOneRound(rec, ev);
    } else {
      RowStepAnswersOneRound(rec, ev);
    }
  }

  lemma RowStepAnswersOneRound(rec: RunRec, ev: Event)
    requires Enabled(rec, ev) && (ev.Claim? || ev.Continue? || ev.Rescue? || ev.Orphan?)
    ensures var rec' := Apply(rec, ev);
            rec'.hist.results + Waits(rec') - rec.hist.results - Waits(rec)
            <= rec'.hist.toolRounds - rec.hist.toolRounds
  {
  }

  lemma WorkAnswersOneRound(rec: RunRec, ev: Event)
    requires Enabled(rec, ev) && IsWorkerEvent(ev) && !ev.Streamed?
    ensures var rec' := Apply(rec, ev);
            rec'.hist.results + Waits(rec') - rec.hist.results - Waits(rec)
            <= rec'.hist.toolRounds - rec.hist.toolRounds
  {
  }

  lemma StreamAnswersOneRound(rec: RunRec, ev: Event)
    requires Enabled(rec, ev) && ev.Streamed?
    ensures var rec' := Apply(rec, ev);
            rec'.hist.results + Waits(rec') - rec.hist.results - Waits(rec)
            <= rec'.hist.toolRounds - rec.hist.toolRounds
  {
  }

  lemma PollAnswersOneRound(rec: RunRec, ev: Event)
    requires Enabled(rec, ev) && IsPollEvent(ev)
    ensures var rec' := Apply(rec, ev);
            rec'.hist.results + Waits(rec') - rec.hist.results - Waits(rec)
            <= rec'.hist.toolRounds - rec.hist.toolRounds
  {
  }

  /** However often and by however many instances the end of the tools is announced or noticed: in any
      stretch of any history, each tool_result message uses up an entry into pending_tools of that
      stretch, or the wait it began with. So between two entries there is at most one, and an entry that
      went unanswered is never made up for. */
  lemma {:induction false} AnsweredOncePerEntry(rec: RunRec, events: seq<Event>)
    requires Feasible(rec, events)
    ensures var rec' := After(rec, events);
            rec'.hist.results + Waits(rec') - rec.hist.results - Waits(rec)
            <= rec'.hist.toolRounds - rec.hist.toolRounds
    decreases |events|
  {
    if events != [] {
      AnswersOneRound(rec, events[0]);
      AnsweredOncePerEntry(Apply(rec, events[0]), events[1..]);
    }
  }

  /** A run is claimed again only after a continuation or a rescue gave the claim back. */
  lemma ClaimedOncePerReset(row: RunRow, events: seq<Event>)
    requires Fresh(row) && Feasible(NewRec(row), events)
    ensures var rec := After(NewRec(row), events);
            && rec.hist.claims <= 1 + rec.hist.results + rec.row.rescueAttempts
            && (rec.row.claimedBy.None? ==> rec.hist.claims <= rec.hist.results + rec.row.rescueAttempts)
  {
    FreshInv(row);
    Reachable(NewRec(row), events);
  }

  /** Attempt accounting. Attempts and snoozes together are the claims; attempts stay within the
      maximum, so an execution is claimed at most maxAttempts times beyond its snoozes; a pending one
      has an attempt left; no execution is held twice; and a snooze always has an attempt to give
      back, so the clamp at zero never acts. */
  lemma AttemptAccounting(row: RunRow, events: seq<Event>)
    requires Fresh(row) && Feasible(NewRec(row), events)
    ensures var rec := After(NewRec(row), events);
            && (forall k :: 0 <= k < |rec.execs| ==>
                  var e := rec.execs[k];
                  && e.attemptCount + e.snoozeCount == e.claims
                  && e.claims <= e.maxAttempts + e.snoozeCount
                  && (e.state == ExecPending ==> e.attemptCount < e.maxAttempts && e.claimedBy.None?))
            && (forall t, u :: 0 <= t < u < |rec.toolWorkers| ==> rec.toolWorkers[t].exec != rec.toolWorkers[u].exec)
            && (forall t :: 0 <= t < |rec.toolWorkers| ==>
                  rec.toolWorkers[t].exec < |rec.execs|
                  && (rec.execs[rec.toolWorkers[t].exec].state == ExecRunning ==>
                        rec.execs[rec.toolWorkers[t].exec].attemptCount > 0))
  {
    FreshInv(row);
    Reachable(NewRec(row), events);
    var rec := After(NewRec(row), events);
    forall k | 0 <= k < |rec.execs| ensures ExecOk(rec.execs[k]) {}
  }
}
