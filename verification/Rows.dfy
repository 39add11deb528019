/** The rows of the run, iteration and tool execution tables, and what each SQL statement does to one.

    Most statements are unguarded (`WHERE id = $1`), but the tables carry CHECK constraints: a
    statement that would break one fails and changes nothing. That is `None` here. */
module Rows {
  import opened Content

  type InstanceId = string
  type RunId = nat

  datatype RunMode = Batch | Streaming

  /** constants.go:73-86. */
  datatype RunState =
    | Pending
    | BatchSubmitting
    | BatchPending
    | BatchProcessing
    | StreamingRun
    | PendingTools
    | AwaitingInput
    | Completed
    | Cancelled
    | Failed

  predicate IsTerminal(s: RunState) {
    s == Completed || s == Cancelled || s == Failed
  }

  datatype RunRow = RunRow(
    session: nat,
    mode: RunMode,
    parentRun: Option<RunId>,
    parentExec: nat,
    depth: nat,
    prompt: string,
    variables: string,
    state: RunState,
    currentIteration: nat,
    currentIterationId: Option<nat>,
    responseText: string,
    usage: Usage,
    iterationCount: nat,
    toolIterations: nat,
    errorMessage: string,
    claimedBy: Option<InstanceId>,
    claimedAt: Option<int>,
    finalized: bool,
    rescueAttempts: nat)

  /** run_finalized_consistency and run_depth_consistency. */
  predicate RunCheck(r: RunRow) {
    (IsTerminal(r.state) <==> r.finalized) && (r.parentRun.None? <==> r.depth == 0)
  }

  function Checked(r: RunRow): Option<RunRow> {
    if RunCheck(r) then Some(r) else None
  }

  function NewRun(session: nat, mode: RunMode, parent: Option<RunId>, parentExec: nat, depth: nat,
                  prompt: string, variables: string): RunRow {
    RunRow(session, mode, parent, parentExec, depth, prompt, variables, Pending, 0, None, "", NO_USAGE, 0, 0, "",
           None, None, false, 0)
  }

  predicate Claimable(r: RunRow) {
    r.state == Pending && r.claimedBy.None?
  }

  function ClaimedState(mode: RunMode): RunState {
    if mode == Batch then BatchSubmitting else StreamingRun
  }

  /** agentpg_claim_runs, on one row. */
  function ClaimRun(r: RunRow, instance: InstanceId, now: int): RunRow {
    r.(claimedBy := Some(instance), claimedAt := Some(now), state := ClaimedState(r.mode))
  }

  /** UpdateRunState(failed) with finalized_at: failRun, the batch poller. */
  function FailRun(r: RunRow, message: string): RunRow {
    r.(state := Failed, finalized := true, errorMessage := message)
  }

  /** UpdateRunState(batch_pending) with the iteration's number and id. */
  function SubmitRun(r: RunRow, number: nat, iteration: nat): Option<RunRow> {
    Checked(r.(state := BatchPending, currentIteration := number, currentIterationId := Some(iteration)))
  }

  /** UpdateRun with the iteration's number and id: what the streaming worker writes first. */
  function EnterIteration(r: RunRow, number: nat, iteration: nat): RunRow {
    r.(currentIteration := number, currentIterationId := Some(iteration))
  }

  /** UpdateRunState(batch_processing). */
  function ProcessingRun(r: RunRow): Option<RunRow> {
    Checked(r.(state := BatchProcessing))
  }

  /** agentpg_create_tool_executions_and_update_run: counters come from the row the worker read. */
  function AwaitTools(r: RunRow, read: RunRow, usage: Usage): Option<RunRow> {
    Checked(r.(state := PendingTools,
               toolIterations := read.toolIterations + 1,
               iterationCount := read.iterationCount + 1,
               usage := read.usage.Plus(usage)))
  }

  /** UpdateRunState(completed) with response and finalized_at. */
  function CompleteRun(r: RunRow, read: RunRow, usage: Usage, text: string): RunRow {
    r.(state := Completed, finalized := true, responseText := text,
       iterationCount := read.iterationCount + 1,
       usage := read.usage.Plus(usage))
  }

  /** agentpg_complete_tools_and_continue_run, after its test of the state. */
  function ContinueRun(r: RunRow): Option<RunRow> {
    Checked(r.(state := Pending, claimedBy := None, claimedAt := None))
  }

  /** RescueRun. */
  function RescueRun(r: RunRow): Option<RunRow> {
    Checked(r.(state := Pending, claimedBy := None, claimedAt := None, rescueAttempts := r.rescueAttempts + 1))
  }

  /** agentpg_cleanup_orphaned_work, on one run. */
  function OrphanRun(r: RunRow, instance: InstanceId): RunRow {
    if r.claimedBy == Some(instance) && !IsTerminal(r.state) then FailRun(r, "Instance disconnected") else r
  }

  // ---------------------------------------------------------------------------
  // Iterations
  // ---------------------------------------------------------------------------

  datatype BatchStatus = NotSubmitted | InProgress | Canceling | Ended

  datatype Iteration = Iteration(
    number: nat,
    batchStatus: BatchStatus,
    completed: bool,
    hasToolUse: bool,
    toolExecutionCount: nat,
    usage: Usage)

  // ---------------------------------------------------------------------------
  // Tool executions
  // ---------------------------------------------------------------------------

  datatype ExecState = ExecPending | ExecRunning | ExecCompleted | ExecFailed | ExecSkipped

  predicate ExecTerminal(s: ExecState) {
    s == ExecCompleted || s == ExecFailed || s == ExecSkipped
  }

  /** `claims` is not a column: it counts how often the row was claimed. */
  datatype ExecRow = ExecRow(
    iteration: nat,
    toolUseId: string,
    toolName: string,
    toolInput: string,
    agent: Option<nat>,
    childRun: Option<RunId>,
    state: ExecState,
    output: string,
    isError: bool,
    errorMessage: string,
    claimedBy: Option<InstanceId>,
    attemptCount: nat,
    maxAttempts: nat,
    snoozeCount: nat,
    scheduledAt: int,
    finished: bool,
    claims: nat)

  /** tool_exec_state_consistency. */
  predicate ExecCheck(e: ExecRow) {
    ExecTerminal(e.state) <==> e.finished
  }

  function CheckedExec(e: ExecRow): Option<ExecRow> {
    if ExecCheck(e) then Some(e) else None
  }

  function NewExec(iteration: nat, id: string, name: string, input: string, agent: Option<nat>,
                   maxAttempts: int, now: int): ExecRow {
    ExecRow(iteration, id, name, input, agent, None, ExecPending, "", false, "", None, 0,
            if maxAttempts <= 0 then 2 else maxAttempts, 0, now, false, 0)
  }

  predicate ToolClaimable(e: ExecRow, now: int) {
    e.state == ExecPending && e.claimedBy.None? && e.scheduledAt <= now
  }

  /** agentpg_claim_tool_executions, on one row. */
  function ClaimTool(e: ExecRow, instance: InstanceId): ExecRow {
    e.(claimedBy := Some(instance), state := ExecRunning, attemptCount := e.attemptCount + 1,
       claims := e.claims + 1)
  }

  /** UpdateToolExecution(running). */
  function StartTool(e: ExecRow): Option<ExecRow> {
    CheckedExec(e.(state := ExecRunning))
  }

  function CompleteTool(e: ExecRow, output: string, isError: bool, message: string): ExecRow {
    e.(state := if isError then ExecFailed else ExecCompleted, output := output, isError := isError,
       errorMessage := message, finished := true)
  }

  function DiscardTool(e: ExecRow, message: string): ExecRow {
    e.(state := ExecFailed, isError := true, errorMessage := message, finished := true)
  }

  function SnoozeTool(e: ExecRow, at: int): Option<ExecRow> {
    CheckedExec(e.(state := ExecPending, claimedBy := None, scheduledAt := at,
                   attemptCount := if e.attemptCount == 0 then 0 else e.attemptCount - 1,
                   snoozeCount := e.snoozeCount + 1))
  }

  function RetryTool(e: ExecRow, at: int): Option<ExecRow> {
    CheckedExec(e.(state := ExecPending, claimedBy := None, scheduledAt := at))
  }

  /** agentpg_handle_child_run_complete: the result of a child run lands in the execution that spawned it. */
  function ChildDone(e: ExecRow, child: RunRow): ExecRow {
    if e.state == ExecRunning then
      e.(state := if child.state == Completed then ExecCompleted else ExecFailed,
         output := child.responseText, isError := child.state != Completed,
         errorMessage := child.errorMessage, finished := true)
    else e
  }

  /** agentpg_cleanup_orphaned_work, on one execution: note that is_error stays as it is. */
  function OrphanTool(e: ExecRow, instance: InstanceId): ExecRow {
    if e.claimedBy == Some(instance) && e.state == ExecRunning then
      e.(state := ExecFailed, errorMessage := "Instance disconnected", finished := true)
    else e
  }

  /** The tool result the model is shown for an execution (tool_worker.go:337-350). */
  function ResultBlock(e: ExecRow): ContentBlock {
    ToolResultBlock(e.toolUseId, if e.output == "" && e.isError then e.errorMessage else e.output, e.isError)
  }
}
