/** One run as a transition system: its row, iterations, tool executions and messages, the workers
    that hold a copy of it, and every step any instance can take on it.

    A worker's window between claiming a row and writing its result is open: other instances act in
    between, and the worker then writes from the copy it claimed. Reading a row and writing it back
    within one routine is one step. */
module RunMachine {
  import opened Content
  import opened Rows

  datatype StoredMessage = StoredMessage(role: Role, content: seq<ContentBlock>)

  /** A worker inside processRun, with the row as it was returned by the claim. */
  datatype Worker = Worker(instance: InstanceId, copy: RunRow, phase: Phase)
  datatype Phase = Claimed | Requested(iteration: nat)

  /** A batch poller inside pollIteration: it asks for the batch's status and, once it has stored that
      the batch ended, for its results. */
  datatype Poller = Poller(instance: InstanceId, iteration: nat, fetching: bool)

  /** A tool worker inside executeTool, with the attempt count its claim returned. */
  datatype ToolWorker = ToolWorker(exec: nat, attempt: nat)

  /** What happened so far; none of this is stored.
      `changes` counts changes of the state of a run that has not ended, `toolRounds` the entries into
      pending_tools, `results` the tool_result messages, `claims` and `clears` how often the claim was
      set and reset; `notified` tells whether an agentpg_tools_complete notification was ever sent, and
      `announced` whether one was sent since the last entry into pending_tools. */
  datatype History = History(
    changes: nat, toolRounds: nat, results: nat, claims: nat, clears: nat, notified: bool, announced: bool)

  datatype RunRec = RunRec(
    row: RunRow,
    iterations: seq<Iteration>,
    execs: seq<ExecRow>,
    messages: seq<StoredMessage>,
    workers: seq<Worker>,
    pollers: seq<Poller>,
    toolWorkers: seq<ToolWorker>,
    hist: History)

  /** A response of the model. `agent` is the result of looking the tool's name up among the agents. */
  type OtherKind = kind: BlockType | kind != Text && kind != ToolUse witness Thinking

  datatype ResponseBlock =
    | RText(text: string)
    | RToolUse(id: string, name: string, input: string, agent: Option<nat>)
    | ROther(kind: OtherKind)

  datatype Response = Response(blocks: seq<ResponseBlock>, usage: Usage)

  /** How a claimed execution ended (tool_worker.go:115-161, 222-295). */
  datatype Outcome =
    | AgentRefused(message: string)
    | ToolMissing
    | Succeeded(output: string)
    | CancelError(message: string)
    | DiscardError(message: string)
    | SnoozeError(duration: int)
    | OtherError(message: string)

  datatype Event =
    | Claim(instance: InstanceId, now: int)
    | Begin(w: nat)
    | WorkerFails(w: nat, message: string)
    | WorkerDies(w: nat)
    | Submitted(w: nat)
    | Streamed(w: nat, response: Response, maxAttempts: int, now: int)
    | PollBegins(i: nat)
    | PollRunning(p: nat)
    | PollCanceling(p: nat)
    | PollEnded(p: nat)
    | PollErrored(p: nat, message: string)
    | PollLost(p: nat)
    | PollSucceeded(p: nat, response: Response, maxAttempts: int, now: int)
    | ClaimExec(k: nat, instance: InstanceId, now: int)
    | StartExec(t: nat)
    | FinishExec(t: nat, outcome: Outcome, delay: int, now: int)
    | ToolWorkerDies(t: nat)
    | SpawnChild(t: nat, child: RunId)
    | ChildEnds(k: nat, ended: RunRow)
    | Continue(fetched: seq<nat>)
    | Rescue(now: int, timeout: int, maxRescues: nat)
    | Orphan(instance: InstanceId)
    | OrphanExec(k: nat, instance: InstanceId)

  const NEW_HISTORY := History(0, 0, 0, 0, 0, false, false)

  function NewRec(row: RunRow): RunRec {
    RunRec(row, [], [], [], [], [], [], NEW_HISTORY)
  }

  // ---------------------------------------------------------------------------
  // Building messages and tool executions from a response
  // ---------------------------------------------------------------------------

  /** The batch poller keeps a block of any type, the streaming worker skips unknown ones. */
  function ContentOfBlock(mode: RunMode, b: ResponseBlock): seq<ContentBlock> {
    match b
    case RText(text) => [TextBlock(text)]
    case RToolUse(id, name, input, _) => [ToolUseBlock(id, name, input)]
    case ROther(kind) => if mode == Batch then [EmptyBlock(kind)] else []
  }

  function ContentOf(mode: RunMode, blocks: seq<ResponseBlock>): seq<ContentBlock> {
    if blocks == [] then [] else ContentOfBlock(mode, blocks[0]) + ContentOf(mode, blocks[1..])
  }

  function ResponseText(blocks: seq<ResponseBlock>): string {
    if blocks == [] then ""
    else (if blocks[0].RText? then blocks[0].text else "") + ResponseText(blocks[1..])
  }

  function ExecsOfBlock(b: ResponseBlock, iteration: nat, maxAttempts: int, now: int): seq<ExecRow> {
    match b
    case RText(_) => []
    case RToolUse(id, name, input, agent) => [NewExec(iteration, id, name, input, agent, maxAttempts, now)]
    case ROther(_) => []
  }

  function ToolExecs(blocks: seq<ResponseBlock>, iteration: nat, maxAttempts: int, now: int): seq<ExecRow> {
    if blocks == [] then []
    else ExecsOfBlock(blocks[0], iteration, maxAttempts, now) + ToolExecs(blocks[1..], iteration, maxAttempts, now)
  }

  predicate HasToolUse(blocks: seq<ResponseBlock>) {
    exists i :: 0 <= i < |blocks| && blocks[i].RToolUse?
  }

  // ---------------------------------------------------------------------------
  // Effects
  // ---------------------------------------------------------------------------

  function WithRow(rec: RunRec, row: RunRow): RunRec {
    var changed := !IsTerminal(rec.row.state) && row.state != rec.row.state;
    rec.(row := row, hist := rec.hist.(changes := rec.hist.changes + if changed then 1 else 0))
  }

  function DropWorker(rec: RunRec, w: nat): RunRec
    requires w < |rec.workers|
  {
    rec.(workers := rec.workers[..w] + rec.workers[w + 1..])
  }

  function DropPoller(rec: RunRec, p: nat): RunRec
    requires p < |rec.pollers|
  {
    rec.(pollers := rec.pollers[..p] + rec.pollers[p + 1..])
  }

  function DropToolWorker(rec: RunRec, t: nat): RunRec
    requires t < |rec.toolWorkers|
  {
    rec.(toolWorkers := rec.toolWorkers[..t] + rec.toolWorkers[t + 1..])
  }

  predicate AllFinished(execs: seq<ExecRow>) {
    forall k :: 0 <= k < |execs| ==> ExecTerminal(execs[k].state)
  }

  /** An update of one execution, with the trigger that announces the last one of the run. */
  function WithExec(rec: RunRec, k: nat, e: ExecRow): RunRec
    requires k < |rec.execs|
  {
    var execs := rec.execs[k := e];
    var announced := !ExecTerminal(rec.execs[k].state) && ExecTerminal(e.state) && AllFinished(execs);
    rec.(execs := execs, hist := rec.hist.(notified := rec.hist.notified || announced,
                                           announced := rec.hist.announced || announced))
  }

  function Append(rec: RunRec, m: StoredMessage): RunRec {
    rec.(messages := rec.messages + [m])
  }

  function PromptMessage(row: RunRow): StoredMessage {
    StoredMessage(User, [TextBlock(row.prompt)])
  }

  predicate NumberTaken(iterations: seq<Iteration>, number: nat) {
    exists i :: 0 <= i < |iterations| && iterations[i].number == number
  }

  /** The prompt is stored when the copy says that no iteration was made yet. */
  function Prompted(rec: RunRec, copy: RunRow): seq<StoredMessage> {
    if copy.currentIteration == 0 && copy.prompt != "" then rec.messages + [PromptMessage(copy)] else rec.messages
  }

  /** processRun up to the request: the prompt on the first iteration, then the iteration row. */
  function StartIteration(rec: RunRec, w: nat): RunRec
    requires w < |rec.workers|
  {
    var worker := rec.workers[w];
    var number := worker.copy.currentIteration + 1;
    var id := |rec.iterations|;
    rec.(
      messages := Prompted(rec, worker.copy),
      iterations := rec.iterations + [Iteration(number, NotSubmitted, false, false, 0, NO_USAGE)],
      workers := rec.workers[w := worker.(phase := Requested(id))],
      row := if worker.copy.mode == Streaming then EnterIteration(rec.row, number, id) else rec.row)
  }

  /** Iteration numbers are unique per run: a number that is taken makes the worker fail the run. */
  function BeginRun(rec: RunRec, w: nat): RunRec
    requires w < |rec.workers|
  {
    var copy := rec.workers[w].copy;
    if NumberTaken(rec.iterations, copy.currentIteration + 1) then
      DropWorker(WithRow(rec.(messages := Prompted(rec, copy)), FailRun(rec.row, "failed to create iteration")), w)
    else StartIteration(rec, w)
  }

  /** processRun after the batch was accepted; an update that fails makes the worker fail the run. */
  function FinishSubmit(rec: RunRec, w: nat): RunRec
    requires w < |rec.workers| && rec.workers[w].phase.Requested?
    requires rec.workers[w].phase.iteration < |rec.iterations|
  {
    var id := rec.workers[w].phase.iteration;
    var submitted := rec.(iterations := rec.iterations[id := rec.iterations[id].(batchStatus := InProgress)]);
    match SubmitRun(rec.row, rec.iterations[id].number, id)
    case Some(row) => DropWorker(WithRow(submitted, row), w)
    case None => DropWorker(WithRow(submitted, FailRun(rec.row, "failed to update run state")), w)
  }

  /** processResult: the assistant message, the iteration, then the run. The flag tells whether the
      last write was accepted. */
  function ProcessResult(rec: RunRec, id: nat, read: RunRow, response: Response, maxAttempts: int, now: int)
    : (RunRec, bool)
    requires id < |rec.iterations|
  {
    var blocks := response.blocks;
    var tools := HasToolUse(blocks);
    var execs := ToolExecs(blocks, id, maxAttempts, now);
    var recorded := Append(rec, StoredMessage(Assistant, ContentOf(rec.row.mode, blocks))).(
      iterations := rec.iterations[id := rec.iterations[id].(
        completed := true, hasToolUse := tools, toolExecutionCount := |execs|, usage := response.usage)]);
    if tools then
      match AwaitTools(rec.row, read, response.usage)
      case None => (recorded, false)
      case Some(row) =>
        (WithRow(recorded, row).(
           execs := rec.execs + execs,
           hist := WithRow(recorded, row).hist.(toolRounds := rec.hist.toolRounds + 1, announced := false)),
         true)
    else
      (WithRow(recorded, CompleteRun(rec.row, read, response.usage, ResponseText(blocks))), true)
  }

  function FinishStream(rec: RunRec, w: nat, response: Response, maxAttempts: int, now: int): RunRec
    requires w < |rec.workers| && rec.workers[w].phase.Requested?
    requires rec.workers[w].phase.iteration < |rec.iterations|
  {
    var (processed, accepted) :=
      ProcessResult(rec, rec.workers[w].phase.iteration, rec.workers[w].copy, response, maxAttempts, now);
    if accepted then DropWorker(processed, w)
    else DropWorker(WithRow(processed, FailRun(processed.row, "failed to update run")), w)
  }

  function WithStatus(rec: RunRec, i: nat, status: BatchStatus): RunRec
    requires i < |rec.iterations|
  {
    rec.(iterations := rec.iterations[i := rec.iterations[i].(batchStatus := status)])
  }

  /** A batch that is still processing moves a run that was just submitted. */
  function MarkProcessing(rec: RunRec): RunRec {
    if rec.row.state != BatchPending then rec
    else
      match ProcessingRun(rec.row)
      case Some(row) => WithRow(rec, row)
      case None => rec
  }

  /** executeTool after Execute returned, and handleToolError. */
  function ToolResultRow(e: ExecRow, attempt: nat, outcome: Outcome, delay: int, now: int): Option<ExecRow> {
    match outcome
    case AgentRefused(m) => Some(CompleteTool(e, "", true, m))
    case ToolMissing => Some(CompleteTool(e, "", true, "tool not found"))
    case Succeeded(output) => Some(CompleteTool(e, output, false, ""))
    case CancelError(m) => Some(DiscardTool(e, m))
    case DiscardError(m) => Some(DiscardTool(e, m))
    case SnoozeError(d) => SnoozeTool(e, now + d)
    case OtherError(m) =>
      if attempt >= e.maxAttempts then Some(CompleteTool(e, m, true, m))
      else RetryTool(e, now + delay)
  }

  /** The blocks handleAllToolsComplete builds from the executions it fetched. */
  function ResultBlocks(execs: seq<ExecRow>, fetched: seq<nat>): seq<ContentBlock>
    requires forall j :: 0 <= j < |fetched| ==> fetched[j] < |execs|
  {
    seq(|fetched|, j requires 0 <= j < |fetched| => ResultBlock(execs[fetched[j]]))
  }

  /** `fetched` lists the executions of iteration `id`, each once, in any order: they were created in
      one transaction, so created_at does not order them. */
  ghost predicate Fetches(execs: seq<ExecRow>, id: nat, fetched: seq<nat>) {
    (forall j :: 0 <= j < |fetched| ==> fetched[j] < |execs| && execs[fetched[j]].iteration == id)
    && (forall j, j' :: 0 <= j < j' < |fetched| ==> fetched[j] != fetched[j'])
    && (forall k :: 0 <= k < |execs| && execs[k].iteration == id ==> k in fetched)
  }

  /** agentpg_complete_tools_and_continue_run: message and run change together, and only if the run is
      still waiting. */
  function CompleteToolsAndContinue(rec: RunRec, blocks: seq<ContentBlock>): RunRec {
    if rec.row.state != PendingTools then rec
    else
      match ContinueRun(rec.row)
      case Some(row) =>
        var continued := WithRow(Append(rec, StoredMessage(User, blocks)), row);
        continued.(hist := continued.hist.(results := rec.hist.results + 1, clears := rec.hist.clears + 1))
      case None => rec
  }

  /** RescueRun, unguarded. */
  function RescueRec(rec: RunRec): RunRec {
    match RescueRun(rec.row)
    case Some(row) =>
      var rescued := WithRow(rec, row);
      rescued.(hist := rescued.hist.(clears := rec.hist.clears + 1))
    case None => rec
  }

  predicate IterationFinished(execs: seq<ExecRow>, id: nat) {
    forall k :: 0 <= k < |execs| && execs[k].iteration == id ==> ExecTerminal(execs[k].state)
  }

  /** agentpg_get_stuck_runs. */
  predicate Stuck(rec: RunRec, now: int, timeout: int, maxRescues: nat) {
    && rec.row.state in {BatchSubmitting, BatchPending, BatchProcessing, StreamingRun, PendingTools}
    && rec.row.claimedAt.Some? && rec.row.claimedAt.value < now - timeout
    && rec.row.rescueAttempts < maxRescues
    && forall k :: 0 <= k < |rec.execs| ==> rec.execs[k].state != ExecPending && rec.execs[k].state != ExecRunning
  }

  // ---------------------------------------------------------------------------
  // Steps
  // ---------------------------------------------------------------------------

  predicate WorkerAt(rec: RunRec, w: nat, mode: RunMode) {
    && w < |rec.workers| && rec.workers[w].copy.mode == mode && rec.workers[w].phase.Requested?
    && rec.workers[w].phase.iteration < |rec.iterations|
  }

  /** agentpg_get_iterations_for_poll: only the instance that claimed the run polls, and its poller takes
      one iteration at a time. */
  predicate Polled(rec: RunRec, i: nat) {
    && i < |rec.iterations| && rec.iterations[i].batchStatus == InProgress && rec.row.claimedBy.Some?
    && forall p :: 0 <= p < |rec.pollers| ==>
         rec.pollers[p].instance != rec.row.claimedBy.value || rec.pollers[p].iteration != i
  }

  predicate PollerAt(rec: RunRec, p: nat, fetching: bool) {
    && p < |rec.pollers| && rec.pollers[p].fetching == fetching
    && rec.pollers[p].iteration < |rec.iterations|
  }

  predicate HeldExec(rec: RunRec, t: nat) {
    t < |rec.toolWorkers| && rec.toolWorkers[t].exec < |rec.execs|
  }

  /** Steps on one tool execution. */
  predicate IsExecEvent(ev: Event) {
    ev.ClaimExec? || ev.StartExec? || ev.FinishExec? || ev.ToolWorkerDies? || ev.SpawnChild? || ev.ChildEnds?
    || ev.OrphanExec?
  }

  /** Steps of a batch poller. */
  predicate IsPollEvent(ev: Event) {
    ev.PollBegins? || ev.PollRunning? || ev.PollCanceling? || ev.PollEnded? || ev.PollErrored? || ev.PollLost?
    || ev.PollSucceeded?
  }

  /** Steps of a worker that holds the run. */
  predicate IsWorkerEvent(ev: Event) {
    ev.Begin? || ev.WorkerFails? || ev.WorkerDies? || ev.Submitted? || ev.Streamed?
  }

  ghost predicate Enabled(rec: RunRec, ev: Event) {
    if IsExecEvent(ev) then ExecEnabled(rec, ev)
    else if IsPollEvent(ev) then PollEnabled(rec, ev)
    else if IsWorkerEvent(ev) then WorkerEnabled(rec, ev)
    else RowEnabled(rec, ev)
  }

  ghost predicate ExecEnabled(rec: RunRec, ev: Event)
    requires IsExecEvent(ev)
  {
    match ev
    case ClaimExec(k, _, now) => k < |rec.execs| && ToolClaimable(rec.execs[k], now)
    case StartExec(t) => HeldExec(rec, t)
    case FinishExec(t, outcome, _, _) =>
      HeldExec(rec, t) && (rec.execs[rec.toolWorkers[t].exec].agent.Some? <==> outcome.AgentRefused?)
    case ToolWorkerDies(t) => HeldExec(rec, t)
    case SpawnChild(t, _) => HeldExec(rec, t) && rec.execs[rec.toolWorkers[t].exec].agent.Some?
    case ChildEnds(k, child) => k < |rec.execs| && IsTerminal(child.state)
    case OrphanExec(k, _) => k < |rec.execs|
  }

  ghost predicate PollEnabled(rec: RunRec, ev: Event)
    requires IsPollEvent(ev)
  {
    match ev
    case PollBegins(i) => Polled(rec, i)
    case PollRunning(p) => PollerAt(rec, p, false)
    case PollCanceling(p) => PollerAt(rec, p, false)
    case PollEnded(p) => PollerAt(rec, p, false)
    case PollErrored(p, _) => PollerAt(rec, p, true)
    case PollLost(p) => p < |rec.pollers|
    case PollSucceeded(p, _, _, _) => PollerAt(rec, p, true)
  }

  ghost predicate WorkerEnabled(rec: RunRec, ev: Event)
    requires IsWorkerEvent(ev)
  {
    match ev
    case Begin(w) => w < |rec.workers| && rec.workers[w].phase.Claimed?
    case WorkerFails(w, _) => w < |rec.workers|
    case WorkerDies(w) => w < |rec.workers|
    case Submitted(w) => WorkerAt(rec, w, Batch)
    case Streamed(w, _, _, _) => WorkerAt(rec, w, Streaming)
  }

  ghost predicate RowEnabled(rec: RunRec, ev: Event)
    requires !IsExecEvent(ev) && !IsPollEvent(ev) && !IsWorkerEvent(ev)
  {
    match ev
    case Claim(_, _) => Claimable(rec.row)
    case Continue(fetched) =>
      && rec.row.state == PendingTools && rec.row.currentIterationId.Some?
      && Fetches(rec.execs, rec.row.currentIterationId.value, fetched)
      && (rec.hist.notified || IterationFinished(rec.execs, rec.row.currentIterationId.value))
    case Rescue(now, timeout, maxRescues) => Stuck(rec, now, timeout, maxRescues)
    case Orphan(_) => true
  }

  ghost function Apply(rec: RunRec, ev: Event): RunRec
    requires Enabled(rec, ev)
  {
    if IsExecEvent(ev) then ApplyToExec(rec, ev)
    else if IsPollEvent(ev) then ApplyPoll(rec, ev)
    else if IsWorkerEvent(ev) then ApplyWork(rec, ev)
    else ApplyToRow(rec, ev)
  }

  ghost function ApplyToExec(rec: RunRec, ev: Event): RunRec
    requires IsExecEvent(ev) && ExecEnabled(rec, ev)
  {
    match ev
    case ClaimExec(k, instance, now) =>
      var e := ClaimTool(rec.execs[k], instance);
      WithExec(rec, k, e).(toolWorkers := rec.toolWorkers + [ToolWorker(k, e.attemptCount)])
    case StartExec(t) =>
      var k := rec.toolWorkers[t].exec;
      (match StartTool(rec.execs[k])
       case Some(e) => WithExec(rec, k, e)
       case None => DropToolWorker(rec, t))
    case FinishExec(t, outcome, delay, now) =>
      var k := rec.toolWorkers[t].exec;
      (match ToolResultRow(rec.execs[k], rec.toolWorkers[t].attempt, outcome, delay, now)
       case Some(e) => DropToolWorker(WithExec(rec, k, e), t)
       case None => DropToolWorker(rec, t))
    case ToolWorkerDies(t) => DropToolWorker(rec, t)
    case SpawnChild(t, child) =>
      var k := rec.toolWorkers[t].exec;
      DropToolWorker(WithExec(rec, k, rec.execs[k].(childRun := Some(child))), t)
    case ChildEnds(k, child) => WithExec(rec, k, ChildDone(rec.execs[k], child))
    case OrphanExec(k, instance) => WithExec(rec, k, OrphanTool(rec.execs[k], instance))
  }

  ghost function ApplyPoll(rec: RunRec, ev: Event): RunRec
    requires IsPollEvent(ev) && PollEnabled(rec, ev)
  {
    match ev
    case PollBegins(i) => rec.(pollers := rec.pollers + [Poller(rec.row.claimedBy.value, i, false)])
    case PollRunning(p) => DropPoller(MarkProcessing(rec), p)
    case PollCanceling(p) => DropPoller(WithStatus(rec, rec.pollers[p].iteration, Canceling), p)
    case PollEnded(p) =>
      WithStatus(rec, rec.pollers[p].iteration, Ended).(pollers := rec.pollers[p := rec.pollers[p].(fetching := true)])
    case PollErrored(p, m) => DropPoller(WithRow(rec, FailRun(rec.row, m)), p)
    case PollLost(p) => DropPoller(rec, p)
    case PollSucceeded(p, response, maxAttempts, now) =>
      DropPoller(ProcessResult(rec, rec.pollers[p].iteration, rec.row, response, maxAttempts, now).0, p)
  }

  ghost function ApplyWork(rec: RunRec, ev: Event): RunRec
    requires IsWorkerEvent(ev) && WorkerEnabled(rec, ev)
  {
    match ev
    case Begin(w) => BeginRun(rec, w)
    case WorkerFails(w, m) => DropWorker(WithRow(rec, FailRun(rec.row, m)), w)
    case WorkerDies(w) => DropWorker(rec, w)
    case Submitted(w) => FinishSubmit(rec, w)
    case Streamed(w, response, maxAttempts, now) => FinishStream(rec, w, response, maxAttempts, now)
  }

  ghost function ApplyToRow(rec: RunRec, ev: Event): RunRec
    requires !IsExecEvent(ev) && !IsPollEvent(ev) && !IsWorkerEvent(ev) && RowEnabled(rec, ev)
  {
    match ev
    case Claim(instance, now) =>
      var row := ClaimRun(rec.row, instance, now);
      var claimed := WithRow(rec, row);
      claimed.(workers := rec.workers + [Worker(instance, row, Claimed)],
               hist := claimed.hist.(claims := rec.hist.claims + 1))
    case Continue(fetched) =>
      CompleteToolsAndContinue(rec, ResultBlocks(rec.execs, fetched))
    case Rescue(_, _, _) => RescueRec(rec)
    case Orphan(instance) => WithRow(rec, OrphanRun(rec.row, instance))
  }

  // ---------------------------------------------------------------------------
  // Runs of the machine
  // ---------------------------------------------------------------------------

  ghost predicate Feasible(rec: RunRec, events: seq<Event>)
    decreases |events|
  {
    events == [] || (Enabled(rec, events[0]) && Feasible(Apply(rec, events[0]), events[1..]))
  }

  ghost function After(rec: RunRec, events: seq<Event>): RunRec
    requires Feasible(rec, events)
    decreases |events|
  {
    if events == [] then rec else After(Apply(rec, events[0]), events[1..])
  }

  /** A row as createRun inserts it. */
  predicate Fresh(row: RunRow) {
    row == NewRun(row.session, row.mode, row.parentRun, row.parentExec, row.depth, row.prompt, row.variables)
    && RunCheck(row)
  }
}
