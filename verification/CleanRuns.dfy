/** Conversations of runs that are rescued only when nothing is outstanding and no tool results are
    awaited: every call is answered, and results appear nowhere else. */
module CleanRuns {
  import opened Content
  import opened Rows
  import opened RunMachine
  import opened ToolIds
  import opened RunInvariants
  import opened OrderlyRuns

  ghost predicate CleanStep(rec: RunRec, ev: Event) {
    ev.Rescue? ==> Quiet(rec) && rec.row.state != PendingTools
  }

  ghost predicate CleanFeasible(rec: RunRec, events: seq<Event>)
    decreases |events|
  {
    events == []
    || (Enabled(rec, events[0]) && CleanStep(rec, events[0]) && CleanFeasible(Apply(rec, events[0]), events[1..]))
  }

  // ---------------------------------------------------------------------------
  // Tool calls and their results
  // ---------------------------------------------------------------------------

  predicate Calls(m: StoredMessage) {
    m.role == Assistant && CallIds(m.content) != multiset{}
  }

  /** `m` is the answer to the tool calls of `call`: a user message with exactly their ids. */
  predicate Answers(call: StoredMessage, m: StoredMessage) {
    m.role == User && ResultIds(m.content) == CallIds(call.content)
  }

  /** Every message that calls tools, except perhaps the last message, is followed by its answer. */
  ghost predicate Paired(messages: seq<StoredMessage>) {
    forall i :: 0 <= i < |messages| - 1 && Calls(messages[i]) ==> Answers(messages[i], messages[i + 1])
  }

  /** And results appear nowhere else. */
  ghost predicate NoStrayResults(messages: seq<StoredMessage>) {
    forall i :: 0 <= i < |messages| && messages[i].role == User && ResultIds(messages[i].content) != multiset{} ==>
      i > 0 && Calls(messages[i - 1]) && Answers(messages[i - 1], messages[i])
  }

  ghost predicate Open(messages: seq<StoredMessage>) {
    messages != [] && Calls(messages[|messages| - 1])
  }

  ghost predicate TalkOk(rec: RunRec) {
    && (forall k :: 0 <= k < |rec.execs| ==>
          rec.execs[k].iteration < |rec.iterations| && rec.iterations[rec.execs[k].iteration].completed)
    && Paired(rec.messages)
    && NoStrayResults(rec.messages)
    && (Open(rec.messages) ==> rec.row.state == PendingTools || (IsTerminal(rec.row.state) && Quiet(rec)))
    && (rec.row.state == PendingTools ==>
          && Open(rec.messages)
          && rec.row.currentIterationId.Some?
          && CallIds(rec.messages[|rec.messages| - 1].content) == IdsOf(rec.execs, rec.row.currentIterationId.value))
  }

  ghost predicate CleanInv(rec: RunRec) {
    Orderly(rec) && TalkOk(rec)
  }

  // ---------------------------------------------------------------------------
  // Conversations
  // ---------------------------------------------------------------------------

  /** A message without results may follow a conversation that awaits none. */
  lemma AppendQuietly(messages: seq<StoredMessage>, m: StoredMessage)
    requires Paired(messages) && NoStrayResults(messages) && !Open(messages)
    requires m.role == User ==> ResultIds(m.content) == multiset{}
    ensures Paired(messages + [m]) && NoStrayResults(messages + [m])
    ensures Open(messages + [m]) <==> Calls(m)
  {
    var all := messages + [m];
    forall i | 0 <= i < |all| - 1 && Calls(all[i]) ensures Answers(all[i], all[i + 1]) {
      assert all[i] == messages[i];
      assert i != |messages| - 1;
    }
    forall i | 0 <= i < |all| && all[i].role == User && ResultIds(all[i].content) != multiset{}
      ensures i > 0 && Calls(all[i - 1]) && Answers(all[i - 1], all[i])
    {
      assert all[i] == messages[i];
    }
  }

  /** The answer closes the conversation again. */
  lemma AppendAnswer(messages: seq<StoredMessage>, m: StoredMessage)
    requires Paired(messages) && NoStrayResults(messages) && Open(messages)
    requires Answers(messages[|messages| - 1], m)
    ensures Paired(messages + [m]) && NoStrayResults(messages + [m]) && !Open(messages + [m])
  {
    var all := messages + [m];
    forall i | 0 <= i < |all| - 1 && Calls(all[i]) ensures Answers(all[i], all[i + 1]) {
      assert all[i] == messages[i];
    }
    forall i | 0 <= i < |all| && all[i].role == User && ResultIds(all[i].content) != multiset{}
      ensures i > 0 && Calls(all[i - 1]) && Answers(all[i - 1], all[i])
    {
      if i < |messages| {
        assert all[i] == messages[i];
      }
    }
  }

  lemma PromptHasNoIds(row: RunRow)
    ensures ResultIds(PromptMessage(row).content) == multiset{}
    ensures !Calls(PromptMessage(row))
  {
  }

  // ---------------------------------------------------------------------------
  // Steps
  // ---------------------------------------------------------------------------

  lemma ExecStepTalk(rec: RunRec, ev: Event)
    requires CleanInv(rec) && Enabled(rec, ev) && IsExecEvent(ev)
    ensures TalkOk(Apply(rec, ev))
  {
    var rec' := Apply(rec, ev);
    ExecStepsKeepRun(rec, ev);
    ExecStepKeepsIds(rec, ev);
    if rec.row.state == PendingTools {
      IdsOfUnchanged(rec.execs, rec'.execs, rec.row.currentIterationId.value);
    }
  }

  lemma ExecStepKeepsIds(rec: RunRec, ev: Event)
    requires Enabled(rec, ev) && IsExecEvent(ev)
    ensures |Apply(rec, ev).execs| == |rec.execs|
    ensures forall k :: 0 <= k < |rec.execs| ==>
              Apply(rec, ev).execs[k].iteration == rec.execs[k].iteration
              && Apply(rec, ev).execs[k].toolUseId == rec.execs[k].toolUseId
  {
    if ev.FinishExec? {
      FinishEffect(rec, ev);
      var holder := rec.toolWorkers[ev.t];
      OutcomeKeepsIds(rec.execs[holder.exec], holder.attempt, ev.outcome, ev.delay, ev.now);
    } else {
      OtherStepKeepsIds(rec, ev);
    }
  }

  lemma OutcomeKeepsIds(e: ExecRow, attempt: nat, outcome: Outcome, delay: int, now: int)
    ensures var r := ToolResultRow(e, attempt, outcome, delay, now);
            r.Some? ==> r.value.iteration == e.iteration && r.value.toolUseId == e.toolUseId
  {
  }

  lemma OtherStepKeepsIds(rec: RunRec, ev: Event)
    requires Enabled(rec, ev) && IsExecEvent(ev) && !ev.FinishExec?
    ensures |Apply(rec, ev).execs| == |rec.execs|
    ensures forall k :: 0 <= k < |rec.execs| ==>
              Apply(rec, ev).execs[k].iteration == rec.execs[k].iteration
              && Apply(rec, ev).execs[k].toolUseId == rec.execs[k].toolUseId
  {
  }

  /** A step that touches neither messages nor executions, while no answer is awaited. */
  ghost predicate Silent(rec: RunRec, rec': RunRec) {
    && rec'.messages == rec.messages && rec'.execs == rec.execs
    && |rec'.iterations| == |rec.iterations|
    && (forall i :: 0 <= i < |rec.iterations| && rec.iterations[i].completed ==> rec'.iterations[i].completed)
    && rec'.row.state != PendingTools
  }

  lemma SilentTalk(rec: RunRec, rec': RunRec)
    requires TalkOk(rec) && Silent(rec, rec') && !Open(rec.messages)
    ensures TalkOk(rec')
  {
  }

  lemma ClaimTalk(rec: RunRec, ev: Event)
    requires CleanInv(rec) && Enabled(rec, ev) && ev.Claim?
    ensures TalkOk(Apply(rec, ev))
  {
    SilentTalk(rec, Apply(rec, ev));
  }

  lemma WorkerFailsTalk(rec: RunRec, ev: Event)
    requires CleanInv(rec) && Enabled(rec, ev) && ev.WorkerFails?
    ensures TalkOk(Apply(rec, ev))
  {
    OneWorker(rec, ev.w);
    GivingUp(rec, ev);
    SilentTalk(rec, WithRow(rec.(workers := []), FailRun(rec.row, ev.message)));
  }

  lemma WorkerDiesTalk(rec: RunRec, ev: Event)
    requires CleanInv(rec) && Enabled(rec, ev) && ev.WorkerDies?
    ensures TalkOk(Apply(rec, ev))
  {
    OneWorker(rec, ev.w);
    SilentTalk(rec, rec.(workers := []));
  }

  lemma SubmittedIsSilent(rec: RunRec)
    requires rec.workers != [] && rec.workers[0].phase.Requested?
    requires rec.workers[0].phase.iteration < |rec.iterations|
    ensures Silent(rec, FinishSubmit(rec, 0))
  {
  }

  lemma SubmittedTalk(rec: RunRec, ev: Event)
    requires CleanInv(rec) && Enabled(rec, ev) && ev.Submitted?
    ensures TalkOk(Apply(rec, ev))
  {
    OneWorker(rec, ev.w);
    SubmittedIsSilent(rec);
    SilentTalk(rec, FinishSubmit(rec, 0));
  }

  lemma PromptedTalk(rec: RunRec, copy: RunRow)
    requires Paired(rec.messages) && NoStrayResults(rec.messages) && !Open(rec.messages)
    ensures var messages := Prompted(rec, copy);
            Paired(messages) && NoStrayResults(messages) && !Open(messages)
  {
    if Prompted(rec, copy) != rec.messages {
      PromptHasNoIds(copy);
      AppendQuietly(rec.messages, PromptMessage(copy));
    }
  }

  lemma BeginTalk(rec: RunRec, ev: Event)
    requires CleanInv(rec) && Enabled(rec, ev) && ev.Begin?
    ensures TalkOk(Apply(rec, ev))
  {
    OneWorker(rec, ev.w);
    PromptedTalk(rec, rec.workers[0].copy);
    if NumberTaken(rec.iterations, rec.workers[0].copy.currentIteration + 1) {
      RefusedTalk(rec);
    } else {
      StartTalk(rec);
    }
  }

  /** The prompt is stored, and the worker fails the run. */
  lemma RefusedTalk(rec: RunRec)
    requires TalkOk(rec) && rec.workers != []
    requires Paired(Prompted(rec, rec.workers[0].copy)) && NoStrayResults(Prompted(rec, rec.workers[0].copy))
    requires !Open(Prompted(rec, rec.workers[0].copy))
    requires NumberTaken(rec.iterations, rec.workers[0].copy.currentIteration + 1)
    ensures TalkOk(BeginRun(rec, 0))
  {
    var rec' := BeginRun(rec, 0);
    assert rec'.execs == rec.execs && rec'.iterations == rec.iterations;
    assert rec'.messages == Prompted(rec, rec.workers[0].copy);
  }

  lemma StartTalk(rec: RunRec)
    requires TalkOk(rec) && rec.workers != [] && rec.row.state != PendingTools
    requires Paired(Prompted(rec, rec.workers[0].copy)) && NoStrayResults(Prompted(rec, rec.workers[0].copy))
    requires !Open(Prompted(rec, rec.workers[0].copy))
    ensures TalkOk(StartIteration(rec, 0))
  {
    var rec' := StartIteration(rec, 0);
    assert rec'.execs == rec.execs && rec'.iterations[..|rec.iterations|] == rec.iterations;
  }

  /** The new executions are exactly the calls of the message. */
  lemma ResultExecs(mode: RunMode, execs: seq<ExecRow>, id: nat, response: Response, maxAttempts: int, now: int)
    requires forall k :: 0 <= k < |execs| ==> execs[k].iteration != id
    ensures var added := ToolExecs(response.blocks, id, maxAttempts, now);
            && CallIds(ContentOf(mode, response.blocks)) == IdsOf(execs + added, id)
            && (forall k :: 0 <= k < |added| ==> added[k].iteration == id)
            && (CallIds(ContentOf(mode, response.blocks)) != multiset{} <==> HasToolUse(response.blocks))
  {
    CallsHaveExecs(mode, response.blocks, id, maxAttempts, now);
    NewExecsBelong(response.blocks, id, maxAttempts, now);
    IdsOfNone(execs, id);
    IdsOfAppended(execs, ToolExecs(response.blocks, id, maxAttempts, now), id);
  }

  /** A result that may be appended: nothing is open, and the iteration has no executions yet. */
  ghost predicate TakesResult(rec: RunRec, id: nat) {
    && id < |rec.iterations| && !rec.iterations[id].completed
    && Paired(rec.messages) && NoStrayResults(rec.messages) && !Open(rec.messages)
    && (forall k :: 0 <= k < |rec.execs| ==>
          rec.execs[k].iteration < |rec.iterations| && rec.iterations[rec.execs[k].iteration].completed)
  }

  lemma ResultMessages(rec: RunRec, id: nat, read: RunRow, response: Response, maxAttempts: int, now: int)
    requires TakesResult(rec, id)
    ensures var (rec', accepted) := ProcessResult(rec, id, read, response, maxAttempts, now);
            && rec'.messages == rec.messages + [StoredMessage(Assistant, ContentOf(rec.row.mode, response.blocks))]
            && Paired(rec'.messages) && NoStrayResults(rec'.messages)
            && (Open(rec'.messages) <==> HasToolUse(response.blocks))
  {
    CallsHaveExecs(rec.row.mode, response.blocks, id, maxAttempts, now);
    AppendQuietly(rec.messages, StoredMessage(Assistant, ContentOf(rec.row.mode, response.blocks)));
  }

  lemma ResultAdds(rec: RunRec, id: nat, read: RunRow, response: Response, maxAttempts: int, now: int)
    requires id < |rec.iterations|
    ensures var (rec', accepted) := ProcessResult(rec, id, read, response, maxAttempts, now);
            && |rec'.iterations| == |rec.iterations| && rec'.iterations[id].completed
            && (forall i :: 0 <= i < |rec.iterations| && i != id ==> rec'.iterations[i] == rec.iterations[i])
            && rec'.execs == if accepted && HasToolUse(response.blocks)
                             then rec.execs + ToolExecs(response.blocks, id, maxAttempts, now) else rec.execs
  {
  }

  lemma ResultTalk(rec: RunRec, id: nat, read: RunRow, response: Response, maxAttempts: int, now: int)
    requires TakesResult(rec, id)
    ensures var (rec', accepted) := ProcessResult(rec, id, read, response, maxAttempts, now);
            && Paired(rec'.messages) && NoStrayResults(rec'.messages)
            && (Open(rec'.messages) <==> HasToolUse(response.blocks))
            && (forall k :: 0 <= k < |rec'.execs| ==>
                  rec'.execs[k].iteration < |rec'.iterations| && rec'.iterations[rec'.execs[k].iteration].completed)
            && (accepted && HasToolUse(response.blocks) ==>
                  CallIds(rec'.messages[|rec'.messages| - 1].content) == IdsOf(rec'.execs, id))
  {
    ResultMessages(rec, id, read, response, maxAttempts, now);
    ResultAdds(rec, id, read, response, maxAttempts, now);
    ResultExecs(rec.row.mode, rec.execs, id, response, maxAttempts, now);
  }

  /** The run after an accepted result, or failed because the result was refused. */
  lemma ResultSettles(rec: RunRec, id: nat, read: RunRow, response: Response, maxAttempts: int, now: int)
    requires AwaitsResult(rec, id, read) && TakesResult(rec, id)
    ensures var (rec', accepted) := ProcessResult(rec, id, read, response, maxAttempts, now);
            && TalkOk(rec'.(workers := [], pollers := []))
            && (!accepted ==>
                  TalkOk(WithRow(rec', FailRun(rec'.row, "failed to update run")).(workers := [], pollers := [])))
  {
    ResultTalk(rec, id, read, response, maxAttempts, now);
    ResultBooks(rec, id, read, response, maxAttempts, now);
  }

  lemma StreamedTalk(rec: RunRec, ev: Event)
    requires CleanInv(rec) && Enabled(rec, ev) && ev.Streamed?
    ensures TalkOk(Apply(rec, ev))
  {
    Stream(rec, ev);
    AwaitsStream(rec);
    var id, copy := rec.workers[0].phase.iteration, rec.workers[0].copy;
    StreamTakesResult(rec, id);
    ResultSettles(rec, id, copy, ev.response, ev.maxAttempts, ev.now);
  }

  lemma StreamTakesResult(rec: RunRec, id: nat)
    requires CleanInv(rec) && rec.workers != [] && WorkerTrue(rec, rec.workers[0])
    requires rec.workers[0].phase == Requested(id)
    ensures TakesResult(rec, id)
  {
  }

  lemma DeliveredTalk(rec: RunRec, id: nat)
    requires CleanInv(rec) && rec.workers == [] && NoneInProgress(rec.iterations) && rec.pollers != []
    requires id < |rec.iterations| && InFlightTrue(rec, id)
    ensures AwaitsResult(rec, id, rec.row) && TakesResult(rec, id)
  {
  }

  lemma PollSucceededTalk(rec: RunRec, ev: Event)
    requires CleanInv(rec) && Enabled(rec, ev) && ev.PollSucceeded?
    ensures TalkOk(Apply(rec, ev))
  {
    var id := rec.pollers[0].iteration;
    Delivery(rec, ev);
    DeliveredTalk(rec, id);
    ResultSettles(rec, id, rec.row, ev.response, ev.maxAttempts, ev.now);
  }

  lemma PollIsSilent(rec: RunRec, ev: Event)
    requires Enabled(rec, ev) && IsPollEvent(ev) && !ev.PollSucceeded? && rec.row.state != PendingTools
    ensures Silent(rec, Apply(rec, ev))
  {
  }

  lemma PollOtherTalk(rec: RunRec, ev: Event)
    requires CleanInv(rec) && Enabled(rec, ev) && IsPollEvent(ev) && !ev.PollSucceeded?
    ensures TalkOk(Apply(rec, ev))
  {
    assert InFlight(rec, if ev.PollBegins? then ev.i else rec.pollers[0].iteration);
    PollIsSilent(rec, ev);
    SilentTalk(rec, Apply(rec, ev));
  }

  lemma ContinueTalk(rec: RunRec, ev: Event)
    requires CleanInv(rec) && Enabled(rec, ev) && ev.Continue?
    ensures TalkOk(Apply(rec, ev))
  {
    var answer := StoredMessage(User, ResultBlocks(rec.execs, ev.fetched));
    ResultsCarryIds(rec.execs, rec.row.currentIterationId.value, ev.fetched);
    AppendAnswer(rec.messages, answer);
  }

  lemma RescueTalk(rec: RunRec, ev: Event)
    requires CleanInv(rec) && Enabled(rec, ev) && ev.Rescue? && CleanStep(rec, ev)
    ensures TalkOk(Apply(rec, ev))
  {
    SilentTalk(rec, Apply(rec, ev));
  }

  lemma OrphanTalk(rec: RunRec, ev: Event)
    requires CleanInv(rec) && Enabled(rec, ev) && ev.Orphan?
    ensures TalkOk(Apply(rec, ev))
  {
    if rec.row.state == PendingTools {
      PendingIsQuiet(rec);
    }
  }

  lemma WorkerStepTalk(rec: RunRec, ev: Event)
    requires CleanInv(rec) && Enabled(rec, ev) && IsWorkerEvent(ev)
    ensures TalkOk(Apply(rec, ev))
  {
    match ev
    case Begin(_) => BeginTalk(rec, ev);
    case Submitted(_) => SubmittedTalk(rec, ev);
    case Streamed(_, _, _, _) => StreamedTalk(rec, ev);
    case WorkerFails(_, _) => WorkerFailsTalk(rec, ev);
    case WorkerDies(_) => WorkerDiesTalk(rec, ev);
  }

  lemma RowStepTalk(rec: RunRec, ev: Event)
    requires CleanInv(rec) && Enabled(rec, ev) && CleanStep(rec, ev)
    requires ev.Claim? || ev.Continue? || ev.Rescue? || ev.Orphan?
    ensures TalkOk(Apply(rec, ev))
  {
    match ev
    case Claim(_, _) => ClaimTalk(rec, ev);
    case Continue(_) => ContinueTalk(rec, ev);
    case Rescue(_, _, _) => RescueTalk(rec, ev);
    case Orphan(_) => OrphanTalk(rec, ev);
  }

  lemma StepClean(rec: RunRec, ev: Event)
    requires CleanInv(rec) && Enabled(rec, ev) && CleanStep(rec, ev)
    ensures CleanInv(Apply(rec, ev))
  {
    StepOrderly(rec, ev);
    if IsExecEvent(ev) {
      ExecStepTalk(rec, ev);
    } else if ev.PollSucceeded? {
      PollSucceededTalk(rec, ev);
    } else if IsPollEvent(ev) {
      PollOtherTalk(rec, ev);
    } else if IsWorkerEvent(ev) {
      WorkerStepTalk(rec, ev);
    } else {
      RowStepTalk(rec, ev);
    }
  }

  // ---------------------------------------------------------------------------
  // Main results
  // ---------------------------------------------------------------------------

  lemma FreshClean(row: RunRow)
    requires Fresh(row)
    ensures CleanInv(NewRec(row))
  {
  }

  lemma {:induction false} CleanReachable(rec: RunRec, events: seq<Event>)
    requires CleanInv(rec) && CleanFeasible(rec, events)
    ensures Feasible(rec, events) && CleanInv(After(rec, events))
    decreases |events|
  {
    if events != [] {
      StepClean(rec, events[0]);
      CleanReachable(Apply(rec, events[0]), events[1..]);
    }
  }

  /** Every message that calls tools is followed by one message with exactly its results, or it is the
      last message and the run awaits them or has ended. A run that is up for claiming, or claimed, is
      never missing results. */
  lemma CallsAreAnswered(row: RunRow, events: seq<Event>)
    requires Fresh(row) && CleanFeasible(NewRec(row), events)
    ensures Feasible(NewRec(row), events)
    ensures var rec := After(NewRec(row), events);
            && Paired(rec.messages) && NoStrayResults(rec.messages)
            && (Open(rec.messages) ==> rec.row.state == PendingTools || IsTerminal(rec.row.state))
            && (rec.row.state == PendingTools ==> Open(rec.messages))
            && (Claimable(rec.row) || rec.row.state == ClaimedState(rec.row.mode) ==> !Open(rec.messages))
  {
    FreshClean(row);
    CleanReachable(NewRec(row), events);
  }

  /** Once a run ended with an open call, nothing is outstanding, and no step adds a message. */
  lemma StaysOpen(rec: RunRec, ev: Event)
    requires CleanInv(rec) && Enabled(rec, ev) && IsTerminal(rec.row.state) && Open(rec.messages)
    ensures Apply(rec, ev).messages == rec.messages && IsTerminal(Apply(rec, ev).row.state)
  {
    if IsExecEvent(ev) {
      ExecStepsKeepRun(rec, ev);
    } else {
      QuietAndEnded(rec, ev);
    }
  }

  lemma QuietAndEnded(rec: RunRec, ev: Event)
    requires Quiet(rec) && IsTerminal(rec.row.state) && Enabled(rec, ev) && !IsExecEvent(ev)
    ensures ev.Orphan? && Apply(rec, ev).messages == rec.messages && Apply(rec, ev).row == rec.row
  {
  }

  /** A run that ended with an open call keeps it: nothing is added to its messages any more. */
  lemma {:induction false} OpenForEver(rec: RunRec, events: seq<Event>)
    requires CleanInv(rec) && CleanFeasible(rec, events)
    requires IsTerminal(rec.row.state) && Open(rec.messages)
    ensures Feasible(rec, events) && After(rec, events).messages == rec.messages
    decreases |events|
  {
    if events != [] {
      StepClean(rec, events[0]);
      StaysOpen(rec, events[0]);
      OpenForEver(Apply(rec, events[0]), events[1..]);
    }
  }
}
