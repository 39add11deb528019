/** When a rescue is safe, and what goes wrong when it is not. */
module Rescues {
  import opened Content
  import opened Rows
  import opened RunMachine
  import opened RunInvariants
  import opened ToolIds
  import opened OrderlyRuns
  import opened CleanRuns

  // ---------------------------------------------------------------------------
  // Clean continuations
  // ---------------------------------------------------------------------------

  ghost predicate CleanPath(s: RunRec, events: seq<Event>, t: RunRec)
    decreases |events|
  {
    if events == [] then s == t
    else Enabled(s, events[0]) && CleanStep(s, events[0]) && CleanPath(Apply(s, events[0]), events[1..], t)
  }

  ghost predicate Reaches(s: RunRec, t: RunRec) {
    exists events :: CleanPath(s, events, t)
  }

  lemma Stay(s: RunRec)
    ensures Reaches(s, s)
  {
    assert CleanPath(s, [], s);
  }

  lemma Advance(s: RunRec, t: RunRec, ev: Event)
    requires Reaches(s, t) && Enabled(t, ev) && CleanStep(t, ev)
    ensures Reaches(s, Apply(t, ev))
  {
    var events :| CleanPath(s, events, t);
    PathOfMore(s, events, t, ev);
  }

  lemma {:induction false} PathOfMore(s: RunRec, events: seq<Event>, t: RunRec, ev: Event)
    requires CleanPath(s, events, t) && Enabled(t, ev) && CleanStep(t, ev)
    ensures CleanPath(s, events + [ev], Apply(t, ev))
    decreases |events|
  {
    if events == [] {
      assert ([] + [ev])[1..] == [];
    } else {
      PathOfMore(Apply(s, events[0]), events[1..], t, ev);
      assert (events + [ev])[0] == events[0] && (events + [ev])[1..] == events[1..] + [ev];
    }
  }

  lemma {:induction false} CleanPathKeepsInv(s: RunRec, events: seq<Event>, t: RunRec)
    requires CleanInv(s) && CleanPath(s, events, t)
    ensures CleanInv(t)
    decreases |events|
  {
    if events != [] {
      StepClean(s, events[0]);
      CleanPathKeepsInv(Apply(s, events[0]), events[1..], t);
    }
  }

  // ---------------------------------------------------------------------------
  // Harm
  // ---------------------------------------------------------------------------

  /** The next worker would send a request in which a call has no answer. */
  ghost predicate LacksAnswer(rec: RunRec) {
    Claimable(rec.row) && (!Paired(rec.messages) || Open(rec.messages))
  }

  /** The next step turns the completed run into a failed one. */
  ghost predicate UndoesCompletion(rec: RunRec, ev: Event) {
    Enabled(rec, ev) && CleanStep(rec, ev) && rec.row.state == Completed && Apply(rec, ev).row.state == Failed
  }

  ghost predicate Harmed(rec: RunRec) {
    LacksAnswer(rec) || exists ev :: UndoesCompletion(rec, ev)
  }

  /** After the rescue there is a continuation, itself without an unclean rescue, that does harm. */
  ghost predicate CanHarm(rec: RunRec, rescue: Event)
    requires Enabled(rec, rescue)
  {
    exists t :: Reaches(Apply(rec, rescue), t) && Harmed(t)
  }

  /** A batch run whose next iteration number was used up by a worker that died before the submission:
      whoever begins work on it fails it. */
  ghost predicate Doomed(rec: RunRec) {
    && rec.row.mode == RunMode.Batch && rec.workers != []
    && (forall w :: 0 <= w < |rec.workers| ==> rec.workers[w].phase.Claimed?)
    && NumberTaken(rec.iterations, rec.row.currentIteration + 1)
  }

  // ---------------------------------------------------------------------------
  // Clean rescues, and rescues of doomed runs, do no harm
  // ---------------------------------------------------------------------------

  lemma CleanIsUnharmed(rec: RunRec)
    requires CleanInv(rec)
    ensures !Harmed(rec)
  {
    if ev :| UndoesCompletion(rec, ev) {
      StepsFollowEdges(rec, ev);
      assert false;
    }
  }

  ghost predicate DoomedInv(rec: RunRec) {
    && RunCheck(rec.row) && rec.row.mode == RunMode.Batch
    && NumberTaken(rec.iterations, rec.row.currentIteration + 1)
    && (forall w :: 0 <= w < |rec.workers| ==>
          && rec.workers[w].phase.Claimed? && rec.workers[w].copy.mode == RunMode.Batch
          && rec.workers[w].copy.currentIteration == rec.row.currentIteration)
    && rec.pollers == [] && NoneInProgress(rec.iterations)
    && rec.row.state in {Pending, BatchSubmitting, Failed}
    && Paired(rec.messages) && NoStrayResults(rec.messages) && !Open(rec.messages)
  }

  lemma DoomedStep(rec: RunRec, ev: Event)
    requires DoomedInv(rec) && Enabled(rec, ev)
    ensures DoomedInv(Apply(rec, ev))
  {
    if IsExecEvent(ev) {
      ExecStepsKeepRun(rec, ev);
    } else {
      DoomedOnly(rec, ev);
      if ev.Begin? {
        DoomedBegin(rec, ev);
      } else if ev.Claim? {
        DoomedClaim(rec, ev);
      } else if ev.WorkerFails? || ev.WorkerDies? {
        DoomedLeaves(rec, ev);
      } else {
        DoomedReset(rec, ev);
      }
    }
  }

  /** Nobody can get further than to begin. */
  lemma DoomedOnly(rec: RunRec, ev: Event)
    requires DoomedInv(rec) && Enabled(rec, ev) && !IsExecEvent(ev)
    ensures ev.Begin? || ev.Claim? || ev.WorkerFails? || ev.WorkerDies? || ev.Rescue? || ev.Orphan?
  {
  }

  lemma DoomedClaim(rec: RunRec, ev: Event)
    requires DoomedInv(rec) && Enabled(rec, ev) && ev.Claim?
    ensures DoomedInv(Apply(rec, ev))
  {
  }

  lemma DoomedLeaves(rec: RunRec, ev: Event)
    requires DoomedInv(rec) && Enabled(rec, ev) && (ev.WorkerFails? || ev.WorkerDies?)
    ensures DoomedInv(Apply(rec, ev))
  {
  }

  lemma DoomedReset(rec: RunRec, ev: Event)
    requires DoomedInv(rec) && Enabled(rec, ev) && (ev.Rescue? || ev.Orphan?)
    ensures DoomedInv(Apply(rec, ev))
  {
  }

  lemma DoomedBegin(rec: RunRec, ev: Event)
    requires DoomedInv(rec) && Enabled(rec, ev) && ev.Begin?
    ensures DoomedInv(Apply(rec, ev))
  {
    PromptedTalk(rec, rec.workers[ev.w].copy);
    assert NumberTaken(rec.iterations, rec.workers[ev.w].copy.currentIteration + 1);
  }

  lemma {:induction false} DoomedIsUnharmed(s: RunRec, events: seq<Event>, t: RunRec)
    requires DoomedInv(s) && CleanPath(s, events, t)
    ensures !Harmed(t)
    decreases |events|
  {
    if events != [] {
      DoomedStep(s, events[0]);
      DoomedIsUnharmed(Apply(s, events[0]), events[1..], t);
    }
  }

  /** A doomed run is idle but for its workers, and nobody waits for an answer. */
  lemma DoomedIsIdle(rec: RunRec)
    requires CleanInv(rec) && Doomed(rec)
    ensures RunCheck(rec.row) && rec.pollers == [] && NoneInProgress(rec.iterations)
    ensures |rec.workers| == 1 && rec.workers[0].copy.currentIteration == rec.row.currentIteration
    ensures rec.workers[0].copy.mode == RunMode.Batch
    ensures Paired(rec.messages) && NoStrayResults(rec.messages) && !Open(rec.messages)
  {
    OneWorker(rec, 0);
  }

  lemma RescuedIsDoomed(rec: RunRec, s: RunRec)
    requires Rescued(rec, s) && Doomed(rec)
    requires rec.pollers == [] && NoneInProgress(rec.iterations)
    requires |rec.workers| == 1 && rec.workers[0].copy.currentIteration == rec.row.currentIteration
    requires rec.workers[0].copy.mode == RunMode.Batch
    requires Paired(rec.messages) && NoStrayResults(rec.messages) && !Open(rec.messages)
    ensures DoomedInv(s)
  {
  }

  lemma RescuedDoomed(rec: RunRec, rescue: Event)
    requires CleanInv(rec) && Doomed(rec) && Enabled(rec, rescue) && rescue.Rescue?
    ensures DoomedInv(Apply(rec, rescue))
  {
    DoomedIsIdle(rec);
    RescueEffect(rec, rescue);
    RescuedIsDoomed(rec, Apply(rec, rescue));
  }

  // ---------------------------------------------------------------------------
  // Building blocks of harmful continuations
  // ---------------------------------------------------------------------------

  function Calling(id: string): Response {
    Response([RToolUse(id, "tool", "", None)], NO_USAGE)
  }

  const DONE := Response([RText("done")], NO_USAGE)

  ghost predicate Rescued(rec: RunRec, s: RunRec) {
    && Claimable(s.row) && RunCheck(s.row) && s.row.mode == rec.row.mode
    && s.row.currentIteration == rec.row.currentIteration && s.row.currentIterationId == rec.row.currentIterationId
    && s.iterations == rec.iterations && s.execs == rec.execs && s.workers == rec.workers && s.pollers == rec.pollers
    && s.messages == rec.messages
  }

  lemma RescueEffect(rec: RunRec, rescue: Event)
    requires RunCheck(rec.row) && Enabled(rec, rescue) && rescue.Rescue?
    ensures Rescued(rec, Apply(rec, rescue))
  {
  }

  /** `y` claims the run. */
  ghost predicate TakenOver(s: RunRec, c: RunRec) {
    && c.row == ClaimRun(s.row, "y", 0)
    && c.workers == s.workers + [Worker("y", c.row, Claimed)]
    && c.iterations == s.iterations && c.execs == s.execs && c.pollers == s.pollers && c.messages == s.messages
    && c.hist.notified == s.hist.notified
  }

  lemma TakeOver(rec: RunRec, s: RunRec) returns (c: RunRec)
    requires Reaches(rec, s) && Claimable(s.row)
    ensures Reaches(rec, c) && TakenOver(s, c)
  {
    c := Apply(s, Claim("y", 0));
    Advance(rec, s, Claim("y", 0));
  }

  /** What is true of `b` after worker `w` of `c` began an iteration. */
  ghost predicate Started(c: RunRec, w: nat, b: RunRec)
    requires w < |c.workers|
  {
    var id := |c.iterations|;
    && b.workers == c.workers[w := c.workers[w].(phase := Requested(id))]
    && |b.iterations| == id + 1 && b.iterations[..id] == c.iterations
    && b.iterations[id].number == c.workers[w].copy.currentIteration + 1 && !b.iterations[id].completed
    && b.execs == c.execs && b.pollers == c.pollers && b.hist.notified == c.hist.notified
    && b.row.state == c.row.state && b.row.mode == c.row.mode && b.row.claimedBy == c.row.claimedBy
    && RunCheck(b.row)
    && (c.workers[w].copy.mode == Streaming ==> b.row.currentIterationId == Some(id))
    && (c.workers[w].copy.mode == RunMode.Batch ==> b.row == c.row)
  }

  lemma Start(rec: RunRec, c: RunRec, w: nat) returns (b: RunRec)
    requires Reaches(rec, c) && w < |c.workers| && c.workers[w].phase.Claimed? && RunCheck(c.row)
    requires !NumberTaken(c.iterations, c.workers[w].copy.currentIteration + 1)
    ensures Reaches(rec, b) && Started(c, w, b)
  {
    b := Apply(c, Begin(w));
    Advance(rec, c, Begin(w));
  }

  /** What is true of `b` after `y` claimed `s` and began an iteration. */
  ghost predicate TakenUp(s: RunRec, b: RunRec) {
    var n, id := |s.workers|, |s.iterations|;
    && |b.workers| == n + 1 && b.workers[..n] == s.workers
    && b.workers[n].phase == Requested(id) && b.workers[n].copy.mode == s.row.mode
    && |b.iterations| == id + 1 && b.iterations[..id] == s.iterations
    && b.execs == s.execs && b.pollers == s.pollers && b.hist.notified == s.hist.notified
    && b.row.state == ClaimedState(s.row.mode) && b.row.mode == s.row.mode && b.row.claimedBy.Some?
    && RunCheck(b.row) && (s.row.mode == Streaming ==> b.row.currentIterationId == Some(id))
  }

  lemma TakeUp(rec: RunRec, s: RunRec) returns (b: RunRec)
    requires Reaches(rec, s) && Claimable(s.row) && RunCheck(s.row)
    requires !NumberTaken(s.iterations, s.row.currentIteration + 1)
    ensures Reaches(rec, b) && TakenUp(s, b)
  {
    var c := TakeOver(rec, s);
    b := Start(rec, c, |s.workers|);
    assert b.workers[..|s.workers|] == s.workers;
  }

  /** Worker `w`, the last of those still there, hands in a batch. */
  ghost predicate SubmittedBy(b: RunRec, w: nat, d: RunRec)
    requires w < |b.workers| && b.workers[w].phase.Requested?
    requires b.workers[w].phase.iteration < |b.iterations|
  {
    var i := b.workers[w].phase.iteration;
    && d.workers == b.workers[..w] + b.workers[w + 1..]
    && d.iterations == b.iterations[i := b.iterations[i].(batchStatus := InProgress)]
    && d.execs == b.execs && d.pollers == b.pollers
    && d.row.state == BatchPending && d.row.mode == b.row.mode && d.row.claimedBy == b.row.claimedBy
    && d.row.currentIterationId == Some(i) && RunCheck(d.row)
  }

  lemma Submit(rec: RunRec, b: RunRec, w: nat) returns (d: RunRec)
    requires Reaches(rec, b) && WorkerAt(b, w, RunMode.Batch) && RunCheck(b.row) && !IsTerminal(b.row.state)
    ensures Reaches(rec, d) && SubmittedBy(b, w, d)
  {
    d := Apply(b, Submitted(w));
    Advance(rec, b, Submitted(w));
  }

  /** A batch in progress, with no poller yet, is found to have ended. */
  lemma FindEnded(rec: RunRec, d: RunRec, i: nat) returns (e: RunRec)
    requires Reaches(rec, d) && Polled(d, i) && d.pollers == []
    ensures Reaches(rec, e) && |e.pollers| == 1 && e.pollers[0].fetching && e.pollers[0].iteration == i
    ensures e.row == d.row && e.workers == d.workers && e.execs == d.execs && |e.iterations| == |d.iterations|
  {
    var polling := Apply(d, PollBegins(i));
    Advance(rec, d, PollBegins(i));
    Advance(rec, polling, PollEnded(0));
    e := Apply(polling, PollEnded(0));
  }

  /** A batch whose result is `DONE`. */
  lemma DoneByBatch(e: RunRec)
    requires PollerAt(e, 0, true)
    ensures Enabled(e, PollSucceeded(0, DONE, 2, 0))
    ensures var t := Apply(e, PollSucceeded(0, DONE, 2, 0)); t.row.state == Completed && t.workers == e.workers
  {
    assert !HasToolUse(DONE.blocks);
  }

  lemma DoneByStream(b: RunRec, w: nat)
    requires WorkerAt(b, w, Streaming)
    ensures Enabled(b, Streamed(w, DONE, 2, 0))
    ensures var t := Apply(b, Streamed(w, DONE, 2, 0));
            t.row.state == Completed && t.workers == b.workers[..w] + b.workers[w + 1..]
  {
    assert !HasToolUse(DONE.blocks);
  }

  /** A worker that is still there gives up. */
  lemma GiveUp(t: RunRec)
    requires t.row.state == Completed && t.workers != []
    ensures Harmed(t)
  {
    assert UndoesCompletion(t, WorkerFails(0, "gave up"));
  }

  lemma CompleteAndFail(rec: RunRec, e: RunRec)
    requires Reaches(rec, e) && PollerAt(e, 0, true) && e.workers != []
    ensures exists t :: Reaches(rec, t) && Harmed(t)
  {
    DoneByBatch(e);
    Advance(rec, e, PollSucceeded(0, DONE, 2, 0));
    GiveUp(Apply(e, PollSucceeded(0, DONE, 2, 0)));
  }

  // ---------------------------------------------------------------------------
  // Harm while a worker is alive
  // ---------------------------------------------------------------------------

  lemma HarmByStreaming(rec: RunRec, rescue: Event)
    requires CleanInv(rec) && Enabled(rec, rescue) && rescue.Rescue?
    requires rec.workers != [] && rec.row.mode == Streaming
    ensures CanHarm(rec, rescue)
  {
    NumberIsFree(rec);
    RescueEffect(rec, rescue);
    HarmBySecondStream(Apply(rec, rescue));
  }

  /** A streaming run, or one whose batch was accepted, has used no number beyond its current one. */
  lemma NumberIsFree(rec: RunRec)
    requires Orderly(rec) && (rec.row.mode == Streaming || rec.row.state in {BatchPending, BatchProcessing})
    ensures !NumberTaken(rec.iterations, rec.row.currentIteration + 1)
  {
  }

  lemma HarmBySecondStream(s: RunRec)
    requires Claimable(s.row) && RunCheck(s.row) && s.row.mode == Streaming
    requires |s.workers| == 1 && !NumberTaken(s.iterations, s.row.currentIteration + 1)
    ensures exists t :: Reaches(s, t) && Harmed(t)
  {
    Stay(s);
    var b := TakeUp(s, s);
    StreamAndFail(s, b);
  }

  /** The second worker's stream completes the run, and the first gives up. */
  lemma StreamAndFail(rec: RunRec, b: RunRec)
    requires Reaches(rec, b) && |b.workers| == 2 && WorkerAt(b, 1, Streaming)
    ensures exists t :: Reaches(rec, t) && Harmed(t)
  {
    DoneByStream(b, 1);
    Advance(rec, b, Streamed(1, DONE, 2, 0));
    GiveUp(Apply(b, Streamed(1, DONE, 2, 0)));
  }

  lemma HarmByRequested(rec: RunRec, rescue: Event)
    requires CleanInv(rec) && Enabled(rec, rescue) && rescue.Rescue?
    requires rec.workers != [] && rec.row.mode == RunMode.Batch && rec.workers[0].phase.Requested?
    ensures CanHarm(rec, rescue)
  {
    OneWorker(rec, 0);
    RescueEffect(rec, rescue);
    HarmByFirst(Apply(rec, rescue));
  }

  /** The run is claimed again, and the first worker hands in its batch after all. */
  lemma HarmByFirst(s: RunRec)
    requires Claimable(s.row) && RunCheck(s.row) && s.pollers == [] && WorkerAt(s, 0, RunMode.Batch)
    requires s.row.mode == RunMode.Batch
    ensures exists t :: Reaches(s, t) && Harmed(t)
  {
    Stay(s);
    var c := TakeOver(s, s);
    var i := s.workers[0].phase.iteration;
    assert c.workers[0] == s.workers[0];
    var d := Submit(s, c, 0);
    assert d.iterations[i].batchStatus == InProgress;
    var e := FindEnded(s, d, i);
    CompleteAndFail(s, e);
  }

  lemma HarmByClaimed(rec: RunRec, rescue: Event)
    requires CleanInv(rec) && Enabled(rec, rescue) && rescue.Rescue?
    requires rec.workers != [] && rec.row.mode == RunMode.Batch && rec.workers[0].phase.Claimed? && !Doomed(rec)
    ensures CanHarm(rec, rescue)
  {
    assert |rec.workers| == 1 && rec.pollers == [] && !NumberTaken(rec.iterations, rec.row.currentIteration + 1);
    RescueEffect(rec, rescue);
    HarmBySecond(Apply(rec, rescue));
  }

  lemma HarmBySecond(s: RunRec)
    requires Claimable(s.row) && RunCheck(s.row) && s.row.mode == RunMode.Batch
    requires |s.workers| == 1 && s.pollers == [] && !NumberTaken(s.iterations, s.row.currentIteration + 1)
    ensures exists t :: Reaches(s, t) && Harmed(t)
  {
    Stay(s);
    var b := TakeUp(s, s);
    SubmitAndFail(s, b);
  }

  /** The second worker's batch completes the run, and the first gives up. */
  lemma SubmitAndFail(rec: RunRec, b: RunRec)
    requires Reaches(rec, b) && |b.workers| == 2 && WorkerAt(b, 1, RunMode.Batch) && RunCheck(b.row)
    requires !IsTerminal(b.row.state) && b.row.claimedBy.Some? && b.pollers == []
    ensures exists t :: Reaches(rec, t) && Harmed(t)
  {
    var i := b.workers[1].phase.iteration;
    var d := Submit(rec, b, 1);
    assert d.iterations[i].batchStatus == InProgress;
    var e := FindEnded(rec, d, i);
    CompleteAndFail(rec, e);
  }

  // ---------------------------------------------------------------------------
  // Harm while a batch is in flight
  // ---------------------------------------------------------------------------

  lemma OneCall(id: string, iteration: nat)
    ensures ContentOf(RunMode.Batch, Calling(id).blocks) == [ToolUseBlock(id, "tool", "")]
    ensures ContentOf(Streaming, Calling(id).blocks) == [ToolUseBlock(id, "tool", "")]
    ensures CallIds([ToolUseBlock(id, "tool", "")]) == multiset{id}
    ensures ToolExecs(Calling(id).blocks, iteration, 2, 0) == [NewExec(iteration, id, "tool", "", None, 2, 0)]
    ensures HasToolUse(Calling(id).blocks)
  {
    var blocks := Calling(id).blocks;
    assert blocks[1..] == [];
    assert blocks[0].RToolUse?;
  }

  lemma EmptyAnswer(messages: seq<StoredMessage>, call: StoredMessage, answer: StoredMessage)
    requires Calls(call) && ResultIds(answer.content) == multiset{}
    ensures !Paired(messages + [call] + [answer])
  {
    var all := messages + [call] + [answer];
    assert all[|messages|] == call && all[|messages| + 1] == answer;
  }

  function CallMessage(id: string): StoredMessage {
    StoredMessage(Assistant, [ToolUseBlock(id, "tool", "")])
  }

  /** A result with one call, in a live run. */
  lemma CallResult(rec: RunRec, i: nat, read: RunRow, id: string)
    requires i < |rec.iterations| && RunCheck(rec.row) && !IsTerminal(rec.row.state)
    ensures var (rec', accepted) := ProcessResult(rec, i, read, Calling(id), 2, 0);
            && accepted && rec'.row.state == PendingTools && RunCheck(rec'.row)
            && rec'.row.currentIterationId == rec.row.currentIterationId && rec'.row.claimedAt == rec.row.claimedAt
            && rec'.row.rescueAttempts == rec.row.rescueAttempts
            && rec'.messages == rec.messages + [CallMessage(id)]
            && rec'.execs == rec.execs + [NewExec(i, id, "tool", "", None, 2, 0)]
            && rec'.toolWorkers == rec.toolWorkers && rec'.hist.notified == rec.hist.notified
  {
    OneCall(id, i);
    assert ContentOf(rec.row.mode, Calling(id).blocks) == [ToolUseBlock(id, "tool", "")] by {
      match rec.row.mode
      case Batch =>
      case Streaming =>
    }
  }

  /** A late batch delivers a call, while the run looks for the executions of a newer iteration: it finds
      none, and goes on with an empty answer. */
  lemma CallAndAnswerWithNothing(rec: RunRec, e: RunRec, newest: nat)
    requires Reaches(rec, e) && PollerAt(e, 0, true) && e.pollers[0].iteration != newest
    requires RunCheck(e.row) && !IsTerminal(e.row.state)
    requires e.row.currentIterationId == Some(newest)
    requires forall k :: 0 <= k < |e.execs| ==> e.execs[k].iteration != newest
    ensures exists t :: Reaches(rec, t) && Harmed(t)
  {
    CallResult(e, e.pollers[0].iteration, e.row, "a");
    Advance(rec, e, PollSucceeded(0, Calling("a"), 2, 0));
    OneCall("a", 0);
    AnswerWithNothing(rec, Apply(e, PollSucceeded(0, Calling("a"), 2, 0)), e.messages, CallMessage("a"));
  }

  lemma AnswerWithNothing(rec: RunRec, t: RunRec, messages: seq<StoredMessage>, call: StoredMessage)
    requires Reaches(rec, t) && t.row.state == PendingTools && t.row.currentIterationId.Some? && RunCheck(t.row)
    requires t.messages == messages + [call] && Calls(call)
    requires forall k :: 0 <= k < |t.execs| ==> t.execs[k].iteration != t.row.currentIterationId.value
    ensures exists u :: Reaches(rec, u) && Harmed(u)
  {
    var answer := StoredMessage(User, ResultBlocks(t.execs, []));
    Advance(rec, t, Continue([]));
    var u := Apply(t, Continue([]));
    assert u.messages == messages + [call] + [answer];
    EmptyAnswer(messages, call, answer);
    assert LacksAnswer(u);
  }

  /** The run is taken up again and submitted: nothing of the old batch changes. */
  lemma Resubmit(rec: RunRec, rescue: Event, i: nat) returns (d: RunRec)
    requires CleanInv(rec) && Enabled(rec, rescue) && rescue.Rescue? && InFlight(rec, i)
    ensures Reaches(Apply(rec, rescue), d)
    ensures d.row.state == BatchPending && d.row.mode == RunMode.Batch && d.row.claimedBy.Some? && RunCheck(d.row)
    ensures d.row.currentIterationId == Some(|rec.iterations|)
    ensures |d.iterations| == |rec.iterations| + 1 && d.iterations[..|rec.iterations|] == rec.iterations
    ensures d.execs == rec.execs && d.pollers == rec.pollers
  {
    var s := Apply(rec, rescue);
    assert InFlightTrue(rec, i);
    RescueEffect(rec, rescue);
    Stay(s);
    assert rec.workers == [];
    var b := TakeUp(s, s);
    d := Submit(s, b, 0);
    assert d.iterations[..|rec.iterations|] == b.iterations[..|rec.iterations|];
  }

  lemma HarmInFlight(rec: RunRec, rescue: Event, i: nat)
    requires CleanInv(rec) && Enabled(rec, rescue) && rescue.Rescue? && InFlight(rec, i)
    ensures CanHarm(rec, rescue)
  {
    var d := Resubmit(rec, rescue, i);
    if rec.pollers == [] {
      assert d.iterations[i] == rec.iterations[i];
    } else {
      OnePoller(rec, 0);
    }
    LateDelivery(Apply(rec, rescue), d, i, |rec.iterations|);
  }

  /** The old batch is found to have ended, if that is not known yet, and delivers a call. */
  lemma LateDelivery(s: RunRec, d: RunRec, i: nat, newest: nat)
    requires Reaches(s, d) && RunCheck(d.row) && d.row.state == BatchPending && d.row.claimedBy.Some?
    requires d.row.currentIterationId == Some(newest) && newest < |d.iterations|
    requires forall k :: 0 <= k < |d.execs| ==> d.execs[k].iteration != newest
    requires if d.pollers == [] then i < newest && d.iterations[i].batchStatus == InProgress
             else d.pollers[0].iteration < newest
    ensures exists t :: Reaches(s, t) && Harmed(t)
  {
    var e := d;
    if d.pollers == [] {
      e := FindEnded(s, d, i);
    } else if !d.pollers[0].fetching {
      Advance(s, d, PollEnded(0));
      e := Apply(d, PollEnded(0));
    }
    CallAndAnswerWithNothing(s, e, newest);
  }

  // ---------------------------------------------------------------------------
  // Main results
  // ---------------------------------------------------------------------------

  lemma HarmWhileAwaiting(rec: RunRec, rescue: Event)
    requires CleanInv(rec) && Enabled(rec, rescue) && rescue.Rescue? && rec.row.state == PendingTools
    ensures CanHarm(rec, rescue)
  {
    var s := Apply(rec, rescue);
    RescueEffect(rec, rescue);
    Stay(s);
    assert LacksAnswer(s);
  }

  lemma HarmWhileBusy(rec: RunRec, rescue: Event)
    requires CleanInv(rec) && Enabled(rec, rescue) && rescue.Rescue? && !Quiet(rec) && !Doomed(rec)
    ensures CanHarm(rec, rescue)
  {
    if rec.workers != [] {
      if rec.row.mode == Streaming {
        HarmByStreaming(rec, rescue);
      } else if rec.workers[0].phase.Requested? {
        HarmByRequested(rec, rescue);
      } else {
        HarmByClaimed(rec, rescue);
      }
    } else if rec.pollers != [] {
      assert PollerTrue(rec, rec.pollers[0]);
      HarmInFlight(rec, rescue, rec.pollers[0].iteration);
    } else {
      var i :| 0 <= i < |rec.iterations| && rec.iterations[i].batchStatus == InProgress;
      HarmInFlight(rec, rescue, i);
    }
  }

  /** The exact condition of a safe rescue, from every clean state: no worker, no batch, no poller and no
      tool results are outstanding - or the run is doomed anyway. In every other state some continuation
      leaves a call unanswered in a claimable run or turns a completed run into a failed one. */
  lemma RescueIsHarmfulIff(rec: RunRec, rescue: Event)
    requires CleanInv(rec) && Enabled(rec, rescue) && rescue.Rescue?
    ensures CanHarm(rec, rescue) <==> !CleanStep(rec, rescue) && !Doomed(rec)
  {
    var s := Apply(rec, rescue);
    if Doomed(rec) {
      RescuedDoomed(rec, rescue);
      forall t | Reaches(s, t) ensures !Harmed(t) {
        var events :| CleanPath(s, events, t);
        DoomedIsUnharmed(s, events, t);
      }
    } else if CleanStep(rec, rescue) {
      StepClean(rec, rescue);
      forall t | Reaches(s, t) ensures !Harmed(t) {
        var events :| CleanPath(s, events, t);
        CleanPathKeepsInv(s, events, t);
        CleanIsUnharmed(t);
      }
    } else if rec.row.state == PendingTools {
      HarmWhileAwaiting(rec, rescue);
    } else {
      HarmWhileBusy(rec, rescue);
    }
  }

  /** A rescued run that nobody works on is failed by its next worker exactly if the number of its next
      iteration is taken. */
  lemma RescuedRunFailsIff(rec: RunRec, rescue: Event, instance: InstanceId, now: int)
    requires RunCheck(rec.row) && rec.workers == [] && Enabled(rec, rescue) && rescue.Rescue?
    ensures var claimed := Claim(instance, now);
            && Enabled(Apply(rec, rescue), claimed)
            && Enabled(Apply(Apply(rec, rescue), claimed), Begin(0))
            && (Apply(Apply(Apply(rec, rescue), claimed), Begin(0)).row.state == Failed
                <==> NumberTaken(rec.iterations, rec.row.currentIteration + 1))
  {
    RescueEffect(rec, rescue);
  }

  /** That is so after a batch worker died between the iteration and the submission, and never in a
      streaming run or while a batch was accepted. */
  lemma NumberIsTakenBy(rec: RunRec)
    requires Orderly(rec)
    ensures rec.workers != [] && rec.workers[0].phase.Requested? && rec.row.mode == RunMode.Batch ==>
              var died := Apply(rec, WorkerDies(0));
              died.workers == [] && NumberTaken(died.iterations, died.row.currentIteration + 1)
    ensures rec.row.mode == Streaming || rec.row.state in {BatchPending, BatchProcessing} ==>
              !NumberTaken(rec.iterations, rec.row.currentIteration + 1)
  {
    if rec.workers != [] {
      OneWorker(rec, 0);
    }
    if rec.row.mode == Streaming || rec.row.state in {BatchPending, BatchProcessing} {
      NumberIsFree(rec);
    }
  }
}
