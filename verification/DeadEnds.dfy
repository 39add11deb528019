/** Which live runs can still end by themselves: without an instance being deleted under them. */
module DeadEnds {
  import opened Content
  import opened Rows
  import opened RunMachine
  import opened RunInvariants
  import opened OrderlyRuns

  // ---------------------------------------------------------------------------
  // Ending
  // ---------------------------------------------------------------------------

  /** Anything may happen but the deletion of an instance; only child runs that exist can end, and a run
      is rescued at most `maxRescues` times. */
  ghost predicate Allowed(rec: RunRec, ev: Event, maxRescues: nat)
    requires Enabled(rec, ev)
  {
    && !ev.Orphan? && !ev.OrphanExec?
    && (ev.ChildEnds? ==> rec.execs[ev.k].childRun.Some?)
    && (ev.Rescue? ==> ev.maxRescues <= maxRescues)
  }

  ghost predicate EndsBy(rec: RunRec, events: seq<Event>, maxRescues: nat)
    decreases |events|
  {
    if events == [] then IsTerminal(rec.row.state)
    else
      && Enabled(rec, events[0]) && Allowed(rec, events[0], maxRescues)
      && EndsBy(Apply(rec, events[0]), events[1..], maxRescues)
  }

  ghost predicate CanEnd(rec: RunRec, maxRescues: nat) {
    exists events :: EndsBy(rec, events, maxRescues)
  }

  lemma HasEnded(rec: RunRec, maxRescues: nat)
    requires IsTerminal(rec.row.state)
    ensures CanEnd(rec, maxRescues)
  {
    assert EndsBy(rec, [], maxRescues);
  }

  lemma EndsAfter(rec: RunRec, ev: Event, maxRescues: nat)
    requires Enabled(rec, ev) && Allowed(rec, ev, maxRescues) && CanEnd(Apply(rec, ev), maxRescues)
    ensures CanEnd(rec, maxRescues)
  {
    var events :| EndsBy(Apply(rec, ev), events, maxRescues);
    var all := [ev] + events;
    assert all[0] == ev && all[1..] == events;
    assert EndsBy(rec, all, maxRescues);
  }

  // ---------------------------------------------------------------------------
  // Dead ends
  // ---------------------------------------------------------------------------

  /** A running execution that nobody will finish: its worker is gone, and no child run stands for it. */
  ghost predicate Abandoned(rec: RunRec, k: nat) {
    && k < |rec.execs| && rec.execs[k].state == ExecRunning
    && Unheld(rec.toolWorkers, k) && rec.execs[k].childRun.None?
  }

  /** Nothing is outstanding, and the run can neither continue nor be rescued: an abandoned execution
      blocks it, or its rescues are spent. */
  ghost predicate Stranded(rec: RunRec, maxRescues: nat) {
    && Quiet(rec) && rec.row.state != Pending && !IsTerminal(rec.row.state)
    && if rec.row.state == PendingTools then
         !rec.hist.notified
         && exists k: nat :: Abandoned(rec, k) && Some(rec.execs[k].iteration) == rec.row.currentIterationId
       else rec.row.rescueAttempts >= maxRescues || exists k: nat :: Abandoned(rec, k)
  }

  /** A holder that leaves, or comes for another execution, is not missed. */
  lemma AbandonedUnheld(rec: RunRec, ev: Event, k: nat, maxRescues: nat)
    requires Abandoned(rec, k) && Enabled(rec, ev) && IsExecEvent(ev) && Allowed(rec, ev, maxRescues)
    ensures Unheld(Apply(rec, ev).toolWorkers, k)
  {
    if ev.ClaimExec? {
      assert ev.k != k;
    }
  }

  lemma AbandonedKept(rec: RunRec, ev: Event, k: nat, maxRescues: nat)
    requires Abandoned(rec, k) && Enabled(rec, ev) && IsExecEvent(ev) && Allowed(rec, ev, maxRescues)
    ensures |Apply(rec, ev).execs| == |rec.execs| && Apply(rec, ev).execs[k] == rec.execs[k]
  {
  }

  lemma AbandonedStays(rec: RunRec, ev: Event, k: nat, maxRescues: nat)
    requires Abandoned(rec, k) && Enabled(rec, ev) && IsExecEvent(ev) && Allowed(rec, ev, maxRescues)
    ensures Abandoned(Apply(rec, ev), k) && Apply(rec, ev).execs[k].iteration == rec.execs[k].iteration
    ensures Apply(rec, ev).hist.notified == rec.hist.notified
  {
    AbandonedUnheld(rec, ev, k, maxRescues);
    AbandonedKept(rec, ev, k, maxRescues);
  }

  lemma StrandedExecStep(rec: RunRec, ev: Event, maxRescues: nat)
    requires Stranded(rec, maxRescues) && Enabled(rec, ev) && IsExecEvent(ev) && Allowed(rec, ev, maxRescues)
    ensures Stranded(Apply(rec, ev), maxRescues)
  {
    ExecStepsKeepRun(rec, ev);
    if rec.row.state == PendingTools {
      var k: nat :| Abandoned(rec, k) && Some(rec.execs[k].iteration) == rec.row.currentIterationId;
      AbandonedStays(rec, ev, k, maxRescues);
    } else if rec.row.rescueAttempts < maxRescues {
      var k: nat :| Abandoned(rec, k);
      AbandonedStays(rec, ev, k, maxRescues);
    }
  }

  /** Nothing else can happen. */
  lemma StrandedOnlyTools(rec: RunRec, ev: Event, maxRescues: nat)
    requires Stranded(rec, maxRescues) && Enabled(rec, ev) && Allowed(rec, ev, maxRescues)
    ensures IsExecEvent(ev)
  {
  }

  lemma {:induction false} StrandedStays(rec: RunRec, events: seq<Event>, maxRescues: nat)
    requires Stranded(rec, maxRescues)
    ensures !EndsBy(rec, events, maxRescues)
    decreases |events|
  {
    if events != [] && Enabled(rec, events[0]) && Allowed(rec, events[0], maxRescues) {
      StrandedOnlyTools(rec, events[0], maxRescues);
      StrandedExecStep(rec, events[0], maxRescues);
      StrandedStays(Apply(rec, events[0]), events[1..], maxRescues);
    }
  }

  // ---------------------------------------------------------------------------
  // Who holds a run
  // ---------------------------------------------------------------------------

  /** A run that waits to be claimed is unclaimed, and one that is under way has a claim; while it waits
      for tools it knows for which. */
  ghost predicate HeldOk(rec: RunRec) {
    && (rec.row.state == Pending ==> rec.row.claimedBy.None?)
    && (rec.row.state != Pending && !IsTerminal(rec.row.state) ==> rec.row.claimedBy.Some? && rec.row.claimedAt.Some?)
    && (rec.row.state == PendingTools ==> rec.row.currentIterationId.Some?)
  }

  lemma StepHeld(rec: RunRec, ev: Event)
    requires ShapeOk(rec) && HeldOk(rec) && Enabled(rec, ev)
    ensures HeldOk(Apply(rec, ev))
  {
    if IsExecEvent(ev) {
      ExecStepsKeepRun(rec, ev);
    } else if ev.PollSucceeded? {
      DeliveredHeld(rec, ev);
    } else if IsPollEvent(ev) {
      PollHeld(rec, ev);
    } else if ev.Streamed? {
      StreamedHeld(rec, ev);
    } else if IsWorkerEvent(ev) {
      WorkHeld(rec, ev);
    } else {
      RowHeld(rec, ev);
    }
  }

  lemma FailedHeld(rec: RunRec, message: string)
    requires HeldOk(rec)
    ensures HeldOk(WithRow(rec, FailRun(rec.row, message)))
  {
  }

  lemma PollHeld(rec: RunRec, ev: Event)
    requires ShapeOk(rec) && HeldOk(rec) && Enabled(rec, ev) && IsPollEvent(ev) && !ev.PollSucceeded?
    ensures HeldOk(Apply(rec, ev))
  {
    if ev.PollErrored? {
      FailedHeld(rec, ev.message);
    }
  }

  lemma BeginHeld(rec: RunRec, w: nat)
    requires HeldOk(rec) && w < |rec.workers|
    ensures HeldOk(BeginRun(rec, w))
  {
    FailedHeld(rec.(messages := Prompted(rec, rec.workers[w].copy)), "failed to create iteration");
  }

  lemma SubmitHeld(rec: RunRec)
    requires ShapeOk(rec) && HeldOk(rec) && rec.workers != [] && WorkerTrue(rec, rec.workers[0])
    requires rec.workers[0].phase.Requested?
    ensures HeldOk(FinishSubmit(rec, 0))
  {
  }

  lemma WorkHeld(rec: RunRec, ev: Event)
    requires ShapeOk(rec) && HeldOk(rec) && Enabled(rec, ev) && IsWorkerEvent(ev) && !ev.Streamed?
    ensures HeldOk(Apply(rec, ev))
  {
    if ev.Begin? {
      BeginHeld(rec, ev.w);
    } else if ev.Submitted? {
      OneWorker(rec, ev.w);
      SubmitHeld(rec);
    } else {
      LeaveHeld(rec, ev);
    }
  }

  lemma LeaveHeld(rec: RunRec, ev: Event)
    requires HeldOk(rec) && Enabled(rec, ev) && (ev.WorkerFails? || ev.WorkerDies?)
    ensures HeldOk(Apply(rec, ev))
  {
    if ev.WorkerFails? {
      FailedHeld(rec, ev.message);
    }
  }

  lemma StreamedHeld(rec: RunRec, ev: Event)
    requires ShapeOk(rec) && HeldOk(rec) && Enabled(rec, ev) && ev.Streamed?
    ensures HeldOk(Apply(rec, ev))
  {
    Stream(rec, ev);
    var worker := rec.workers[0];
    ResultHeld(rec, worker.phase.iteration, worker.copy, ev.response, ev.maxAttempts, ev.now);
    var processed :=
      ProcessResult(rec, worker.phase.iteration, worker.copy, ev.response, ev.maxAttempts, ev.now).0;
    FailedHeld(processed, "failed to update run");
  }

  lemma DeliveredHeld(rec: RunRec, ev: Event)
    requires ShapeOk(rec) && HeldOk(rec) && Enabled(rec, ev) && ev.PollSucceeded?
    ensures HeldOk(Apply(rec, ev))
  {
    Delivery(rec, ev);
    ResultHeld(rec, rec.pollers[0].iteration, rec.row, ev.response, ev.maxAttempts, ev.now);
  }

  lemma ResultHeld(rec: RunRec, id: nat, read: RunRow, response: Response, maxAttempts: int, now: int)
    requires HeldOk(rec) && id < |rec.iterations| && rec.row.state != Pending
    requires rec.row.state != Failed ==> rec.row.currentIterationId.Some?
    requires RunCheck(rec.row) && (IsTerminal(rec.row.state) ==> rec.row.state == Failed)
    ensures HeldOk(ProcessResult(rec, id, read, response, maxAttempts, now).0)
  {
  }

  lemma OrphanHeld(rec: RunRec, instance: InstanceId)
    requires HeldOk(rec)
    ensures HeldOk(WithRow(rec, OrphanRun(rec.row, instance)))
  {
    FailedHeld(rec, "Instance disconnected");
  }

  lemma ClaimHeld(rec: RunRec, ev: Event)
    requires HeldOk(rec) && Enabled(rec, ev) && ev.Claim?
    ensures HeldOk(Apply(rec, ev))
  {
  }

  lemma ResetHeld(rec: RunRec, ev: Event)
    requires HeldOk(rec) && Enabled(rec, ev) && (ev.Continue? || ev.Rescue?)
    ensures HeldOk(Apply(rec, ev))
  {
  }

  lemma RowHeld(rec: RunRec, ev: Event)
    requires HeldOk(rec) && Enabled(rec, ev) && (ev.Claim? || ev.Continue? || ev.Rescue? || ev.Orphan?)
    ensures HeldOk(Apply(rec, ev))
  {
    if ev.Claim? {
      ClaimHeld(rec, ev);
    } else if ev.Orphan? {
      OrphanHeld(rec, ev.instance);
    } else {
      ResetHeld(rec, ev);
    }
  }

  lemma {:induction false} HeldReachable(rec: RunRec, events: seq<Event>)
    requires Orderly(rec) && Inv(rec) && HeldOk(rec) && OrderlyFeasible(rec, events)
    ensures Feasible(rec, events)
    ensures Orderly(After(rec, events)) && Inv(After(rec, events)) && HeldOk(After(rec, events))
    decreases |events|
  {
    if events != [] {
      StepOrderly(rec, events[0]);
      StepOk(rec, events[0]);
      StepHeld(rec, events[0]);
      HeldReachable(Apply(rec, events[0]), events[1..]);
    }
  }

  // ---------------------------------------------------------------------------
  // Ways to end
  // ---------------------------------------------------------------------------

  lemma EndsByWorker(rec: RunRec, maxRescues: nat)
    requires rec.workers != []
    ensures CanEnd(rec, maxRescues)
  {
    HasEnded(Apply(rec, WorkerFails(0, "")), maxRescues);
    EndsAfter(rec, WorkerFails(0, ""), maxRescues);
  }

  lemma EndsFromPending(rec: RunRec, maxRescues: nat)
    requires Claimable(rec.row)
    ensures CanEnd(rec, maxRescues)
  {
    EndsByWorker(Apply(rec, Claim("", 0)), maxRescues);
    EndsAfter(rec, Claim("", 0), maxRescues);
  }

  lemma EndsByPoller(rec: RunRec, p: nat, maxRescues: nat)
    requires p < |rec.pollers| && rec.pollers[p].iteration < |rec.iterations|
    ensures CanEnd(rec, maxRescues)
  {
    if rec.pollers[p].fetching {
      HasEnded(Apply(rec, PollErrored(p, "")), maxRescues);
      EndsAfter(rec, PollErrored(p, ""), maxRescues);
    } else {
      var fetching := Apply(rec, PollEnded(p));
      HasEnded(Apply(fetching, PollErrored(p, "")), maxRescues);
      EndsAfter(fetching, PollErrored(p, ""), maxRescues);
      EndsAfter(rec, PollEnded(p), maxRescues);
    }
  }

  lemma EndsByBatch(rec: RunRec, i: nat, maxRescues: nat)
    requires i < |rec.iterations| && rec.iterations[i].batchStatus == InProgress
    requires rec.row.claimedBy.Some? && rec.pollers == []
    ensures CanEnd(rec, maxRescues)
  {
    EndsByPoller(Apply(rec, PollBegins(i)), 0, maxRescues);
    EndsAfter(rec, PollBegins(i), maxRescues);
  }

  lemma EndsByRescue(rec: RunRec, maxRescues: nat)
    requires RunCheck(rec.row) && rec.row.claimedAt.Some? && rec.row.rescueAttempts < maxRescues
    requires rec.row.state in {BatchSubmitting, BatchPending, BatchProcessing, StreamingRun, PendingTools}
    requires AllFinished(rec.execs)
    ensures CanEnd(rec, maxRescues)
  {
    var rescue := Rescue(rec.row.claimedAt.value + 1, 0, maxRescues);
    assert Enabled(rec, rescue);
    EndsFromPending(Apply(rec, rescue), maxRescues);
    EndsAfter(rec, rescue, maxRescues);
  }

  /** Some order in which the executions of an iteration are fetched. */
  lemma {:induction false} SomeFetch(execs: seq<ExecRow>, id: nat) returns (fetched: seq<nat>)
    ensures Fetches(execs, id, fetched)
  {
    if execs == [] {
      fetched := [];
    } else {
      var n := |execs| - 1;
      var rest := SomeFetch(execs[..n], id);
      FetchesLast(execs, id, rest);
      fetched := if execs[n].iteration == id then rest + [n] else rest;
    }
  }

  lemma FetchesLast(execs: seq<ExecRow>, id: nat, rest: seq<nat>)
    requires execs != [] && Fetches(execs[..|execs| - 1], id, rest)
    ensures Fetches(execs, id, if execs[|execs| - 1].iteration == id then rest + [|execs| - 1] else rest)
  {
    var n := |execs| - 1;
    var fetched := if execs[n].iteration == id then rest + [n] else rest;
    forall j | 0 <= j < |fetched| ensures fetched[j] < |execs| && execs[fetched[j]].iteration == id {
      if j < |rest| {
        assert fetched[j] == rest[j] && execs[..n][rest[j]] == execs[rest[j]];
      }
    }
    forall j, j' | 0 <= j < j' < |fetched| ensures fetched[j] != fetched[j'] {
      assert fetched[j] == rest[j] && rest[j] < n;
    }
    forall k | 0 <= k < |execs| && execs[k].iteration == id ensures k in fetched {
      if k < n {
        assert execs[..n][k] == execs[k];
        var j :| 0 <= j < |rest| && rest[j] == k;
        assert fetched[j] == k;
      } else {
        assert fetched[|rest|] == k;
      }
    }
  }

  lemma EndsByContinue(rec: RunRec, maxRescues: nat)
    requires RunCheck(rec.row) && rec.row.state == PendingTools && rec.row.currentIterationId.Some?
    requires rec.hist.notified || IterationFinished(rec.execs, rec.row.currentIterationId.value)
    ensures CanEnd(rec, maxRescues)
  {
    var fetched := SomeFetch(rec.execs, rec.row.currentIterationId.value);
    EndsFromPending(Apply(rec, Continue(fetched)), maxRescues);
    EndsAfter(rec, Continue(fetched), maxRescues);
  }

  // ---------------------------------------------------------------------------
  // Finishing tools
  // ---------------------------------------------------------------------------

  /** Execution `k` has ended, and no other was abandoned for it. */
  ghost predicate Settled(rec: RunRec, k: nat, rec': RunRec) {
    && SameRun(rec, rec') && ToolsOk(rec')
    && |rec'.execs| == |rec.execs|
    && (forall j: nat :: j < |rec.execs| ==> rec'.execs[j].iteration == rec.execs[j].iteration)
    && (forall j: nat :: j < |rec.execs| && j != k ==> rec'.execs[j] == rec.execs[j])
    && (forall j: nat :: j != k && Abandoned(rec', j) ==> Abandoned(rec, j))
    && k < |rec.execs| && ExecTerminal(rec'.execs[k].state)
  }

  lemma FinishHeld(rec: RunRec, t: nat, maxRescues: nat) returns (rec': RunRec)
    requires ToolsOk(rec) && HeldExec(rec, t)
    ensures Settled(rec, rec.toolWorkers[t].exec, rec')
    ensures CanEnd(rec', maxRescues) ==> CanEnd(rec, maxRescues)
  {
    var k := rec.toolWorkers[t].exec;
    var finish := FinishExec(t, if rec.execs[k].agent.Some? then AgentRefused("") else Succeeded(""), 0, 0);
    rec' := Apply(rec, finish);
    FinishEffect(rec, finish);
    FinishStepOk(rec, finish);
    ExecStepsKeepRun(rec, finish);
    HoldersLeft(rec, t, rec');
    if CanEnd(rec', maxRescues) {
      EndsAfter(rec, finish, maxRescues);
    }
  }

  lemma HoldersLeft(rec: RunRec, t: nat, rec': RunRec)
    requires HeldExec(rec, t)
    requires rec'.toolWorkers == rec.toolWorkers[..t] + rec.toolWorkers[t + 1..]
    ensures forall j: nat :: j != rec.toolWorkers[t].exec && Unheld(rec'.toolWorkers, j) ==> Unheld(rec.toolWorkers, j)
  {
    var n := |rec.toolWorkers|;
    forall j: nat | j != rec.toolWorkers[t].exec && Unheld(rec'.toolWorkers, j) ensures Unheld(rec.toolWorkers, j) {
      forall u | 0 <= u < n ensures rec.toolWorkers[u].exec != j {
        if u != t {
          assert rec.toolWorkers[u] == rec'.toolWorkers[if u < t then u else u - 1];
        }
      }
    }
  }

  lemma FinishQueued(rec: RunRec, k: nat, maxRescues: nat) returns (rec': RunRec)
    requires ToolsOk(rec) && k < |rec.execs| && rec.execs[k].state == ExecPending
    ensures Settled(rec, k, rec')
    ensures CanEnd(rec', maxRescues) ==> CanEnd(rec, maxRescues)
  {
    var claim := ClaimExec(k, "", rec.execs[k].scheduledAt);
    assert ExecOk(rec.execs[k]);
    var claimed := Apply(rec, claim);
    ClaimExecStepOk(rec, claim);
    ExecStepsKeepRun(rec, claim);
    var t := |rec.toolWorkers|;
    assert claimed.toolWorkers[t].exec == k;
    rec' := FinishHeld(claimed, t, maxRescues);
    assert forall j: nat :: j != k && Abandoned(claimed, j) ==> Abandoned(rec, j) by {
      forall j: nat | j != k && Abandoned(claimed, j) ensures Abandoned(rec, j) {
        assert claimed.toolWorkers[..t] == rec.toolWorkers;
      }
    }
    if CanEnd(rec', maxRescues) {
      EndsAfter(rec, claim, maxRescues);
    }
  }

  lemma FinishByChild(rec: RunRec, k: nat, maxRescues: nat) returns (rec': RunRec)
    requires ToolsOk(rec) && k < |rec.execs| && rec.execs[k].state == ExecRunning && rec.execs[k].childRun.Some?
    ensures Settled(rec, k, rec')
    ensures CanEnd(rec', maxRescues) ==> CanEnd(rec, maxRescues)
  {
    var ended := ChildEnds(k, FailRun(rec.row, ""));
    rec' := Apply(rec, ended);
    OutsideStepsOk(rec, ended);
    ExecStepsKeepRun(rec, ended);
    if CanEnd(rec', maxRescues) {
      EndsAfter(rec, ended, maxRescues);
    }
  }

  lemma FinishOne(rec: RunRec, k: nat, maxRescues: nat) returns (rec': RunRec)
    requires ToolsOk(rec) && k < |rec.execs| && !ExecTerminal(rec.execs[k].state) && !Abandoned(rec, k)
    ensures Settled(rec, k, rec')
    ensures CanEnd(rec', maxRescues) ==> CanEnd(rec, maxRescues)
  {
    if rec.execs[k].state == ExecPending {
      rec' := FinishQueued(rec, k, maxRescues);
    } else if rec.execs[k].childRun.Some? {
      rec' := FinishByChild(rec, k, maxRescues);
    } else {
      var t :| 0 <= t < |rec.toolWorkers| && rec.toolWorkers[t].exec == k;
      rec' := FinishHeld(rec, t, maxRescues);
    }
  }

  /** The executions a step waits for: those of one iteration, or all. */
  predicate Awaited(only: Option<nat>, e: ExecRow) {
    only.None? || e.iteration == only.value
  }

  /** Once the awaited executions have ended, the run continues or is rescued. */
  ghost predicate Ready(row: RunRow, only: Option<nat>, maxRescues: nat) {
    && RunCheck(row) && row.claimedAt.Some?
    && (if only.Some? then row.state == PendingTools && row.currentIterationId == only
        else row.state in {BatchSubmitting, BatchPending, BatchProcessing, StreamingRun}
             && row.rescueAttempts < maxRescues)
  }

  lemma {:induction false} EndsAfterTools(rec: RunRec, only: Option<nat>, k: nat, maxRescues: nat)
    requires ToolsOk(rec) && Ready(rec.row, only, maxRescues) && k <= |rec.execs|
    requires forall j :: 0 <= j < k && Awaited(only, rec.execs[j]) ==> ExecTerminal(rec.execs[j].state)
    requires forall j: nat :: Abandoned(rec, j) ==> !Awaited(only, rec.execs[j])
    ensures CanEnd(rec, maxRescues)
    decreases |rec.execs| - k
  {
    if k == |rec.execs| {
      if only.Some? {
        EndsByContinue(rec, maxRescues);
      } else {
        EndsByRescue(rec, maxRescues);
      }
    } else if Awaited(only, rec.execs[k]) && !ExecTerminal(rec.execs[k].state) {
      var rec' := FinishOne(rec, k, maxRescues);
      EndsAfterTools(rec', only, k + 1, maxRescues);
    } else {
      EndsAfterTools(rec, only, k + 1, maxRescues);
    }
  }

  // ---------------------------------------------------------------------------
  // Main results
  // ---------------------------------------------------------------------------

  lemma EndsIfQuiet(rec: RunRec, maxRescues: nat)
    requires ShapeOk(rec) && ToolsOk(rec) && HeldOk(rec)
    requires !IsTerminal(rec.row.state) && Quiet(rec) && !Stranded(rec, maxRescues)
    ensures CanEnd(rec, maxRescues)
  {
    if rec.row.state == Pending {
      EndsFromPending(rec, maxRescues);
    } else if rec.row.state == PendingTools {
      if rec.hist.notified {
        EndsByContinue(rec, maxRescues);
      } else {
        EndsAfterTools(rec, rec.row.currentIterationId, 0, maxRescues);
      }
    } else {
      EndsAfterTools(rec, None, 0, maxRescues);
    }
  }

  lemma EndsIfBusy(rec: RunRec, maxRescues: nat)
    requires ShapeOk(rec) && HeldOk(rec) && !IsTerminal(rec.row.state) && !Quiet(rec)
    ensures CanEnd(rec, maxRescues)
  {
    if rec.workers != [] {
      EndsByWorker(rec, maxRescues);
    } else if rec.pollers != [] {
      assert PollerTrue(rec, rec.pollers[0]);
      EndsByPoller(rec, 0, maxRescues);
    } else {
      var i: nat :| i < |rec.iterations| && rec.iterations[i].batchStatus == InProgress;
      assert InFlight(rec, i) && InFlightTrue(rec, i);
      EndsByBatch(rec, i, maxRescues);
    }
  }

  /** No dead ends but these: in every history in which rescues wait for what is outstanding, a live run
      can still end without the deletion of an instance exactly if it is not stranded. */
  lemma EndsUnlessStranded(row: RunRow, events: seq<Event>, maxRescues: nat)
    requires Fresh(row) && OrderlyFeasible(NewRec(row), events)
    ensures Feasible(NewRec(row), events)
    ensures var rec := After(NewRec(row), events);
            !IsTerminal(rec.row.state) ==> (CanEnd(rec, maxRescues) <==> !Stranded(rec, maxRescues))
  {
    FreshOrderly(row);
    FreshInv(row);
    HeldReachable(NewRec(row), events);
    var rec := After(NewRec(row), events);
    if Stranded(rec, maxRescues) {
      forall path ensures !EndsBy(rec, path, maxRescues) {
        StrandedStays(rec, path, maxRescues);
      }
    } else if !IsTerminal(rec.row.state) {
      if Quiet(rec) {
        EndsIfQuiet(rec, maxRescues);
      } else {
        EndsIfBusy(rec, maxRescues);
      }
    }
  }

  lemma LeavingAbandons(rec: RunRec, t: nat, j: nat)
    requires ToolsOk(rec) && HeldExec(rec, t) && rec.execs[rec.toolWorkers[t].exec].state == ExecRunning
    ensures Abandoned(Apply(rec, ToolWorkerDies(t)), j)
       <==> Abandoned(rec, j) || (j == rec.toolWorkers[t].exec && rec.execs[j].childRun.None?)
  {
    var rec' := Apply(rec, ToolWorkerDies(t));
    HoldersLeft(rec, t, rec');
    forall u | 0 <= u < |rec'.toolWorkers|
      ensures rec'.toolWorkers[u] == rec.toolWorkers[if u < t then u else u + 1]
    {
    }
  }

  /** A tool worker that leaves without an outcome abandons its execution, unless a child run stands for
      it: a run that waits for that execution, and was never notified, is then stranded. */
  lemma LeavingStrands(rec: RunRec, t: nat, maxRescues: nat)
    requires Orderly(rec) && ToolsOk(rec) && HeldExec(rec, t) && rec.row.state == PendingTools && !rec.hist.notified
    requires rec.execs[rec.toolWorkers[t].exec].state == ExecRunning
    requires Some(rec.execs[rec.toolWorkers[t].exec].iteration) == rec.row.currentIterationId
    ensures Stranded(Apply(rec, ToolWorkerDies(t)), maxRescues)
       <==> Stranded(rec, maxRescues) || rec.execs[rec.toolWorkers[t].exec].childRun.None?
  {
    PendingIsQuiet(rec);
    forall j: nat
      ensures Abandoned(Apply(rec, ToolWorkerDies(t)), j)
         <==> Abandoned(rec, j) || (j == rec.toolWorkers[t].exec && rec.execs[j].childRun.None?)
    {
      LeavingAbandons(rec, t, j);
    }
    assert Abandoned(Apply(rec, ToolWorkerDies(t)), rec.toolWorkers[t].exec)
      <==> rec.execs[rec.toolWorkers[t].exec].childRun.None?;
  }
}
