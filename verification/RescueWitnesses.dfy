/** Every harm a rescue can do is within reach: a few steps lead there from any fresh run. */
module RescueWitnesses {
  import opened Content
  import opened Rows
  import opened RunMachine
  import opened RunInvariants
  import opened OrderlyRuns
  import opened CleanRuns
  import opened Rescues

  const RESCUE := Rescue(1, 0, 1)

  /** From a fresh run, without an unclean rescue, to a state that satisfies `where` and in which a rescue
      is possible and can do harm. */
  ghost predicate HarmArises(row: RunRow, where: RunRec -> bool) {
    exists t :: Reaches(NewRec(row), t) && where(t) && Enabled(t, RESCUE) && CanHarm(t, RESCUE)
  }

  /** A worker that has not begun. */
  ghost predicate HasIdleWorker(rec: RunRec) {
    rec.workers != [] && rec.workers[0].phase.Claimed?
  }

  /** A worker whose iteration is stored. */
  ghost predicate HasBusyWorker(rec: RunRec) {
    rec.workers != [] && rec.workers[0].phase.Requested?
  }

  ghost predicate HasBatch(rec: RunRec) {
    rec.workers == [] && rec.pollers == [] && !NoneInProgress(rec.iterations)
  }

  ghost predicate HasFetcher(rec: RunRec) {
    rec.workers == [] && rec.pollers != [] && rec.pollers[0].fetching
  }

  ghost predicate AwaitsTools(rec: RunRec) {
    rec.row.state == PendingTools
  }

  /** What the first steps lead to. */
  ghost predicate FreshlyClaimed(row: RunRow, c: RunRec) {
    && c.row == ClaimRun(row, "y", 0) && c.workers == [Worker("y", c.row, Claimed)]
    && c.iterations == [] && c.execs == [] && c.pollers == [] && c.toolWorkers == []
  }

  lemma ReachedIsClean(row: RunRow, t: RunRec)
    requires Fresh(row) && Reaches(NewRec(row), t)
    ensures CleanInv(t)
  {
    FreshClean(row);
    var events :| CleanPath(NewRec(row), events, t);
    CleanPathKeepsInv(NewRec(row), events, t);
  }

  lemma ToClaimed(row: RunRow) returns (c: RunRec)
    requires Fresh(row)
    ensures Reaches(NewRec(row), c) && CleanInv(c) && FreshlyClaimed(row, c)
  {
    Stay(NewRec(row));
    c := Apply(NewRec(row), Claim("y", 0));
    Advance(NewRec(row), NewRec(row), Claim("y", 0));
    ReachedIsClean(row, c);
  }

  /** After the first iteration was stored. */
  ghost predicate FreshlyBegun(row: RunRow, b: RunRec) {
    && |b.workers| == 1 && b.workers[0].phase == Requested(0) && b.workers[0].copy.mode == row.mode
    && |b.iterations| == 1 && b.execs == [] && b.pollers == [] && b.toolWorkers == []
    && b.row.mode == row.mode && b.row.state == ClaimedState(row.mode) && RunCheck(b.row)
    && b.row.claimedBy == Some("y") && b.row.claimedAt == Some(0) && b.row.rescueAttempts == 0
    && (row.mode == Streaming ==> b.row.currentIterationId == Some(0))
  }

  lemma ToBegun(row: RunRow) returns (b: RunRec)
    requires Fresh(row)
    ensures Reaches(NewRec(row), b) && CleanInv(b) && FreshlyBegun(row, b)
  {
    var c := ToClaimed(row);
    b := Apply(c, Begin(0));
    Advance(NewRec(row), c, Begin(0));
    ReachedIsClean(row, b);
  }

  lemma IdleWorkerArises(row: RunRow)
    requires Fresh(row)
    ensures HarmArises(row, HasIdleWorker)
  {
    var c := ToClaimed(row);
    assert Enabled(c, RESCUE);
    if row.mode == Streaming {
      HarmByStreaming(c, RESCUE);
    } else {
      assert !Doomed(c);
      HarmByClaimed(c, RESCUE);
    }
  }

  lemma BusyWorkerArises(row: RunRow)
    requires Fresh(row)
    ensures HarmArises(row, HasBusyWorker)
  {
    var b := ToBegun(row);
    assert Enabled(b, RESCUE);
    if row.mode == Streaming {
      HarmByStreaming(b, RESCUE);
    } else {
      HarmByRequested(b, RESCUE);
    }
  }

  ghost predicate FreshlySubmitted(row: RunRow, d: RunRec) {
    && d.workers == [] && d.execs == [] && d.toolWorkers == [] && |d.iterations| == 1
    && d.row.mode == RunMode.Batch && d.row.state == BatchPending && RunCheck(d.row)
    && d.row.claimedBy == Some("y") && d.row.claimedAt == Some(0) && d.row.rescueAttempts == 0
  }

  lemma SubmitFirst(row: RunRow, b: RunRec)
    requires row.mode == RunMode.Batch && FreshlyBegun(row, b)
    ensures Enabled(b, Submitted(0)) && FreshlySubmitted(row, Apply(b, Submitted(0)))
    ensures Apply(b, Submitted(0)).pollers == [] && Apply(b, Submitted(0)).iterations[0].batchStatus == InProgress
  {
  }

  lemma ToSubmitted(row: RunRow) returns (d: RunRec)
    requires Fresh(row) && row.mode == RunMode.Batch
    ensures Reaches(NewRec(row), d) && CleanInv(d) && FreshlySubmitted(row, d)
    ensures d.pollers == [] && d.iterations[0].batchStatus == InProgress
  {
    var b := ToBegun(row);
    SubmitFirst(row, b);
    d := Apply(b, Submitted(0));
    Advance(NewRec(row), b, Submitted(0));
    ReachedIsClean(row, d);
  }

  lemma BatchArises(row: RunRow)
    requires Fresh(row) && row.mode == RunMode.Batch
    ensures HarmArises(row, HasBatch)
  {
    var d := ToSubmitted(row);
    assert Enabled(d, RESCUE);
    HarmInFlight(d, RESCUE, 0);
  }

  lemma ToFetching(row: RunRow) returns (e: RunRec)
    requires Fresh(row) && row.mode == RunMode.Batch
    ensures Reaches(NewRec(row), e) && CleanInv(e) && FreshlySubmitted(row, e)
    ensures PollerAt(e, 0, true) && e.pollers[0].iteration == 0
  {
    var d := ToSubmitted(row);
    Advance(NewRec(row), d, PollBegins(0));
    var polling := Apply(d, PollBegins(0));
    Advance(NewRec(row), polling, PollEnded(0));
    e := Apply(polling, PollEnded(0));
    ReachedIsClean(row, e);
  }

  lemma FetcherArises(row: RunRow)
    requires Fresh(row) && row.mode == RunMode.Batch
    ensures HarmArises(row, HasFetcher)
  {
    var e := ToFetching(row);
    assert Enabled(e, RESCUE);
    HarmInFlight(e, RESCUE, 0);
  }

  ghost predicate FreshlyCalling(row: RunRow, t: RunRec) {
    && t.execs == [NewExec(0, "a", "tool", "", None, 2, 0)] && t.toolWorkers == []
    && t.row.state == PendingTools && t.row.claimedAt == Some(0) && t.row.rescueAttempts == 0
  }

  lemma StreamCall(row: RunRow, b: RunRec)
    requires row.mode == Streaming && FreshlyBegun(row, b)
    ensures Enabled(b, Streamed(0, Calling("a"), 2, 0))
    ensures FreshlyCalling(row, Apply(b, Streamed(0, Calling("a"), 2, 0)))
  {
    CallResult(b, 0, b.workers[0].copy, "a");
  }

  lemma DeliverCall(row: RunRow, e: RunRec)
    requires FreshlySubmitted(row, e) && PollerAt(e, 0, true) && e.pollers[0].iteration == 0
    ensures Enabled(e, PollSucceeded(0, Calling("a"), 2, 0))
    ensures FreshlyCalling(row, Apply(e, PollSucceeded(0, Calling("a"), 2, 0)))
  {
    CallResult(e, 0, e.row, "a");
  }

  lemma ToCalling(row: RunRow) returns (t: RunRec)
    requires Fresh(row)
    ensures Reaches(NewRec(row), t) && CleanInv(t) && FreshlyCalling(row, t)
  {
    if row.mode == Streaming {
      var b := ToBegun(row);
      StreamCall(row, b);
      t := Apply(b, Streamed(0, Calling("a"), 2, 0));
      Advance(NewRec(row), b, Streamed(0, Calling("a"), 2, 0));
    } else {
      var e := ToFetching(row);
      DeliverCall(row, e);
      t := Apply(e, PollSucceeded(0, Calling("a"), 2, 0));
      Advance(NewRec(row), e, PollSucceeded(0, Calling("a"), 2, 0));
    }
    ReachedIsClean(row, t);
  }

  lemma AwaitingArises(row: RunRow)
    requires Fresh(row)
    ensures HarmArises(row, AwaitsTools)
  {
    var t := ToCalling(row);
    var u := FinishCall(row, t);
    HarmWhileAwaiting(u, RESCUE);
  }

  ghost predicate FreshlyHeld(row: RunRow, h: RunRec) {
    && h.toolWorkers == [ToolWorker(0, 1)] && |h.execs| == 1 && h.execs[0].agent.None?
    && h.row.state == PendingTools && h.row.claimedAt == Some(0) && h.row.rescueAttempts == 0
  }

  lemma TakeTool(row: RunRow, t: RunRec)
    requires FreshlyCalling(row, t)
    ensures Enabled(t, ClaimExec(0, "z", 0)) && FreshlyHeld(row, Apply(t, ClaimExec(0, "z", 0)))
  {
  }

  lemma EndTool(row: RunRow, h: RunRec)
    requires FreshlyHeld(row, h)
    ensures Enabled(h, FinishExec(0, Succeeded(""), 0, 0))
    ensures var u := Apply(h, FinishExec(0, Succeeded(""), 0, 0)); u.row.state == PendingTools && Enabled(u, RESCUE)
  {
    var finish := FinishExec(0, Succeeded(""), 0, 0);
    ExecStepsKeepRun(h, finish);
    FinishEffect(h, finish);
  }

  /** The tool is claimed and ends, but nobody has continued the run yet. */
  lemma FinishCall(row: RunRow, t: RunRec) returns (u: RunRec)
    requires Fresh(row) && Reaches(NewRec(row), t) && FreshlyCalling(row, t)
    ensures Reaches(NewRec(row), u) && CleanInv(u)
    ensures u.row.state == PendingTools && Enabled(u, RESCUE)
  {
    TakeTool(row, t);
    Advance(NewRec(row), t, ClaimExec(0, "z", 0));
    var held := Apply(t, ClaimExec(0, "z", 0));
    EndTool(row, held);
    Advance(NewRec(row), held, FinishExec(0, Succeeded(""), 0, 0));
    u := Apply(held, FinishExec(0, Succeeded(""), 0, 0));
    ReachedIsClean(row, u);
  }

  /** From every fresh run each of the states in which a rescue can do harm can be reached: with a worker
      that has not begun, with one that has, with tool results awaited, and in a batch run also with a
      batch in progress or being fetched. */
  lemma EveryHarmArises(row: RunRow)
    requires Fresh(row)
    ensures HarmArises(row, HasIdleWorker) && HarmArises(row, HasBusyWorker) && HarmArises(row, AwaitsTools)
    ensures row.mode == RunMode.Batch ==> HarmArises(row, HasBatch) && HarmArises(row, HasFetcher)
  {
    IdleWorkerArises(row);
    BusyWorkerArises(row);
    AwaitingArises(row);
    if row.mode == RunMode.Batch {
      BatchArises(row);
      FetcherArises(row);
    }
  }

  const SECOND_RESCUE := Rescue(1, 0, 2)

  /** The exception arises as well: a batch run whose first worker died behind its iteration is rescued,
      claimed again, and can then only fail - so even an unclean rescue does no harm. */
  lemma DoomArises(row: RunRow)
    requires Fresh(row) && row.mode == RunMode.Batch
    ensures exists t ::
              Reaches(NewRec(row), t) && Doomed(t) && Enabled(t, SECOND_RESCUE) && !CanHarm(t, SECOND_RESCUE)
  {
    var t := ToDoomed(row);
    RescueIsHarmfulIff(t, SECOND_RESCUE);
  }

  lemma ToDoomed(row: RunRow) returns (t: RunRec)
    requires Fresh(row) && row.mode == RunMode.Batch
    ensures Reaches(NewRec(row), t) && CleanInv(t) && Doomed(t) && Enabled(t, SECOND_RESCUE)
  {
    var dead := ToDead(row);
    Advance(NewRec(row), dead, RESCUE);
    var rescued := Apply(dead, RESCUE);
    RescueEffect(dead, RESCUE);
    RescueCounts(dead);
    t := TakeOver(NewRec(row), rescued);
    TakenOverIsDoomed(rescued, t);
    ReachedIsClean(row, t);
  }

  lemma TakenOverIsDoomed(s: RunRec, t: RunRec)
    requires TakenOver(s, t) && s.row.mode == RunMode.Batch && s.workers == [] && s.execs == []
    requires NumberTaken(s.iterations, s.row.currentIteration + 1) && s.row.rescueAttempts == 1
    ensures Doomed(t) && Enabled(t, SECOND_RESCUE)
  {
  }

  lemma RescueCounts(rec: RunRec)
    requires RunCheck(rec.row) && Enabled(rec, RESCUE)
    ensures Apply(rec, RESCUE).row.rescueAttempts == rec.row.rescueAttempts + 1
  {
  }

  lemma ToDead(row: RunRow) returns (dead: RunRec)
    requires Fresh(row) && row.mode == RunMode.Batch
    ensures Reaches(NewRec(row), dead) && Quiet(dead) && NumberTaken(dead.iterations, dead.row.currentIteration + 1)
    ensures dead.row.mode == RunMode.Batch && dead.row.rescueAttempts == 0 && RunCheck(dead.row) && dead.execs == []
    ensures Enabled(dead, RESCUE) && dead.row.state != PendingTools
  {
    var b := ToBegun(row);
    NumberIsTakenBy(b);
    WorkerDead(row, b);
    dead := Apply(b, WorkerDies(0));
    Advance(NewRec(row), b, WorkerDies(0));
  }

  lemma WorkerDead(row: RunRow, b: RunRec)
    requires FreshlyBegun(row, b) && Orderly(b)
    ensures var dead := Apply(b, WorkerDies(0));
            && Quiet(dead) && dead.row == b.row && dead.execs == [] && Enabled(dead, RESCUE)
  {
    OneWorker(b, 0);
  }
}
