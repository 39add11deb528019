/** What the model is told about tools: when a result is final, and when a failure is flagged as one. */
module ToolOutcomes {
  import opened Content
  import opened Rows
  import opened RunMachine
  import opened RunInvariants
  import opened OrderlyRuns
  import opened CleanRuns
  import opened Rescues

  // ---------------------------------------------------------------------------
  // Final results
  // ---------------------------------------------------------------------------

  /** A continuation acts in time if a notification was sent since the last entry into pending_tools, or
      if the condition of the stuck query holds. */
  ghost predicate TimelyStep(rec: RunRec, ev: Event) {
    ev.Continue? ==>
      rec.hist.announced
      || (rec.row.currentIterationId.Some? && IterationFinished(rec.execs, rec.row.currentIterationId.value))
  }

  ghost predicate TimelyFeasible(rec: RunRec, events: seq<Event>)
    requires Feasible(rec, events)
    decreases |events|
  {
    events == [] || (TimelyStep(rec, events[0]) && TimelyFeasible(Apply(rec, events[0]), events[1..]))
  }

  /** The results that a continuation sends come from executions that have ended. */
  ghost predicate SendsFinal(rec: RunRec, ev: Event)
    requires Enabled(rec, ev)
  {
    ev.Continue? ==> forall j :: 0 <= j < |ev.fetched| ==> ExecTerminal(rec.execs[ev.fetched[j]].state)
  }

  ghost predicate AllSentFinal(rec: RunRec, events: seq<Event>)
    requires Feasible(rec, events)
    decreases |events|
  {
    events == [] || (SendsFinal(rec, events[0]) && AllSentFinal(Apply(rec, events[0]), events[1..]))
  }

  /** A notification of the current round is right, and stays right. */
  ghost predicate AnnouncedOk(rec: RunRec) {
    rec.hist.announced ==> AllFinished(rec.execs)
  }

  lemma ExecStepAnnounces(rec: RunRec, ev: Event)
    requires Inv(rec) && AnnouncedOk(rec) && Enabled(rec, ev) && IsExecEvent(ev)
    ensures AnnouncedOk(Apply(rec, ev))
  {
    ExecStepOk(rec, ev);
    OneExecStep(rec, ev);
    var rec' := Apply(rec, ev);
    if rec.hist.announced {
      forall k | 0 <= k < |rec'.execs| ensures ExecTerminal(rec'.execs[k].state) {
        assert ExecAdvances(rec.execs[k], rec'.execs[k]);
      }
    }
  }

  /** No execution is added, and an announcement is made only when all have ended. */
  lemma OneExecStep(rec: RunRec, ev: Event)
    requires Enabled(rec, ev) && IsExecEvent(ev)
    ensures |Apply(rec, ev).execs| == |rec.execs|
    ensures Apply(rec, ev).hist.announced ==> rec.hist.announced || AllFinished(Apply(rec, ev).execs)
  {
  }

  /** Other steps leave the executions alone, or add some and start a new round. */
  lemma RunStepAnnounces(rec: RunRec, ev: Event)
    requires AnnouncedOk(rec) && Enabled(rec, ev) && !IsExecEvent(ev)
    ensures AnnouncedOk(Apply(rec, ev))
  {
  }

  lemma TimelyIsFinal(rec: RunRec, ev: Event)
    requires AnnouncedOk(rec) && Enabled(rec, ev)
    ensures TimelyStep(rec, ev) <==> SendsFinal(rec, ev)
  {
    if ev.Continue? {
      var id := rec.row.currentIterationId.value;
      if TimelyStep(rec, ev) {
        forall j | 0 <= j < |ev.fetched| ensures ExecTerminal(rec.execs[ev.fetched[j]].state) {
          assert rec.execs[ev.fetched[j]].iteration == id;
        }
      } else {
        var k :| 0 <= k < |rec.execs| && rec.execs[k].iteration == id && !ExecTerminal(rec.execs[k].state);
        assert k in ev.fetched;
      }
    }
  }

  lemma {:induction false} TimelyFrom(rec: RunRec, events: seq<Event>)
    requires Inv(rec) && AnnouncedOk(rec) && Feasible(rec, events)
    ensures TimelyFeasible(rec, events) <==> AllSentFinal(rec, events)
    decreases |events|
  {
    if events != [] {
      TimelyIsFinal(rec, events[0]);
      StepOk(rec, events[0]);
      if IsExecEvent(events[0]) {
        ExecStepAnnounces(rec, events[0]);
      } else {
        RunStepAnnounces(rec, events[0]);
      }
      TimelyFrom(Apply(rec, events[0]), events[1..]);
    }
  }

  /** Over any history of any number of instances, every result ever sent comes from an execution that
      has ended exactly if every continuation acted in time. */
  lemma ResultsAreFinalIff(row: RunRow, events: seq<Event>)
    requires Fresh(row) && Feasible(NewRec(row), events)
    ensures AllSentFinal(NewRec(row), events) <==> TimelyFeasible(NewRec(row), events)
  {
    FreshInv(row);
    TimelyFrom(NewRec(row), events);
  }

  /** The run can get into a state in which a queued tool, with the call `id`, is answered as if it had
      succeeded without output. */
  ghost predicate CanAnswerQueuedTool(rec: RunRec, id: string) {
    exists t, k: nat ::
      && Reaches(rec, t) && k < |t.execs|
      && Enabled(t, Continue([k])) && t.execs[k].state == ExecPending
      && ResultBlocks(t.execs, [k]) == [ToolResultBlock(id, "", false)]
  }

  /** Nothing in the code makes it act in time: once a notification was ever sent for a run, a late copy
      of it in any later round lets a queued tool be answered with an empty result that is no error. */
  lemma LateNotificationAnswersQueuedTool(rec: RunRec, id: string)
    requires CleanInv(rec) && Claimable(rec.row) && rec.row.mode == Streaming && rec.hist.notified
    ensures CanAnswerQueuedTool(rec, id)
  {
    PendingIsQuiet(rec);
    Stay(rec);
    var b := TakeUp(rec, rec);
    CallNow(b, id);
    Advance(rec, b, Streamed(0, Calling(id), 2, 0));
    AnswerNow(rec, Apply(b, Streamed(0, Calling(id), 2, 0)), |rec.execs|, id);
  }

  lemma AnswerNow(rec: RunRec, t: RunRec, k: nat, id: string)
    requires Reaches(rec, t) && t.row.state == PendingTools && t.row.currentIterationId.Some? && t.hist.notified
    requires |t.execs| == k + 1 && t.execs[k] == NewExec(t.row.currentIterationId.value, id, "tool", "", None, 2, 0)
    requires forall j :: 0 <= j < k ==> t.execs[j].iteration != t.row.currentIterationId.value
    ensures CanAnswerQueuedTool(rec, id)
  {
    assert Fetches(t.execs, t.row.currentIterationId.value, [k]);
    assert Enabled(t, Continue([k]));
  }

  lemma CallNow(s: RunRec, id: string)
    requires |s.workers| == 1 && WorkerAt(s, 0, Streaming) && RunCheck(s.row) && !IsTerminal(s.row.state)
    requires s.row.mode == Streaming
    ensures Enabled(s, Streamed(0, Calling(id), 2, 0))
    ensures var s' := Apply(s, Streamed(0, Calling(id), 2, 0));
            && s'.row.state == PendingTools && s'.row.currentIterationId == s.row.currentIterationId
            && s'.execs == s.execs + [NewExec(s.workers[0].phase.iteration, id, "tool", "", None, 2, 0)]
            && s'.hist.notified == s.hist.notified
  {
    CallResult(s, s.workers[0].phase.iteration, s.workers[0].copy, id);
  }

  // ---------------------------------------------------------------------------
  // Flagged failures
  // ---------------------------------------------------------------------------

  /** A failed execution says so, and one that has not ended has nothing to say yet. */
  predicate Flagged(e: ExecRow) {
    && (e.state == ExecFailed <==> e.isError)
    && (!ExecTerminal(e.state) ==> e.output == "")
  }

  ghost predicate AllFlagged(execs: seq<ExecRow>) {
    forall k :: 0 <= k < |execs| ==> Flagged(execs[k])
  }

  /** An instance is deleted only when it has no tool running. */
  ghost predicate SparesTools(rec: RunRec, ev: Event)
    requires Enabled(rec, ev)
  {
    ev.OrphanExec? ==> OrphanTool(rec.execs[ev.k], ev.instance) == rec.execs[ev.k]
  }

  ghost predicate AllSpareTools(rec: RunRec, events: seq<Event>)
    requires Feasible(rec, events)
    decreases |events|
  {
    events == [] || (SparesTools(rec, events[0]) && AllSpareTools(Apply(rec, events[0]), events[1..]))
  }

  lemma {:induction false} NewExecsFlagged(blocks: seq<ResponseBlock>, id: nat, maxAttempts: int, now: int)
    ensures AllFlagged(ToolExecs(blocks, id, maxAttempts, now))
  {
    if blocks != [] {
      NewExecsFlagged(blocks[1..], id, maxAttempts, now);
    }
  }

  lemma ExecStepFlags(rec: RunRec, ev: Event)
    requires Inv(rec) && AllFlagged(rec.execs) && Enabled(rec, ev) && IsExecEvent(ev) && SparesTools(rec, ev)
    ensures AllFlagged(Apply(rec, ev).execs)
  {
    if ev.FinishExec? {
      FinishEffect(rec, ev);
      var e := rec.execs[rec.toolWorkers[ev.t].exec];
      assert ExecOk(e);
      OutcomeFlags(e, rec.toolWorkers[ev.t].attempt, ev.outcome, ev.delay, ev.now);
    }
  }

  lemma OutcomeFlags(e: ExecRow, attempt: nat, outcome: Outcome, delay: int, now: int)
    requires ExecOk(e) && Flagged(e)
    ensures var r := ToolResultRow(e, attempt, outcome, delay, now); r.Some? ==> Flagged(r.value)
  {
  }

  lemma ResultFlags(rec: RunRec, id: nat, read: RunRow, response: Response, maxAttempts: int, now: int)
    requires AllFlagged(rec.execs) && id < |rec.iterations|
    ensures AllFlagged(ProcessResult(rec, id, read, response, maxAttempts, now).0.execs)
  {
    NewExecsFlagged(response.blocks, id, maxAttempts, now);
  }

  /** The steps of a run that bring no result leave its executions alone. */
  lemma OnlyResultsAdd(rec: RunRec, ev: Event)
    requires Enabled(rec, ev) && !IsExecEvent(ev) && !ev.Streamed? && !ev.PollSucceeded?
    ensures Apply(rec, ev).execs == rec.execs
  {
  }

  lemma RunStepFlags(rec: RunRec, ev: Event)
    requires AllFlagged(rec.execs) && Enabled(rec, ev) && !IsExecEvent(ev)
    ensures AllFlagged(Apply(rec, ev).execs)
  {
    if ev.Streamed? {
      var worker := rec.workers[ev.w];
      ResultFlags(rec, worker.phase.iteration, worker.copy, ev.response, ev.maxAttempts, ev.now);
    } else if ev.PollSucceeded? {
      ResultFlags(rec, rec.pollers[ev.p].iteration, rec.row, ev.response, ev.maxAttempts, ev.now);
    } else {
      OnlyResultsAdd(rec, ev);
    }
  }

  lemma {:induction false} FlaggedFrom(rec: RunRec, events: seq<Event>)
    requires Inv(rec) && AllFlagged(rec.execs) && Feasible(rec, events) && AllSpareTools(rec, events)
    ensures AllFlagged(After(rec, events).execs)
    decreases |events|
  {
    if events != [] {
      StepOk(rec, events[0]);
      if IsExecEvent(events[0]) {
        ExecStepFlags(rec, events[0]);
      } else {
        RunStepFlags(rec, events[0]);
      }
      FlaggedFrom(Apply(rec, events[0]), events[1..]);
    }
  }

  /** As long as no instance is deleted under a running tool, an execution has failed exactly if it is
      flagged as an error. The first deletion under a running tool always ends that: the execution has
      failed, and the model is shown what it would be shown for a success without output. */
  lemma FailuresAreFlaggedIff(row: RunRow, events: seq<Event>, k: nat, instance: InstanceId)
    requires Fresh(row) && Feasible(NewRec(row), events) && AllSpareTools(NewRec(row), events)
    requires k < |After(NewRec(row), events).execs|
    ensures var rec := After(NewRec(row), events);
            var orphan := OrphanExec(k, instance);
            && (forall j :: 0 <= j < |rec.execs| ==> (rec.execs[j].state == ExecFailed <==> rec.execs[j].isError))
            && (AllFlagged(Apply(rec, orphan).execs) <==> SparesTools(rec, orphan))
            && (!SparesTools(rec, orphan) ==>
                  && Apply(rec, orphan).execs[k].state == ExecFailed
                  && ResultBlock(Apply(rec, orphan).execs[k]) == ResultBlock(CompleteTool(rec.execs[k], "", false, "")))
  {
    FreshInv(row);
    FlaggedFrom(NewRec(row), events);
    var rec := After(NewRec(row), events);
    assert forall j :: 0 <= j < |rec.execs| ==> Flagged(rec.execs[j]);
    assert Apply(rec, OrphanExec(k, instance)).execs[k] == OrphanTool(rec.execs[k], instance);
  }
}
