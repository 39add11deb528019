/** The tables as the store's methods change them, one SQL statement or stored procedure at a time
    (driver/pgxv5/store.go; driver/databasesql/store.go has the same effects). */
module Store {
  import opened Content
  import opened Rows
  import opened RunMachine

  /** A row that is up for claiming again. */
  function Released(row: RunRow): RunRow {
    row.(state := Pending, claimedBy := None, claimedAt := None)
  }

  /** Whether a notification was sent is remembered. */
  predicate Announces(rec: RunRec, rec': RunRec, sent: bool) {
    rec'.hist == if sent then rec.hist.(notified := true, announced := true) else rec.hist
  }

  class Database {
    var runs: map<RunId, RunRec>

    constructor ()
      ensures runs == map[]
    {
      runs := map[];
    }

    /** UpdateRun and UpdateRunState: the new row is stored if the table's constraints allow it. */
    method UpdateRun(id: RunId, row: RunRow) returns (ok: bool)
      requires id in runs
      modifies this
      ensures ok <==> RunCheck(row)
      ensures runs == if ok then old(runs)[id := WithRow(old(runs[id]), row)] else old(runs)
    {
      ok := RunCheck(row);
      if ok {
        runs := runs[id := WithRow(runs[id], row)];
      }
    }

    method CreateRun(id: RunId, row: RunRow)
      requires id !in runs
      modifies this
      ensures runs == old(runs)[id := NewRec(row)]
    {
      runs := runs[id := NewRec(row)];
    }

    method CreateMessage(id: RunId, role: Role, content: seq<ContentBlock>)
      requires id in runs
      modifies this
      ensures runs == old(runs)[id := Append(old(runs[id]), StoredMessage(role, content))]
    {
      runs := runs[id := Append(runs[id], StoredMessage(role, content))];
    }

    /** The iteration number is unique per run. */
    method CreateIteration(id: RunId, number: nat) returns (created: Option<nat>)
      requires id in runs
      modifies this
      ensures NumberTaken(old(runs[id]).iterations, number) ==> created.None? && runs == old(runs)
      ensures !NumberTaken(old(runs[id]).iterations, number) ==>
        created == Some(|old(runs[id]).iterations|)
        && runs == old(runs)[id := old(runs[id]).(
             iterations := old(runs[id]).iterations + [Iteration(number, NotSubmitted, false, false, 0, NO_USAGE)])]
    {
      var iterations := runs[id].iterations;
      if NumberTaken(iterations, number) {
        return None;
      }
      runs := runs[id := runs[id].(
        iterations := iterations + [Iteration(number, NotSubmitted, false, false, 0, NO_USAGE)])];
      created := Some(|iterations|);
    }

    method UpdateIteration(id: RunId, i: nat, it: Iteration)
      requires id in runs && i < |runs[id].iterations|
      modifies this
      ensures runs == old(runs)[id := old(runs[id]).(iterations := old(runs[id]).iterations[i := it])]
    {
      runs := runs[id := runs[id].(iterations := runs[id].iterations[i := it])];
    }

    /** agentpg_create_tool_executions_and_update_run: all or nothing. */
    method CreateToolExecutionsAndUpdateRun(id: RunId, execs: seq<ExecRow>, row: RunRow) returns (ok: bool)
      requires id in runs
      modifies this
      ensures ok <==> RunCheck(row)
      ensures !ok ==> runs == old(runs)
      ensures ok ==> runs == old(runs)[id :=
        WithRow(old(runs[id]), row).(
          execs := old(runs[id]).execs + execs,
          hist := WithRow(old(runs[id]), row).hist.(toolRounds := old(runs[id]).hist.toolRounds + 1,
                                                     announced := false))]
    {
      ok := RunCheck(row);
      if ok {
        var rec := runs[id];
        var updated := WithRow(rec, row);
        runs := runs[id := updated.(
          execs := rec.execs + execs,
          hist := updated.hist.(toolRounds := rec.hist.toolRounds + 1, announced := false))];
      }
    }

    /** Any update of a tool execution, with the trigger behind it: the update that ends the last
        execution of the run announces it, and no other does. */
    method UpdateToolExecution(id: RunId, k: nat, e: ExecRow) returns (ok: bool)
      requires id in runs && k < |runs[id].execs|
      modifies this
      ensures ok <==> ExecCheck(e)
      ensures !ok ==> runs == old(runs)
      ensures ok ==> && id in runs && runs == old(runs)[id := runs[id]]
                     && runs[id].execs == old(runs[id]).execs[k := e]
                     && runs[id] == old(runs[id]).(execs := runs[id].execs, hist := runs[id].hist)
                     && Announces(old(runs[id]), runs[id], !ExecTerminal(old(runs[id]).execs[k].state)
                                                           && ExecTerminal(e.state) && AllFinished(runs[id].execs))
    {
      ok := ExecCheck(e);
      if ok {
        var rec := runs[id];
        var execs := rec.execs[k := e];
        var hist := rec.hist;
        if !ExecTerminal(rec.execs[k].state) && ExecTerminal(e.state) && AllFinished(execs) {
          hist := hist.(notified := true, announced := true);
        }
        runs := runs[id := rec.(execs := execs, hist := hist)];
      }
    }

    /** The procedure's result is NULL, here false, unless the run was waiting (and its row is one the
        table can hold). Then the run gets one user message with the results and is claimable again; its
        executions, iterations and workers stay. */
    method CompleteToolsAndContinueRun(id: RunId, blocks: seq<ContentBlock>) returns (done: bool)
      requires id in runs
      modifies this
      ensures done <==> old(runs[id]).row.state == PendingTools && RunCheck(Released(old(runs[id]).row))
      ensures !done ==> runs == old(runs)
      ensures done ==> && id in runs && runs == old(runs)[id := runs[id]]
                       && Claimable(runs[id].row) && RunCheck(runs[id].row)
                       && runs[id].messages == old(runs[id]).messages + [StoredMessage(User, blocks)]
                       && runs[id].row == Released(old(runs[id]).row)
                       && runs[id] == old(runs[id]).(row := runs[id].row, messages := runs[id].messages,
                                                     hist := runs[id].hist)
                       && runs[id].hist == old(runs[id]).hist.(
                            results := old(runs[id]).hist.results + 1, clears := old(runs[id]).hist.clears + 1,
                            changes := old(runs[id]).hist.changes + 1)
    {
      var rec := runs[id];
      var row := Released(rec.row);
      if rec.row.state != PendingTools || !RunCheck(row) {
        return false;
      }
      var hist := rec.hist.(
        results := rec.hist.results + 1, clears := rec.hist.clears + 1, changes := rec.hist.changes + 1);
      runs := runs[id := rec.(row := row, messages := rec.messages + [StoredMessage(User, blocks)], hist := hist)];
      done := true;
    }

    method RescueRunRow(id: RunId)
      requires id in runs
      modifies this
      ensures runs == old(runs)[id := RescueRec(old(runs[id]))]
    {
      runs := runs[id := RescueRec(runs[id])];
    }

    /** agentpg_get_stuck_runs over the rows in the order of claimed_at; `locked` rows are skipped. When
        the limit cuts, the earliest claims are returned. */
    method GetStuckRuns(order: seq<RunId>, locked: set<RunId>, now: int, timeout: int, maxRescues: nat, limit: nat)
      returns (ids: seq<RunId>)
      requires forall j :: 0 <= j < |order| ==> order[j] in runs
      requires forall j, j' :: 0 <= j < j' < |order| ==> order[j] != order[j']
      ensures |ids| <= limit
      ensures forall j :: 0 <= j < |ids| ==>
        ids[j] in order && ids[j] !in locked && Stuck(runs[ids[j]], now, timeout, maxRescues)
      ensures forall j, j' :: 0 <= j < j' < |ids| ==> ids[j] != ids[j']
      ensures forall i, j ::
        (0 <= i < j < |order| && order[j] in ids && order[i] !in locked
         && Stuck(runs[order[i]], now, timeout, maxRescues)) ==> order[i] in ids
      ensures |ids| < limit ==>
        forall r :: r in order && r !in locked && Stuck(runs[r], now, timeout, maxRescues) ==> r in ids
    {
      ids := [];
      for j := 0 to |order|
        invariant |ids| <= limit
        invariant forall m :: 0 <= m < |ids| ==>
          ids[m] in order[..j] && ids[m] !in locked && Stuck(runs[ids[m]], now, timeout, maxRescues)
        invariant forall m, m' :: 0 <= m < m' < |ids| ==> ids[m] != ids[m']
        invariant forall m, m' ::
          (0 <= m < m' < j && order[m'] in ids && order[m] !in locked
           && Stuck(runs[order[m]], now, timeout, maxRescues)) ==> order[m] in ids
        invariant |ids| < limit ==>
          forall r :: r in order[..j] && r !in locked && Stuck(runs[r], now, timeout, maxRescues) ==> r in ids
      {
        assert order[..j + 1] == order[..j] + [order[j]];
        assert order[j] !in order[..j];
        assert forall m :: 0 <= m < j ==> order[m] in order[..j];
        if |ids| < limit && order[j] !in locked && Stuck(runs[order[j]], now, timeout, maxRescues) {
          ids := ids + [order[j]];
        }
      }
      assert order[..|order|] == order;
    }
  }
}
