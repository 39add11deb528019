/** Walking up to the root of a run, and what the forest of a reachable database means for the views. */
module RunHierarchy {
  import opened Rows
  import System
  import RunInvariants
  import RunTree

  type RunTable = map<RunId, RunRow>

  /** Parents exist, one level up, in the same session. */
  predicate Forest(rows: RunTable) {
    forall r :: r in rows ==>
      match rows[r].parentRun
      case None => rows[r].depth == 0
      case Some(p) => p in rows && rows[r].depth == rows[p].depth + 1 && rows[r].session == rows[p].session
                      && rows[r].mode == rows[p].mode && rows[r].variables == rows[p].variables
  }

  predicate IsAncestor(rows: RunTable, a: RunId, r: RunId)
    requires Forest(rows) && r in rows
    decreases rows[r].depth
  {
    a == r || match rows[r].parentRun case None => false case Some(p) => IsAncestor(rows, a, p)
  }

  /** The loop of GetRunHierarchy terminates because the depth drops. It stops at the one root above the
      run, or early, below a parent that could not be read. */
  method FindRoot(rows: RunTable, id: RunId, unreadable: set<RunId>) returns (root: RunId)
    requires Forest(rows) && id in rows
    ensures root in rows && IsAncestor(rows, root, id)
    ensures rows[root].parentRun.Some? ==> rows[root].parentRun.value in unreadable
    ensures forall a :: a in rows && IsAncestor(rows, a, id) && rows[a].depth == 0 ==> IsAncestor(rows, a, root)
    ensures unreadable == {} ==>
              forall a :: a in rows && IsAncestor(rows, a, id) ==> (rows[a].depth == 0 <==> a == root)
  {
    root := id;
    while rows[root].parentRun.Some?
      invariant root in rows && IsAncestor(rows, root, id)
      invariant forall a :: a in rows && IsAncestor(rows, a, id) && rows[a].depth == 0 ==> IsAncestor(rows, a, root)
      decreases rows[root].depth
    {
      var parent := rows[root].parentRun.value;
      if parent in unreadable {
        break;
      }
      AncestorUp(rows, root, id);
      root := parent;
    }
  }

  lemma {:induction false} AncestorUp(rows: RunTable, a: RunId, r: RunId)
    requires Forest(rows) && r in rows && a in rows && IsAncestor(rows, a, r) && rows[a].parentRun.Some?
    ensures IsAncestor(rows, rows[a].parentRun.value, r)
    decreases rows[r].depth
  {
    if a != r {
      AncestorUp(rows, a, rows[r].parentRun.value);
    } else {
      assert IsAncestor(rows, rows[a].parentRun.value, rows[a].parentRun.value);
    }
  }

  /** Session, mode and variables are those of the root; the depth is the length of the way up. */
  lemma {:induction false} AncestorsShare(rows: RunTable, a: RunId, r: RunId)
    requires Forest(rows) && r in rows && a in rows && IsAncestor(rows, a, r)
    ensures rows[a].session == rows[r].session && rows[a].mode == rows[r].mode
            && rows[a].variables == rows[r].variables && rows[a].depth <= rows[r].depth
            && (rows[a].depth == rows[r].depth ==> a == r)
    decreases rows[r].depth
  {
    if a != r {
      AncestorsShare(rows, a, rows[r].parentRun.value);
    }
  }

  ghost function TableOf(runs: System.Runs): RunTable {
    map r | r in runs :: runs[r].row
  }

  /** Every database that runs and instances can reach holds a forest. */
  lemma ReachableTablesAreForests(events: seq<System.SystemEvent>)
    requires System.SystemFeasible(map[], events)
    ensures Forest(TableOf(System.SystemAfter(map[], events)))
  {
    System.ForestAndResults(events);
    var runs := System.SystemAfter(map[], events);
    forall r | r in runs
      ensures match runs[r].row.parentRun
              case None => runs[r].row.depth == 0
              case Some(p) => p in runs && System.LinkOk(runs[p], runs[r].row)
    {
      assert RunInvariants.Inv(runs[r]);
    }
  }

  function Listed(rows: RunTable, id: RunId): RunTree.Run
    requires id in rows
  {
    RunTree.Run(id, rows[id].parentRun, rows[id].depth)
  }

  /** The list of all runs of a session, whatever its order, is closed under parents: the conversation
      view of a reachable database leaves out no run, unless the query's limit cuts the list. */
  lemma SessionListIsClosed(rows: RunTable, session: nat, runs: seq<RunTree.Run>)
    requires Forest(rows)
    requires forall k :: 0 <= k < |runs| ==> runs[k].id in rows && runs[k] == Listed(rows, runs[k].id)
    requires forall k :: 0 <= k < |runs| ==> rows[runs[k].id].session == session
    requires forall r :: r in rows && rows[r].session == session ==>
               exists k :: 0 <= k < |runs| && runs[k] == Listed(rows, r)
    ensures RunTree.Closed(runs)
  {
    forall k | 0 <= k < |runs| && runs[k].parent.Some? ensures exists p :: RunTree.ParentAt(runs, k, p) {
      var parent := runs[k].parent.value;
      assert parent in rows && rows[parent].session == session;
      var p :| 0 <= p < |runs| && runs[p] == Listed(rows, parent);
      assert RunTree.ParentAt(runs, k, p);
    }
  }
}
