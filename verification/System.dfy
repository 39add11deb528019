/** All runs of a database together: child runs of agent tools, and the trigger that hands a child's
    result to the tool execution that spawned it. */
module System {
  import opened Content
  import opened Rows
  import opened RunMachine
  import opened RunInvariants
  import opened CleanRuns

  type Runs = map<RunId, RunRec>

  datatype SystemEvent =
    | Create(id: RunId, row: RunRow)
    | Step(id: RunId, ev: Event)
    | Spawn(parent: RunId, t: nat, child: RunId, task: string)

  /** executeAgentTool: the child inherits session, mode and variables and is one level deeper. */
  function ChildRow(parent: RunRow, parentId: RunId, exec: nat, task: string): RunRow {
    NewRun(parent.session, parent.mode, Some(parentId), exec, parent.depth + 1, task, parent.variables)
  }

  ghost predicate SystemEnabled(runs: Runs, ev: SystemEvent) {
    match ev
    case Create(id, row) => id !in runs && Fresh(row) && row.parentRun.None?
    case Step(id, e) => id in runs && Enabled(runs[id], e) && !e.SpawnChild? && !e.ChildEnds?
    case Spawn(parent, t, child, task) =>
      parent in runs && child !in runs && Enabled(runs[parent], SpawnChild(t, child))
  }

  /** agentpg_trg_child_run_complete, fired by an update that ends a run with a parent. */
  ghost function Trigger(runs: Runs, before: RunRow, row: RunRow): Runs {
    if row.parentRun.Some? && row.parentRun.value in runs && !IsTerminal(before.state) && IsTerminal(row.state)
       && row.parentExec < |runs[row.parentRun.value].execs|
    then runs[row.parentRun.value := Apply(runs[row.parentRun.value], ChildEnds(row.parentExec, row))]
    else runs
  }

  ghost function SystemApply(runs: Runs, ev: SystemEvent): Runs
    requires SystemEnabled(runs, ev)
  {
    match ev
    case Create(id, row) => runs[id := NewRec(row)]
    case Step(id, e) =>
      var rec := Apply(runs[id], e);
      Trigger(runs[id := rec], runs[id].row, rec.row)
    case Spawn(parent, t, child, task) =>
      var k := runs[parent].toolWorkers[t].exec;
      runs[parent := Apply(runs[parent], SpawnChild(t, child))]
          [child := NewRec(ChildRow(runs[parent].row, parent, k, task))]
  }

  // ---------------------------------------------------------------------------
  // The forest of runs
  // ---------------------------------------------------------------------------

  ghost predicate ChildOf(runs: Runs, child: RunId, p: RunId) {
    child in runs && runs[child].row.parentRun == Some(p)
  }

  ghost predicate LinkOk(parent: RunRec, child: RunRow) {
    && child.parentExec < |parent.execs|
    && parent.execs[child.parentExec].agent.Some?
    && child.depth == parent.row.depth + 1
    && child.session == parent.row.session
    && child.mode == parent.row.mode
    && child.variables == parent.row.variables
  }

  ghost predicate Linked(runs: Runs) {
    forall r :: r in runs && runs[r].row.parentRun.Some? ==>
      var p := runs[r].row.parentRun.value;
      p in runs && LinkOk(runs[p], runs[r].row)
  }

  lemma StepKeepsLinks(runs: Runs, id: RunId, ev: Event)
    requires Linked(runs) && id in runs && Inv(runs[id]) && Enabled(runs[id], ev)
    ensures Linked(runs[id := Apply(runs[id], ev)])
  {
    StepOk(runs[id], ev);
    LinksKept(runs, id, Apply(runs[id], ev));
  }

  lemma LinksKept(runs: Runs, id: RunId, rec: RunRec)
    requires Linked(runs) && id in runs
    requires SameIdentity(runs[id].row, rec.row) && ExecsAdvance(runs[id].execs, rec.execs)
    ensures Linked(runs[id := rec])
  {
    var runs' := runs[id := rec];
    forall r | r in runs' && runs'[r].row.parentRun.Some?
      ensures runs'[r].row.parentRun.value in runs' && LinkOk(runs'[runs'[r].row.parentRun.value], runs'[r].row)
    {
      assert r in runs && runs[r].row.parentRun == runs'[r].row.parentRun;
      assert LinkOk(runs[runs[r].row.parentRun.value], runs[r].row);
    }
  }

  // ---------------------------------------------------------------------------
  // Children and the executions that wait for them
  // ---------------------------------------------------------------------------

  /** The execution behind a child is no longer queued nor held, and has ended if the child has. */
  ghost predicate WaitOk(parent: RunRec, child: RunRow)
    requires child.parentExec < |parent.execs|
  {
    && parent.execs[child.parentExec].state != ExecPending
    && Unheld(parent.toolWorkers, child.parentExec)
    && (IsTerminal(child.state) ==> ExecTerminal(parent.execs[child.parentExec].state))
  }

  ghost predicate Waiting(runs: Runs)
    requires Linked(runs)
  {
    forall r :: r in runs && runs[r].row.parentRun.Some? ==> WaitOk(runs[runs[r].row.parentRun.value], runs[r].row)
  }

  ghost predicate OneChildEach(runs: Runs) {
    forall r, q :: r in runs && q in runs && SameCaller(runs[r].row, runs[q].row) ==> r == q
  }

  predicate SameCaller(row: RunRow, row': RunRow) {
    row.parentRun.Some? && row.parentRun == row'.parentRun && row.parentExec == row'.parentExec
  }

  ghost predicate SystemInv(runs: Runs) {
    && (forall r :: r in runs ==> Inv(runs[r]))
    && Linked(runs)
    && Waiting(runs)
    && OneChildEach(runs)
  }

  // ---------------------------------------------------------------------------
  // Steps
  // ---------------------------------------------------------------------------

  /** A step of the parent keeps every child's claim on it. */
  lemma ParentStepKeepsWait(parent: RunRec, ev: Event, child: RunRow)
    requires Inv(parent) && Enabled(parent, ev) && LinkOk(parent, child) && WaitOk(parent, child)
    ensures LinkOk(Apply(parent, ev), child) && WaitOk(Apply(parent, ev), child)
  {
    StepOk(parent, ev);
  }

  /** What holds between the step of a run and the trigger: only the run itself may have ended unnoticed. */
  ghost predicate WaitingExcept(runs: Runs, id: RunId)
    requires Linked(runs)
  {
    forall r :: r in runs && r != id && runs[r].row.parentRun.Some? ==>
      WaitOk(runs[runs[r].row.parentRun.value], runs[r].row)
  }

  lemma StepKeepsCallers(runs: Runs, id: RunId, ev: Event)
    requires OneChildEach(runs) && id in runs && Inv(runs[id]) && Enabled(runs[id], ev)
    ensures OneChildEach(runs[id := Apply(runs[id], ev)])
  {
    StepOk(runs[id], ev);
    CallersKept(runs, id, Apply(runs[id], ev));
  }

  lemma CallersKept(runs: Runs, id: RunId, rec: RunRec)
    requires OneChildEach(runs) && id in runs && SameIdentity(runs[id].row, rec.row)
    ensures OneChildEach(runs[id := rec])
  {
    var runs' := runs[id := rec];
    forall r, q | r in runs' && q in runs' && SameCaller(runs'[r].row, runs'[q].row) ensures r == q {
      assert SameCaller(runs[r].row, runs[q].row);
    }
  }

  lemma StepKeepsWaiting(runs: Runs, id: RunId, ev: Event)
    requires SystemInv(runs) && id in runs && Enabled(runs[id], ev)
    ensures Linked(runs[id := Apply(runs[id], ev)])
    ensures WaitingExcept(runs[id := Apply(runs[id], ev)], id)
  {
    var runs' := runs[id := Apply(runs[id], ev)];
    StepKeepsLinks(runs, id, ev);
    forall r | r in runs' && r != id && runs'[r].row.parentRun.Some?
      ensures WaitOk(runs'[runs'[r].row.parentRun.value], runs'[r].row)
    {
      var p := runs[r].row.parentRun.value;
      assert LinkOk(runs[p], runs[r].row) && WaitOk(runs[p], runs[r].row);
      if p == id {
        ParentStepKeepsWait(runs[p], ev, runs[r].row);
      }
    }
  }

  /** A run that does not end in this step is waited for as before. */
  lemma StepKeepsOwnWait(runs: Runs, id: RunId, ev: Event)
    requires SystemInv(runs) && id in runs && Enabled(runs[id], ev) && runs[id].row.parentRun.Some?
    ensures var row := Apply(runs[id], ev).row;
            && SameIdentity(runs[id].row, row)
            && row.parentRun.value in runs && row.parentRun.value != id
            && LinkOk(runs[row.parentRun.value], row)
            && runs[row.parentRun.value].execs[row.parentExec].state != ExecPending
            && Unheld(runs[row.parentRun.value].toolWorkers, row.parentExec)
            && (IsTerminal(runs[id].row.state) || !IsTerminal(row.state) ==> WaitOk(runs[row.parentRun.value], row))
  {
    StepOk(runs[id], ev);
    var p := runs[id].row.parentRun.value;
    assert LinkOk(runs[p], runs[id].row) && WaitOk(runs[p], runs[id].row);
  }

  /** Whoever is waited for stays so. */
  ghost predicate WaitsLast(parent: RunRec, parent': RunRec) {
    forall other: RunRow :: LinkOk(parent, other) && WaitOk(parent, other) ==>
      LinkOk(parent', other) && WaitOk(parent', other)
  }

  /** What the end of a child does to the run that waits for it. */
  lemma ChildSettles(parent: RunRec, child: RunRow) returns (parent': RunRec)
    requires Inv(parent) && IsTerminal(child.state) && LinkOk(parent, child)
    requires parent.execs[child.parentExec].state != ExecPending && Unheld(parent.toolWorkers, child.parentExec)
    ensures Enabled(parent, ChildEnds(child.parentExec, child))
    ensures parent' == Apply(parent, ChildEnds(child.parentExec, child))
    ensures Inv(parent') && parent'.row == parent.row && ExecsAdvance(parent.execs, parent'.execs)
    ensures LinkOk(parent', child) && WaitOk(parent', child)
    ensures WaitsLast(parent, parent')
  {
    var ev := ChildEnds(child.parentExec, child);
    StepOk(parent, ev);
    ExecStepsKeepRun(parent, ev);
    parent' := Apply(parent, ev);
    forall other: RunRow | LinkOk(parent, other) && WaitOk(parent, other)
      ensures LinkOk(parent', other) && WaitOk(parent', other)
    {
      ParentStepKeepsWait(parent, ev, other);
    }
  }

  /** All runs are waited for as they should be, once the parent of the run that ended is updated. */
  lemma SettledWaits(runs: Runs, id: RunId, p: RunId, parent: RunRec)
    requires Linked(runs) && WaitingExcept(runs, id) && id in runs && p in runs && p != id
    requires runs[id].row.parentRun == Some(p) && parent.row == runs[p].row
    requires Linked(runs[p := parent]) && LinkOk(parent, runs[id].row) && WaitOk(parent, runs[id].row)
    requires WaitsLast(runs[p], parent)
    ensures Waiting(runs[p := parent])
  {
    var runs' := runs[p := parent];
    forall r | r in runs' && runs'[r].row.parentRun.Some?
      ensures WaitOk(runs'[runs'[r].row.parentRun.value], runs'[r].row)
    {
      assert r in runs && runs'[r].row == runs[r].row;
      assert LinkOk(runs[runs[r].row.parentRun.value], runs[r].row);
    }
  }

  /** The trigger settles the execution that waited for the run that ended. */
  lemma TriggerSettles(runs: Runs, before: RunRow, id: RunId)
    requires (forall r :: r in runs ==> Inv(runs[r])) && Linked(runs) && WaitingExcept(runs, id) && OneChildEach(runs)
    requires id in runs && !IsTerminal(before.state) && IsTerminal(runs[id].row.state)
    requires runs[id].row.parentRun.Some? && runs[id].row.parentRun.value != id
    requires runs[runs[id].row.parentRun.value].execs[runs[id].row.parentExec].state != ExecPending
    requires Unheld(runs[runs[id].row.parentRun.value].toolWorkers, runs[id].row.parentExec)
    ensures SystemInv(Trigger(runs, before, runs[id].row))
  {
    var child := runs[id].row;
    var p := child.parentRun.value;
    assert LinkOk(runs[p], child);
    var parent := ChildSettles(runs[p], child);
    LinksKept(runs, p, parent);
    CallersKept(runs, p, parent);
    SettledWaits(runs, id, p, parent);
  }

  /** What a step leaves true of the run itself and its parent, the trigger aside. */
  ghost predicate OwnWait(runs: Runs, id: RunId, before: RunRow)
    requires id in runs && Linked(runs)
  {
    runs[id].row.parentRun.Some? ==>
      var p, row := runs[id].row.parentRun.value, runs[id].row;
      && p != id
      && runs[p].execs[row.parentExec].state != ExecPending && Unheld(runs[p].toolWorkers, row.parentExec)
      && (IsTerminal(before.state) || !IsTerminal(row.state) ==> WaitOk(runs[p], row))
  }

  lemma TriggerKeepsSystem(runs: Runs, before: RunRow, id: RunId)
    requires (forall r :: r in runs ==> Inv(runs[r])) && Linked(runs) && WaitingExcept(runs, id) && OneChildEach(runs)
    requires id in runs && OwnWait(runs, id, before)
    ensures SystemInv(Trigger(runs, before, runs[id].row))
  {
    if runs[id].row.parentRun.Some? && !IsTerminal(before.state) && IsTerminal(runs[id].row.state) {
      TriggerSettles(runs, before, id);
    } else {
      assert Waiting(runs);
    }
  }

  lemma StepKeepsOwn(runs: Runs, id: RunId, ev: Event)
    requires SystemInv(runs) && id in runs && Enabled(runs[id], ev) && Linked(runs[id := Apply(runs[id], ev)])
    ensures OwnWait(runs[id := Apply(runs[id], ev)], id, runs[id].row)
  {
    if Apply(runs[id], ev).row.parentRun.Some? {
      StepOk(runs[id], ev);
      StepKeepsOwnWait(runs, id, ev);
    }
  }

  lemma RunStepOfSystem(runs: Runs, id: RunId, ev: Event)
    requires SystemInv(runs) && SystemEnabled(runs, Step(id, ev))
    ensures SystemInv(SystemApply(runs, Step(id, ev)))
  {
    StepKeepsWaiting(runs, id, ev);
    StepKeepsCallers(runs, id, ev);
    StepOk(runs[id], ev);
    StepKeepsOwn(runs, id, ev);
    TriggerKeepsSystem(runs[id := Apply(runs[id], ev)], runs[id].row, id);
  }

  lemma SpawnStepOfSystem(runs: Runs, parent: RunId, t: nat, child: RunId, task: string)
    requires SystemInv(runs) && SystemEnabled(runs, Spawn(parent, t, child, task))
    ensures SystemInv(SystemApply(runs, Spawn(parent, t, child, task)))
  {
    var ev := SpawnChild(t, child);
    var k := runs[parent].toolWorkers[t].exec;
    var row := ChildRow(runs[parent].row, parent, k, task);
    SpawnKeepsSystem(runs, parent, ev);
    FreshInv(row);
    NoOtherCaller(runs, parent, k);
    SpawnReleases(runs[parent], t, child);
    AddRun(runs[parent := Apply(runs[parent], ev)], child, row);
  }

  lemma SpawnKeepsSystem(runs: Runs, parent: RunId, ev: Event)
    requires SystemInv(runs) && parent in runs && Enabled(runs[parent], ev) && ev.SpawnChild?
    ensures SystemInv(runs[parent := Apply(runs[parent], ev)])
    ensures Apply(runs[parent], ev).row == runs[parent].row
  {
    StepKeepsWaiting(runs, parent, ev);
    StepKeepsCallers(runs, parent, ev);
    StepOk(runs[parent], ev);
    ExecStepsKeepRun(runs[parent], ev);
    SpawnKeepsOwnWait(runs, runs[parent := Apply(runs[parent], ev)], parent);
  }

  /** The run itself is waited for as before, because its row is as before. */
  lemma SpawnKeepsOwnWait(runs: Runs, runs': Runs, id: RunId)
    requires SystemInv(runs) && id in runs && id in runs' && runs' == runs[id := runs'[id]]
    requires runs'[id].row == runs[id].row && Linked(runs') && WaitingExcept(runs', id)
    ensures Waiting(runs')
  {
    if runs[id].row.parentRun.Some? {
      var p := runs[id].row.parentRun.value;
      assert LinkOk(runs[p], runs[id].row) && WaitOk(runs[p], runs[id].row);
      assert p != id;
    }
  }

  lemma SpawnReleases(parent: RunRec, t: nat, child: RunId)
    requires Inv(parent) && Enabled(parent, SpawnChild(t, child))
    ensures var k := parent.toolWorkers[t].exec;
            var parent' := Apply(parent, SpawnChild(t, child));
            && k < |parent'.execs| && parent'.execs[k].state != ExecPending && parent'.execs[k].agent.Some?
            && Unheld(parent'.toolWorkers, k)
  {
  }

  /** An execution that is still held has no child yet. */
  lemma NoOtherCaller(runs: Runs, parent: RunId, k: nat)
    requires SystemInv(runs) && parent in runs && !Unheld(runs[parent].toolWorkers, k)
    ensures forall r :: r in runs && runs[r].row.parentRun == Some(parent) ==> runs[r].row.parentExec != k
  {
    forall r | r in runs && runs[r].row.parentRun == Some(parent) ensures runs[r].row.parentExec != k {
      assert WaitOk(runs[parent], runs[r].row);
    }
  }

  /** A new run, possibly a child of an execution that has none. */
  lemma AddRun(runs: Runs, id: RunId, row: RunRow)
    requires SystemInv(runs) && id !in runs && Inv(NewRec(row))
    requires row.parentRun.Some? ==>
      row.parentRun.value in runs && LinkOk(runs[row.parentRun.value], row) && WaitOk(runs[row.parentRun.value], row)
    requires forall r :: r in runs ==> !SameCaller(row, runs[r].row)
    ensures SystemInv(runs[id := NewRec(row)])
  {
    var runs' := runs[id := NewRec(row)];
    forall r | r in runs' && runs'[r].row.parentRun.Some?
      ensures runs'[r].row.parentRun.value in runs'
              && LinkOk(runs'[runs'[r].row.parentRun.value], runs'[r].row)
              && WaitOk(runs'[runs'[r].row.parentRun.value], runs'[r].row)
    {
      if r != id {
        var p := runs[r].row.parentRun.value;
        assert LinkOk(runs[p], runs[r].row) && WaitOk(runs[p], runs[r].row);
      }
    }
    forall r, q | r in runs' && q in runs' && SameCaller(runs'[r].row, runs'[q].row) ensures r == q {
      if r != id && q != id {
        assert SameCaller(runs[r].row, runs[q].row);
      }
    }
  }

  lemma CreateStepOfSystem(runs: Runs, id: RunId, row: RunRow)
    requires SystemInv(runs) && SystemEnabled(runs, Create(id, row))
    ensures SystemInv(SystemApply(runs, Create(id, row)))
  {
    FreshInv(row);
    AddRun(runs, id, row);
  }

  lemma SystemStepOk(runs: Runs, ev: SystemEvent)
    requires SystemInv(runs) && SystemEnabled(runs, ev)
    ensures SystemInv(SystemApply(runs, ev))
  {
    match ev
    case Create(id, row) => CreateStepOfSystem(runs, id, row);
    case Step(id, e) => RunStepOfSystem(runs, id, e);
    case Spawn(parent, t, child, task) => SpawnStepOfSystem(runs, parent, t, child, task);
  }

  // ---------------------------------------------------------------------------
  // Main results
  // ---------------------------------------------------------------------------

  ghost predicate SystemFeasible(runs: Runs, events: seq<SystemEvent>)
    decreases |events|
  {
    events == [] || (SystemEnabled(runs, events[0]) && SystemFeasible(SystemApply(runs, events[0]), events[1..]))
  }

  ghost function SystemAfter(runs: Runs, events: seq<SystemEvent>): Runs
    requires SystemFeasible(runs, events)
    decreases |events|
  {
    if events == [] then runs else SystemAfter(SystemApply(runs, events[0]), events[1..])
  }

  lemma {:induction false} SystemReachable(runs: Runs, events: seq<SystemEvent>)
    requires SystemInv(runs) && SystemFeasible(runs, events)
    ensures SystemInv(SystemAfter(runs, events))
    decreases |events|
  {
    if events != [] {
      SystemStepOk(runs, events[0]);
      SystemReachable(SystemApply(runs, events[0]), events[1..]);
    }
  }

  /** In every database that any interleaving of runs and instances can reach: the parent links form a
      forest in which session, mode and variables are constant and depth counts the steps to the root;
      an agent call spawns at most one child; and no execution waits for a child that has ended. */
  lemma ForestAndResults(events: seq<SystemEvent>)
    requires SystemFeasible(map[], events)
    ensures var runs := SystemAfter(map[], events);
            && Linked(runs)
            && OneChildEach(runs)
            && (forall r, p :: ChildOf(runs, r, p) && IsTerminal(runs[r].row.state) ==>
                  p in runs && runs[r].row.parentExec < |runs[p].execs|
                  && ExecTerminal(runs[p].execs[runs[r].row.parentExec].state))
            && (forall r :: r in runs ==> Inv(runs[r]))
  {
    SystemReachable(map[], events);
    var runs := SystemAfter(map[], events);
    forall r, p | ChildOf(runs, r, p) && IsTerminal(runs[r].row.state)
      ensures p in runs && runs[r].row.parentExec < |runs[p].execs|
              && ExecTerminal(runs[p].execs[runs[r].row.parentExec].state)
    {
      assert LinkOk(runs[p], runs[r].row) && WaitOk(runs[p], runs[r].row);
    }
  }

  ghost predicate SystemCleanStep(runs: Runs, ev: SystemEvent) {
    ev.Step? && ev.id in runs ==> CleanStep(runs[ev.id], ev.ev)
  }

  ghost predicate SystemCleanFeasible(runs: Runs, events: seq<SystemEvent>)
    decreases |events|
  {
    events == []
    || (SystemEnabled(runs, events[0]) && SystemCleanStep(runs, events[0])
        && SystemCleanFeasible(SystemApply(runs, events[0]), events[1..]))
  }

  ghost predicate AllClean(runs: Runs) {
    forall r :: r in runs ==> CleanInv(runs[r])
  }

  lemma UpdateClean(runs: Runs, id: RunId, rec: RunRec)
    requires AllClean(runs) && CleanInv(rec)
    ensures AllClean(runs[id := rec])
  {
  }

  lemma TriggerClean(runs: Runs, before: RunRow, row: RunRow)
    requires AllClean(runs)
    ensures AllClean(Trigger(runs, before, row))
  {
    if Trigger(runs, before, row) != runs {
      StepClean(runs[row.parentRun.value], ChildEnds(row.parentExec, row));
    }
  }

  lemma ChildIsClean(parent: RunRow, parentId: RunId, exec: nat, task: string)
    ensures CleanInv(NewRec(ChildRow(parent, parentId, exec, task)))
  {
    FreshClean(ChildRow(parent, parentId, exec, task));
  }

  lemma SpawnClean(runs: Runs, ev: SystemEvent)
    requires AllClean(runs) && SystemEnabled(runs, ev) && ev.Spawn?
    ensures AllClean(SystemApply(runs, ev))
  {
    var k := runs[ev.parent].toolWorkers[ev.t].exec;
    var rec := Apply(runs[ev.parent], SpawnChild(ev.t, ev.child));
    StepClean(runs[ev.parent], SpawnChild(ev.t, ev.child));
    UpdateClean(runs, ev.parent, rec);
    ChildIsClean(runs[ev.parent].row, ev.parent, k, ev.task);
    UpdateClean(runs[ev.parent := rec], ev.child, NewRec(ChildRow(runs[ev.parent].row, ev.parent, k, ev.task)));
  }

  lemma RunStepClean(runs: Runs, id: RunId, e: Event)
    requires AllClean(runs) && SystemEnabled(runs, Step(id, e)) && CleanStep(runs[id], e)
    ensures AllClean(SystemApply(runs, Step(id, e)))
  {
    var rec := Apply(runs[id], e);
    StepClean(runs[id], e);
    UpdateClean(runs, id, rec);
    TriggerClean(runs[id := rec], runs[id].row, rec.row);
  }

  lemma SystemStepClean(runs: Runs, ev: SystemEvent)
    requires AllClean(runs) && SystemEnabled(runs, ev) && SystemCleanStep(runs, ev)
    ensures AllClean(SystemApply(runs, ev))
  {
    match ev
    case Create(id, row) => FreshClean(row); UpdateClean(runs, id, NewRec(row));
    case Step(id, e) => RunStepClean(runs, id, e);
    case Spawn(_, _, _, _) => SpawnClean(runs, ev);
  }

  /** With clean rescues only, the conversation and the books of every run of the database are right at
      every moment, child runs and the trigger included. */
  lemma {:induction false} EveryRunClean(runs: Runs, events: seq<SystemEvent>)
    requires AllClean(runs) && SystemCleanFeasible(runs, events)
    ensures SystemFeasible(runs, events) && AllClean(SystemAfter(runs, events))
    decreases |events|
  {
    if events != [] {
      SystemStepClean(runs, events[0]);
      EveryRunClean(SystemApply(runs, events[0]), events[1..]);
    }
  }
}
