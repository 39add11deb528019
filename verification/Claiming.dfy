/** agentpg_claim_runs under concurrency: a transaction first locks the rows it selects, skipping rows
    that others have locked (FOR UPDATE SKIP LOCKED), and updates them when it commits. */
module Claiming {
  import opened Content
  import opened Rows

  /** A claiming transaction that has selected its rows and not ended yet. */
  datatype Txn = Txn(instance: InstanceId, mode: Option<RunMode>, max: nat, ids: seq<RunId>)

  datatype Table = Table(rows: map<RunId, RunRow>, open: map<nat, Txn>)

  predicate LockedBy(t: Table, tx: nat, id: RunId) {
    tx in t.open && id in t.open[tx].ids
  }

  ghost predicate Locked(t: Table, id: RunId) {
    exists tx :: LockedBy(t, tx, id)
  }

  predicate InMode(r: RunRow, mode: Option<RunMode>) {
    mode.None? || r.mode == mode.value
  }

  /** What the WHERE clause asks: `capable` are the runs whose agent needs no tool the instance lacks. */
  predicate Eligible(r: RunRow, id: RunId, mode: Option<RunMode>, capable: set<RunId>) {
    Claimable(r) && InMode(r, mode) && id in capable
  }

  /** The first `max` eligible rows, in the order of creation, that nobody has locked. */
  function Selected(rows: map<RunId, RunRow>, order: seq<RunId>, locked: set<RunId>, mode: Option<RunMode>,
                    capable: set<RunId>, max: nat): seq<RunId>
    requires forall j :: 0 <= j < |order| ==> order[j] in rows
  {
    if order == [] || max == 0 then []
    else if order[0] !in locked && Eligible(rows[order[0]], order[0], mode, capable) then
      [order[0]] + Selected(rows, order[1..], locked, mode, capable, max - 1)
    else Selected(rows, order[1..], locked, mode, capable, max)
  }

  predicate Distinct(ids: seq<RunId>) {
    forall j, j' :: 0 <= j < j' < |ids| ==> ids[j] != ids[j']
  }

  /** The selection is a set of at most `max` free eligible rows, oldest first: an older eligible row is
      passed over for none, and rows are left over only when the limit is reached. */
  lemma {:induction false} SelectedIsRight(rows: map<RunId, RunRow>, order: seq<RunId>, locked: set<RunId>,
                                           mode: Option<RunMode>, capable: set<RunId>, max: nat)
    requires (forall j :: 0 <= j < |order| ==> order[j] in rows) && Distinct(order)
    ensures var ids := Selected(rows, order, locked, mode, capable, max);
            && |ids| <= max && Distinct(ids)
            && (forall j :: 0 <= j < |ids| ==>
                  ids[j] in order && ids[j] !in locked && Eligible(rows[ids[j]], ids[j], mode, capable))
            && (forall i, j ::
                  (0 <= i < j < |order| && order[j] in ids
                   && order[i] !in locked && Eligible(rows[order[i]], order[i], mode, capable)) ==>
                    order[i] in ids)
            && (|ids| < max ==>
                  forall i ::
                    (0 <= i < |order| && order[i] !in locked && Eligible(rows[order[i]], order[i], mode, capable)) ==>
                      order[i] in ids)
    decreases |order|
  {
    if order != [] && max > 0 {
      var ids := Selected(rows, order, locked, mode, capable, max);
      var taken := order[0] !in locked && Eligible(rows[order[0]], order[0], mode, capable);
      var rest := Selected(rows, order[1..], locked, mode, capable, if taken then max - 1 else max);
      SelectedIsRight(rows, order[1..], locked, mode, capable, if taken then max - 1 else max);
      assert ids == if taken then [order[0]] + rest else rest;
      forall j | 0 <= j < |rest| ensures rest[j] != order[0] {
        var i :| 0 <= i < |order[1..]| && order[1..][i] == rest[j];
        assert order[i + 1] == rest[j];
      }
      forall i, j | 0 <= i < j < |order| && order[j] in ids
                    && order[i] !in locked && Eligible(rows[order[i]], order[i], mode, capable)
        ensures order[i] in ids
      {
        if i > 0 {
          assert order[1..][i - 1] == order[i] && order[1..][j - 1] == order[j];
        }
      }
      if |ids| < max {
        forall i | 0 <= i < |order| && order[i] !in locked && Eligible(rows[order[i]], order[i], mode, capable)
          ensures order[i] in ids
        {
          if i > 0 {
            assert order[1..][i - 1] == order[i];
          }
        }
      }
    }
  }

  // ---------------------------------------------------------------------------
  // Interleavings
  // ---------------------------------------------------------------------------

  /** `Write` is any other statement on a row, or its insertion; it waits for the row's lock. */
  datatype TableEvent =
    | Select(tx: nat, instance: InstanceId, order: seq<RunId>, locked: set<RunId>, mode: Option<RunMode>,
             capable: set<RunId>, max: nat)
    | Commit(tx: nat, now: int)
    | Abort(tx: nat)
    | Write(id: RunId, row: RunRow)

  ghost predicate TableEnabled(t: Table, ev: TableEvent) {
    match ev
    case Select(tx, _, order, locked, _, _, _) =>
      && tx !in t.open && Distinct(order) && (forall j :: 0 <= j < |order| ==> order[j] in t.rows)
      && (forall id :: id in t.rows ==> (id in locked <==> Locked(t, id)))
    case Commit(tx, _) => tx in t.open
    case Abort(tx) => tx in t.open
    case Write(id, _) => !Locked(t, id)
  }

  function Update(rows: map<RunId, RunRow>, ids: seq<RunId>, instance: InstanceId, now: int): map<RunId, RunRow> {
    map r | r in rows :: if r in ids then ClaimRun(rows[r], instance, now) else rows[r]
  }

  ghost function TableApply(t: Table, ev: TableEvent): Table
    requires TableEnabled(t, ev)
  {
    match ev
    case Select(tx, instance, order, locked, mode, capable, max) =>
      t.(open := t.open[tx := Txn(instance, mode, max, Selected(t.rows, order, locked, mode, capable, max))])
    case Commit(tx, now) =>
      Table(Update(t.rows, t.open[tx].ids, t.open[tx].instance, now), t.open - {tx})
    case Abort(tx) => t.(open := t.open - {tx})
    case Write(id, row) => t.(rows := t.rows[id := row])
  }

  /** Locked rows stay free for their transaction, and no row is locked twice. */
  ghost predicate TableInv(t: Table) {
    && (forall tx :: tx in t.open ==> Distinct(t.open[tx].ids) && |t.open[tx].ids| <= t.open[tx].max)
    && (forall tx, id :: LockedBy(t, tx, id) ==>
          id in t.rows && Claimable(t.rows[id]) && InMode(t.rows[id], t.open[tx].mode))
    && (forall tx, tx', id :: LockedBy(t, tx, id) && LockedBy(t, tx', id) ==> tx == tx')
  }

  lemma TableStep(t: Table, ev: TableEvent)
    requires TableInv(t) && TableEnabled(t, ev)
    ensures TableInv(TableApply(t, ev))
  {
    var t' := TableApply(t, ev);
    match ev
    case Select(tx, instance, order, locked, mode, capable, max) =>
      SelectedIsRight(t.rows, order, locked, mode, capable, max);
      forall id | LockedBy(t', tx, id)
        ensures id in t.rows && Claimable(t.rows[id]) && InMode(t.rows[id], mode) && id !in locked
      {
        var ids := t'.open[tx].ids;
        var j :| 0 <= j < |ids| && ids[j] == id;
      }
      forall u, id | u != tx && LockedBy(t', u, id)
        ensures LockedBy(t, u, id) && id in locked
      {
        assert LockedBy(t, u, id);
      }
    case Commit(tx, now) =>
      forall u, id | LockedBy(t', u, id) ensures LockedBy(t, u, id) && id !in t.open[tx].ids {
        assert LockedBy(t, u, id) && u != tx;
        assert !LockedBy(t, tx, id);
      }
    case Abort(tx) =>
      forall u, id | LockedBy(t', u, id) ensures LockedBy(t, u, id) {}
    case Write(id, row) =>
      forall u, r | LockedBy(t', u, r) ensures LockedBy(t, u, r) && r != id {
        assert LockedBy(t, u, r);
      }
  }

  ghost predicate TableFeasible(t: Table, events: seq<TableEvent>)
    decreases |events|
  {
    events == [] || (TableEnabled(t, events[0]) && TableFeasible(TableApply(t, events[0]), events[1..]))
  }

  /** The runs an event returns to a claimer. */
  ghost function Returned(t: Table, ev: TableEvent): seq<RunId>
    requires TableEnabled(t, ev)
  {
    if ev.Commit? then t.open[ev.tx].ids else []
  }

  /** Whatever happened in between, a commit claims at most the requested number of rows, each once, that
      are pending, unclaimed and of the requested mode at that moment, puts each into the claimed state
      of its mode, and touches no other row: it has the effect of an atomic claim. */
  lemma CommitIsAtomic(t: Table, ev: TableEvent)
    requires TableInv(t) && TableEnabled(t, ev) && ev.Commit?
    ensures var ids := Returned(t, ev);
            && Distinct(ids) && |ids| <= t.open[ev.tx].max
            && (forall j :: 0 <= j < |ids| ==>
                  ids[j] in t.rows && Claimable(t.rows[ids[j]]) && InMode(t.rows[ids[j]], t.open[ev.tx].mode))
            && TableApply(t, ev).rows.Keys == t.rows.Keys
            && (forall r :: r in t.rows ==>
                  TableApply(t, ev).rows[r]
                  == if r in ids then ClaimRun(t.rows[r], t.open[ev.tx].instance, ev.now) else t.rows[r])
  {
    var ids := Returned(t, ev);
    forall j | 0 <= j < |ids|
      ensures ids[j] in t.rows && Claimable(t.rows[ids[j]]) && InMode(t.rows[ids[j]], t.open[ev.tx].mode)
    {
      assert LockedBy(t, ev.tx, ids[j]);
    }
  }

  /** A claimed run is not returned again before a statement has given its claim back. */
  lemma {:induction false} NotReturnedWhileClaimed(t: Table, events: seq<TableEvent>, id: RunId)
    requires TableInv(t) && TableFeasible(t, events)
    requires id in t.rows && !Claimable(t.rows[id])
    requires forall j :: 0 <= j < |events| && events[j].Write? && events[j].id == id ==> !Claimable(events[j].row)
    ensures ReturnedLater(t, events, id) == 0
    decreases |events|
  {
    if events != [] {
      var t' := TableApply(t, events[0]);
      TableStep(t, events[0]);
      if events[0].Commit? {
        CommitIsAtomic(t, events[0]);
      }
      NotReturnedWhileClaimed(t', events[1..], id);
    }
  }

  /** How many commits return the run. */
  ghost function ReturnedLater(t: Table, events: seq<TableEvent>, id: RunId): nat
    requires TableFeasible(t, events)
    decreases |events|
  {
    if events == [] then 0
    else (if id in Returned(t, events[0]) then 1 else 0) + ReturnedLater(TableApply(t, events[0]), events[1..], id)
  }

  /** No interleaving of claimers returns one run twice, unless a statement makes it claimable again. */
  lemma {:induction false} ReturnedAtMostOnce(t: Table, events: seq<TableEvent>, id: RunId)
    requires TableInv(t) && TableFeasible(t, events) && id in t.rows
    requires forall j :: 0 <= j < |events| && events[j].Write? && events[j].id == id ==> !Claimable(events[j].row)
    ensures ReturnedLater(t, events, id) <= 1
    decreases |events|
  {
    if events != [] {
      var t' := TableApply(t, events[0]);
      TableStep(t, events[0]);
      if id in Returned(t, events[0]) {
        CommitIsAtomic(t, events[0]);
        NotReturnedWhileClaimed(t', events[1..], id);
      } else {
        ReturnedAtMostOnce(t', events[1..], id);
      }
    }
  }
}
