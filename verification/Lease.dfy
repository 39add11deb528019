/** Leader election: one lease row with an expiry, and clients that believe what their last call said.
    Times are nanoseconds of the database's clock. */
module Lease {
  import opened Content

  type InstanceId = string
  type Time = int

  datatype LeaseRow = LeaseRow(holder: InstanceId, expires: Time)

  const SECOND := 1_000_000_000

  /** config.go: a TTL that is not positive is replaced by the default, so `ttl` is positive.
      `granted` is not stored: the time of the client's last acquisition or refresh that reached the row,
      unless it has deleted the row since. */
  datatype Member = Member(ttl: int, isLeader: bool, started: bool, granted: Option<Time>)

  /** An error can hide a statement that was applied. */
  datatype CallFault = NoFault | NotApplied | ReplyLost

  // ---------------------------------------------------------------------------
  // Specification of the store's statements and of the client's steps
  // ---------------------------------------------------------------------------

  predicate Free(row: Option<LeaseRow>, now: Time) {
    row.None? || row.value.expires < now
  }

  predicate HeldBy(row: Option<LeaseRow>, id: InstanceId) {
    row.Some? && row.value.holder == id
  }

  /** tryAcquireOrRefreshLeadership. */
  function LoopStep(row: Option<LeaseRow>, now: Time, id: InstanceId, m: Member, fault: CallFault)
    : (Option<LeaseRow>, Member)
  {
    var granted := fault != NotApplied && if m.isLeader then HeldBy(row, id) else Free(row, now);
    (if granted then Some(LeaseRow(id, now + m.ttl)) else row,
     m.(isLeader := granted && fault == NoFault,
        granted := if granted then Some(now) else m.granted))
  }

  /** The lease part of Stop: note that isLeader stays as it is. */
  function StopStep(row: Option<LeaseRow>, id: InstanceId, m: Member, fault: CallFault): (Option<LeaseRow>, Member) {
    var releases := m.isLeader && fault != NotApplied;
    (if releases && HeldBy(row, id) then None else row,
     m.(started := false, granted := if releases then None else m.granted))
  }

  class LeaderTable {
    var now: Time
    var row: Option<LeaseRow>

    constructor (now: Time)
      ensures this.now == now && row == None
    {
      this.now := now;
      row := None;
    }

    method TryAcquireLeader(id: InstanceId, ttl: int) returns (acquired: bool)
      modifies this`row
      ensures acquired == Free(old(row), now)
      ensures row == if acquired then Some(LeaseRow(id, now + ttl)) else old(row)
    {
      match row {
        case None =>
          row := Some(LeaseRow(id, now + ttl));
          acquired := true;
        case Some(lease) =>
          acquired := lease.expires < now;
          if acquired {
            row := Some(LeaseRow(id, now + ttl));
          }
      }
    }

    /** No test of the expiry: an expired lease that nobody took is revived. */
    method RefreshLeader(id: InstanceId, ttl: int) returns (refreshed: bool)
      modifies this`row
      ensures refreshed == HeldBy(old(row), id)
      ensures row == if refreshed then Some(LeaseRow(id, now + ttl)) else old(row)
    {
      refreshed := row.Some? && row.value.holder == id;
      if refreshed {
        row := Some(row.value.(expires := now + ttl));
      }
    }

    method ReleaseLeader(id: InstanceId)
      modifies this`row
      ensures row == if HeldBy(old(row), id) then None else old(row)
    {
      if row.Some? && row.value.holder == id {
        row := None;
      }
    }

    /** At the instant of the expiry the row names nobody, and nobody can take it yet. */
    method GetLeader() returns (leader: Option<InstanceId>)
      ensures leader == (if row.Some? && row.value.expires > now then Some(row.value.holder) else None)
      ensures leader.Some? ==> !Free(row, now)
      ensures leader.None? && !Free(row, now) <==> row.Some? && row.value.expires == now
    {
      leader := None;
      if row.Some? && row.value.expires > now {
        leader := Some(row.value.holder);
      }
    }
  }

  class Client {
    const id: InstanceId
    const ttl: int
    var isLeader: bool
    var started: bool
    ghost var granted: Option<Time>

    constructor (id: InstanceId, ttl: int)
      ensures this.id == id && Value() == Member(ttl, false, true, None)
    {
      this.id, this.ttl, isLeader, started, granted := id, ttl, false, true, None;
    }

    ghost function Value(): Member
      reads this
    {
      Member(ttl, isLeader, started, granted)
    }

    method TryAcquireOrRefreshLeadership(table: LeaderTable, fault: CallFault)
      modifies this, table`row
      ensures (table.row, Value()) == LoopStep(old(table.row), table.now, id, old(Value()), fault)
    {
      var wasLeader := isLeader;
      if wasLeader {
        var refreshed := false;
        if fault != NotApplied {
          refreshed := table.RefreshLeader(id, ttl);
        }
        granted := if refreshed then Some(table.now) else granted;
        if !refreshed || fault == ReplyLost {
          isLeader := false;
        }
      } else {
        var acquired := false;
        if fault != NotApplied {
          acquired := table.TryAcquireLeader(id, ttl);
        }
        granted := if acquired then Some(table.now) else granted;
        if fault != NoFault {
          return;
        }
        if acquired {
          isLeader := true;
        }
      }
    }

    method Start() returns (ok: bool)
      modifies this
      ensures ok == !old(started) && Value() == old(Value()).(started := true)
    {
      ok := !started;
      started := true;
    }

    method Stop(table: LeaderTable, fault: CallFault) returns (ok: bool)
      modifies this, table`row
      ensures ok == old(started)
      ensures !ok ==> table.row == old(table.row) && Value() == old(Value())
      ensures ok ==> (table.row, Value()) == StopStep(old(table.row), id, old(Value()), fault)
    {
      if !started {
        return false;
      }
      started := false;
      if isLeader {
        if fault != NotApplied {
          table.ReleaseLeader(id);
          granted := None;
        }
      }
      return true;
    }
  }

  // ---------------------------------------------------------------------------
  // Any number of clients
  // ---------------------------------------------------------------------------

  datatype Cluster = Cluster(now: Time, row: Option<LeaseRow>, members: map<InstanceId, Member>)

  datatype LeaseEvent =
    | Tick(to: Time)
    | Loop(id: InstanceId, fault: CallFault)
    | Stop(id: InstanceId, fault: CallFault)
    | Start(id: InstanceId)

  predicate LeaseEnabled(c: Cluster, ev: LeaseEvent) {
    match ev
    case Tick(to) => c.now <= to
    case Loop(id, _) => id in c.members && c.members[id].started
    case Stop(id, _) => id in c.members && c.members[id].started
    case Start(id) => id in c.members && !c.members[id].started
  }

  function With(c: Cluster, id: InstanceId, step: (Option<LeaseRow>, Member)): Cluster {
    c.(row := step.0, members := c.members[id := step.1])
  }

  function LeaseApply(c: Cluster, ev: LeaseEvent): Cluster
    requires LeaseEnabled(c, ev)
  {
    match ev
    case Tick(to) => c.(now := to)
    case Loop(id, fault) => With(c, id, LoopStep(c.row, c.now, id, c.members[id], fault))
    case Stop(id, fault) => With(c, id, StopStep(c.row, id, c.members[id], fault))
    case Start(id) => c.(members := c.members[id := c.members[id].(started := true)])
  }

  predicate LeaseFeasible(c: Cluster, events: seq<LeaseEvent>)
    decreases |events|
  {
    events == [] || (LeaseEnabled(c, events[0]) && LeaseFeasible(LeaseApply(c, events[0]), events[1..]))
  }

  function LeaseAfter(c: Cluster, events: seq<LeaseEvent>): Cluster
    requires LeaseFeasible(c, events)
    decreases |events|
  {
    if events == [] then c else LeaseAfter(LeaseApply(c, events[0]), events[1..])
  }

  /** The client's last grant has not run out, and it has not given it back. */
  predicate InTerm(c: Cluster, id: InstanceId) {
    id in c.members && c.members[id].granted.Some? && c.now <= c.members[id].granted.value + c.members[id].ttl
  }

  /** A grant in term is the row. A client that leads and was not stopped was granted once. */
  ghost predicate LeaseInv(c: Cluster) {
    && (forall id :: id in c.members ==>
          && c.members[id].ttl > 0
          && (c.members[id].granted.Some? ==> c.members[id].granted.value <= c.now))
    && (forall id :: InTerm(c, id) ==>
          c.row == Some(LeaseRow(id, c.members[id].granted.value + c.members[id].ttl)))
  }

  predicate Founded(c: Cluster) {
    c.row.None? && forall id :: id in c.members ==>
      c.members[id].ttl > 0 && !c.members[id].isLeader && c.members[id].granted.None?
  }

  lemma LeaseStepOk(c: Cluster, ev: LeaseEvent)
    requires LeaseInv(c) && LeaseEnabled(c, ev)
    ensures LeaseInv(LeaseApply(c, ev))
  {
    var c' := LeaseApply(c, ev);
    forall id | InTerm(c', id)
      ensures c'.row == Some(LeaseRow(id, c'.members[id].granted.value + c'.members[id].ttl))
    {
      match ev
      case Tick(_) => assert InTerm(c, id);
      case Loop(other, _) =>
        if id != other {
          assert InTerm(c, id);
        } else if c'.members[id].granted == c.members[id].granted {
          assert InTerm(c, id);
        }
      case Stop(_, _) => assert InTerm(c, id);
      case Start(_) => assert InTerm(c, id);
    }
  }

  lemma {:induction false} LeaseReachable(c: Cluster, events: seq<LeaseEvent>)
    requires LeaseInv(c) && LeaseFeasible(c, events)
    ensures LeaseInv(LeaseAfter(c, events))
    decreases |events|
  {
    if events != [] {
      LeaseStepOk(c, events[0]);
      LeaseReachable(LeaseApply(c, events[0]), events[1..]);
    }
  }

  /** Exclusivity: whatever the interleaving, the clocks' progress and the errors, at most one client is
      in term; the row names it until then, and no other client can acquire it. */
  lemma LeaseIsExclusive(c: Cluster, events: seq<LeaseEvent>, a: InstanceId, b: InstanceId)
    requires Founded(c) && LeaseFeasible(c, events)
    ensures var after := LeaseAfter(c, events);
            && (InTerm(after, a) && InTerm(after, b) ==> a == b)
            && (InTerm(after, a) ==> HeldBy(after.row, a) && !Free(after.row, after.now))
  {
    LeaseReachable(c, events);
  }

  // ---------------------------------------------------------------------------
  // Where belief and lease part
  // ---------------------------------------------------------------------------

  predicate Believes(c: Cluster, id: InstanceId) {
    id in c.members && c.members[id].isLeader
  }

  /** What a client believes is right while its term lasts - except after a Stop, which gives the lease
      back but not the belief: another client can acquire the row at once, and both believe. */
  lemma StopLeavesTwoBelievers(c: Cluster, a: InstanceId, b: InstanceId)
    requires Believes(c, a) && c.members[a].started && HeldBy(c.row, a)
    requires b in c.members && c.members[b].started && !c.members[b].isLeader && a != b
    ensures var events := [Stop(a, NoFault), Loop(b, NoFault)];
            && LeaseFeasible(c, events)
            && Believes(LeaseAfter(c, events), a) && Believes(LeaseAfter(c, events), b)
            && LeaseAfter(c, events).now == c.now
  {
    var c1 := LeaseApply(c, Stop(a, NoFault));
    assert [Stop(a, NoFault), Loop(b, NoFault)][1..] == [Loop(b, NoFault)];
    assert [Loop(b, NoFault)][1..] == [];
    assert c1.row == None;
    var c2 := LeaseApply(c1, Loop(b, NoFault));
    assert LeaseFeasible(c2, []);
    assert LeaseFeasible(c1, [Loop(b, NoFault)]);
    assert LeaseAfter(c1, [Loop(b, NoFault)]) == LeaseAfter(c2, []);
  }

  /** The client is not stopped in these events; the others may be, and may start when they like. */
  predicate NeverStopped(events: seq<LeaseEvent>, id: InstanceId) {
    forall i :: 0 <= i < |events| && events[i].Stop? ==> events[i].id != id
  }

  predicate BeliefIsGranted(c: Cluster, id: InstanceId) {
    Believes(c, id) ==> c.members[id].granted.Some?
  }

  lemma {:induction false} BeliefStaysGranted(c: Cluster, events: seq<LeaseEvent>, id: InstanceId)
    requires BeliefIsGranted(c, id) && LeaseFeasible(c, events) && NeverStopped(events, id)
    ensures BeliefIsGranted(LeaseAfter(c, events), id)
    decreases |events|
  {
    if events != [] {
      BeliefStaysGranted(LeaseApply(c, events[0]), events[1..], id);
    }
  }

  /** Two clients that both believe and were not stopped, within the TTL of their last grants, are the
      same - whatever other clients do. (A stopped one may differ: StopLeavesTwoBelievers.) */
  lemma BelieversInTermAgree(c: Cluster, events: seq<LeaseEvent>, a: InstanceId, b: InstanceId)
    requires Founded(c) && LeaseFeasible(c, events) && NeverStopped(events, a) && NeverStopped(events, b)
    requires Believes(LeaseAfter(c, events), a) && Believes(LeaseAfter(c, events), b)
    ensures var after := LeaseAfter(c, events);
            && after.members[a].granted.Some? && after.members[b].granted.Some?
            && (InTerm(after, a) && InTerm(after, b) ==> a == b)
            && (InTerm(after, a) <==> after.now <= after.members[a].granted.value + after.members[a].ttl)
            && (InTerm(after, b) <==> after.now <= after.members[b].granted.value + after.members[b].ttl)
  {
    BeliefStaysGranted(c, events, a);
    BeliefStaysGranted(c, events, b);
    LeaseIsExclusive(c, events, a, b);
  }

  lemma {:induction false} ClockIsMonotone(c: Cluster, events: seq<LeaseEvent>)
    requires LeaseFeasible(c, events)
    ensures c.now <= LeaseAfter(c, events).now
    decreases |events|
  {
    if events != [] {
      ClockIsMonotone(LeaseApply(c, events[0]), events[1..]);
    }
  }

  /** A refresh that errs costs the leadership until the lease runs out: whatever happens up to then, the
      row stays as it is, the holder does not lead again, and nobody else begins to. */
  lemma {:induction false} NoLeaderUntilExpiry(c: Cluster, events: seq<LeaseEvent>)
    requires c.row.Some? && !Believes(c, c.row.value.holder)
    requires LeaseFeasible(c, events) && LeaseAfter(c, events).now <= c.row.value.expires
    ensures LeaseAfter(c, events).row == c.row
    ensures forall id :: Believes(LeaseAfter(c, events), id) ==> Believes(c, id) && id != c.row.value.holder
    decreases |events|
  {
    if events != [] {
      ClockIsMonotone(LeaseApply(c, events[0]), events[1..]);
      NoLeaderUntilExpiry(LeaseApply(c, events[0]), events[1..]);
    }
  }

  // ---------------------------------------------------------------------------
  // Refreshing in time
  // ---------------------------------------------------------------------------

  function RefreshInterval(ttl: int): int
    requires ttl > 0
  {
    if ttl / 2 < SECOND then SECOND else ttl / 2
  }

  /** The leader's loop keeps its interval, without errors, and it is not stopped. */
  predicate OnTime(c: Cluster, leader: InstanceId, ev: LeaseEvent) {
    match ev
    case Tick(to) =>
      leader in c.members && c.members[leader].ttl > 0 && c.members[leader].granted.Some?
      && to <= c.members[leader].granted.value + RefreshInterval(c.members[leader].ttl)
    case Loop(id, fault) => id == leader ==> fault == NoFault
    case Stop(id, _) => id != leader
    case Start(_) => true
  }

  predicate Leads(c: Cluster, leader: InstanceId) {
    && Believes(c, leader) && c.members[leader].started
    && c.members[leader].granted.Some? && c.members[leader].ttl > 0
    && c.row == Some(LeaseRow(leader, c.members[leader].granted.value + c.members[leader].ttl))
    && c.now <= c.members[leader].granted.value + RefreshInterval(c.members[leader].ttl)
  }

  predicate AllOnTime(c: Cluster, leader: InstanceId, events: seq<LeaseEvent>)
    requires LeaseFeasible(c, events)
    decreases |events|
  {
    events == [] || (OnTime(c, leader, events[0]) && AllOnTime(LeaseApply(c, events[0]), leader, events[1..]))
  }

  /** With a TTL of a second or more, a leader that refreshes in time leads for ever. */
  lemma {:induction false} NeverDisplaced(c: Cluster, leader: InstanceId, events: seq<LeaseEvent>)
    requires Leads(c, leader) && c.members[leader].ttl >= SECOND
    requires LeaseFeasible(c, events) && AllOnTime(c, leader, events)
    ensures Leads(LeaseAfter(c, events), leader)
    decreases |events|
  {
    if events != [] {
      var c' := LeaseApply(c, events[0]);
      assert Leads(c', leader);
      NeverDisplaced(c', leader, events[1..]);
    }
  }

  /** With a shorter one it can be displaced between two refreshes that are in time: the interval is
      never below a second. */
  lemma DisplacedBelowASecond(c: Cluster, leader: InstanceId, rival: InstanceId)
    requires Leads(c, leader) && c.members[leader].ttl < SECOND
    requires c.now == c.members[leader].granted.value
    requires rival in c.members && c.members[rival].started && !c.members[rival].isLeader && rival != leader
    ensures var events := [Tick(c.now + RefreshInterval(c.members[leader].ttl)), Loop(rival, NoFault)];
            && LeaseFeasible(c, events) && AllOnTime(c, leader, events)
            && HeldBy(LeaseAfter(c, events).row, rival)
            && Believes(LeaseAfter(c, events), leader) && Believes(LeaseAfter(c, events), rival)
  {
    var t := Tick(c.now + RefreshInterval(c.members[leader].ttl));
    var l := Loop(rival, NoFault);
    var events := [t, l];
    assert events[1..] == [l] && [l][1..] == [];
    var c1 := LeaseApply(c, t);
    var c2 := LeaseApply(c1, l);
    assert LeaseFeasible(c2, []) && LeaseFeasible(c1, [l]) && AllOnTime(c1, leader, [l]);
    assert LeaseAfter(c1, [l]) == LeaseAfter(c2, []);
  }

  ghost predicate CanBeDisplaced(c: Cluster, leader: InstanceId) {
    exists events :: LeaseFeasible(c, events) && AllOnTime(c, leader, events)
                     && !HeldBy(LeaseAfter(c, events).row, leader)
  }

  /** A freshly granted leader that refreshes in time can lose the lease exactly when the TTL is below
      one second. */
  lemma DisplacedIff(c: Cluster, leader: InstanceId, rival: InstanceId)
    requires Leads(c, leader) && c.now == c.members[leader].granted.value
    requires rival in c.members && c.members[rival].started && !c.members[rival].isLeader && rival != leader
    ensures CanBeDisplaced(c, leader) <==> c.members[leader].ttl < SECOND
  {
    if c.members[leader].ttl < SECOND {
      DisplacedBelowASecond(c, leader, rival);
    } else if CanBeDisplaced(c, leader) {
      var events :| LeaseFeasible(c, events) && AllOnTime(c, leader, events)
                    && !HeldBy(LeaseAfter(c, events).row, leader);
      NeverDisplaced(c, leader, events);
      assert false;
    }
  }
}
