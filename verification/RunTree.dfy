/** The conversation view: messages grouped by run, runs grouped under their parents. */
module RunTree {
  import opened Content

  type RunId = nat

  datatype Run = Run(id: RunId, parent: Option<RunId>, depth: nat)

  /** `seqNo` is the message's id; two messages never agree on it. */
  datatype Msg = Msg(seqNo: nat, run: Option<RunId>, content: seq<ContentBlock>)

  datatype Group = Group(run: Run, messages: seq<Msg>, children: seq<Group>)

  ghost predicate DistinctRuns(runs: seq<Run>) {
    forall i, j :: 0 <= i < j < |runs| ==> runs[i].id != runs[j].id
  }

  // ---------------------------------------------------------------------------
  // Specification
  // ---------------------------------------------------------------------------

  /** Which runs a call for this depth and parent collects. */
  predicate Matches(r: Run, depth: nat, parent: Option<RunId>) {
    r.depth == depth && (if depth == 0 then r.parent.None? else parent.Some? && r.parent == parent)
  }

  function CountFrom(runs: seq<Run>, depth: nat): nat {
    if runs == [] then 0 else (if runs[0].depth >= depth then 1 else 0) + CountFrom(runs[1..], depth)
  }

  lemma {:induction false} CountFromAntitone(runs: seq<Run>, depth: nat)
    ensures CountFrom(runs, depth + 1) <= CountFrom(runs, depth)
  {
    if runs != [] {
      CountFromAntitone(runs[1..], depth);
    }
  }

  /** The measure of the recursion: a run at this depth is not at the next. */
  lemma {:induction false} CountFromDrops(runs: seq<Run>, depth: nat, i: nat)
    requires i < |runs| && runs[i].depth == depth
    ensures CountFrom(runs, depth + 1) < CountFrom(runs, depth)
  {
    if i == 0 {
      CountFromAntitone(runs[1..], depth);
    } else {
      CountFromDrops(runs[1..], depth, i - 1);
    }
  }

  function MessagesOf(byRun: map<RunId, seq<Msg>>, id: RunId): seq<Msg> {
    if id in byRun then byRun[id] else []
  }

  /** The groups of the runs from position `i` on. */
  function GroupsFrom(runs: seq<Run>, byRun: map<RunId, seq<Msg>>, depth: nat, parent: Option<RunId>, i: nat)
    : seq<Group>
    requires i <= |runs|
    decreases CountFrom(runs, depth), |runs| - i
  {
    if i == |runs| then []
    else if Matches(runs[i], depth, parent) then
      CountFromDrops(runs, depth, i);
      [Group(runs[i], MessagesOf(byRun, runs[i].id), GroupsFrom(runs, byRun, depth + 1, Some(runs[i].id), 0))]
      + GroupsFrom(runs, byRun, depth, parent, i + 1)
    else GroupsFrom(runs, byRun, depth, parent, i + 1)
  }

  /** The tests at the head of the loop. */
  method Belongs(run: Run, depth: nat, parent: Option<RunId>) returns (yes: bool)
    ensures yes == Matches(run, depth, parent)
  {
    if run.depth != depth {
      return false;
    }
    if depth == 0 {
      if run.parent.Some? {
        return false;
      }
    } else {
      if parent.None? || run.parent.None? || run.parent.value != parent.value {
        return false;
      }
    }
    return true;
  }

  lemma Associate<T>(a: seq<T>, x: T, b: seq<T>)
    ensures (a + [x]) + b == a + ([x] + b)
  {
  }

  /** buildRunMessageGroupsAtDepth. */
  method BuildRunMessageGroupsAtDepth(runs: seq<Run>, byRun: map<RunId, seq<Msg>>, depth: nat, parent: Option<RunId>)
    returns (groups: seq<Group>)
    ensures groups == GroupsFrom(runs, byRun, depth, parent, 0)
    decreases CountFrom(runs, depth)
  {
    groups := [];
    ghost var all := GroupsFrom(runs, byRun, depth, parent, 0);
    for i := 0 to |runs|
      invariant groups + GroupsFrom(runs, byRun, depth, parent, i) == all
    {
      var run := runs[i];
      ghost var rest := GroupsFrom(runs, byRun, depth, parent, i + 1);
      var belongs := Belongs(run, depth, parent);
      if !belongs {
        continue;
      }
      CountFromDrops(runs, depth, i);
      var messages := MessagesOf(byRun, run.id);
      var children := BuildRunMessageGroupsAtDepth(runs, byRun, depth + 1, Some(run.id));
      var group := Group(run, messages, children);
      Associate(groups, group, rest);
      groups := groups + [group];
    }
  }

  // ---------------------------------------------------------------------------
  // Which runs are shown
  // ---------------------------------------------------------------------------

  /** How often a run occurs in the groups, at any level. */
  function Occurrences(groups: seq<Group>, r: Run): nat {
    if groups == [] then 0
    else
      (if groups[0].run == r then 1 else 0) + Occurrences(groups[0].children, r) + Occurrences(groups[1..], r)
  }

  /** Where the parent of a run is listed, if it is, one level up. */
  ghost predicate ParentAt(runs: seq<Run>, k: nat, p: nat) {
    k < |runs| && p < |runs| && runs[k].parent == Some(runs[p].id) && runs[k].depth == runs[p].depth + 1
  }

  /** The position of the ancestor at a depth: the way up must be listed, level by level. */
  ghost function AncestorAt(runs: seq<Run>, k: nat, depth: nat): (a: Option<nat>)
    requires k < |runs|
    ensures a.Some? ==> a.value < |runs| && runs[a.value].depth == depth
    decreases runs[k].depth
  {
    if runs[k].depth == depth then Some(k)
    else if runs[k].depth < depth then None
    else if p :| ParentAt(runs, k, p) then AncestorAt(runs, p, depth)
    else None
  }

  /** The way up leads to a root: what puts a run into the view. */
  ghost predicate Anchored(runs: seq<Run>, k: nat)
    requires k < |runs|
  {
    AncestorAt(runs, k, 0).Some? && runs[AncestorAt(runs, k, 0).value].parent.None?
  }

  ghost predicate Collected(runs: seq<Run>, depth: nat, parent: Option<RunId>, i: nat, k: nat)
    requires k < |runs|
  {
    var a := AncestorAt(runs, k, depth);
    a.Some? && a.value >= i && Matches(runs[a.value], depth, parent)
  }

  /** One level: the ancestor at a depth is the parent of the ancestor one deeper. */
  lemma {:induction false} AncestorStep(runs: seq<Run>, k: nat, i: nat)
    requires DistinctRuns(runs) && k < |runs| && i < |runs|
    ensures var depth := runs[i].depth;
            var b := AncestorAt(runs, k, depth + 1);
            && (AncestorAt(runs, k, depth) == Some(i) <==>
                k == i || (b.Some? && runs[b.value].parent == Some(runs[i].id)))
            && (k == i ==> b.None?)
    decreases runs[k].depth
  {
    var depth := runs[i].depth;
    if runs[k].depth > depth {
      if p :| ParentAt(runs, k, p) {
        assert forall q :: ParentAt(runs, k, q) ==> q == p;
        if runs[k].depth > depth + 1 {
          AncestorStep(runs, p, i);
        } else {
          assert runs[k].parent == Some(runs[i].id) ==> ParentAt(runs, k, i);
        }
      } else {
        assert runs[k].depth == depth + 1 && runs[k].parent == Some(runs[i].id) ==> ParentAt(runs, k, i);
      }
    }
  }

  lemma CollectedStep(runs: seq<Run>, depth: nat, parent: Option<RunId>, i: nat, k: nat)
    requires DistinctRuns(runs) && k < |runs| && i < |runs| && Matches(runs[i], depth, parent)
    ensures Collected(runs, depth, parent, i, k)
            <==> || k == i || Collected(runs, depth + 1, Some(runs[i].id), 0, k)
                 || Collected(runs, depth, parent, i + 1, k)
    ensures !(k == i && Collected(runs, depth + 1, Some(runs[i].id), 0, k))
    ensures !(Collected(runs, depth, parent, i + 1, k)
              && (k == i || Collected(runs, depth + 1, Some(runs[i].id), 0, k)))
  {
    AncestorStep(runs, k, i);
  }

  lemma OccurrencesOfCons(g: Group, rest: seq<Group>, r: Run)
    ensures Occurrences([g] + rest, r)
            == (if g.run == r then 1 else 0) + Occurrences(g.children, r) + Occurrences(rest, r)
  {
    assert ([g] + rest)[1..] == rest;
  }

  /** How often a run occurs below a depth and parent. */
  lemma {:induction false} RunsCount(runs: seq<Run>, byRun: map<RunId, seq<Msg>>, depth: nat, parent: Option<RunId>,
                                     i: nat, k: nat)
    requires DistinctRuns(runs) && k < |runs| && i <= |runs|
    ensures Occurrences(GroupsFrom(runs, byRun, depth, parent, i), runs[k])
            == if Collected(runs, depth, parent, i, k) then 1 else 0
    decreases CountFrom(runs, depth), |runs| - i
  {
    if i < |runs| {
      RunsCount(runs, byRun, depth, parent, i + 1, k);
      if Matches(runs[i], depth, parent) {
        CountFromDrops(runs, depth, i);
        var children := GroupsFrom(runs, byRun, depth + 1, Some(runs[i].id), 0);
        RunsCount(runs, byRun, depth + 1, Some(runs[i].id), 0, k);
        CollectedStep(runs, depth, parent, i, k);
        var g := Group(runs[i], MessagesOf(byRun, runs[i].id), children);
        OccurrencesOfCons(g, GroupsFrom(runs, byRun, depth, parent, i + 1), runs[k]);
      } else {
        assert Collected(runs, depth, parent, i, k) <==> Collected(runs, depth, parent, i + 1, k);
      }
    }
  }

  /** Every listed run occurs once, or, if its way up is not listed, never. */
  lemma EachRunOnce(runs: seq<Run>, byRun: map<RunId, seq<Msg>>, k: nat)
    requires DistinctRuns(runs) && k < |runs|
    ensures Occurrences(GroupsFrom(runs, byRun, 0, None, 0), runs[k]) == if Anchored(runs, k) then 1 else 0
  {
    RunsCount(runs, byRun, 0, None, 0, k);
  }

  /** In a list closed under parents every run is anchored. */
  ghost predicate Closed(runs: seq<Run>) {
    forall k :: 0 <= k < |runs| ==>
      (runs[k].depth == 0 <==> runs[k].parent.None?) && (runs[k].parent.Some? ==> exists p :: ParentAt(runs, k, p))
  }

  lemma {:induction false} ClosedIsAnchored(runs: seq<Run>, k: nat)
    requires Closed(runs) && DistinctRuns(runs) && k < |runs|
    ensures Anchored(runs, k)
    decreases runs[k].depth
  {
    if runs[k].depth > 0 {
      var p :| ParentAt(runs, k, p);
      assert forall q :: ParentAt(runs, k, q) ==> q == p;
      ClosedIsAnchored(runs, p);
    }
  }

  // ---------------------------------------------------------------------------
  // Every group stands under its own parent
  // ---------------------------------------------------------------------------

  predicate Placed(groups: seq<Group>, depth: nat, parent: Option<RunId>) {
    groups == []
    || (Matches(groups[0].run, depth, parent)
        && Placed(groups[0].children, depth + 1, Some(groups[0].run.id))
        && Placed(groups[1..], depth, parent))
  }

  lemma {:induction false} GroupsArePlaced(runs: seq<Run>, byRun: map<RunId, seq<Msg>>, depth: nat,
                                           parent: Option<RunId>, i: nat)
    requires i <= |runs|
    ensures Placed(GroupsFrom(runs, byRun, depth, parent, i), depth, parent)
    decreases CountFrom(runs, depth), |runs| - i
  {
    if i < |runs| {
      var rest := GroupsFrom(runs, byRun, depth, parent, i + 1);
      GroupsArePlaced(runs, byRun, depth, parent, i + 1);
      if Matches(runs[i], depth, parent) {
        CountFromDrops(runs, depth, i);
        var children := GroupsFrom(runs, byRun, depth + 1, Some(runs[i].id), 0);
        GroupsArePlaced(runs, byRun, depth + 1, Some(runs[i].id), 0);
        assert ([Group(runs[i], MessagesOf(byRun, runs[i].id), children)] + rest)[1..] == rest;
      }
    }
  }

  // ---------------------------------------------------------------------------
  // Which messages are shown
  // ---------------------------------------------------------------------------

  /** How often a message is shown, at any level. */
  function TimesShown(groups: seq<Group>, m: Msg): nat {
    if groups == [] then 0
    else multiset(groups[0].messages)[m] + TimesShown(groups[0].children, m) + TimesShown(groups[1..], m)
  }

  /** Messages are filed under their own run. */
  ghost predicate Filed(byRun: map<RunId, seq<Msg>>) {
    forall id, j :: id in byRun && 0 <= j < |byRun[id]| ==> byRun[id][j].run == Some(id)
  }

  lemma TimesShownOfCons(g: Group, rest: seq<Group>, m: Msg)
    ensures TimesShown([g] + rest, m)
            == multiset(g.messages)[m] + TimesShown(g.children, m) + TimesShown(rest, m)
  {
    assert ([g] + rest)[1..] == rest;
  }

  /** A message is shown as often as it is filed, if its run is collected. */
  lemma {:induction false} MessagesCount(runs: seq<Run>, byRun: map<RunId, seq<Msg>>, depth: nat,
                                         parent: Option<RunId>, i: nat, k: nat, m: Msg)
    requires DistinctRuns(runs) && Filed(byRun) && k < |runs| && i <= |runs| && m.run == Some(runs[k].id)
    ensures TimesShown(GroupsFrom(runs, byRun, depth, parent, i), m)
            == if Collected(runs, depth, parent, i, k) then multiset(MessagesOf(byRun, runs[k].id))[m] else 0
    decreases CountFrom(runs, depth), |runs| - i
  {
    if i < |runs| {
      MessagesCount(runs, byRun, depth, parent, i + 1, k, m);
      if Matches(runs[i], depth, parent) {
        CountFromDrops(runs, depth, i);
        var here := MessagesOf(byRun, runs[i].id);
        var children := GroupsFrom(runs, byRun, depth + 1, Some(runs[i].id), 0);
        MessagesCount(runs, byRun, depth + 1, Some(runs[i].id), 0, k, m);
        CollectedStep(runs, depth, parent, i, k);
        TimesShownOfCons(Group(runs[i], here, children), GroupsFrom(runs, byRun, depth, parent, i + 1), m);
        assert k != i ==> multiset(here)[m] == 0;
      } else {
        assert Collected(runs, depth, parent, i, k) <==> Collected(runs, depth, parent, i + 1, k);
      }
    }
  }

  /** A message of a run that is not listed is not shown. */
  lemma {:induction false} UnlistedIsNotShown(runs: seq<Run>, byRun: map<RunId, seq<Msg>>, depth: nat,
                                              parent: Option<RunId>, i: nat, m: Msg)
    requires Filed(byRun) && i <= |runs|
    requires m.run.None? || forall k :: 0 <= k < |runs| ==> runs[k].id != m.run.value
    ensures TimesShown(GroupsFrom(runs, byRun, depth, parent, i), m) == 0
    decreases CountFrom(runs, depth), |runs| - i
  {
    if i < |runs| {
      var rest := GroupsFrom(runs, byRun, depth, parent, i + 1);
      UnlistedIsNotShown(runs, byRun, depth, parent, i + 1, m);
      if Matches(runs[i], depth, parent) {
        CountFromDrops(runs, depth, i);
        var here := MessagesOf(byRun, runs[i].id);
        var children := GroupsFrom(runs, byRun, depth + 1, Some(runs[i].id), 0);
        UnlistedIsNotShown(runs, byRun, depth + 1, Some(runs[i].id), 0, m);
        assert ([Group(runs[i], here, children)] + rest)[1..] == rest;
        assert m !in here;
      }
    }
  }

  // ---------------------------------------------------------------------------
  // The view
  // ---------------------------------------------------------------------------

  predicate ToolResultOnly(content: seq<ContentBlock>) {
    content != [] && forall i :: 0 <= i < |content| ==> content[i].kind == ToolResult
  }

  method IsToolResultOnlyMessage(content: seq<ContentBlock>) returns (only: bool)
    ensures only == ToolResultOnly(content)
  {
    if |content| == 0 {
      return false;
    }
    for i := 0 to |content|
      invariant forall j :: 0 <= j < i ==> content[j].kind == ToolResult
    {
      if content[i].kind != ToolResult {
        return false;
      }
    }
    return true;
  }

  /** The messages that count: all but those that hold tool results only. */
  function Counted(messages: seq<Msg>): seq<Msg> {
    if messages == [] then []
    else
      var n := |messages| - 1;
      Counted(messages[..n]) + if ToolResultOnly(messages[n].content) then [] else [messages[n]]
  }

  function OldestFirst(newestFirst: seq<Run>): seq<Run> {
    if newestFirst == [] then [] else OldestFirst(newestFirst[1..]) + [newestFirst[0]]
  }

  lemma {:induction false} OldestFirstAt(newestFirst: seq<Run>, k: nat)
    requires k < |newestFirst|
    ensures |OldestFirst(newestFirst)| == |newestFirst|
    ensures OldestFirst(newestFirst)[k] == newestFirst[|newestFirst| - 1 - k]
  {
    if |newestFirst| > 1 {
      OldestFirstAt(newestFirst[1..], if k < |newestFirst| - 1 then k else 0);
    }
  }

  /** The query returns the newest run first; the view wants the oldest first. */
  method ReverseRuns(runs: array<Run>)
    modifies runs
    ensures runs[..] == OldestFirst(old(runs[..]))
  {
    var i, j := 0, runs.Length - 1;
    ghost var before, n := runs[..], runs.Length;
    while i < j
      invariant 0 <= i <= j + 1 <= n && i + j == n - 1
      invariant forall k :: 0 <= k < i ==> runs[k] == before[n - 1 - k]
      invariant forall k :: j < k < n ==> runs[k] == before[n - 1 - k]
      invariant forall k :: i <= k <= j ==> runs[k] == before[k]
    {
      runs[i], runs[j] := runs[j], runs[i];
      i, j := i + 1, j - 1;
    }
    ReversedIsOldestFirst(before, runs[..]);
  }

  lemma ReversedIsOldestFirst(before: seq<Run>, after: seq<Run>)
    requires |after| == |before| && forall k :: 0 <= k < |after| ==> after[k] == before[|before| - 1 - k]
    ensures after == OldestFirst(before)
  {
    if before != [] {
      OldestFirstAt(before, 0);
      forall k | 0 <= k < |after| ensures after[k] == OldestFirst(before)[k] {
        OldestFirstAt(before, k);
      }
    }
  }

  lemma ReversalKeepsDistinct(newestFirst: seq<Run>)
    requires DistinctRuns(newestFirst)
    ensures DistinctRuns(OldestFirst(newestFirst))
  {
    forall i, j | 0 <= i < j < |OldestFirst(newestFirst)|
      ensures OldestFirst(newestFirst)[i].id != OldestFirst(newestFirst)[j].id
    {
      if |newestFirst| > 0 {
        OldestFirstAt(newestFirst, 0);
        OldestFirstAt(newestFirst, i);
        OldestFirstAt(newestFirst, j);
      }
    }
  }

  /** What is filed, under runs or as orphans, is what was counted. */
  ghost predicate FilesExactly(byRun: map<RunId, seq<Msg>>, orphans: seq<Msg>, counted: seq<Msg>) {
    && Filed(byRun)
    && (forall m :: multiset(counted)[m]
                    == match m.run
                       case None => multiset(orphans)[m]
                       case Some(id) => multiset(MessagesOf(byRun, id))[m])
    && (forall j :: 0 <= j < |orphans| ==> orphans[j].run.None?)
  }

  method GroupMessages(messages: seq<Msg>) returns (byRun: map<RunId, seq<Msg>>, orphans: seq<Msg>, count: nat)
    ensures FilesExactly(byRun, orphans, Counted(messages)) && count == |Counted(messages)|
  {
    byRun, orphans, count := map[], [], 0;
    for i := 0 to |messages|
      invariant FilesExactly(byRun, orphans, Counted(messages[..i])) && count == |Counted(messages[..i])|
    {
      var m := messages[i];
      ghost var counted := Counted(messages[..i]);
      assert messages[..i + 1][..i] == messages[..i];
      var only := IsToolResultOnlyMessage(m.content);
      assert Counted(messages[..i + 1]) == counted + if only then [] else [m];
      if only {
        assert counted + [] == counted;
        continue;
      }
      count := count + 1;
      match m.run {
        case Some(id) =>
          FileUnderRun(byRun, orphans, counted, m, id);
          byRun := byRun[id := MessagesOf(byRun, id) + [m]];
        case None =>
          FileAsOrphan(byRun, orphans, counted, m);
          orphans := orphans + [m];
      }
    }
    assert messages[..|messages|] == messages;
  }

  lemma CountOfMore(counted: seq<Msg>, m: Msg, x: Msg)
    ensures multiset(counted + [m])[x] == multiset(counted)[x] + if x == m then 1 else 0
  {
  }

  lemma FiledUnderRun(byRun: map<RunId, seq<Msg>>, m: Msg, id: RunId)
    requires Filed(byRun) && m.run == Some(id)
    ensures Filed(byRun[id := MessagesOf(byRun, id) + [m]])
  {
  }

  lemma FileUnderRun(byRun: map<RunId, seq<Msg>>, orphans: seq<Msg>, counted: seq<Msg>, m: Msg, id: RunId)
    requires FilesExactly(byRun, orphans, counted) && m.run == Some(id)
    ensures FilesExactly(byRun[id := MessagesOf(byRun, id) + [m]], orphans, counted + [m])
  {
    var byRun' := byRun[id := MessagesOf(byRun, id) + [m]];
    FiledUnderRun(byRun, m, id);
    forall x ensures multiset(counted + [m])[x]
                     == match x.run
                        case None => multiset(orphans)[x]
                        case Some(r) => multiset(MessagesOf(byRun', r))[x]
    {
      CountOfMore(counted, m, x);
      CountOfMore(MessagesOf(byRun, id), m, x);
      assert x.run.Some? && x.run.value != id ==> MessagesOf(byRun', x.run.value) == MessagesOf(byRun, x.run.value);
    }
  }

  lemma FileAsOrphan(byRun: map<RunId, seq<Msg>>, orphans: seq<Msg>, counted: seq<Msg>, m: Msg)
    requires FilesExactly(byRun, orphans, counted) && m.run.None?
    ensures FilesExactly(byRun, orphans + [m], counted + [m])
  {
    forall x ensures multiset(counted + [m])[x]
                     == match x.run
                        case None => multiset(orphans + [m])[x]
                        case Some(r) => multiset(MessagesOf(byRun, r))[x]
    {
      CountOfMore(counted, m, x);
      CountOfMore(orphans, m, x);
    }
  }

  datatype View = View(rootGroups: seq<Group>, orphans: seq<Msg>, messageCount: nat)

  /** A message is placed if it has no run, or its run and the run's way up to a root are listed. */
  ghost predicate IsPlaced(runs: seq<Run>, m: Msg) {
    m.run.None? || exists k :: 0 <= k < |runs| && runs[k].id == m.run.value && Anchored(runs, k)
  }

  /** GetHierarchicalConversation, after the queries. */
  method HierarchicalConversation(runs: array<Run>, messages: seq<Msg>) returns (view: View)
    requires DistinctRuns(runs[..])
    modifies runs
    ensures runs[..] == OldestFirst(old(runs[..])) && DistinctRuns(runs[..])
    ensures view.messageCount == |Counted(messages)|
    ensures Placed(view.rootGroups, 0, None)
    ensures forall k :: 0 <= k < runs.Length ==>
              Occurrences(view.rootGroups, runs[k]) == if Anchored(runs[..], k) then 1 else 0
    ensures forall m :: TimesShown(view.rootGroups, m) + multiset(view.orphans)[m]
                        == if IsPlaced(runs[..], m) then multiset(Counted(messages))[m] else 0
  {
    ReversalKeepsDistinct(runs[..]);
    ReverseRuns(runs);
    var byRun, orphans, count := GroupMessages(messages);
    var groups := BuildRunMessageGroupsAtDepth(runs[..], byRun, 0, None);
    view := View(groups, orphans, count);
    ghost var listed := runs[..];
    GroupsArePlaced(listed, byRun, 0, None, 0);
    forall k | 0 <= k < runs.Length ensures Occurrences(groups, runs[k]) == if Anchored(listed, k) then 1 else 0 {
      assert listed[k] == runs[k];
      EachRunOnce(listed, byRun, k);
    }
    forall m ensures TimesShown(groups, m) + multiset(orphans)[m]
                     == if IsPlaced(listed, m) then multiset(Counted(messages))[m] else 0
    {
      ShownExactly(listed, byRun, orphans, Counted(messages), m);
    }
  }

  lemma ShownExactly(runs: seq<Run>, byRun: map<RunId, seq<Msg>>, orphans: seq<Msg>, counted: seq<Msg>, m: Msg)
    requires DistinctRuns(runs) && FilesExactly(byRun, orphans, counted)
    ensures TimesShown(GroupsFrom(runs, byRun, 0, None, 0), m) + multiset(orphans)[m]
            == if IsPlaced(runs, m) then multiset(counted)[m] else 0
  {
    if m.run.Some? && exists k :: 0 <= k < |runs| && runs[k].id == m.run.value {
      var k :| 0 <= k < |runs| && runs[k].id == m.run.value;
      MessagesCount(runs, byRun, 0, None, 0, k, m);
      assert m !in orphans;
      assert Collected(runs, 0, None, 0, k) <==> Anchored(runs, k);
      assert IsPlaced(runs, m) <==> Anchored(runs, k);
    } else {
      UnlistedIsNotShown(runs, byRun, 0, None, 0, m);
      if m.run.Some? {
        assert m !in orphans;
      }
    }
  }

  /** If the list is closed under parents and holds the run of every message, the view shows every
      counted message as often as it was counted, and every run once. */
  lemma ClosedShowsEverything(runs: seq<Run>, byRun: map<RunId, seq<Msg>>, orphans: seq<Msg>, counted: seq<Msg>)
    requires DistinctRuns(runs) && Closed(runs) && FilesExactly(byRun, orphans, counted)
    requires forall m :: m in counted && m.run.Some? ==> exists k :: 0 <= k < |runs| && runs[k].id == m.run.value
    ensures var groups := GroupsFrom(runs, byRun, 0, None, 0);
            && (forall m :: TimesShown(groups, m) + multiset(orphans)[m] == multiset(counted)[m])
            && (forall k :: 0 <= k < |runs| ==> Occurrences(groups, runs[k]) == 1)
  {
    forall m ensures TimesShown(GroupsFrom(runs, byRun, 0, None, 0), m) + multiset(orphans)[m] == multiset(counted)[m] {
      ShownExactly(runs, byRun, orphans, counted, m);
      if m in counted && m.run.Some? {
        var k :| 0 <= k < |runs| && runs[k].id == m.run.value;
        ClosedIsAnchored(runs, k);
        assert IsPlaced(runs, m);
      }
    }
    forall k | 0 <= k < |runs| ensures Occurrences(GroupsFrom(runs, byRun, 0, None, 0), runs[k]) == 1 {
      ClosedIsAnchored(runs, k);
      EachRunOnce(runs, byRun, k);
    }
  }
}
