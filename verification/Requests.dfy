/** Tool calls in requests: what the pairing of stored messages means for the turns sent to the model,
    which refuses a call that is not answered in the next turn. */
module Requests {
  import opened Content
  import opened Rows
  import opened RunMachine
  import opened ToolIds
  import opened CleanRuns
  import opened Turns

  /** Every assistant turn that calls tools is followed by the user turn with exactly its results, and
      results come nowhere else. */
  predicate TurnsPaired(turns: seq<Turn>) {
    && (forall i :: 0 <= i < |turns| && turns[i].role == Assistant && CallIds(turns[i].content) != multiset{} ==>
          i + 1 < |turns| && ResultIds(turns[i + 1].content) == CallIds(turns[i].content))
    && (forall i :: 0 <= i < |turns| && turns[i].role == User && ResultIds(turns[i].content) != multiset{} ==>
          i > 0 && ResultIds(turns[i].content) == CallIds(turns[i - 1].content))
  }

  /** A run stores user and assistant messages only. */
  predicate TwoRoles(messages: seq<StoredMessage>) {
    forall i :: 0 <= i < |messages| ==> messages[i].role != System
  }

  // ---------------------------------------------------------------------------
  // Conversion keeps the ids
  // ---------------------------------------------------------------------------

  lemma {:induction false} ConversionKeepsIds(content: seq<ContentBlock>)
    ensures CallIds(ConvertAll(content)) == CallIds(content) && ResultIds(ConvertAll(content)) == ResultIds(content)
  {
    if content != [] {
      var head := if Convertible(content[0]) then [Convert(content[0])] else [];
      ConversionKeepsIds(content[1..]);
      CallIdsConcat(head, ConvertAll(content[1..]));
      ResultIdsConcat(head, ConvertAll(content[1..]));
      if Convertible(content[0]) {
        assert head[1..] == [];
      }
    }
  }

  // ---------------------------------------------------------------------------
  // A list of turns to reason about
  // ---------------------------------------------------------------------------

  function Add(turns: seq<Turn>, role: Role, content: seq<ContentBlock>): seq<Turn> {
    var n := |turns|;
    if content == [] then turns
    else if n > 0 && turns[n - 1].role == role then turns[n - 1 := Turn(role, turns[n - 1].content + content)]
    else turns + [Turn(role, content)]
  }

  function Merge(messages: seq<StoredMessage>): seq<Turn> {
    if messages == [] then []
    else
      var n := |messages| - 1;
      Add(Merge(messages[..n]), RequestRole(messages[n].role), ConvertAll(messages[n].content))
  }

  lemma AddAlternates(turns: seq<Turn>, role: Role, content: seq<ContentBlock>)
    requires Alternating(turns)
    ensures Alternating(Add(turns, role, content))
  {
  }

  lemma AddSays(turns: seq<Turn>, role: Role, content: seq<ContentBlock>)
    ensures SaidInTurns(Add(turns, role, content)) == SaidInTurns(turns) + Tag(role, content)
  {
    var n := |turns| - 1;
    if content == [] {
      assert Tag(role, content) == [];
    } else if n >= 0 && turns[n].role == role {
      var joined := Turn(role, turns[n].content + content);
      JoinSays(turns[..n], turns[n], content);
      assert turns[..n] + [turns[n]] == turns;
      assert turns[n := joined] == turns[..n] + [joined];
    } else {
      SaidInTurnsOfAppend(turns, Turn(role, content));
    }
  }

  lemma JoinSays(turns: seq<Turn>, last: Turn, content: seq<ContentBlock>)
    ensures SaidInTurns(turns + [Turn(last.role, last.content + content)])
            == SaidInTurns(turns + [last]) + Tag(last.role, content)
  {
    SaidInTurnsOfAppend(turns, last);
    SaidInTurnsOfAppend(turns, Turn(last.role, last.content + content));
    TagOfConcat(last.role, last.content, content);
  }

  lemma {:induction false} MergeSays(messages: seq<StoredMessage>)
    ensures Alternating(Merge(messages)) && SaidInTurns(Merge(messages)) == SaidIn(messages)
    decreases |messages|
  {
    if messages != [] {
      var n := |messages| - 1;
      MergeSays(messages[..n]);
      AddAlternates(Merge(messages[..n]), RequestRole(messages[n].role), ConvertAll(messages[n].content));
      AddSays(Merge(messages[..n]), RequestRole(messages[n].role), ConvertAll(messages[n].content));
      SaidInOfAppend(messages[..n], messages[n]);
      assert messages[..n] + [messages[n]] == messages;
    }
  }

  // ---------------------------------------------------------------------------
  // Pairing survives the merging
  // ---------------------------------------------------------------------------

  /** A turn seen by its ids only. */
  datatype TurnIds = TurnIds(role: Role, calls: multiset<string>, results: multiset<string>)

  function IdsOfTurn(t: Turn): TurnIds {
    TurnIds(t.role, CallIds(t.content), ResultIds(t.content))
  }

  function IdsOfTurns(turns: seq<Turn>): (ids: seq<TurnIds>)
    ensures |ids| == |turns| && forall i :: 0 <= i < |turns| ==> ids[i] == IdsOfTurn(turns[i])
  {
    seq(|turns|, i requires 0 <= i < |turns| => IdsOfTurn(turns[i]))
  }

  function AddIds(ids: seq<TurnIds>, x: TurnIds): seq<TurnIds> {
    var n := |ids| - 1;
    if n >= 0 && ids[n].role == x.role then
      ids[n := TurnIds(x.role, ids[n].calls + x.calls, ids[n].results + x.results)]
    else ids + [x]
  }

  lemma IdsOfJoined(last: Turn, content: seq<ContentBlock>)
    ensures IdsOfTurn(Turn(last.role, last.content + content))
            == TurnIds(last.role, CallIds(last.content) + CallIds(content),
                       ResultIds(last.content) + ResultIds(content))
  {
    CallIdsConcat(last.content, content);
    ResultIdsConcat(last.content, content);
  }

  lemma IdsOfUpdate(turns: seq<Turn>, i: nat, t: Turn)
    requires i < |turns|
    ensures IdsOfTurns(turns[i := t]) == IdsOfTurns(turns)[i := IdsOfTurn(t)]
  {
  }

  lemma IdsOfAppend(turns: seq<Turn>, t: Turn)
    ensures IdsOfTurns(turns + [t]) == IdsOfTurns(turns) + [IdsOfTurn(t)]
  {
  }

  lemma IdsOfAdd(turns: seq<Turn>, role: Role, content: seq<ContentBlock>)
    requires content != []
    ensures IdsOfTurns(Add(turns, role, content)) == AddIds(IdsOfTurns(turns), IdsOfTurn(Turn(role, content)))
  {
    if turns != [] && turns[|turns| - 1].role == role {
      IdsOfLonger(turns, content);
    } else {
      IdsOfNewTurn(turns, Turn(role, content));
    }
  }

  lemma IdsOfNewTurn(turns: seq<Turn>, t: Turn)
    requires turns == [] || turns[|turns| - 1].role != t.role
    ensures IdsOfTurns(turns + [t]) == AddIds(IdsOfTurns(turns), IdsOfTurn(t))
  {
    IdsOfAppend(turns, t);
    var ids, n := IdsOfTurns(turns), |turns| - 1;
    assert n >= 0 ==> ids[n].role == turns[n].role;
  }

  lemma IdsOfLonger(turns: seq<Turn>, content: seq<ContentBlock>)
    requires turns != []
    ensures var n := |turns| - 1;
            var role := turns[n].role;
            IdsOfTurns(turns[n := Turn(role, turns[n].content + content)])
            == AddIds(IdsOfTurns(turns), IdsOfTurn(Turn(role, content)))
  {
    var n := |turns| - 1;
    IdsOfJoined(turns[n], content);
    IdsOfUpdate(turns, n, Turn(turns[n].role, turns[n].content + content));
    assert IdsOfTurns(turns)[n] == IdsOfTurn(turns[n]);
  }

  /** All but the last turn are paired, and the last one leaves the calls `open`. */
  predicate PairedSoFar(ids: seq<TurnIds>, open: multiset<string>) {
    var n := |ids| - 1;
    && (forall i :: 0 <= i < n ==> ids[i].role != ids[i + 1].role)
    && (forall i :: 0 <= i < n && ids[i].role == Assistant && ids[i].calls != multiset{} ==>
          ids[i + 1].results == ids[i].calls)
    && (forall i :: 0 <= i <= n && ids[i].role == User && ids[i].results != multiset{} ==>
          i > 0 && ids[i].results == ids[i - 1].calls)
    && open == if n >= 0 && ids[n].role == Assistant then ids[n].calls else multiset{}
  }

  /** What a message may say to the calls `open`: their results, or no results if there are none. */
  predicate Replies(open: multiset<string>, x: TurnIds) {
    && x.role != System
    && (open != multiset{} ==> x.role == User && x.results == open)
    && (x.role == User && x.results != multiset{} ==> open != multiset{})
  }

  lemma JoinKeepsPairing(ids: seq<TurnIds>, open: multiset<string>, x: TurnIds)
    requires PairedSoFar(ids, open) && Replies(open, x) && ids != [] && ids[|ids| - 1].role == x.role
    ensures PairedSoFar(AddIds(ids, x), if x.role == Assistant then x.calls else multiset{})
  {
    var n := |ids| - 1;
    if x.role == User {
      assert ids[n].results + x.results == ids[n].results;
    } else {
      assert ids[n].calls + x.calls == x.calls;
    }
  }

  lemma NewKeepsPairing(ids: seq<TurnIds>, open: multiset<string>, x: TurnIds)
    requires PairedSoFar(ids, open) && Replies(open, x) && (ids == [] || ids[|ids| - 1].role != x.role)
    ensures PairedSoFar(AddIds(ids, x), if x.role == Assistant then x.calls else multiset{})
  {
  }

  /** The next message keeps this, whether it opens a turn or joins one. */
  lemma AddKeepsPairing(ids: seq<TurnIds>, open: multiset<string>, x: TurnIds)
    requires PairedSoFar(ids, open) && Replies(open, x)
    ensures PairedSoFar(AddIds(ids, x), if x.role == Assistant then x.calls else multiset{})
  {
    if ids != [] && ids[|ids| - 1].role == x.role {
      JoinKeepsPairing(ids, open, x);
    } else {
      NewKeepsPairing(ids, open, x);
    }
  }

  ghost function OpenCalls(messages: seq<StoredMessage>): multiset<string> {
    if Open(messages) then CallIds(messages[|messages| - 1].content) else multiset{}
  }

  /** What the next stored message may be. */
  ghost predicate Fits(messages: seq<StoredMessage>, m: StoredMessage) {
    && m.role != System
    && (messages != [] && Calls(messages[|messages| - 1]) ==> Answers(messages[|messages| - 1], m))
    && (m.role == User && ResultIds(m.content) != multiset{} ==>
          messages != [] && Calls(messages[|messages| - 1]))
  }

  lemma PrefixFits(messages: seq<StoredMessage>)
    requires messages != [] && Paired(messages) && NoStrayResults(messages) && TwoRoles(messages)
    ensures var n := |messages| - 1;
            && Paired(messages[..n]) && NoStrayResults(messages[..n]) && TwoRoles(messages[..n])
            && Fits(messages[..n], messages[n])
  {
  }

  lemma {:induction false} MergeIsPaired(messages: seq<StoredMessage>)
    requires Paired(messages) && NoStrayResults(messages) && TwoRoles(messages)
    ensures PairedSoFar(IdsOfTurns(Merge(messages)), OpenCalls(messages))
    decreases |messages|
  {
    if messages != [] {
      var n := |messages| - 1;
      var init, m := messages[..n], messages[n];
      var content := ConvertAll(m.content);
      PrefixFits(messages);
      MergeIsPaired(init);
      ConversionKeepsIds(m.content);
      if content != [] {
        IdsOfAdd(Merge(init), m.role, content);
        AddKeepsPairing(IdsOfTurns(Merge(init)), OpenCalls(init), IdsOfTurn(Turn(m.role, content)));
      }
    }
  }

  lemma PairedToTheEnd(turns: seq<Turn>)
    requires PairedSoFar(IdsOfTurns(turns), multiset{})
    ensures TurnsPaired(turns)
  {
    var ids := IdsOfTurns(turns);
    assert forall i :: 0 <= i < |turns| ==> ids[i] == IdsOfTurn(turns[i]);
  }

  lemma PairedTurns(turns: seq<Turn>, open: multiset<string>)
    requires PairedSoFar(IdsOfTurns(turns), open)
    ensures TurnsPaired(turns) <==> open == multiset{}
  {
    var ids, n := IdsOfTurns(turns), |turns| - 1;
    assert n >= 0 ==> ids[n] == IdsOfTurn(turns[n]);
    assert open == if n >= 0 && ids[n].role == Assistant then ids[n].calls else multiset{};
    if open == multiset{} {
      PairedToTheEnd(turns);
    } else {
      assert turns[n].role == Assistant && CallIds(turns[n].content) == open;
    }
  }

  /** The request built from a paired conversation is paired exactly if no call is left open. */
  lemma RequestIsPairedIff(messages: seq<StoredMessage>, turns: seq<Turn>)
    requires Paired(messages) && NoStrayResults(messages) && TwoRoles(messages)
    requires Alternating(turns) && SaidInTurns(turns) == SaidIn(messages)
    ensures TurnsPaired(turns) <==> !Open(messages)
  {
    MergeSays(messages);
    AlternatingIsCanonical(turns, Merge(messages));
    MergeIsPaired(messages);
    PairedTurns(turns, OpenCalls(messages));
  }

  // ---------------------------------------------------------------------------
  // Requests of runs
  // ---------------------------------------------------------------------------

  lemma ResultKeepsRoles(rec: RunRec, id: nat, read: RunRow, response: Response, maxAttempts: int, now: int)
    requires TwoRoles(rec.messages) && id < |rec.iterations|
    ensures TwoRoles(ProcessResult(rec, id, read, response, maxAttempts, now).0.messages)
  {
  }

  lemma PromptKeepsRoles(rec: RunRec, copy: RunRow)
    requires TwoRoles(rec.messages)
    ensures TwoRoles(Prompted(rec, copy))
  {
  }

  /** The other steps add no message, or the results of tools. */
  lemma OthersKeepRoles(rec: RunRec, ev: Event)
    requires TwoRoles(rec.messages) && Enabled(rec, ev)
    requires !IsExecEvent(ev) && !ev.Begin? && !ev.Streamed? && !ev.PollSucceeded?
    ensures TwoRoles(Apply(rec, ev).messages)
  {
  }

  lemma StepKeepsRoles(rec: RunRec, ev: Event)
    requires TwoRoles(rec.messages) && Enabled(rec, ev)
    ensures TwoRoles(Apply(rec, ev).messages)
  {
    if IsExecEvent(ev) {
      ExecStepsKeepMessages(rec, ev);
    } else if ev.Begin? {
      PromptKeepsRoles(rec, rec.workers[ev.w].copy);
    } else if ev.Streamed? {
      var worker := rec.workers[ev.w];
      ResultKeepsRoles(rec, worker.phase.iteration, worker.copy, ev.response, ev.maxAttempts, ev.now);
    } else if ev.PollSucceeded? {
      ResultKeepsRoles(rec, rec.pollers[ev.p].iteration, rec.row, ev.response, ev.maxAttempts, ev.now);
    } else {
      OthersKeepRoles(rec, ev);
    }
  }

  lemma ExecStepsKeepMessages(rec: RunRec, ev: Event)
    requires Enabled(rec, ev) && IsExecEvent(ev)
    ensures Apply(rec, ev).messages == rec.messages
  {
  }

  lemma {:induction false} RunKeepsRoles(rec: RunRec, events: seq<Event>)
    requires TwoRoles(rec.messages) && Feasible(rec, events)
    ensures TwoRoles(After(rec, events).messages)
    decreases |events|
  {
    if events != [] {
      StepKeepsRoles(rec, events[0]);
      RunKeepsRoles(Apply(rec, events[0]), events[1..]);
    }
  }

  /** The request a worker builds for a claimed child run, whose context is its own messages, pairs every
      call with its results - after any number of tool rounds, retries, failures and rescues. */
  lemma RequestOfClaimedRun(row: RunRow, events: seq<Event>, turns: seq<Turn>)
    requires Fresh(row) && CleanFeasible(NewRec(row), events)
    ensures Feasible(NewRec(row), events)
    ensures var rec := After(NewRec(row), events);
            (rec.row.state == ClaimedState(rec.row.mode)
             && Alternating(turns) && SaidInTurns(turns) == SaidIn(rec.messages)) ==> TurnsPaired(turns)
  {
    CallsAreAnswered(row, events);
    RunKeepsRoles(NewRec(row), events);
    var rec := After(NewRec(row), events);
    if rec.row.state == ClaimedState(rec.row.mode)
       && Alternating(turns) && SaidInTurns(turns) == SaidIn(rec.messages) {
      RequestIsPairedIff(rec.messages, turns);
    }
  }

  // ---------------------------------------------------------------------------
  // Requests of sessions
  // ---------------------------------------------------------------------------

  function CallsSaid(said: seq<Said>): multiset<string> {
    if said == [] then multiset{}
    else (if said[0].role == Assistant then CallIds([said[0].block]) else multiset{}) + CallsSaid(said[1..])
  }

  function ResultsSaid(said: seq<Said>): multiset<string> {
    if said == [] then multiset{}
    else (if said[0].role == User then ResultIds([said[0].block]) else multiset{}) + ResultsSaid(said[1..])
  }

  lemma {:induction false} SaidOfConcat(a: seq<Said>, b: seq<Said>)
    ensures CallsSaid(a + b) == CallsSaid(a) + CallsSaid(b) && ResultsSaid(a + b) == ResultsSaid(a) + ResultsSaid(b)
  {
    if a == [] {
      assert a + b == b;
    } else {
      assert (a + b)[1..] == a[1..] + b;
      SaidOfConcat(a[1..], b);
    }
  }

  lemma {:induction false} SaidOfTag(role: Role, content: seq<ContentBlock>)
    ensures CallsSaid(Tag(role, content)) == if role == Assistant then CallIds(content) else multiset{}
    ensures ResultsSaid(Tag(role, content)) == if role == User then ResultIds(content) else multiset{}
  {
    if content != [] {
      SaidOfTag(role, content[1..]);
      assert Tag(role, content)[1..] == Tag(role, content[1..]);
      assert content == [content[0]] + content[1..];
      CallIdsConcat([content[0]], content[1..]);
      ResultIdsConcat([content[0]], content[1..]);
    }
  }

  lemma {:induction false} SaidInOfConcat(a: seq<StoredMessage>, b: seq<StoredMessage>)
    ensures SaidIn(a + b) == SaidIn(a) + SaidIn(b)
  {
    if a == [] {
      assert a + b == b;
    } else {
      assert (a + b)[1..] == a[1..] + b;
      SaidInOfConcat(a[1..], b);
    }
  }

  /** In a paired conversation every result answers a call, and only the last message's calls may lack
      one. */
  lemma SaidInLast(messages: seq<StoredMessage>)
    requires messages != []
    ensures var init, m := messages[..|messages| - 1], messages[|messages| - 1];
            && CallsSaid(SaidIn(messages))
               == CallsSaid(SaidIn(init)) + (if m.role == Assistant then CallIds(m.content) else multiset{})
            && ResultsSaid(SaidIn(messages))
               == ResultsSaid(SaidIn(init)) + (if m.role == Assistant then multiset{} else ResultIds(m.content))
  {
    var init, m := messages[..|messages| - 1], messages[|messages| - 1];
    SaidInOfAppend(init, m);
    assert init + [m] == messages;
    SaidOfConcat(SaidIn(init), Tag(RequestRole(m.role), ConvertAll(m.content)));
    SaidOfTag(RequestRole(m.role), ConvertAll(m.content));
    ConversionKeepsIds(m.content);
  }

  lemma {:induction false} MessagesBalance(messages: seq<StoredMessage>)
    requires Paired(messages) && NoStrayResults(messages) && TwoRoles(messages)
    ensures CallsSaid(SaidIn(messages)) == ResultsSaid(SaidIn(messages)) + OpenCalls(messages)
    decreases |messages|
  {
    if messages != [] {
      var n := |messages| - 1;
      PrefixFits(messages);
      MessagesBalance(messages[..n]);
      SaidInLast(messages);
      FitsOpen(messages);
      var init, m := messages[..n], messages[n];
      if m.role == Assistant {
        StillBalanced(CallsSaid(SaidIn(init)), ResultsSaid(SaidIn(init)), multiset{}, CallIds(m.content), multiset{});
      } else {
        StillBalanced(CallsSaid(SaidIn(init)), ResultsSaid(SaidIn(init)), OpenCalls(init), multiset{},
                      ResultIds(m.content));
      }
    }
  }

  lemma StillBalanced(calls: multiset<string>, results: multiset<string>, open: multiset<string>,
                      called: multiset<string>, answered: multiset<string>)
    requires calls == results + open && open == answered
    ensures calls + called == results + answered + called
  {
  }

  /** The last message answers what was open before it, or there was nothing open and it has no results. */
  lemma FitsOpen(messages: seq<StoredMessage>)
    requires messages != [] && Fits(messages[..|messages| - 1], messages[|messages| - 1])
    ensures var init, m := messages[..|messages| - 1], messages[|messages| - 1];
            && (m.role == Assistant ==> OpenCalls(init) == multiset{} && OpenCalls(messages) == CallIds(m.content))
            && (m.role == User ==> OpenCalls(init) == ResultIds(m.content) && OpenCalls(messages) == multiset{})
  {
  }

  function IdCalls(ids: seq<TurnIds>): multiset<string> {
    if ids == [] then multiset{}
    else
      var n := |ids| - 1;
      IdCalls(ids[..n]) + if ids[n].role == Assistant then ids[n].calls else multiset{}
  }

  function IdResults(ids: seq<TurnIds>): multiset<string> {
    if ids == [] then multiset{}
    else
      var n := |ids| - 1;
      IdResults(ids[..n]) + if ids[n].role == User then ids[n].results else multiset{}
  }

  lemma {:induction false} SaidIsIds(turns: seq<Turn>)
    ensures CallsSaid(SaidInTurns(turns)) == IdCalls(IdsOfTurns(turns))
    ensures ResultsSaid(SaidInTurns(turns)) == IdResults(IdsOfTurns(turns))
    decreases |turns|
  {
    if turns != [] {
      var n := |turns| - 1;
      var init, t := turns[..n], turns[n];
      SaidIsIds(init);
      assert turns == init + [t];
      SaidInTurnsOfAppend(init, t);
      SaidOfConcat(SaidInTurns(init), Tag(t.role, t.content));
      SaidOfTag(t.role, t.content);
      assert IdsOfTurns(turns)[..n] == IdsOfTurns(init);
    }
  }

  /** The calls of the turn before the last. */
  function Before(ids: seq<TurnIds>): multiset<string> {
    var n := |ids| - 1;
    if n > 0 && ids[n - 1].role == Assistant then ids[n - 1].calls else multiset{}
  }

  lemma LastIsPaired(ids: seq<TurnIds>, open: multiset<string>)
    requires PairedSoFar(ids, open) && ids != [] && forall i :: 0 <= i < |ids| ==> ids[i].role != System
    ensures var x := ids[|ids| - 1];
            && PairedSoFar(ids[..|ids| - 1], Before(ids))
            && (x.role == User ==> x.results == Before(ids) && open == multiset{})
            && (x.role == Assistant ==> Before(ids) == multiset{} && x.calls == open)
  {
  }

  lemma {:induction false} IdsBalance(ids: seq<TurnIds>, open: multiset<string>)
    requires PairedSoFar(ids, open) && forall i :: 0 <= i < |ids| ==> ids[i].role != System
    ensures IdCalls(ids) == IdResults(ids) + open
    decreases |ids|
  {
    if ids != [] {
      LastIsPaired(ids, open);
      IdsBalance(ids[..|ids| - 1], Before(ids));
    }
  }

  lemma TurnsBalance(turns: seq<Turn>)
    requires Alternating(turns) && TurnsPaired(turns)
    requires forall i :: 0 <= i < |turns| ==> turns[i].role != System
    ensures CallsSaid(SaidInTurns(turns)) == ResultsSaid(SaidInTurns(turns))
  {
    SaidIsIds(turns);
    IdsBalance(IdsOfTurns(turns), multiset{});
  }

  /** What one run contributes to its session. */
  ghost predicate Conversation(messages: seq<StoredMessage>) {
    Paired(messages) && NoStrayResults(messages) && TwoRoles(messages)
  }

  function Joined(parts: seq<seq<StoredMessage>>): seq<StoredMessage> {
    if parts == [] then [] else parts[0] + Joined(parts[1..])
  }

  ghost function AllOpenCalls(parts: seq<seq<StoredMessage>>): multiset<string> {
    if parts == [] then multiset{} else OpenCalls(parts[0]) + AllOpenCalls(parts[1..])
  }

  lemma ConcatIsPaired(a: seq<StoredMessage>, b: seq<StoredMessage>)
    requires Paired(a) && NoStrayResults(a) && !Open(a) && Paired(b) && NoStrayResults(b)
    ensures Paired(a + b) && NoStrayResults(a + b) && (Open(a + b) <==> Open(b))
  {
    var s := a + b;
    forall i | 0 <= i < |s| - 1 && Calls(s[i]) ensures Answers(s[i], s[i + 1]) {
      if i >= |a| {
        assert Calls(b[i - |a|]);
      }
    }
    forall i | 0 <= i < |s| && s[i].role == User && ResultIds(s[i].content) != multiset{}
      ensures i > 0 && Calls(s[i - 1]) && Answers(s[i - 1], s[i])
    {
      if i >= |a| {
        assert s[i] == b[i - |a|];
      }
    }
  }

  lemma {:induction false} JoinedIsPaired(parts: seq<seq<StoredMessage>>)
    requires forall i :: 0 <= i < |parts| ==> Conversation(parts[i]) && !Open(parts[i])
    ensures Conversation(Joined(parts)) && !Open(Joined(parts))
  {
    if parts != [] {
      JoinedIsPaired(parts[1..]);
      ConcatIsPaired(parts[0], Joined(parts[1..]));
    }
  }

  /** What lacks a result in the session are the open calls of its conversations. */
  lemma {:induction false} SessionBalance(parts: seq<seq<StoredMessage>>)
    requires forall i :: 0 <= i < |parts| ==> Conversation(parts[i])
    ensures CallsSaid(SaidIn(Joined(parts))) == ResultsSaid(SaidIn(Joined(parts))) + AllOpenCalls(parts)
  {
    if parts != [] {
      MessagesBalance(parts[0]);
      SessionBalance(parts[1..]);
      SaidInOfConcat(parts[0], Joined(parts[1..]));
      SaidOfConcat(SaidIn(parts[0]), SaidIn(Joined(parts[1..])));
    }
  }

  lemma {:induction false} OpenCallsRemain(parts: seq<seq<StoredMessage>>, i: nat)
    requires i < |parts| && Open(parts[i])
    ensures AllOpenCalls(parts) != multiset{}
  {
    if i == 0 {
      var call :| call in CallIds(parts[0][|parts[0]| - 1].content);
      assert call in OpenCalls(parts[0]);
      assert call in AllOpenCalls(parts);
    } else {
      OpenCallsRemain(parts[1..], i - 1);
      var call :| call in AllOpenCalls(parts[1..]);
      assert call in AllOpenCalls(parts);
    }
  }

  /** The context of a root run is its whole session, the conversations of its runs one after the other.
      The request pairs every call with its results exactly if no run left a call open: one that ended
      with an open call makes the request of every later run of the session unpaired, whatever follows. */
  lemma SessionIsPairedIff(parts: seq<seq<StoredMessage>>, turns: seq<Turn>)
    requires forall i :: 0 <= i < |parts| ==> Conversation(parts[i])
    requires Alternating(turns) && SaidInTurns(turns) == SaidIn(Joined(parts))
    ensures TurnsPaired(turns) <==> forall i :: 0 <= i < |parts| ==> !Open(parts[i])
  {
    if i :| 0 <= i < |parts| && Open(parts[i]) {
      if TurnsPaired(turns) {
        SessionBalance(parts);
        OpenCallsRemain(parts, i);
        RolesOfTurns(Joined(parts), turns);
        TurnsBalance(turns);
        assert false;
      }
    } else {
      JoinedIsPaired(parts);
      RequestIsPairedIff(Joined(parts), turns);
    }
  }

  /** Such a run: deleting the instance that claimed it while it awaits its tools fails it with its call
      open, for ever, and with it every later request of its session. */
  lemma DeadInstancePoisonsSession(rec: RunRec, instance: InstanceId, events: seq<Event>,
                                   parts: seq<seq<StoredMessage>>, i: nat, turns: seq<Turn>)
    requires CleanInv(rec) && TwoRoles(rec.messages)
    requires rec.row.state == PendingTools && rec.row.claimedBy == Some(instance)
    requires CleanFeasible(Apply(rec, Orphan(instance)), events)
    requires i < |parts| && forall j :: 0 <= j < |parts| ==> Conversation(parts[j])
    requires Alternating(turns) && SaidInTurns(turns) == SaidIn(Joined(parts))
    ensures Feasible(Apply(rec, Orphan(instance)), events)
    ensures parts[i] == After(Apply(rec, Orphan(instance)), events).messages ==> !TurnsPaired(turns)
  {
    var failed := Apply(rec, Orphan(instance));
    StepClean(rec, Orphan(instance));
    assert failed.messages == rec.messages && Open(failed.messages);
    OpenForEver(failed, events);
    SessionIsPairedIff(parts, turns);
  }

  lemma RolesOfTurns(messages: seq<StoredMessage>, turns: seq<Turn>)
    requires Alternating(turns) && SaidInTurns(turns) == SaidIn(messages)
    ensures forall i :: 0 <= i < |turns| ==> turns[i].role != System
  {
    MergeSays(messages);
    AlternatingIsCanonical(turns, Merge(messages));
    MergeRoles(messages);
  }

  lemma {:induction false} MergeRoles(messages: seq<StoredMessage>)
    ensures forall i :: 0 <= i < |Merge(messages)| ==> Merge(messages)[i].role != System
    decreases |messages|
  {
    if messages != [] {
      MergeRoles(messages[..|messages| - 1]);
    }
  }
}
