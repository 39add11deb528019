/** What compaction does to the tool calls of the requests that come after it. */
module CompactionTalk {
  import opened Content
  import opened RunMachine
  import opened ToolIds
  import opened CleanRuns
  import opened Turns
  import Requests
  import opened Tokens
  import opened Partition
  import opened Pruning
  import C = Compaction

  // ---------------------------------------------------------------------------
  // Contexts
  // ---------------------------------------------------------------------------

  /** What a worker reads to build a request: for a root run the messages of all root runs of the session
      and those of no run, for a child run its own. */
  datatype Context = RootContext(roots: set<nat>) | ChildContext(run: nat)

  predicate Reads(context: Context, m: Message) {
    match context
    case RootContext(roots) => m.run.None? || m.run.value in roots
    case ChildContext(run) => m.run == Some(run)
  }

  function Read(messages: seq<Message>, context: Context): seq<Message> {
    if messages == [] then []
    else (if Reads(context, messages[0]) then [messages[0]] else []) + Read(messages[1..], context)
  }

  function View(m: Message): StoredMessage {
    StoredMessage(m.role, m.content)
  }

  function Views(messages: seq<Message>): seq<StoredMessage> {
    seq(|messages|, i requires 0 <= i < |messages| => View(messages[i]))
  }

  lemma ReadOfCons(m: Message, rest: seq<Message>, context: Context)
    ensures Read([m] + rest, context) == (if Reads(context, m) then [m] else []) + Read(rest, context)
  {
    assert ([m] + rest)[1..] == rest;
  }

  lemma WithoutOfCons(m: Message, rest: seq<Message>, ids: set<MessageId>)
    ensures C.Without([m] + rest, ids) == (if m.id in ids then [] else [m]) + C.Without(rest, ids)
  {
    assert ([m] + rest)[1..] == rest;
  }

  lemma {:induction false} ReadOfConcat(a: seq<Message>, b: seq<Message>, context: Context)
    ensures Read(a + b, context) == Read(a, context) + Read(b, context)
  {
    if a == [] {
      assert a + b == b;
    } else {
      var m, rest := a[0], a[1..];
      assert a == [m] + rest && a + b == [m] + (rest + b);
      ReadOfCons(m, rest, context);
      ReadOfCons(m, rest + b, context);
      ReadOfConcat(rest, b, context);
    }
  }

  lemma {:induction false} ReadOfWithout(messages: seq<Message>, context: Context, ids: set<MessageId>)
    ensures Read(C.Without(messages, ids), context) == C.Without(Read(messages, context), ids)
  {
    if messages != [] {
      var m, rest := messages[0], messages[1..];
      ReadOfWithout(rest, context, ids);
      assert messages == [m] + rest;
      WithoutOfCons(m, rest, ids);
      ReadOfCons(m, rest, context);
      WithoutOfCons(m, Read(rest, context), ids);
      ReadOfCons(m, C.Without(rest, ids), context);
      if m.id in ids {
        assert C.Without(messages, ids) == C.Without(rest, ids);
      } else {
        assert C.Without(messages, ids) == [m] + C.Without(rest, ids);
      }
      if !Reads(context, m) {
        assert Read(messages, context) == Read(rest, context);
      }
    }
  }

  lemma {:induction false} ReadMembers(messages: seq<Message>, context: Context, m: Message)
    ensures m in Read(messages, context) <==> m in messages && Reads(context, m)
  {
    if messages != [] {
      ReadMembers(messages[1..], context, m);
    }
  }

  // ---------------------------------------------------------------------------
  // Calls and answers that are kept together
  // ---------------------------------------------------------------------------

  predicate HasResults(m: StoredMessage) {
    m.role == User && ResultIds(m.content) != multiset{}
  }

  /** No tool call id is used by two messages: the model makes them up anew. */
  ghost predicate UniqueCalls(messages: seq<StoredMessage>) {
    forall i, j :: 0 <= i < j < |messages| && Calls(messages[i]) && Calls(messages[j]) ==>
      CallIds(messages[i].content) !! CallIds(messages[j].content)
  }

  /** Results stand behind the message they answer; calls may be unanswered. */
  ghost predicate Talk(messages: seq<StoredMessage>) {
    NoStrayResults(messages) && Requests.TwoRoles(messages)
  }

  /** No boundary between what goes and what stays separates a call from its answer: a call that stays
      has an answer, which stays, and with results stays the call. */
  ghost predicate KeptTogether(messages: seq<Message>, gone: set<MessageId>) {
    forall i :: 0 <= i < |messages| && messages[i].id !in gone ==> StaysWhole(messages, gone, i)
  }

  predicate StaysWhole(messages: seq<Message>, gone: set<MessageId>, i: nat)
    requires i < |messages|
  {
    && (Calls(View(messages[i])) ==>
          i + 1 < |messages| && messages[i + 1].id !in gone && Answers(View(messages[i]), View(messages[i + 1])))
    && (HasResults(View(messages[i])) ==> i > 0 && messages[i - 1].id !in gone)
  }

  /** The prefix of what is kept is a conversation, open exactly behind a call. */
  ghost predicate KeptSoFar(messages: seq<Message>, gone: set<MessageId>, n: nat)
    requires n <= |messages|
  {
    var kept := Views(C.Without(messages[..n], gone));
    && Paired(kept) && NoStrayResults(kept) && Requests.TwoRoles(kept)
    && (Open(kept) <==> n > 0 && messages[n - 1].id !in gone && Calls(View(messages[n - 1])))
    && (Open(kept) ==> kept[|kept| - 1] == View(messages[n - 1]))
  }

  lemma WithoutNext(messages: seq<Message>, gone: set<MessageId>, n: nat)
    requires n < |messages|
    ensures Views(C.Without(messages[..n + 1], gone))
            == Views(C.Without(messages[..n], gone)) + if messages[n].id in gone then [] else [View(messages[n])]
  {
    var one := [messages[n]];
    C.WithoutOfConcat(messages[..n], one, gone);
    assert messages[..n + 1] == messages[..n] + one;
    assert C.Without(one, gone) == (if messages[n].id in gone then [] else one) + C.Without([], gone);
  }

  /** What may follow what is kept so far. */
  lemma NextFits(messages: seq<Message>, gone: set<MessageId>, n: nat)
    requires n < |messages| && Talk(Views(messages)) && KeptTogether(messages, gone) && messages[n].id !in gone
    ensures n > 0 && messages[n - 1].id !in gone && Calls(View(messages[n - 1])) ==>
              Answers(View(messages[n - 1]), View(messages[n]))
    ensures HasResults(View(messages[n])) ==>
              n > 0 && messages[n - 1].id !in gone && Calls(View(messages[n - 1]))
  {
    assert Views(messages)[n] == View(messages[n]) && StaysWhole(messages, gone, n);
    if n > 0 {
      assert Views(messages)[n - 1] == View(messages[n - 1]);
      assert messages[n - 1].id !in gone ==> StaysWhole(messages, gone, n - 1);
    }
  }

  lemma KeepOneMore(messages: seq<Message>, gone: set<MessageId>, n: nat)
    requires n < |messages| && Talk(Views(messages)) && KeptTogether(messages, gone) && KeptSoFar(messages, gone, n)
    ensures KeptSoFar(messages, gone, n + 1)
  {
    var kept, m := Views(C.Without(messages[..n], gone)), View(messages[n]);
    assert Views(messages)[n] == m;
    WithoutNext(messages, gone, n);
    if messages[n].id in gone {
      assert n > 0 && messages[n - 1].id !in gone ==> StaysWhole(messages, gone, n - 1);
      assert Views(C.Without(messages[..n + 1], gone)) == kept;
    } else {
      NextFits(messages, gone, n);
      if Open(kept) {
        AppendAnswer(kept, m);
      } else {
        AppendQuietly(kept, m);
      }
    }
  }

  lemma {:induction false} KeptIsConversation(messages: seq<Message>, gone: set<MessageId>, n: nat)
    requires n <= |messages| && Talk(Views(messages)) && KeptTogether(messages, gone)
    ensures KeptSoFar(messages, gone, n)
  {
    if n > 0 {
      KeptIsConversation(messages, gone, n - 1);
      KeepOneMore(messages, gone, n - 1);
    }
  }

  // ---------------------------------------------------------------------------
  // What is said, and by which message
  // ---------------------------------------------------------------------------

  lemma {:induction false} SaidBySome(messages: seq<StoredMessage>, id: string)
    requires Requests.TwoRoles(messages)
    ensures id in Requests.CallsSaid(SaidIn(messages))
       <==> exists m :: m in messages && m.role == Assistant && id in CallIds(m.content)
    ensures id in Requests.ResultsSaid(SaidIn(messages))
       <==> exists m :: m in messages && m.role == User && id in ResultIds(m.content)
  {
    if messages != [] {
      var m, rest := messages[0], messages[1..];
      SaidBySome(rest, id);
      Requests.SaidOfConcat(Tag(RequestRole(m.role), ConvertAll(m.content)), SaidIn(rest));
      Requests.SaidOfTag(RequestRole(m.role), ConvertAll(m.content));
      Requests.ConversionKeepsIds(m.content);
      assert forall x :: x in messages <==> x == m || x in rest;
    }
  }

  /** What follows the kept messages: at most a summary. */
  ghost predicate SaysNothingOfTools(added: seq<StoredMessage>) {
    |added| <= 1 && forall m :: m in added ==> m.role == Assistant && CallIds(m.content) == multiset{}
  }

  lemma KeptViews(messages: seq<Message>, gone: set<MessageId>, m: StoredMessage)
    ensures m in Views(C.Without(messages, gone))
       <==> exists i :: 0 <= i < |messages| && messages[i].id !in gone && View(messages[i]) == m
  {
    var kept := C.Without(messages, gone);
    if i :| 0 <= i < |kept| && Views(kept)[i] == m {
      C.WithoutMembers(messages, gone, kept[i]);
    }
    if i :| 0 <= i < |messages| && messages[i].id !in gone && View(messages[i]) == m {
      C.WithoutMembers(messages, gone, messages[i]);
      var j :| 0 <= j < |kept| && kept[j] == messages[i];
      assert Views(kept)[j] == m;
    }
  }

  /** Where a call id stands, if ids are unique. */
  lemma OnlyCall(messages: seq<StoredMessage>, i: nat, j: nat, id: string)
    requires UniqueCalls(messages) && i < |messages| && j < |messages|
    requires messages[i].role == Assistant && id in CallIds(messages[i].content)
    requires messages[j].role == Assistant && id in CallIds(messages[j].content)
    ensures i == j
  {
    assert Calls(messages[i]) && Calls(messages[j]);
  }

  lemma KeptCallHasAnswer(messages: seq<Message>, gone: set<MessageId>, added: seq<StoredMessage>, i: nat)
    requires Talk(Views(messages)) && UniqueCalls(Views(messages)) && SaysNothingOfTools(added)
    requires var all := SaidIn(Views(C.Without(messages, gone)) + added);
             Requests.CallsSaid(all) == Requests.ResultsSaid(all)
    requires i < |messages| && messages[i].id !in gone && Calls(View(messages[i]))
    ensures i + 1 < |messages| && messages[i + 1].id !in gone && Answers(View(messages[i]), View(messages[i + 1]))
  {
    var views, kept := Views(messages), Views(C.Without(messages, gone));
    var id :| id in CallIds(messages[i].content);
    KeptRoles(messages, gone, added);
    SaidBySome(kept + added, id);
    KeptViews(messages, gone, views[i]);
    assert views[i] in kept + added;
    var m :| m in kept + added && m.role == User && id in ResultIds(m.content);
    KeptViews(messages, gone, m);
    var j :| 0 <= j < |messages| && messages[j].id !in gone && View(messages[j]) == m;
    assert views[j] == m;
    OnlyCall(views, i, j - 1, id);
  }

  lemma KeptResultsHaveCall(messages: seq<Message>, gone: set<MessageId>, added: seq<StoredMessage>, i: nat)
    requires Talk(Views(messages)) && UniqueCalls(Views(messages)) && SaysNothingOfTools(added)
    requires var all := SaidIn(Views(C.Without(messages, gone)) + added);
             Requests.CallsSaid(all) == Requests.ResultsSaid(all)
    requires i < |messages| && messages[i].id !in gone && HasResults(View(messages[i]))
    ensures i > 0 && messages[i - 1].id !in gone
  {
    var views, kept := Views(messages), Views(C.Without(messages, gone));
    var id :| id in ResultIds(messages[i].content);
    assert views[i] == View(messages[i]) && views[i - 1] == View(messages[i - 1]);
    KeptRoles(messages, gone, added);
    SaidBySome(kept + added, id);
    KeptViews(messages, gone, views[i]);
    assert views[i] in kept + added;
    var m :| m in kept + added && m.role == Assistant && id in CallIds(m.content);
    assert m in kept;
    KeptViews(messages, gone, m);
    var j :| 0 <= j < |messages| && messages[j].id !in gone && View(messages[j]) == m;
    assert views[j] == m;
    OnlyCall(views, i - 1, j, id);
  }

  lemma KeptRoles(messages: seq<Message>, gone: set<MessageId>, added: seq<StoredMessage>)
    requires Talk(Views(messages)) && SaysNothingOfTools(added)
    ensures Requests.TwoRoles(Views(C.Without(messages, gone)) + added)
  {
    var kept := Views(C.Without(messages, gone));
    forall k | 0 <= k < |kept| ensures kept[k].role != System {
      KeptViews(messages, gone, kept[k]);
      var i :| 0 <= i < |messages| && messages[i].id !in gone && View(messages[i]) == kept[k];
      assert Views(messages)[i] == kept[k];
    }
    forall k | 0 <= k < |added| ensures added[k].role != System {
      assert added[k] in added;
    }
  }

  /** The request over what is kept, and perhaps a summary, pairs every call with its results exactly if
      no boundary separates a call from its answer. */
  lemma KeptPairsIff(messages: seq<Message>, gone: set<MessageId>, added: seq<StoredMessage>, turns: seq<Turn>)
    requires Talk(Views(messages)) && UniqueCalls(Views(messages)) && SaysNothingOfTools(added)
    requires Alternating(turns) && SaidInTurns(turns) == SaidIn(Views(C.Without(messages, gone)) + added)
    ensures Requests.TurnsPaired(turns) <==> KeptTogether(messages, gone)
  {
    var all := Views(C.Without(messages, gone)) + added;
    if KeptTogether(messages, gone) {
      TogetherIsPaired(messages, gone, added);
      Requests.RequestIsPairedIff(all, turns);
    }
    if Requests.TurnsPaired(turns) {
      Requests.RolesOfTurns(all, turns);
      Requests.TurnsBalance(turns);
      BalancedIsTogether(messages, gone, added);
    }
  }

  lemma BalancedIsTogether(messages: seq<Message>, gone: set<MessageId>, added: seq<StoredMessage>)
    requires Talk(Views(messages)) && UniqueCalls(Views(messages)) && SaysNothingOfTools(added)
    requires var all := SaidIn(Views(C.Without(messages, gone)) + added);
             Requests.CallsSaid(all) == Requests.ResultsSaid(all)
    ensures KeptTogether(messages, gone)
  {
    forall i | 0 <= i < |messages| && messages[i].id !in gone ensures StaysWhole(messages, gone, i) {
      if Calls(View(messages[i])) {
        KeptCallHasAnswer(messages, gone, added, i);
      }
      if HasResults(View(messages[i])) {
        KeptResultsHaveCall(messages, gone, added, i);
      }
    }
  }

  /** For this direction ids need not be unique. */
  lemma TogetherIsPaired(messages: seq<Message>, gone: set<MessageId>, added: seq<StoredMessage>)
    requires Talk(Views(messages)) && SaysNothingOfTools(added) && KeptTogether(messages, gone)
    ensures var all := Views(C.Without(messages, gone)) + added;
            Paired(all) && NoStrayResults(all) && Requests.TwoRoles(all) && !Open(all)
  {
    var n := |messages|;
    KeptIsConversation(messages, gone, n);
    assert messages[..n] == messages;
    assert n > 0 && messages[n - 1].id !in gone ==> StaysWhole(messages, gone, n - 1);
    var kept := Views(C.Without(messages, gone));
    if added != [] {
      assert added[0] in added;
      AppendQuietly(kept, added[0]);
      assert kept + added == kept + [added[0]];
    } else {
      assert kept + added == kept;
    }
  }

  // ---------------------------------------------------------------------------
  // What a call deletes, by the partition
  // ---------------------------------------------------------------------------

  /** A summary replaces all compactable messages; pruning alone deletes those that hold something to
      prune. What could not be deleted stays. */
  function GoneIds(config: Config, plan: C.Plan, answers: C.Answers): set<MessageId> {
    set m | m in plan.p.compactable && Goes(config, plan, m) && m.id !in answers.deleteFails :: m.id
  }

  predicate Goes(config: Config, plan: C.Plan, m: Message) {
    plan.result.summaryText == "" ==> !config.preserveToolOutputs && HasPrunable(m)
  }

  lemma IdsAmong(messages: seq<Message>, id: MessageId)
    ensures id in Ids(messages) <==> exists m :: m in messages && m.id == id
  {
    if m :| m in messages && m.id == id {
      var k :| 0 <= k < |messages| && messages[k] == m;
      assert Ids(messages)[k] == id;
    }
    if k :| 0 <= k < |Ids(messages)| && Ids(messages)[k] == id {
      assert messages[k] in messages;
    }
  }

  lemma {:induction false} PrunedIdsAmong(messages: seq<Message>, id: MessageId)
    ensures id in PrunedIds(messages) <==> exists m :: m in messages && HasPrunable(m) && m.id == id
  {
    if messages != [] {
      PrunedIdsAmong(messages[1..], id);
      assert forall m :: m in messages <==> m == messages[0] || m in messages[1..];
    }
  }

  /** What is known of a plan: which messages may go, and which ids it lists. */
  ghost predicate Lists(messages: seq<Message>, config: Config, plan: C.Plan) {
    && plan.p.compactable == OfKind(Older(messages, config), IsCompactable)
    && plan.result.archivedIds == if plan.result.summaryText != "" then Ids(plan.p.compactable)
                                  else if config.preserveToolOutputs then []
                                  else PrunedIds(plan.p.compactable)
  }

  lemma PlanLists(messages: seq<Message>, config: Config, asks: bool, answers: C.Answers, plan: C.Plan)
    requires C.PlanOf(messages, config, asks, answers) == C.Ok(plan)
    ensures Lists(messages, config, plan)
  {
    ArchivedIdsAre(config, plan.p, asks && answers.totalCount.Some?, answers);
  }

  lemma ArchivedIdsAre(config: Config, p: MessagePartition, asks: bool, answers: C.Answers)
    requires C.Executed(config, p, asks, answers).Ok?
    ensures var result := C.Executed(config, p, asks, answers).value;
            result.archivedIds == if result.summaryText != "" then Ids(p.compactable)
                                  else if config.preserveToolOutputs then []
                                  else PrunedIds(p.compactable)
  {
  }

  lemma DeletedAreGone(messages: seq<Message>, config: Config, plan: C.Plan, answers: C.Answers)
    requires Lists(messages, config, plan)
    ensures C.DeletedIds(plan.result.archivedIds, answers.deleteFails) == GoneIds(config, plan, answers)
  {
    forall id
      ensures id in C.DeletedIds(plan.result.archivedIds, answers.deleteFails)
              <==> id in GoneIds(config, plan, answers)
    {
      IdsAmong(plan.p.compactable, id);
      PrunedIdsAmong(plan.p.compactable, id);
    }
  }

  lemma ReadAfter(s: C.Session, config: Config, plan: C.Plan, answers: C.Answers, context: Context)
      returns (added: seq<StoredMessage>)
    requires Lists(s.messages, config, plan)
    ensures SaysNothingOfTools(added)
    ensures Views(Read(C.CarriedOut(s, plan, answers).messages, context))
            == Views(C.Without(Read(s.messages, context), GoneIds(config, plan, answers))) + added
  {
    var gone := GoneIds(config, plan, answers);
    var summary := C.SummaryRows(s.nextId, plan.result.summaryText, answers.summaryOutcome);
    added := Views(Read(summary, context));
    DeletedAreGone(s.messages, config, plan, answers);
    ReadOfConcat(C.Without(s.messages, gone), summary, context);
    ReadOfWithout(s.messages, context, gone);
    SummarySaysNothing(s.nextId, plan.result.summaryText, answers.summaryOutcome, context);
  }

  lemma SummarySaysNothing(id: MessageId, text: string, outcome: C.SummaryOutcome, context: Context)
    ensures SaysNothingOfTools(Views(Read(C.SummaryRows(id, text, outcome), context)))
  {
    var rows := C.SummaryRows(id, text, outcome);
    if rows != [] {
      assert rows == [rows[0]] + [];
      ReadOfCons(rows[0], [], context);
      assert CallIds([TextBlock(text)]) == CallIds([]);
    }
  }

  /** The request of a later worker of this context. */
  ghost predicate RequestOf(messages: seq<Message>, context: Context, turns: seq<Turn>) {
    Alternating(turns) && SaidInTurns(turns) == SaidIn(Views(Read(messages, context)))
  }

  // ---------------------------------------------------------------------------
  // Main results
  // ---------------------------------------------------------------------------

  /** After a compaction with either strategy, and whatever deletes or inserts failed, the request over a
      context pairs every call with its results exactly if no boundary between what the call removed and
      what it kept separates a call from its answer. */
  lemma CompactionPairsIff(s: C.Session, config: Config, asks: bool, answers: C.Answers, plan: C.Plan,
                           context: Context, turns: seq<Turn>)
    requires C.PlanOf(s.messages, config, asks, answers) == C.Ok(plan)
    requires Talk(Views(Read(s.messages, context))) && UniqueCalls(Views(Read(s.messages, context)))
    requires RequestOf(C.Compacted(s, config, asks, answers).messages, context, turns)
    ensures Requests.TurnsPaired(turns) <==> KeptTogether(Read(s.messages, context), GoneIds(config, plan, answers))
  {
    PlanLists(s.messages, config, asks, answers, plan);
    var added := ReadAfter(s, config, plan, answers, context);
    KeptPairsIff(Read(s.messages, context), GoneIds(config, plan, answers), added, turns);
  }

  /** A context in which every call has its answer. */
  ghost predicate Settled(messages: seq<Message>) {
    Paired(Views(messages)) && !Open(Views(messages)) && Talk(Views(messages))
  }

  lemma SettledAt(messages: seq<Message>, i: nat)
    requires Settled(messages) && i < |messages|
    ensures Calls(View(messages[i])) ==>
              && i + 1 < |messages| && Answers(View(messages[i]), View(messages[i + 1]))
              && HasResults(View(messages[i + 1]))
    ensures HasResults(View(messages[i])) ==> i > 0 && Calls(View(messages[i - 1]))
  {
    var views := Views(messages);
    assert views[i] == View(messages[i]);
    if i + 1 < |messages| {
      assert views[i + 1] == View(messages[i + 1]);
    }
    if i > 0 {
      assert views[i - 1] == View(messages[i - 1]);
    }
  }

  /** Whole messages go, each by itself. */
  lemma GoneIff(messages: seq<Message>, config: Config, plan: C.Plan, answers: C.Answers, m: Message)
    requires DistinctIds(messages) && Lists(messages, config, plan) && m in messages
    ensures m.id in GoneIds(config, plan, answers)
            <==> && m in Older(messages, config) && KindOf(m) == IsCompactable
                 && Goes(config, plan, m) && m.id !in answers.deleteFails
  {
    OfKindMembers(Older(messages, config), IsCompactable, m);
    if m.id in GoneIds(config, plan, answers) {
      var m' :| m' in plan.p.compactable && Goes(config, plan, m') && m'.id == m.id;
      OfKindMembers(Older(messages, config), IsCompactable, m');
      OneOfAnId(messages, m, m');
    }
  }

  lemma OneOfAnId(messages: seq<Message>, m: Message, m': Message)
    requires DistinctIds(messages) && m in messages && m' in messages && m.id == m'.id
    ensures m == m'
  {
    var i :| 0 <= i < |messages| && messages[i] == m;
    var j :| 0 <= j < |messages| && messages[j] == m';
  }

  /** Only users send outputs that are long enough to be pruned. */
  predicate UsersAnswer(messages: seq<Message>) {
    forall m :: m in messages && m.role == Assistant ==> !HasPrunable(m)
  }

  ghost predicate NoneGone(messages: seq<Message>, gone: set<MessageId>) {
    forall m :: m in messages ==> m.id !in gone
  }

  /** Pruning alone breaks every context in which it removes anything: it deletes the message with the
      long output, but not the call. */
  lemma PruningPairsIff(s: C.Session, config: Config, asks: bool, answers: C.Answers, plan: C.Plan,
                        context: Context, turns: seq<Turn>)
    requires DistinctIds(s.messages) && C.PlanOf(s.messages, config, asks, answers) == C.Ok(plan)
    requires plan.result.summaryText == ""
    requires Settled(Read(s.messages, context)) && UniqueCalls(Views(Read(s.messages, context)))
    requires UsersAnswer(Read(s.messages, context))
    requires RequestOf(C.Compacted(s, config, asks, answers).messages, context, turns)
    ensures Requests.TurnsPaired(turns) <==> NoneGone(Read(s.messages, context), GoneIds(config, plan, answers))
  {
    CompactionPairsIff(s, config, asks, answers, plan, context, turns);
    PlanLists(s.messages, config, asks, answers, plan);
    PrunedApart(s.messages, config, plan, answers, context);
  }

  lemma PrunedApart(messages: seq<Message>, config: Config, plan: C.Plan, answers: C.Answers, context: Context)
    requires DistinctIds(messages) && Lists(messages, config, plan) && plan.result.summaryText == ""
    requires Settled(Read(messages, context)) && UsersAnswer(Read(messages, context))
    ensures KeptTogether(Read(messages, context), GoneIds(config, plan, answers))
            <==> NoneGone(Read(messages, context), GoneIds(config, plan, answers))
  {
    var gone, read := GoneIds(config, plan, answers), Read(messages, context);
    if KeptTogether(read, gone) {
      forall m | m in read ensures m.id !in gone {
        var i :| 0 <= i < |read| && read[i] == m;
        PrunedCallStays(messages, config, plan, answers, context, i);
        assert i > 0 && read[i - 1].id !in gone ==> StaysWhole(read, gone, i - 1);
      }
    }
    if NoneGone(read, gone) {
      forall i | 0 <= i < |read| && read[i].id !in gone ensures StaysWhole(read, gone, i) {
        SettledAt(read, i);
      }
    }
  }

  /** What is pruned away is an answer, and its call stays. */
  lemma PrunedCallStays(messages: seq<Message>, config: Config, plan: C.Plan, answers: C.Answers, context: Context,
                        i: nat)
    requires DistinctIds(messages) && Lists(messages, config, plan) && plan.result.summaryText == ""
    requires Settled(Read(messages, context)) && UsersAnswer(Read(messages, context)) && i < |Read(messages, context)|
    ensures var gone, read := GoneIds(config, plan, answers), Read(messages, context);
            read[i].id in gone ==> i > 0 && Calls(View(read[i - 1])) && read[i - 1].id !in gone
  {
    var read := Read(messages, context);
    ReadMembers(messages, context, read[i]);
    GoneIff(messages, config, plan, answers, read[i]);
    if HasPrunable(read[i]) {
      PrunableHasResults(read[i].content);
      assert Views(read)[i].role != System;
      SettledAt(read, i);
      ReadMembers(messages, context, read[i - 1]);
      GoneIff(messages, config, plan, answers, read[i - 1]);
    }
  }

  lemma {:induction false} PrunableHasResults(content: seq<ContentBlock>)
    requires exists i :: 0 <= i < |content| && Prunable(content[i])
    ensures ResultIds(content) != multiset{}
  {
    if !Prunable(content[0]) {
      var i :| 0 <= i < |content| && Prunable(content[i]);
      assert content[1..][i - 1] == content[i];
      PrunableHasResults(content[1..]);
    } else {
      assert content[0].toolResultForUseId in ResultIds(content);
    }
  }

  predicate Unflagged(messages: seq<Message>) {
    forall m :: m in messages ==> KindOf(m) == IsCompactable
  }

  /** A summary of older messages without flags breaks a context exactly if the partition cuts it behind a
      call: the answer stays, and its call goes. */
  lemma SummaryPairsIff(s: C.Session, config: Config, asks: bool, answers: C.Answers, plan: C.Plan,
                        context: Context, turns: seq<Turn>)
    requires DistinctIds(s.messages) && C.PlanOf(s.messages, config, asks, answers) == C.Ok(plan)
    requires plan.result.summaryText != "" && answers.deleteFails == {} && Unflagged(Older(s.messages, config))
    requires Settled(Read(s.messages, context)) && UniqueCalls(Views(Read(s.messages, context)))
    requires RequestOf(C.Compacted(s, config, asks, answers).messages, context, turns)
    ensures var read := Read(s.messages, context);
            var n := |Read(Older(s.messages, config), context)|;
            && n <= |read|
            && (Requests.TurnsPaired(turns) <==> n == 0 || n == |read| || !Calls(View(read[n - 1])))
  {
    CompactionPairsIff(s, config, asks, answers, plan, context, turns);
    PlanLists(s.messages, config, asks, answers, plan);
    OlderGoes(s.messages, config, plan, answers, context);
    FrontGoes(Read(s.messages, context), GoneIds(config, plan, answers), |Read(Older(s.messages, config), context)|);
  }

  /** Exactly the first `n` messages go. */
  ghost predicate FirstGo(messages: seq<Message>, gone: set<MessageId>, n: nat) {
    n <= |messages| && forall i :: 0 <= i < |messages| ==> (messages[i].id in gone <==> i < n)
  }

  lemma FrontGoes(messages: seq<Message>, gone: set<MessageId>, n: nat)
    requires Settled(messages) && FirstGo(messages, gone, n)
    ensures KeptTogether(messages, gone) <==> n == 0 || n == |messages| || !Calls(View(messages[n - 1]))
  {
    if 0 < n < |messages| {
      SettledAt(messages, n - 1);
      SettledAt(messages, n);
      assert StaysWhole(messages, gone, n) ==> !HasResults(View(messages[n]));
    }
    forall i | n <= i < |messages| && i != n ensures StaysWhole(messages, gone, i) {
      SettledAt(messages, i);
    }
    if n == 0 && messages != [] {
      SettledAt(messages, 0);
    }
  }

  lemma OlderGoes(messages: seq<Message>, config: Config, plan: C.Plan, answers: C.Answers, context: Context)
    requires DistinctIds(messages) && Lists(messages, config, plan)
    requires plan.result.summaryText != "" && answers.deleteFails == {} && Unflagged(Older(messages, config))
    ensures FirstGo(Read(messages, context), GoneIds(config, plan, answers), |Read(Older(messages, config), context)|)
  {
    var older, read := Older(messages, config), Read(messages, context);
    var n, tail := |Read(older, context)|, messages[|older|..];
    assert messages == older + tail;
    ReadOfConcat(older, tail, context);
    forall i | 0 <= i < |read| ensures read[i].id in GoneIds(config, plan, answers) <==> i < n {
      ReadMembers(messages, context, read[i]);
      GoneIff(messages, config, plan, answers, read[i]);
      ReadInPart(messages, |older|, context, i);
    }
  }

  lemma ReadInPart(messages: seq<Message>, cut: nat, context: Context, i: nat)
    requires DistinctIds(messages) && cut <= |messages| && i < |Read(messages, context)|
    ensures Read(messages, context)[i] in messages[..cut] <==> i < |Read(messages[..cut], context)|
  {
    var front, tail := Read(messages[..cut], context), Read(messages[cut..], context);
    var m := Read(messages, context)[i];
    assert messages == messages[..cut] + messages[cut..];
    ReadOfConcat(messages[..cut], messages[cut..], context);
    if i < |front| {
      assert m == front[i];
      ReadMembers(messages[..cut], context, m);
    } else {
      assert m == tail[i - |front|];
      ReadMembers(messages[cut..], context, m);
      NotInBoth(messages, cut, m);
    }
  }

  lemma NotInBoth(messages: seq<Message>, n: nat, m: Message)
    requires DistinctIds(messages) && n <= |messages| && m in messages[n..]
    ensures m !in messages[..n]
  {
    var i :| 0 <= i < |messages[n..]| && messages[n..][i] == m;
    assert messages[n + i] == m;
  }

  /** Two exchanges with one id, whose first call is flagged. */
  function TwoExchanges(id: string): seq<Message> {
    var call, answer := ToolUseBlock(id, "tool", ""), ToolResultBlock(id, "", false);
    [Message(0, None, Assistant, [call], true, false), Message(1, None, User, [answer], false, false),
     Message(2, None, Assistant, [call], false, false), Message(3, None, User, [answer], false, false)]
  }

  lemma OneExchange(id: string, m: StoredMessage, n: StoredMessage)
    requires m == StoredMessage(Assistant, [ToolUseBlock(id, "tool", "")])
    requires n == StoredMessage(User, [ToolResultBlock(id, "", false)])
    ensures Calls(m) && !HasResults(m) && !Calls(n) && HasResults(n) && Answers(m, n)
  {
    OneBlockIds(ToolUseBlock(id, "tool", ""));
    OneBlockIds(ToolResultBlock(id, "", false));
  }

  lemma TwoExchangesSettle(id: string)
    ensures Settled(TwoExchanges(id)) && !KeptTogether(TwoExchanges(id), {1, 2})
  {
    var views := Views(TwoExchanges(id));
    OneExchange(id, views[0], views[1]);
    assert views[2] == views[0] && views[3] == views[1];
    assert !StaysWhole(TwoExchanges(id), {1, 2}, 0);
  }

  /** Unique ids are needed for the other direction: with a repeated id, two halves of different
      exchanges pass for one. */
  lemma RepeatedIdsPassForOne(id: string)
    ensures Settled(TwoExchanges(id)) && !KeptTogether(TwoExchanges(id), {1, 2})
    ensures exists turns ::
              && Alternating(turns) && SaidInTurns(turns) == SaidIn(Views(C.Without(TwoExchanges(id), {1, 2})))
              && Requests.TurnsPaired(turns)
  {
    var call, answer := ToolUseBlock(id, "tool", ""), ToolResultBlock(id, "", false);
    var turns := [Turn(Assistant, [call]), Turn(User, [answer])];
    TwoExchangesSettle(id);
    WithoutMiddle(TwoExchanges(id), {1, 2});
    SaidByOneExchange(TwoExchanges(id)[0], TwoExchanges(id)[3], call, answer);
    OneExchangePaired(id);
    assert Alternating(turns) && Requests.TurnsPaired(turns);
  }

  lemma OneExchangePaired(id: string)
    ensures Requests.TurnsPaired([Turn(Assistant, [ToolUseBlock(id, "tool", "")]),
                                  Turn(User, [ToolResultBlock(id, "", false)])])
  {
    OneBlockIds(ToolUseBlock(id, "tool", ""));
    OneBlockIds(ToolResultBlock(id, "", false));
  }

  lemma SaidByOneExchange(m: Message, n: Message, call: ContentBlock, answer: ContentBlock)
    requires m.role == Assistant && m.content == [call] && n.role == User && n.content == [answer]
    requires Convertible(call) && Convert(call) == call && Convertible(answer) && Convert(answer) == answer
    ensures SaidIn(Views([m, n])) == SaidInTurns([Turn(Assistant, [call]), Turn(User, [answer])])
  {
    SaidByTwo(Turn(Assistant, [call]), Turn(User, [answer]));
    SaidByTwoMessages(View(m), View(n));
    assert Views([m, n]) == [View(m), View(n)];
    assert ConvertAll([call]) == [call] + ConvertAll([]) && ConvertAll([answer]) == [answer] + ConvertAll([]);
  }

  lemma WithoutMiddle(messages: seq<Message>, gone: set<MessageId>)
    requires |messages| == 4 && forall i :: 0 <= i < 4 ==> (messages[i].id in gone <==> 0 < i < 3)
    ensures C.Without(messages, gone) == [messages[0], messages[3]]
  {
    assert messages == [messages[0]] + ([messages[1]] + ([messages[2]] + ([messages[3]] + [])));
    WithoutOfCons(messages[3], [], gone);
    WithoutOfCons(messages[2], [messages[3]] + [], gone);
    WithoutOfCons(messages[1], [messages[2]] + ([messages[3]] + []), gone);
    WithoutOfCons(messages[0], [messages[1]] + ([messages[2]] + ([messages[3]] + [])), gone);
  }

  lemma SaidByTwo(t: Turn, u: Turn)
    ensures SaidInTurns([t, u]) == Tag(t.role, t.content) + Tag(u.role, u.content)
  {
    assert [t] == [] + [t] && [t, u] == [t] + [u];
    SaidInTurnsOfAppend([], t);
    SaidInTurnsOfAppend([t], u);
  }

  lemma SaidByTwoMessages(m: StoredMessage, n: StoredMessage)
    ensures SaidIn([m, n])
         == Tag(RequestRole(m.role), ConvertAll(m.content)) + Tag(RequestRole(n.role), ConvertAll(n.content))
  {
    assert [m] == [] + [m] && [m, n] == [m] + [n];
    SaidInOfAppend([], m);
    SaidInOfAppend([m], n);
  }

  lemma OneBlockIds(b: ContentBlock)
    ensures CallIds([b]) == if b.kind == ToolUse then multiset{b.toolUseId} else multiset{}
    ensures ResultIds([b]) == if b.kind == ToolResult then multiset{b.toolResultForUseId} else multiset{}
  {
    assert [b][1..] == [];
  }
}
