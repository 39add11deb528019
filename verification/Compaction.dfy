/** The two strategies and Compact itself: archive, delete and summarise, one store call at a time. */
module Compaction {
  import opened Content
  import opened Tokens
  import opened Partition
  import opened Pruning

  datatype CompactionError = StorageError | NoMessagesToCompact | SummarizationFailed
  datatype Result<T> = Ok(value: T) | Err(error: CompactionError)

  datatype StrategyResult = StrategyResult(
    summaryText: string,
    summaryTokens: int,
    archivedIds: seq<MessageId>,
    tokensRemoved: int,
    tokensAfter: int)

  datatype CompactionEvent = CompactionEvent(
    strategy: Strategy,
    originalTokens: int,
    compactedTokens: int,
    messagesRemoved: nat,
    summary: Option<string>,
    preservedIds: seq<MessageId>)

  /** The summary is a message row and then a content row, in two statements. */
  datatype SummaryOutcome = NotStored | RowOnly | Stored

  /** What the store, the token API and the model answer during one call. An archive or delete that is
      listed as failing has no effect; whether its caller sees an error is all the same, since errors
      are only logged. */
  datatype Answers = Answers(
    readable: bool,
    totalCount: Option<int>,
    response: Option<string>,
    summaryCount: Option<int>,
    eventStored: bool,
    archiveFails: set<MessageId>,
    deleteFails: set<MessageId>,
    summaryOutcome: SummaryOutcome)

  // ---------------------------------------------------------------------------
  // Strategies
  // ---------------------------------------------------------------------------

  /** SummarizeWithContext, with the text blocks of the model's response already joined. */
  function Summarize(messages: seq<Message>, response: Option<string>): Result<string> {
    if messages == [] then Err(NoMessagesToCompact)
    else if response.None? || response.value == "" then Err(SummarizationFailed)
    else Ok(response.value)
  }

  function TextTokens(text: string, asks: bool, api: Option<int>): int {
    if asks && api.Some? then api.value else ApproximateTokens(text)
  }

  function Summarized(p: MessagePartition, asks: bool, answers: Answers): Result<StrategyResult> {
    match Summarize(p.compactable, answers.response)
    case Err(e) => Err(e)
    case Ok(text) =>
      var tokens := TextTokens(text, asks, answers.summaryCount);
      Ok(StrategyResult(text, tokens, Ids(p.compactable), p.stats.compactableTokens,
                        p.stats.totalTokens - p.stats.compactableTokens + tokens))
  }

  function PruningSaves(config: Config, p: MessagePartition): int {
    if config.preserveToolOutputs then 0 else SavedBy(p.compactable)
  }

  predicate PruningSuffices(config: Config, p: MessagePartition) {
    p.stats.totalTokens - PruningSaves(config, p) <= config.targetTokens
  }

  function PrunedOnly(config: Config, p: MessagePartition): StrategyResult {
    StrategyResult("", 0, if config.preserveToolOutputs then [] else PrunedIds(p.compactable),
                   PruningSaves(config, p), p.stats.totalTokens - PruningSaves(config, p))
  }

  function Pruned(config: Config, p: MessagePartition, asks: bool, answers: Answers): Result<StrategyResult> {
    if p.compactable == [] then Err(NoMessagesToCompact)
    else if PruningSuffices(config, p) then Ok(PrunedOnly(config, p))
    else Summarized(p, asks, answers)
  }

  function Executed(config: Config, p: MessagePartition, asks: bool, answers: Answers): Result<StrategyResult> {
    if config.strategy == Hybrid then Pruned(config, p, asks, answers) else Summarized(p, asks, answers)
  }

  method ExecuteSummarization(counter: TokenCounter, p: MessagePartition, answers: Answers)
    returns (result: Result<StrategyResult>)
    modifies counter`fallback
    ensures result == Summarized(p, old(counter.Asks()), answers)
  {
    if |p.compactable| == 0 {
      return Err(NoMessagesToCompact);
    }
    match Summarize(p.compactable, answers.response) {
      case Err(e) => result := Err(e);
      case Ok(text) =>
        var tokens := counter.CountTokensForContent(text, answers.summaryCount);
        var removed := p.stats.compactableTokens;
        result := Ok(StrategyResult(text, tokens, Ids(p.compactable), removed,
                                    p.stats.totalTokens - removed + tokens));
    }
  }

  method ExecuteHybrid(counter: TokenCounter, config: Config, p: MessagePartition, answers: Answers)
    returns (result: Result<StrategyResult>)
    modifies counter`fallback
    ensures result == Pruned(config, p, old(counter.Asks()), answers)
  {
    if |p.compactable| == 0 {
      return Err(NoMessagesToCompact);
    }
    var pruned, saved := p.compactable, 0;
    if !config.preserveToolOutputs {
      pruned, saved := PruneToolOutputs(p.compactable);
    }
    var tokensAfterPruning := p.stats.totalTokens - saved;
    if tokensAfterPruning <= config.targetTokens {
      var ids := FindPrunedMessageIds(p.compactable, pruned);
      return Ok(StrategyResult("", 0, ids, saved, tokensAfterPruning));
    }
    // The model is shown the pruned messages; what it answers is a parameter here.
    match Summarize(pruned, answers.response) {
      case Err(e) => result := Err(e);
      case Ok(text) =>
        var tokens := counter.CountTokensForContent(text, answers.summaryCount);
        var removed := p.stats.compactableTokens;
        result := Ok(StrategyResult(text, tokens, Ids(p.compactable), removed,
                                    p.stats.totalTokens - removed + tokens));
    }
  }

  // ---------------------------------------------------------------------------
  // One call of Compact as a function of the session
  // ---------------------------------------------------------------------------

  /** The stored messages in order, the archive, and the next fresh id. */
  datatype Session = Session(messages: seq<Message>, archive: map<MessageId, Message>, nextId: MessageId)

  datatype Plan = Plan(p: MessagePartition, result: StrategyResult)

  /** What Compact decides before it changes any message. */
  function PlanOf(messages: seq<Message>, config: Config, asks: bool, answers: Answers): Result<Plan> {
    if !answers.readable then Err(StorageError)
    else if messages == [] then Err(NoMessagesToCompact)
    else
      var total := if asks && answers.totalCount.Some? then answers.totalCount.value else TotalTokens(messages);
      var p := PartitionOf(messages, config, total);
      match Executed(config, p, asks && answers.totalCount.Some?, answers)
      case Err(e) => Err(e)
      case Ok(result) => if answers.eventStored then Ok(Plan(p, result)) else Err(StorageError)
  }

  function ArchiveOne(archive: map<MessageId, Message>, m: Message, fails: set<MessageId>): map<MessageId, Message> {
    if m.id in fails || m.id in archive then archive else archive[m.id := m]
  }

  function ArchiveAll(archive: map<MessageId, Message>, messages: seq<Message>, fails: set<MessageId>)
    : map<MessageId, Message>
    decreases |messages|
  {
    if messages == [] then archive
    else ArchiveAll(ArchiveOne(archive, messages[0], fails), messages[1..], fails)
  }

  function Without(messages: seq<Message>, ids: set<MessageId>): seq<Message> {
    if messages == [] then []
    else (if messages[0].id in ids then [] else [messages[0]]) + Without(messages[1..], ids)
  }

  function DeletedIds(ids: seq<MessageId>, fails: set<MessageId>): set<MessageId> {
    set id | id in ids && id !in fails
  }

  function SummaryRows(id: MessageId, text: string, outcome: SummaryOutcome): seq<Message> {
    if text == "" || outcome.NotStored? then []
    else [Message(id, None, Assistant, if outcome.Stored? then [TextBlock(text)] else [], false, true)]
  }

  function CarriedOut(s: Session, plan: Plan, answers: Answers): Session {
    var summary := SummaryRows(s.nextId, plan.result.summaryText, answers.summaryOutcome);
    Session(Without(s.messages, DeletedIds(plan.result.archivedIds, answers.deleteFails)) + summary,
            ArchiveAll(s.archive, plan.p.compactable, answers.archiveFails),
            s.nextId + |summary|)
  }

  function Compacted(s: Session, config: Config, asks: bool, answers: Answers): Session {
    match PlanOf(s.messages, config, asks, answers)
    case Err(_) => s
    case Ok(plan) => CarriedOut(s, plan, answers)
  }

  function EventOf(config: Config, plan: Plan): CompactionEvent {
    CompactionEvent(config.strategy, plan.p.stats.totalTokens, plan.result.tokensAfter, |plan.result.archivedIds|,
                    if plan.result.summaryText == "" then None else Some(plan.result.summaryText),
                    AllPreservedIds(plan.p))
  }

  // ---------------------------------------------------------------------------
  // Filters
  // ---------------------------------------------------------------------------

  lemma {:induction false} WithoutTwice(messages: seq<Message>, a: set<MessageId>, b: set<MessageId>)
    ensures Without(Without(messages, a), b) == Without(messages, a + b)
  {
    if messages != [] {
      WithoutTwice(messages[1..], a, b);
      var rest := Without(messages[1..], a);
      if messages[0].id !in a {
        assert Without(messages, a) == [messages[0]] + rest && ([messages[0]] + rest)[1..] == rest;
      } else {
        assert Without(messages, a) == rest;
      }
    }
  }

  lemma {:induction false} WithoutNothing(messages: seq<Message>, ids: set<MessageId>)
    requires forall i :: 0 <= i < |messages| ==> messages[i].id !in ids
    ensures Without(messages, ids) == messages
  {
    if messages != [] {
      WithoutNothing(messages[1..], ids);
    }
  }

  lemma {:induction false} WithoutOfConcat(a: seq<Message>, b: seq<Message>, ids: set<MessageId>)
    ensures Without(a + b, ids) == Without(a, ids) + Without(b, ids)
  {
    if a == [] {
      assert a + b == b;
    } else {
      assert (a + b)[1..] == a[1..] + b;
      WithoutOfConcat(a[1..], b, ids);
    }
  }

  lemma {:induction false} WithoutMembers(messages: seq<Message>, ids: set<MessageId>, m: Message)
    ensures m in Without(messages, ids) <==> m in messages && m.id !in ids
  {
    if messages != [] {
      WithoutMembers(messages[1..], ids, m);
    }
  }

  lemma {:induction false} WithoutKeepsDistinct(messages: seq<Message>, ids: set<MessageId>)
    requires DistinctIds(messages)
    ensures DistinctIds(Without(messages, ids))
  {
    if messages != [] {
      var head, rest := messages[0], Without(messages[1..], ids);
      WithoutKeepsDistinct(messages[1..], ids);
      forall j | 0 <= j < |rest| ensures rest[j].id != head.id {
        WithoutMembers(messages[1..], ids, rest[j]);
        var i :| 0 <= i < |messages[1..]| && messages[1..][i] == rest[j];
        assert messages[i + 1] == rest[j];
      }
    }
  }

  // ---------------------------------------------------------------------------
  // The call
  // ---------------------------------------------------------------------------

  class SessionStore {
    var messages: seq<Message>
    var archive: map<MessageId, Message>
    var nextId: MessageId
    var events: seq<CompactionEvent>

    function Value(): Session
      reads this
    {
      Session(messages, archive, nextId)
    }

    ghost predicate Valid()
      reads this
    {
      DistinctIds(messages) && forall i :: 0 <= i < |messages| ==> messages[i].id < nextId
    }

    constructor ()
      ensures Valid() && Value() == Session([], map[], 0) && events == []
    {
      messages, archive, nextId, events := [], map[], 0, [];
    }

    method ArchiveMessage(m: Message, fails: bool)
      modifies this`archive
      ensures archive == ArchiveOne(old(archive), m, if fails then {m.id} else {})
    {
      if !fails && m.id !in archive {
        archive := archive[m.id := m];
      }
    }

    method DeleteMessage(id: MessageId, fails: bool)
      modifies this`messages
      ensures messages == if fails then old(messages) else Without(old(messages), {id})
    {
      if !fails {
        messages := Without(messages, {id});
      }
    }

    method CreateMessage(run: Option<nat>, role: Role, content: seq<ContentBlock>, isPreserved: bool, isSummary: bool,
                         outcome: SummaryOutcome)
      requires Valid()
      modifies this`messages, this`nextId
      ensures Valid()
      ensures if outcome.NotStored? then messages == old(messages) && nextId == old(nextId)
              else && nextId == old(nextId) + 1
                   && messages
                      == old(messages) + [Message(old(nextId), run, role, if outcome.Stored? then content else [],
                                                           isPreserved, isSummary)]
    {
      if !outcome.NotStored? {
        messages := messages
                    + [Message(nextId, run, role, if outcome.Stored? then content else [], isPreserved, isSummary)];
        nextId := nextId + 1;
      }
    }

    /** Compact up to the compaction event: nothing is written yet. */
    method Decide(counter: TokenCounter, config: Config, answers: Answers) returns (plan: Result<Plan>)
      requires Valid()
      modifies counter`fallback
      ensures plan == PlanOf(messages, config, old(counter.Asks()), answers)
    {
      if !answers.readable {
        return Err(StorageError);
      }
      if |messages| == 0 {
        return Err(NoMessagesToCompact);
      }
      var p := PartitionMessages(counter, config, messages, answers.totalCount);
      if |p.compactable| == 0 {
        return Err(NoMessagesToCompact);
      }
      var executed;
      if config.strategy == Hybrid {
        executed := ExecuteHybrid(counter, config, p, answers);
      } else {
        executed := ExecuteSummarization(counter, p, answers);
      }
      if executed.Err? {
        return Err(executed.error);
      }
      plan := if answers.eventStored then Ok(Plan(p, executed.value)) else Err(StorageError);
    }

    /** Compact after the event: archive, delete, then store the summary. */
    method CarryOut(plan: Plan, answers: Answers)
      requires Valid()
      modifies this`messages, this`archive, this`nextId
      ensures Valid() && Value() == CarriedOut(old(Value()), plan, answers)
    {
      ArchiveLoop(plan.p.compactable, answers.archiveFails);
      DeleteLoop(plan.result.archivedIds, answers.deleteFails);
      if plan.result.summaryText != "" {
        CreateMessage(None, Assistant, [TextBlock(plan.result.summaryText)], false, true, answers.summaryOutcome);
      }
    }

    method Compact(counter: TokenCounter, config: Config, answers: Answers) returns (result: Result<CompactionEvent>)
      requires Valid()
      modifies this, counter`fallback
      ensures Valid()
      ensures Value() == Compacted(old(Value()), config, old(counter.Asks()), answers)
      ensures match PlanOf(old(messages), config, old(counter.Asks()), answers)
              case Err(e) => result == Err(e) && events == old(events)
              case Ok(plan) => result == Ok(EventOf(config, plan)) && events == old(events) + [EventOf(config, plan)]
    {
      var decided := Decide(counter, config, answers);
      if decided.Err? {
        return Err(decided.error);
      }
      events := events + [EventOf(config, decided.value)];
      CarryOut(decided.value, answers);
      result := Ok(EventOf(config, decided.value));
    }

    method ArchiveLoop(compactable: seq<Message>, fails: set<MessageId>)
      modifies this`archive
      ensures archive == ArchiveAll(old(archive), compactable, fails)
    {
      for i := 0 to |compactable|
        invariant ArchiveAll(archive, compactable[i..], fails) == ArchiveAll(old(archive), compactable, fails)
      {
        ArchiveMessage(compactable[i], compactable[i].id in fails);
      }
    }

    method DeleteLoop(ids: seq<MessageId>, fails: set<MessageId>)
      requires Valid()
      modifies this`messages
      ensures Valid() && messages == Without(old(messages), DeletedIds(ids, fails))
    {
      WithoutNothing(messages, DeletedIds([], fails));
      assert ids[..0] == [];
      for i := 0 to |ids|
        invariant messages == Without(old(messages), DeletedIds(ids[..i], fails))
      {
        DeleteMessage(ids[i], ids[i] in fails);
        WithoutTwice(old(messages), DeletedIds(ids[..i], fails), {ids[i]});
        assert ids[..i + 1] == ids[..i] + [ids[i]];
        assert DeletedIds(ids[..i + 1], fails)
               == if ids[i] in fails then DeletedIds(ids[..i], fails) else DeletedIds(ids[..i], fails) + {ids[i]};
      }
      assert ids[..|ids|] == ids;
      WithoutKeepsDistinct(old(messages), DeletedIds(ids, fails));
      forall i | 0 <= i < |messages| ensures messages[i].id < nextId {
        WithoutMembers(old(messages), DeletedIds(ids, fails), messages[i]);
      }
    }
  }
}
