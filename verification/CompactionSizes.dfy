/** The sizes a compaction reports against the session it leaves, when tokens are estimated - whatever
    deletes and inserts fail. */
module CompactionSizes {
  import opened Content
  import opened Tokens
  import opened Partition
  import opened Pruning
  import opened Compaction
  import opened CompactionCorrect

  /** The messages that Without drops. */
  function Matching(messages: seq<Message>, ids: set<MessageId>): seq<Message> {
    if messages == [] then []
    else (if messages[0].id in ids then [messages[0]] else []) + Matching(messages[1..], ids)
  }

  function WithPrunable(messages: seq<Message>): seq<Message> {
    if messages == [] then []
    else (if HasPrunable(messages[0]) then [messages[0]] else []) + WithPrunable(messages[1..])
  }

  lemma TotalOfCons(m: Message, rest: seq<Message>)
    ensures TotalTokens([m] + rest) == MessageTokens(m) + TotalTokens(rest)
  {
    assert ([m] + rest)[1..] == rest;
  }

  lemma {:induction false} WithoutAndMatching(messages: seq<Message>, ids: set<MessageId>)
    ensures TotalTokens(Without(messages, ids)) + TotalTokens(Matching(messages, ids)) == TotalTokens(messages)
  {
    if messages != [] {
      var m, rest := messages[0], messages[1..];
      var kept, dropped := Without(rest, ids), Matching(rest, ids);
      WithoutAndMatching(rest, ids);
      TotalOfCons(m, rest);
      assert messages == [m] + rest;
      if m.id in ids {
        assert Without(messages, ids) == kept && Matching(messages, ids) == [m] + dropped;
        TotalOfCons(m, dropped);
      } else {
        assert Without(messages, ids) == [m] + kept && Matching(messages, ids) == dropped;
        TotalOfCons(m, kept);
      }
    }
  }

  lemma {:induction false} MatchingKind(messages: seq<Message>, ids: set<MessageId>)
    requires forall i :: 0 <= i < |messages| ==> (messages[i].id in ids <==> KindOf(messages[i]) == IsCompactable)
    ensures Matching(messages, ids) == OfKind(messages, IsCompactable)
  {
    if messages != [] {
      MatchingKind(messages[1..], ids);
    }
  }

  lemma WithPrunableOfCons(m: Message, rest: seq<Message>)
    ensures WithPrunable([m] + rest) == (if HasPrunable(m) then [m] else []) + WithPrunable(rest)
  {
    assert ([m] + rest)[1..] == rest;
  }

  lemma {:induction false} MatchingPrunable(messages: seq<Message>, ids: set<MessageId>)
    requires forall i :: 0 <= i < |messages| ==>
               (messages[i].id in ids <==> KindOf(messages[i]) == IsCompactable && HasPrunable(messages[i]))
    ensures Matching(messages, ids) == WithPrunable(OfKind(messages, IsCompactable))
  {
    if messages != [] {
      var m, rest := messages[0], OfKind(messages[1..], IsCompactable);
      MatchingPrunable(messages[1..], ids);
      if KindOf(m) == IsCompactable {
        WithPrunableOfCons(m, rest);
      } else {
        assert OfKind(messages, IsCompactable) == rest;
        assert Matching(messages, ids) == Matching(messages[1..], ids);
      }
    }
  }

  /** The saving comes from the messages that hold something to prune. */
  lemma {:induction false} SavingIsWithPrunable(messages: seq<Message>)
    ensures SavedBy(messages) == SavedBy(WithPrunable(messages))
  {
    if messages != [] {
      var m, rest := messages[0], messages[1..];
      SavingIsWithPrunable(rest);
      if HasPrunable(m) {
        assert ([m] + WithPrunable(rest))[1..] == WithPrunable(rest);
      } else {
        assert WithPrunable(messages) == WithPrunable(rest);
        if !m.isPreserved && !m.isSummary {
          NothingToSave(m.content);
        }
      }
    }
  }

  /** The estimate after a call: what was not deleted, and as much of the summary as was stored. */
  lemma SizeAfter(s: Session, config: Config, asks: bool, answers: Answers)
    requires PlanOf(s.messages, config, asks, answers).Ok?
    ensures var plan := PlanOf(s.messages, config, asks, answers).value;
            TotalTokens(Compacted(s, config, asks, answers).messages)
            == TotalTokens(s.messages)
               - TotalTokens(Matching(s.messages, DeletedIds(plan.result.archivedIds, answers.deleteFails)))
               + TotalTokens(SummaryRows(s.nextId, plan.result.summaryText, answers.summaryOutcome))
  {
    var plan := PlanOf(s.messages, config, asks, answers).value;
    var deleted := DeletedIds(plan.result.archivedIds, answers.deleteFails);
    WithoutAndMatching(s.messages, deleted);
    TotalTokensOfConcat(Without(s.messages, deleted),
                        SummaryRows(s.nextId, plan.result.summaryText, answers.summaryOutcome));
  }

  lemma {:induction false} MatchingOfConcat(a: seq<Message>, b: seq<Message>, ids: set<MessageId>)
    ensures Matching(a + b, ids) == Matching(a, ids) + Matching(b, ids)
  {
    if a == [] {
      assert a + b == b;
    } else {
      var m, rest := a[0], a[1..];
      assert a == [m] + rest && a + b == [m] + (rest + b);
      MatchingOfCons(m, rest, ids);
      MatchingOfCons(m, rest + b, ids);
      MatchingOfConcat(rest, b, ids);
    }
  }

  lemma {:induction false} MatchingNothing(messages: seq<Message>, ids: set<MessageId>)
    requires forall i :: 0 <= i < |messages| ==> messages[i].id !in ids
    ensures Matching(messages, ids) == []
  {
    if messages != [] {
      MatchingNothing(messages[1..], ids);
    }
  }

  lemma MatchingOlder(messages: seq<Message>, n: nat, ids: set<MessageId>)
    requires n <= |messages| && forall i :: n <= i < |messages| ==> messages[i].id !in ids
    ensures Matching(messages, ids) == Matching(messages[..n], ids)
  {
    MatchingNothing(messages[n..], ids);
    MatchingOfConcat(messages[..n], messages[n..], ids);
    assert messages == messages[..n] + messages[n..];
  }

  /** Only older messages are deleted. */
  lemma MatchingIsOlder(s: Session, config: Config, asks: bool, answers: Answers)
    requires DistinctIds(s.messages) && PlanOf(s.messages, config, asks, answers).Ok?
    ensures var plan := PlanOf(s.messages, config, asks, answers).value;
            var deleted := DeletedIds(plan.result.archivedIds, answers.deleteFails);
            Matching(s.messages, deleted) == Matching(Older(s.messages, config), deleted)
  {
    var plan := PlanOf(s.messages, config, asks, answers).value;
    var deleted := DeletedIds(plan.result.archivedIds, answers.deleteFails);
    var n := |Older(s.messages, config)|;
    forall i | n <= i < |s.messages| ensures s.messages[i].id !in deleted {
      DeletedIsOlder(s, config, asks, answers, i);
    }
    MatchingOlder(s.messages, n, deleted);
    assert Older(s.messages, config) == s.messages[..n];
  }

  lemma IdOfCompactable(messages: seq<Message>, config: Config, i: nat)
    requires DistinctIds(messages) && i < |Older(messages, config)|
    ensures messages[i].id in Ids(OfKind(Older(messages, config), IsCompactable))
            <==> KindOf(messages[i]) == IsCompactable
  {
    var c := OfKind(Older(messages, config), IsCompactable);
    OfKindMembers(Older(messages, config), IsCompactable, messages[i]);
    assert Older(messages, config)[i] == messages[i];
    if messages[i].id in Ids(c) {
      var k :| 0 <= k < |Ids(c)| && Ids(c)[k] == messages[i].id;
      CompactableAt(messages, config, 0, k, i);
    }
    if messages[i] in c {
      var k :| 0 <= k < |c| && c[k] == messages[i];
      assert Ids(c)[k] == messages[i].id;
    }
  }

  /** The two kinds of plans, when tokens are estimated. */
  lemma PrunedPlan(s: Session, config: Config, answers: Answers)
    requires PlanOf(s.messages, config, false, answers).Ok?
    requires PlanOf(s.messages, config, false, answers).value.result.summaryText == ""
    ensures var plan := PlanOf(s.messages, config, false, answers).value;
            && plan.p == PartitionOf(s.messages, config, TotalTokens(s.messages))
            && plan.result.tokensAfter == TotalTokens(s.messages) - PruningSaves(config, plan.p)
            && plan.result.tokensAfter <= config.targetTokens
            && plan.result.archivedIds == if config.preserveToolOutputs then [] else PrunedIds(plan.p.compactable)
  {
    var p := PartitionOf(s.messages, config, TotalTokens(s.messages));
    OnlyPruningHasNoSummary(config, p, answers);
  }

  lemma OnlyPruningHasNoSummary(config: Config, p: MessagePartition, answers: Answers)
    requires Executed(config, p, false, answers).Ok? && Executed(config, p, false, answers).value.summaryText == ""
    ensures Executed(config, p, false, answers) == Ok(PrunedOnly(config, p)) && PruningSuffices(config, p)
  {
  }

  lemma SummaryPlan(s: Session, config: Config, answers: Answers)
    requires PlanOf(s.messages, config, false, answers).Ok?
    requires PlanOf(s.messages, config, false, answers).value.result.summaryText != ""
    ensures var plan := PlanOf(s.messages, config, false, answers).value;
            && plan.p == PartitionOf(s.messages, config, TotalTokens(s.messages))
            && plan.p.stats.compactableTokens == TotalTokens(plan.p.compactable)
            && plan.result.archivedIds == Ids(plan.p.compactable)
            && plan.result.summaryTokens == ApproximateTokens(plan.result.summaryText)
            && plan.result.tokensAfter
               == TotalTokens(s.messages) - plan.p.stats.compactableTokens + plan.result.summaryTokens
  {
    var p := PartitionOf(s.messages, config, TotalTokens(s.messages));
    SummaryIsSummarized(config, p, answers);
  }

  lemma SummaryIsSummarized(config: Config, p: MessagePartition, answers: Answers)
    requires Executed(config, p, false, answers).Ok? && Executed(config, p, false, answers).value.summaryText != ""
    ensures Executed(config, p, false, answers) == Summarized(p, false, answers)
  {
  }

  /** What failing deletes leave behind. */
  lemma {:induction false} MatchingMinus(messages: seq<Message>, ids: set<MessageId>, fails: set<MessageId>)
    ensures TotalTokens(Matching(messages, ids))
            == TotalTokens(Matching(messages, ids - fails)) + TotalTokens(Matching(Matching(messages, ids), fails))
  {
    if messages != [] {
      var m, rest := messages[0], messages[1..];
      MatchingMinus(rest, ids, fails);
      assert messages == [m] + rest;
      MatchingOfCons(m, rest, ids);
      MatchingOfCons(m, rest, ids - fails);
      if m.id in ids {
        MatchingOfCons(m, Matching(rest, ids), fails);
        TotalOfCons(m, Matching(rest, ids));
        TotalOfCons(m, Matching(rest, ids - fails));
        TotalOfCons(m, Matching(Matching(rest, ids), fails));
      }
    }
  }

  lemma MatchingOfCons(m: Message, rest: seq<Message>, ids: set<MessageId>)
    ensures Matching([m] + rest, ids) == if m.id in ids then [m] + Matching(rest, ids) else Matching(rest, ids)
  {
    assert ([m] + rest)[1..] == rest;
  }

  /** The deletes of the call: all it asked for, less those that fail. */
  lemma SizeDeleted(messages: seq<Message>, archived: seq<MessageId>, fails: set<MessageId>)
    ensures TotalTokens(Matching(messages, DeletedIds(archived, fails)))
            == TotalTokens(Matching(messages, DeletedIds(archived, {})))
               - TotalTokens(Matching(Matching(messages, DeletedIds(archived, {})), fails))
  {
    MatchingMinus(messages, DeletedIds(archived, {}), fails);
    assert DeletedIds(archived, fails) == DeletedIds(archived, {}) - fails;
  }

  /** The tokens the summary adds to the session beyond its reported size. */
  function SummaryExtra(outcome: SummaryOutcome, summaryTokens: int): int {
    match outcome
    case Stored => MESSAGE_OVERHEAD
    case RowOnly => MESSAGE_OVERHEAD - summaryTokens
    case NotStored => -summaryTokens
  }

  /** Summarising: the session is exactly the reported size, plus the overhead of the summary's own
      message if it was stored (or less the summary if not), plus what failing deletes left behind. So
      it shrinks exactly when the summary with its overhead is smaller than what it replaces - which
      nothing guarantees. */
  lemma SummaryIsHonest(s: Session, config: Config, answers: Answers)
    requires DistinctIds(s.messages) && PlanOf(s.messages, config, false, answers).Ok?
    requires PlanOf(s.messages, config, false, answers).value.result.summaryText != ""
    ensures var plan := PlanOf(s.messages, config, false, answers).value;
            var after := TotalTokens(Compacted(s, config, false, answers).messages);
            var left := TotalTokens(Matching(plan.p.compactable, answers.deleteFails));
            && after == plan.result.tokensAfter + left
                        + SummaryExtra(answers.summaryOutcome, plan.result.summaryTokens)
            && (after < TotalTokens(s.messages)
                <==> plan.result.summaryTokens + left
                     + SummaryExtra(answers.summaryOutcome, plan.result.summaryTokens)
                     < plan.p.stats.compactableTokens)
  {
    SummaryPlan(s, config, answers);
    SummaryDelta(s, config, answers);
  }

  lemma SummaryDelta(s: Session, config: Config, answers: Answers)
    requires DistinctIds(s.messages) && PlanOf(s.messages, config, false, answers).Ok?
    requires PlanOf(s.messages, config, false, answers).value.result.summaryText != ""
    ensures var plan := PlanOf(s.messages, config, false, answers).value;
            var text := plan.result.summaryText;
            TotalTokens(Compacted(s, config, false, answers).messages)
            == TotalTokens(s.messages) - TotalTokens(plan.p.compactable)
               + TotalTokens(Matching(plan.p.compactable, answers.deleteFails))
               + ApproximateTokens(text) + SummaryExtra(answers.summaryOutcome, ApproximateTokens(text))
  {
    var plan := PlanOf(s.messages, config, false, answers).value;
    SizeAfter(s, config, false, answers);
    SummaryDeletes(s, config, answers.(deleteFails := {}));
    SizeDeleted(s.messages, plan.result.archivedIds, answers.deleteFails);
    SummarySize(s.nextId, plan.result.summaryText, answers.summaryOutcome);
  }

  lemma SummaryDeletes(s: Session, config: Config, answers: Answers)
    requires DistinctIds(s.messages) && PlanOf(s.messages, config, false, answers).Ok?
    requires PlanOf(s.messages, config, false, answers).value.result.summaryText != ""
    requires answers.deleteFails == {}
    ensures var plan := PlanOf(s.messages, config, false, answers).value;
            Matching(s.messages, DeletedIds(plan.result.archivedIds, {})) == plan.p.compactable
  {
    var plan := PlanOf(s.messages, config, false, answers).value;
    var older := Older(s.messages, config);
    var deleted := DeletedIds(plan.result.archivedIds, {});
    SummaryPlan(s, config, answers);
    MatchingIsOlder(s, config, false, answers);
    forall i | 0 <= i < |older| ensures older[i].id in deleted <==> KindOf(older[i]) == IsCompactable {
      IdOfCompactable(s.messages, config, i);
    }
    MatchingKind(older, deleted);
  }

  lemma SummarySize(id: MessageId, text: string, outcome: SummaryOutcome)
    requires text != ""
    ensures TotalTokens(SummaryRows(id, text, outcome))
            == ApproximateTokens(text) + SummaryExtra(outcome, ApproximateTokens(text))
  {
    var block := TextBlock(text);
    assert ContentTokens([block]) == BlockTokens(block) + ContentTokens([]);
    if outcome != NotStored {
      var m := SummaryRows(id, text, outcome)[0];
      assert TotalTokens([m]) == MessageTokens(m) + TotalTokens([]);
    }
  }

  lemma {:induction false} IdOfPrunable(messages: seq<Message>, m: Message)
    requires DistinctIds(messages) && m in messages
    ensures m.id in PrunedIds(messages) <==> HasPrunable(m)
  {
    PrunedIdsAreExact(messages, m.id);
    var i :| 0 <= i < |messages| && messages[i] == m;
    PruningKeepsShape(m);
    assert Prune(messages)[i] == PruneMessage(m);
  }

  lemma PrunableIsDeleted(messages: seq<Message>, config: Config, i: nat)
    requires DistinctIds(messages) && i < |Older(messages, config)|
    ensures var c := OfKind(Older(messages, config), IsCompactable);
            messages[i].id in PrunedIds(c) <==> KindOf(messages[i]) == IsCompactable && HasPrunable(messages[i])
  {
    var c := OfKind(Older(messages, config), IsCompactable);
    CompactableIsDistinct(messages, config);
    OfKindMembers(Older(messages, config), IsCompactable, messages[i]);
    assert Older(messages, config)[i] == messages[i];
    if messages[i] in c {
      IdOfPrunable(c, messages[i]);
    } else if messages[i].id in PrunedIds(c) {
      PrunedIdsAreIds(c, messages[i].id);
      var k :| 0 <= k < |c| && c[k].id == messages[i].id;
      CompactableAt(messages, config, 0, k, i);
      assert false;
    }
  }

  lemma PruningDeletes(s: Session, config: Config, answers: Answers)
    requires DistinctIds(s.messages) && PlanOf(s.messages, config, false, answers).Ok?
    requires PlanOf(s.messages, config, false, answers).value.result.summaryText == ""
    requires answers.deleteFails == {} && !config.preserveToolOutputs
    ensures var plan := PlanOf(s.messages, config, false, answers).value;
            Matching(s.messages, DeletedIds(plan.result.archivedIds, {})) == WithPrunable(plan.p.compactable)
  {
    var plan := PlanOf(s.messages, config, false, answers).value;
    var older := Older(s.messages, config);
    var deleted := DeletedIds(plan.result.archivedIds, {});
    PrunedPlan(s, config, answers);
    MatchingIsOlder(s, config, false, answers);
    forall i | 0 <= i < |older|
      ensures older[i].id in deleted <==> KindOf(older[i]) == IsCompactable && HasPrunable(older[i])
    {
      PrunableIsDeleted(s.messages, config, i);
    }
    MatchingPrunable(older, deleted);
  }

  lemma SizeOfPrunable(c: seq<Message>)
    ensures TotalTokens(WithPrunable(c)) == TotalTokens(Prune(WithPrunable(c))) + SavedBy(c)
  {
    SavingIsWithPrunable(c);
    PruningIsExact(WithPrunable(c));
  }

  /** Pruning only: the messages with something to prune are deleted whole, so the session is smaller
      than reported by the size of their pruned versions, and larger by those whose delete failed. If
      none failed it meets the target. */
  lemma PruningIsHonest(s: Session, config: Config, answers: Answers)
    requires DistinctIds(s.messages) && PlanOf(s.messages, config, false, answers).Ok?
    requires PlanOf(s.messages, config, false, answers).value.result.summaryText == ""
    ensures var plan := PlanOf(s.messages, config, false, answers).value;
            var prunable := if config.preserveToolOutputs then [] else WithPrunable(plan.p.compactable);
            var after := TotalTokens(Compacted(s, config, false, answers).messages);
            && after == plan.result.tokensAfter - TotalTokens(Prune(prunable))
                        + TotalTokens(Matching(prunable, answers.deleteFails))
            && plan.result.tokensAfter <= config.targetTokens
            && (answers.deleteFails == {} ==> after <= config.targetTokens)
  {
    PruningDelta(s, config, answers);
    PrunedPlan(s, config, answers);
    var c := PlanOf(s.messages, config, false, answers).value.p.compactable;
    if config.preserveToolOutputs {
      assert Prune([]) == [];
    } else {
      SizeOfPrunable(c);
      MatchingNothing(WithPrunable(c), {});
    }
  }

  /** The messages with something to prune are gone, but for the failing deletes. */
  lemma PruningDelta(s: Session, config: Config, answers: Answers)
    requires DistinctIds(s.messages) && PlanOf(s.messages, config, false, answers).Ok?
    requires PlanOf(s.messages, config, false, answers).value.result.summaryText == ""
    ensures var plan := PlanOf(s.messages, config, false, answers).value;
            var prunable := if config.preserveToolOutputs then [] else WithPrunable(plan.p.compactable);
            TotalTokens(Compacted(s, config, false, answers).messages)
            == TotalTokens(s.messages) - TotalTokens(prunable) + TotalTokens(Matching(prunable, answers.deleteFails))
  {
    var plan := PlanOf(s.messages, config, false, answers).value;
    SizeAfter(s, config, false, answers);
    SizeDeleted(s.messages, plan.result.archivedIds, answers.deleteFails);
    if config.preserveToolOutputs {
      PrunedPlan(s, config, answers);
      MatchingNothing(s.messages, DeletedIds(plan.result.archivedIds, {}));
    } else {
      PruningDeletes(s, config, answers.(deleteFails := {}));
    }
  }

  // ---------------------------------------------------------------------------
  // Pruning as documented
  // ---------------------------------------------------------------------------

  /** The session the configuration's documentation describes: outputs replaced, messages kept. */
  function PrunedInPlace(messages: seq<Message>, config: Config): (pruned: seq<Message>)
    ensures |pruned| == |messages|
  {
    seq(|messages|, i requires 0 <= i < |messages| =>
          if i < |Older(messages, config)| then PruneMessage(messages[i]) else messages[i])
  }

  lemma {:induction false} WithoutShortens(messages: seq<Message>, ids: set<MessageId>)
    ensures |Without(messages, ids)| + |Matching(messages, ids)| == |messages|
  {
    if messages != [] {
      WithoutShortens(messages[1..], ids);
    }
  }

  lemma {:induction false} MatchingEmpty(messages: seq<Message>, ids: set<MessageId>)
    ensures Matching(messages, ids) == [] <==> Without(messages, ids) == messages
  {
    WithoutShortens(messages, ids);
    if Matching(messages, ids) == [] {
      forall i | 0 <= i < |messages| ensures messages[i].id !in ids {
        if messages[i].id in ids {
          MatchingHas(messages, ids, i);
        }
      }
      WithoutNothing(messages, ids);
    }
  }

  /** A prune-only call does what is documented exactly when there is nothing to prune: otherwise the
      messages are gone, not shortened, and with them their tool results. */
  lemma PrunesAsDocumentedIff(s: Session, config: Config, answers: Answers)
    requires DistinctIds(s.messages) && PlanOf(s.messages, config, false, answers).Ok?
    requires PlanOf(s.messages, config, false, answers).value.result.summaryText == ""
    requires answers.deleteFails == {} && !config.preserveToolOutputs
    ensures Compacted(s, config, false, answers).messages == PrunedInPlace(s.messages, config)
            <==> forall i :: 0 <= i < |Older(s.messages, config)| ==> !HasPrunable(s.messages[i])
  {
    var plan := PlanOf(s.messages, config, false, answers).value;
    var older := Older(s.messages, config);
    var deleted := DeletedIds(plan.result.archivedIds, {});
    MatchingEmpty(s.messages, deleted);
    WithoutShortens(s.messages, deleted);
    NothingDeletedIff(s, config, answers);
    PrunedPlanKeepsNoSummary(s, config, answers);
    if forall i :: 0 <= i < |older| ==> !HasPrunable(s.messages[i]) {
      NothingToPrune(s.messages, config);
    }
  }

  lemma PrunedPlanKeepsNoSummary(s: Session, config: Config, answers: Answers)
    requires PlanOf(s.messages, config, false, answers).Ok?
    requires PlanOf(s.messages, config, false, answers).value.result.summaryText == ""
    requires answers.deleteFails == {}
    ensures Compacted(s, config, false, answers).messages
            == Without(s.messages, DeletedIds(PlanOf(s.messages, config, false, answers).value.result.archivedIds, {}))
  {
  }

  lemma NothingToPrune(messages: seq<Message>, config: Config)
    requires forall i :: 0 <= i < |Older(messages, config)| ==> !HasPrunable(messages[i])
    ensures PrunedInPlace(messages, config) == messages
  {
    forall i | 0 <= i < |Older(messages, config)| ensures PruneMessage(messages[i]) == messages[i] {
      PruningKeepsShape(messages[i]);
    }
  }

  lemma NothingDeletedIff(s: Session, config: Config, answers: Answers)
    requires DistinctIds(s.messages) && PlanOf(s.messages, config, false, answers).Ok?
    requires PlanOf(s.messages, config, false, answers).value.result.summaryText == ""
    requires answers.deleteFails == {} && !config.preserveToolOutputs
    ensures var deleted := DeletedIds(PlanOf(s.messages, config, false, answers).value.result.archivedIds, {});
            Matching(s.messages, deleted) == []
            <==> forall i :: 0 <= i < |Older(s.messages, config)| ==> !HasPrunable(s.messages[i])
  {
    var older := Older(s.messages, config);
    var deleted := DeletedIds(PlanOf(s.messages, config, false, answers).value.result.archivedIds, {});
    PrunedPlan(s, config, answers);
    MatchingIsOlder(s, config, false, answers);
    forall i | 0 <= i < |older| ensures older[i].id in deleted <==> HasPrunable(s.messages[i]) {
      PrunableIsDeleted(s.messages, config, i);
    }
    if i :| 0 <= i < |older| && HasPrunable(s.messages[i]) {
      MatchingHas(older, deleted, i);
    } else {
      MatchingNothing(older, deleted);
    }
  }

  lemma {:induction false} MatchingHas(messages: seq<Message>, ids: set<MessageId>, i: nat)
    requires i < |messages| && messages[i].id in ids
    ensures |Matching(messages, ids)| > 0
  {
    if i > 0 {
      MatchingHas(messages[1..], ids, i - 1);
    }
  }
}
