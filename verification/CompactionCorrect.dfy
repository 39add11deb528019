/** What compaction keeps, over whole histories of a session, and how honest its numbers are. */
module CompactionCorrect {
  import opened Content
  import opened Tokens
  import opened Partition
  import opened Pruning
  import opened Compaction

  // ---------------------------------------------------------------------------
  // What a call can delete
  // ---------------------------------------------------------------------------

  lemma {:induction false} PrunedIdsAreIds(messages: seq<Message>, id: MessageId)
    ensures id in PrunedIds(messages) ==> exists k :: 0 <= k < |messages| && messages[k].id == id
  {
    PrunedIdsAreExact(messages, id);
  }

  lemma ArchivedIdsAreCompactable(messages: seq<Message>, config: Config, asks: bool, answers: Answers, id: MessageId)
    returns (k: nat)
    requires PlanOf(messages, config, asks, answers).Ok?
    requires id in PlanOf(messages, config, asks, answers).value.result.archivedIds
    ensures var c := PlanOf(messages, config, asks, answers).value.p.compactable; k < |c| && c[k].id == id
  {
    var plan := PlanOf(messages, config, asks, answers).value;
    PrunedIdsAreIds(plan.p.compactable, id);
    k :| 0 <= k < |plan.p.compactable| && plan.p.compactable[k].id == id;
  }

  lemma CompactableAt(messages: seq<Message>, config: Config, total: int, k: nat, i: nat)
    requires DistinctIds(messages) && i < |messages|
    requires k < |PartitionOf(messages, config, total).compactable|
    requires PartitionOf(messages, config, total).compactable[k].id == messages[i].id
    ensures messages[i] == PartitionOf(messages, config, total).compactable[k]
    ensures i < |Older(messages, config)|
  {
    var m := PartitionOf(messages, config, total).compactable[k];
    OfKindMembers(Older(messages, config), IsCompactable, m);
    var j :| 0 <= j < |Older(messages, config)| && Older(messages, config)[j] == m;
    assert messages[j] == m;
  }

  /** A message that a call removes carries no flag, lies outside the protected budget, and is older than
      `preserveLastN` further messages. */
  lemma OnlyCompactableGo(s: Session, config: Config, asks: bool, answers: Answers, i: nat)
    requires DistinctIds(s.messages) && i < |s.messages|
    requires s.messages[i] !in Compacted(s, config, asks, answers).messages
    ensures !s.messages[i].isSummary && !s.messages[i].isPreserved
    ensures TotalTokens(s.messages[i..]) > config.protectedTokens
    ensures i + config.preserveLastN < |s.messages|
    ensures s.messages[i] in PlanOf(s.messages, config, asks, answers).value.p.compactable
  {
    var plan := PlanOf(s.messages, config, asks, answers).value;
    var m := s.messages[i];
    var deleted := DeletedIds(plan.result.archivedIds, answers.deleteFails);
    WithoutMembers(s.messages, deleted, m);
    assert m in Without(s.messages, deleted) ==> m in Compacted(s, config, asks, answers).messages;
    var k := ArchivedIdsAreCompactable(s.messages, config, asks, answers, m.id);
    CompactableAt(s.messages, config, plan.p.stats.totalTokens, k, i);
    CompactableIsExact(s.messages, config, plan.p.stats.totalTokens, i);
  }

  lemma DeletedIsOlder(s: Session, config: Config, asks: bool, answers: Answers, i: nat)
    requires DistinctIds(s.messages) && PlanOf(s.messages, config, asks, answers).Ok?
    requires |Older(s.messages, config)| <= i < |s.messages|
    ensures s.messages[i].id !in PlanOf(s.messages, config, asks, answers).value.result.archivedIds
  {
    var plan := PlanOf(s.messages, config, asks, answers).value;
    if s.messages[i].id in plan.result.archivedIds {
      var k := ArchivedIdsAreCompactable(s.messages, config, asks, answers, s.messages[i].id);
      CompactableAt(s.messages, config, plan.p.stats.totalTokens, k, i);
      assert false;
    }
  }

  lemma WithoutOlder(messages: seq<Message>, n: nat, ids: set<MessageId>)
    requires n <= |messages| && forall i :: n <= i < |messages| ==> messages[i].id !in ids
    ensures Without(messages, ids) == Without(messages[..n], ids) + messages[n..]
  {
    WithoutNothing(messages[n..], ids);
    WithoutOfConcat(messages[..n], messages[n..], ids);
    assert messages == messages[..n] + messages[n..];
  }

  /** The messages from the recent ones on survive as they are, in place, before the summary. */
  lemma TailSurvives(s: Session, config: Config, asks: bool, answers: Answers)
    requires DistinctIds(s.messages) && PlanOf(s.messages, config, asks, answers).Ok?
    ensures var plan := PlanOf(s.messages, config, asks, answers).value;
            var older := Older(s.messages, config);
            Compacted(s, config, asks, answers).messages
            == Without(older, DeletedIds(plan.result.archivedIds, answers.deleteFails)) + s.messages[|older|..]
               + SummaryRows(s.nextId, plan.result.summaryText, answers.summaryOutcome)
  {
    var plan := PlanOf(s.messages, config, asks, answers).value;
    var n := |Older(s.messages, config)|;
    var deleted := DeletedIds(plan.result.archivedIds, answers.deleteFails);
    forall i | n <= i < |s.messages| ensures s.messages[i].id !in deleted {
      DeletedIsOlder(s, config, asks, answers, i);
    }
    WithoutOlder(s.messages, n, deleted);
    assert Older(s.messages, config) == s.messages[..n];
  }

  // ---------------------------------------------------------------------------
  // The archive
  // ---------------------------------------------------------------------------

  /** The archive keeps what it has - an id that is there already is refused - and gains exactly the
      messages whose call did not fail. */
  lemma {:induction false} ArchiveIsExact(archive: map<MessageId, Message>, messages: seq<Message>,
                                          fails: set<MessageId>, id: MessageId)
    requires DistinctIds(messages)
    ensures var after := ArchiveAll(archive, messages, fails);
            && (id in archive ==> id in after && after[id] == archive[id])
            && (id !in archive && id in after ==>
                  id !in fails && after[id].id == id && after[id] in messages)
            && (forall i :: 0 <= i < |messages| && messages[i].id == id && id !in fails ==> id in after)
    decreases |messages|
  {
    if messages != [] {
      ArchiveIsExact(ArchiveOne(archive, messages[0], fails), messages[1..], fails, id);
      forall i | 0 <= i < |messages| && messages[i].id == id && id !in fails
        ensures id in ArchiveAll(archive, messages, fails)
      {
        if i > 0 {
          assert messages[1..][i - 1] == messages[i];
        }
      }
    }
  }

  // ---------------------------------------------------------------------------
  // Histories
  // ---------------------------------------------------------------------------

  datatype SessionEvent =
    | Appended(run: Option<nat>, role: Role, content: seq<ContentBlock>, isPreserved: bool, isSummary: bool,
               outcome: SummaryOutcome)
    | CompactCall(config: Config, asks: bool, answers: Answers)

  /** The session, every message that was ever in it, by id, and the ids of those that are gone. */
  datatype Story = Story(session: Session, ever: seq<Message>, lost: set<MessageId>)

  const NEW_STORY := Story(Session([], map[], 0), [], {})

  /** A call loses a message exactly by deleting it when its archive call failed and no earlier call had
      archived it. */
  function LostBy(s: Session, config: Config, asks: bool, answers: Answers): set<MessageId> {
    match PlanOf(s.messages, config, asks, answers)
    case Err(_) => {}
    case Ok(plan) =>
      set id | id in DeletedIds(plan.result.archivedIds, answers.deleteFails)
               && id in answers.archiveFails && id !in s.archive
  }

  function Inserted(s: Session, ev: SessionEvent): seq<Message> {
    match ev
    case Appended(run, role, content, isPreserved, isSummary, outcome) =>
      if outcome.NotStored? then []
      else [Message(s.nextId, run, role, if outcome.Stored? then content else [], isPreserved, isSummary)]
    case CompactCall(config, asks, answers) =>
      match PlanOf(s.messages, config, asks, answers)
      case Err(_) => []
      case Ok(plan) => SummaryRows(s.nextId, plan.result.summaryText, answers.summaryOutcome)
  }

  function Next(story: Story, ev: SessionEvent): Story {
    var s := story.session;
    var inserted := Inserted(s, ev);
    match ev
    case Appended(_, _, _, _, _, _) =>
      Story(Session(s.messages + inserted, s.archive, s.nextId + |inserted|), story.ever + inserted, story.lost)
    case CompactCall(config, asks, answers) =>
      Story(Compacted(s, config, asks, answers), story.ever + inserted,
            story.lost + LostBy(s, config, asks, answers))
  }

  function StoryAfter(story: Story, events: seq<SessionEvent>): Story
    decreases |events|
  {
    if events == [] then story else StoryAfter(Next(story, events[0]), events[1..])
  }

  predicate IdsAreIndices(story: Story) {
    && |story.ever| == story.session.nextId
    && (forall id :: 0 <= id < |story.ever| ==> story.ever[id].id == id)
    && (forall i :: 0 <= i < |story.session.messages| ==>
          var m := story.session.messages[i]; m.id < |story.ever| && story.ever[m.id] == m)
  }

  /** Every message ever stored is still stored as it was, or archived as it was, or lost by one of the
      calls above - and lost is really gone. Flagged messages are all still stored. */
  ghost predicate Conserved(story: Story) {
    && DistinctIds(story.session.messages)
    && IdsAreIndices(story)
    && (forall id :: id in story.session.archive ==>
          id < |story.ever| && story.session.archive[id] == story.ever[id])
    && (forall id :: id in story.lost ==> id < |story.ever|)
    && (forall id :: 0 <= id < |story.ever| ==>
          (id in story.lost <==> story.ever[id] !in story.session.messages && id !in story.session.archive))
    && (forall id :: 0 <= id < |story.ever| && (story.ever[id].isPreserved || story.ever[id].isSummary) ==>
          story.ever[id] in story.session.messages)
  }

  lemma {:induction false} OfKindIsDistinct(messages: seq<Message>, kind: Kind)
    requires DistinctIds(messages)
    ensures DistinctIds(OfKind(messages, kind))
  {
    if messages != [] {
      var rest := OfKind(messages[1..], kind);
      OfKindIsDistinct(messages[1..], kind);
      forall j | 0 <= j < |rest| ensures rest[j].id != messages[0].id {
        OfKindMembers(messages[1..], kind, rest[j]);
        var i :| 0 <= i < |messages[1..]| && messages[1..][i] == rest[j];
        assert messages[i + 1] == rest[j];
      }
    }
  }

  lemma CompactableIsDistinct(messages: seq<Message>, config: Config)
    requires DistinctIds(messages)
    ensures DistinctIds(OfKind(Older(messages, config), IsCompactable))
  {
    OfKindIsDistinct(Older(messages, config), IsCompactable);
  }

  /** The parts of a call that concern one message. */
  lemma FateInOneCall(story: Story, config: Config, asks: bool, answers: Answers, id: MessageId)
    requires Conserved(story) && id < |story.ever|
    ensures var s := story.session;
            var s' := Compacted(s, config, asks, answers);
            var m := story.ever[id];
            && (m in s'.messages ==> m in s.messages)
            && (id in s.archive ==> id in s'.archive && s'.archive[id] == s.archive[id])
            && (id !in s.archive && id in s'.archive ==> m in s.messages && s'.archive[id] == m)
            && (m in s.messages && m !in s'.messages ==>
                  (id in LostBy(s, config, asks, answers) <==> id !in s'.archive) && !m.isPreserved && !m.isSummary)
            && (m in s'.messages ==> id !in LostBy(s, config, asks, answers))
            && (id in LostBy(s, config, asks, answers) ==> m in s.messages)
  {
    var s := story.session;
    var m := story.ever[id];
    match PlanOf(s.messages, config, asks, answers)
    case Err(_) =>
    case Ok(plan) =>
      var deleted := DeletedIds(plan.result.archivedIds, answers.deleteFails);
      var c := plan.p.compactable;
      WithoutMembers(s.messages, deleted, m);
      CompactableIsDistinct(s.messages, config);
      ArchiveIsExact(s.archive, c, answers.archiveFails, id);
      forall k | 0 <= k < |c| ensures c[k] in s.messages && c[k] == story.ever[c[k].id] {
        OfKindMembers(Older(s.messages, config), IsCompactable, c[k]);
      }
      if id in deleted {
        var k := ArchivedIdsAreCompactable(s.messages, config, asks, answers, id);
        OfKindMembers(Older(s.messages, config), IsCompactable, c[k]);
      }
  }

  lemma GrownHasIds(story: Story, kept: seq<Message>, added: seq<Message>, next: Story)
    requires IdsAreIndices(story) && DistinctIds(kept)
    requires forall i :: 0 <= i < |kept| ==> kept[i].id < |story.ever| && story.ever[kept[i].id] == kept[i]
    requires |added| <= 1 && (added != [] ==> added[0].id == story.session.nextId)
    requires next.session.messages == kept + added && next.ever == story.ever + added
    requires next.session.nextId == story.session.nextId + |added|
    ensures DistinctIds(next.session.messages) && IdsAreIndices(next)
  {
  }

  lemma CallHasIds(story: Story, config: Config, asks: bool, answers: Answers)
    requires Conserved(story)
    ensures var story' := Next(story, CompactCall(config, asks, answers));
            DistinctIds(story'.session.messages) && IdsAreIndices(story')
  {
    var s := story.session;
    match PlanOf(s.messages, config, asks, answers)
    case Err(_) =>
    case Ok(plan) =>
      var deleted := DeletedIds(plan.result.archivedIds, answers.deleteFails);
      var kept := Without(s.messages, deleted);
      WithoutKeepsDistinct(s.messages, deleted);
      forall i | 0 <= i < |kept| ensures kept[i].id < |story.ever| && story.ever[kept[i].id] == kept[i] {
        WithoutMembers(s.messages, deleted, kept[i]);
      }
      GrownHasIds(story, kept, SummaryRows(s.nextId, plan.result.summaryText, answers.summaryOutcome),
                  Next(story, CompactCall(config, asks, answers)));
  }

  lemma ConservedByCall(story: Story, config: Config, asks: bool, answers: Answers)
    requires Conserved(story)
    ensures Conserved(Next(story, CompactCall(config, asks, answers)))
  {
    var ev := CompactCall(config, asks, answers);
    var s, s' := story.session, Compacted(story.session, config, asks, answers);
    var story' := Next(story, ev);
    CallHasIds(story, config, asks, answers);
    forall id | id in s'.archive ensures id < |story'.ever| && s'.archive[id] == story'.ever[id] {
      ArchivedWasStored(story, config, asks, answers, id);
      FateInOneCall(story, config, asks, answers, id);
    }
    forall id | 0 <= id < |story'.ever|
      ensures id in story'.lost <==> story'.ever[id] !in s'.messages && id !in s'.archive
      ensures story'.ever[id].isPreserved || story'.ever[id].isSummary ==> story'.ever[id] in s'.messages
    {
      if id < |story.ever| {
        FateInOneCall(story, config, asks, answers, id);
      } else {
        FreshIsStored(story, config, asks, answers, id);
      }
    }
    forall id | id in story'.lost ensures id < |story'.ever| {
      if id !in story.lost {
        LostWasStored(story, config, asks, answers, id);
      }
    }
  }

  lemma ArchivedWasStored(story: Story, config: Config, asks: bool, answers: Answers, id: MessageId)
    requires Conserved(story) && id in Compacted(story.session, config, asks, answers).archive
    ensures id < |story.ever|
  {
    var s := story.session;
    if id !in s.archive {
      var c := PlanOf(s.messages, config, asks, answers).value.p.compactable;
      CompactableIsDistinct(s.messages, config);
      ArchiveIsExact(s.archive, c, answers.archiveFails, id);
      var m := Compacted(s, config, asks, answers).archive[id];
      OfKindMembers(Older(s.messages, config), IsCompactable, m);
      assert m in s.messages;
    }
  }

  lemma LostWasStored(story: Story, config: Config, asks: bool, answers: Answers, id: MessageId)
    requires Conserved(story) && id in LostBy(story.session, config, asks, answers)
    ensures id < |story.ever|
  {
    var s := story.session;
    var k := ArchivedIdsAreCompactable(s.messages, config, asks, answers, id);
    var m := PlanOf(s.messages, config, asks, answers).value.p.compactable[k];
    OfKindMembers(Older(s.messages, config), IsCompactable, m);
    assert m in s.messages;
  }

  /** The summary row is stored. */
  lemma FreshIsStored(story: Story, config: Config, asks: bool, answers: Answers, id: MessageId)
    requires Conserved(story)
    requires |story.ever| <= id < |Next(story, CompactCall(config, asks, answers)).ever|
    ensures var story' := Next(story, CompactCall(config, asks, answers));
            story'.ever[id] in story'.session.messages && id !in story'.lost
  {
    var ev := CompactCall(config, asks, answers);
    var inserted := Inserted(story.session, ev);
    assert Next(story, ev).ever[id] == inserted[id - |story.ever|];
    if id in LostBy(story.session, config, asks, answers) {
      LostWasStored(story, config, asks, answers, id);
      assert false;
    }
  }

  lemma ConservedByAppend(story: Story, ev: SessionEvent)
    requires Conserved(story) && ev.Appended?
    ensures Conserved(Next(story, ev))
  {
    var story' := Next(story, ev);
    GrownHasIds(story, story.session.messages, Inserted(story.session, ev), story');
    forall id | 0 <= id < |story'.ever|
      ensures id in story'.lost <==> story'.ever[id] !in story'.session.messages && id !in story'.session.archive
      ensures story'.ever[id].isPreserved || story'.ever[id].isSummary ==> story'.ever[id] in story'.session.messages
    {
      if id < |story.ever| {
        assert story'.ever[id] == story.ever[id];
        assert story.ever[id] in story.session.messages <==> story'.ever[id] in story'.session.messages;
      } else {
        assert story'.session.messages[|story.session.messages|] == story'.ever[id];
      }
    }
  }

  /** Over every history of appends and compactions, whatever fails, no message disappears without a
      trace except through a failed archive call. */
  lemma {:induction false} EveryMessageIsAccountedFor(story: Story, events: seq<SessionEvent>)
    requires Conserved(story)
    ensures Conserved(StoryAfter(story, events))
    decreases |events|
  {
    if events != [] {
      match events[0] {
        case Appended(_, _, _, _, _, _) => ConservedByAppend(story, events[0]);
        case CompactCall(config, asks, answers) => ConservedByCall(story, config, asks, answers);
      }
      EveryMessageIsAccountedFor(Next(story, events[0]), events[1..]);
    }
  }

  lemma {:induction false} NothingIsLost(story: Story, events: seq<SessionEvent>)
    requires story.lost == {}
    requires forall i :: 0 <= i < |events| && events[i].CompactCall? ==> events[i].answers.archiveFails == {}
    ensures StoryAfter(story, events).lost == {}
    decreases |events|
  {
    if events != [] {
      NothingIsLost(Next(story, events[0]), events[1..]);
    }
  }

  /** If the archive calls succeed, every message ever stored is still stored or archived, unchanged. */
  lemma StoredOrArchived(events: seq<SessionEvent>, id: MessageId)
    requires forall i :: 0 <= i < |events| && events[i].CompactCall? ==> events[i].answers.archiveFails == {}
    requires id < |StoryAfter(NEW_STORY, events).ever|
    ensures var story := StoryAfter(NEW_STORY, events);
            || story.ever[id] in story.session.messages
            || (id in story.session.archive && story.session.archive[id] == story.ever[id])
  {
    EveryMessageIsAccountedFor(NEW_STORY, events);
    NothingIsLost(NEW_STORY, events);
  }
}
