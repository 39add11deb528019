/** Sorting a session's messages into what compaction must leave alone and what it may replace. */
module Partition {
  import opened Content
  import opened Tokens

  datatype Strategy = Summarization | Hybrid

  datatype Config = Config(
    strategy: Strategy,
    targetTokens: int,
    preserveLastN: int,
    protectedTokens: int,
    preserveToolOutputs: bool)

  datatype Stats = Stats(
    protectedTokens: int,
    preservedTokens: int,
    recentTokens: int,
    summaryTokens: int,
    compactableTokens: int,
    totalTokens: int)

  datatype MessagePartition = MessagePartition(
    protectedZone: seq<Message>,
    preserved: seq<Message>,
    recent: seq<Message>,
    summaries: seq<Message>,
    compactable: seq<Message>,
    stats: Stats)

  const NO_STATS := Stats(0, 0, 0, 0, 0, 0)

  function Ids(messages: seq<Message>): seq<MessageId> {
    seq(|messages|, i requires 0 <= i < |messages| => messages[i].id)
  }

  /** Message ids are a primary key. */
  ghost predicate DistinctIds(messages: seq<Message>) {
    forall i, j :: 0 <= i < j < |messages| ==> messages[i].id != messages[j].id
  }

  // ---------------------------------------------------------------------------
  // Specification
  // ---------------------------------------------------------------------------

  /** Where the protected zone starts: the earliest point from which the tail fits into the budget. */
  function ZoneStart(messages: seq<Message>, budget: int): (i: nat)
    ensures i <= |messages|
    decreases |messages|
  {
    if messages == [] then 0
    else
      var last := MessageTokens(messages[|messages| - 1]);
      if last <= budget then ZoneStart(messages[..|messages| - 1], budget - last) else |messages|
  }

  function RecentStart(zone: nat, n: int): nat {
    if n <= 0 then zone else if n >= zone then 0 else zone - n
  }

  datatype Kind = IsSummary | IsPreserved | IsCompactable

  function KindOf(m: Message): Kind {
    if m.isSummary then IsSummary else if m.isPreserved then IsPreserved else IsCompactable
  }

  function OfKind(messages: seq<Message>, kind: Kind): seq<Message> {
    if messages == [] then []
    else (if KindOf(messages[0]) == kind then [messages[0]] else []) + OfKind(messages[1..], kind)
  }

  function Older(messages: seq<Message>, config: Config): seq<Message> {
    messages[..RecentStart(ZoneStart(messages, config.protectedTokens), config.preserveLastN)]
  }

  function PartitionOf(messages: seq<Message>, config: Config, total: int): MessagePartition {
    var zone := ZoneStart(messages, config.protectedTokens);
    var recent := RecentStart(zone, config.preserveLastN);
    var older := Older(messages, config);
    MessagePartition(
      messages[zone..], OfKind(older, IsPreserved), messages[recent..zone], OfKind(older, IsSummary),
      OfKind(older, IsCompactable),
      Stats(TotalTokens(messages[zone..]), TotalTokens(OfKind(older, IsPreserved)),
            TotalTokens(messages[recent..zone]), TotalTokens(OfKind(older, IsSummary)),
            TotalTokens(OfKind(older, IsCompactable)), total))
  }

  // ---------------------------------------------------------------------------
  // What the specification means
  // ---------------------------------------------------------------------------

  /** The zone is the longest tail within the budget: a tail that is not empty fits exactly when it lies
      in the zone. */
  lemma {:induction false} ZoneIsLongestTail(messages: seq<Message>, budget: int, i: nat)
    requires i < |messages|
    ensures TotalTokens(messages[i..]) <= budget <==> ZoneStart(messages, budget) <= i
    decreases |messages|
  {
    var n := |messages| - 1;
    var last := MessageTokens(messages[n]);
    TotalTokensOfAppend(messages[i..n], messages[n]);
    assert messages[i..n] + [messages[n]] == messages[i..];
    if last <= budget && i < n {
      ZoneIsLongestTail(messages[..n], budget - last, i);
      assert messages[..n][i..] == messages[i..n];
    }
  }

  lemma OfKindOfCons(m: Message, rest: seq<Message>, kind: Kind)
    ensures OfKind([m] + rest, kind) == (if KindOf(m) == kind then [m] else []) + OfKind(rest, kind)
  {
    assert ([m] + rest)[1..] == rest;
  }

  lemma OfKindTokens(m: Message, rest: seq<Message>, kind: Kind)
    ensures TotalTokens(OfKind([m] + rest, kind))
            == TotalTokens(OfKind(rest, kind)) + if KindOf(m) == kind then MessageTokens(m) else 0
  {
    OfKindOfCons(m, rest, kind);
    if KindOf(m) == kind {
      TotalTokensOfConcat([m], OfKind(rest, kind));
      assert TotalTokens([m]) == MessageTokens(m) + TotalTokens([]);
    } else {
      assert OfKind([m] + rest, kind) == OfKind(rest, kind);
    }
  }

  lemma {:induction false} OfKindCount(messages: seq<Message>, kind: Kind, m: Message)
    ensures multiset(OfKind(messages, kind))[m] == if KindOf(m) == kind then multiset(messages)[m] else 0
  {
    if messages != [] {
      var head, rest := messages[0], messages[1..];
      assert messages == [head] + rest;
      OfKindOfCons(head, rest, kind);
      OfKindCount(rest, kind, m);
    }
  }

  lemma OfKindSplits(messages: seq<Message>)
    ensures multiset(OfKind(messages, IsSummary)) + multiset(OfKind(messages, IsPreserved))
            + multiset(OfKind(messages, IsCompactable)) == multiset(messages)
  {
    var parts := multiset(OfKind(messages, IsSummary)) + multiset(OfKind(messages, IsPreserved))
                 + multiset(OfKind(messages, IsCompactable));
    forall m ensures parts[m] == multiset(messages)[m] {
      OfKindCount(messages, IsSummary, m);
      OfKindCount(messages, IsPreserved, m);
      OfKindCount(messages, IsCompactable, m);
    }
  }

  lemma {:induction false} OfKindTokensSum(messages: seq<Message>)
    ensures TotalTokens(OfKind(messages, IsSummary)) + TotalTokens(OfKind(messages, IsPreserved))
            + TotalTokens(OfKind(messages, IsCompactable)) == TotalTokens(messages)
  {
    if messages != [] {
      var m, rest := messages[0], messages[1..];
      OfKindTokensSum(rest);
      OfKindTokens(m, rest, IsSummary);
      OfKindTokens(m, rest, IsPreserved);
      OfKindTokens(m, rest, IsCompactable);
      assert messages == [m] + rest;
    }
  }

  /** A list that keeps the order of the messages: strictly increasing positions. */
  ghost predicate InOrder(part: seq<Message>, at: seq<nat>, messages: seq<Message>) {
    && |at| == |part|
    && (forall k :: 0 <= k < |at| ==> at[k] < |messages| && messages[at[k]] == part[k])
    && (forall k, k' :: 0 <= k < k' < |at| ==> at[k] < at[k'])
  }

  function Positions(messages: seq<Message>, kind: Kind): (at: seq<nat>)
    ensures forall k :: 0 <= k < |at| ==> at[k] < |messages|
  {
    if messages == [] then []
    else
      var n := |messages| - 1;
      Positions(messages[..n], kind) + if KindOf(messages[n]) == kind then [n] else []
  }

  lemma {:induction false} OfKindOfAppend(messages: seq<Message>, m: Message, kind: Kind)
    ensures OfKind(messages + [m], kind) == OfKind(messages, kind) + if KindOf(m) == kind then [m] else []
  {
    if messages == [] {
      assert messages + [m] == [m] + [];
      OfKindOfCons(m, [], kind);
    } else {
      var head, rest := messages[0], messages[1..];
      assert messages == [head] + rest && messages + [m] == [head] + (rest + [m]);
      OfKindOfCons(head, rest, kind);
      OfKindOfCons(head, rest + [m], kind);
      OfKindOfAppend(rest, m, kind);
    }
  }

  lemma InOrderGrows(part: seq<Message>, at: seq<nat>, messages: seq<Message>, m: Message)
    requires InOrder(part, at, messages)
    ensures InOrder(part, at, messages + [m]) && InOrder(part + [m], at + [|messages|], messages + [m])
  {
    var n := |messages|;
    assert forall k :: 0 <= k < |at| ==> (messages + [m])[at[k]] == messages[at[k]];
    assert (messages + [m])[n] == m;
  }

  /** A kind keeps exactly its messages, in their order. */
  lemma {:induction false} OfKindIsExact(messages: seq<Message>, kind: Kind)
    ensures InOrder(OfKind(messages, kind), Positions(messages, kind), messages)
    ensures forall i :: 0 <= i < |messages| ==> (i in Positions(messages, kind) <==> KindOf(messages[i]) == kind)
    decreases |messages|
  {
    if messages != [] {
      var n := |messages| - 1;
      var rest := messages[..n];
      OfKindIsExact(rest, kind);
      assert rest + [messages[n]] == messages;
      OfKindOfAppend(rest, messages[n], kind);
      InOrderGrows(OfKind(rest, kind), Positions(rest, kind), rest, messages[n]);
      assert OfKind(rest, kind) + [] == OfKind(rest, kind) && Positions(rest, kind) + [] == Positions(rest, kind);
      forall i | 0 <= i < |messages| ensures i in Positions(messages, kind) <==> KindOf(messages[i]) == kind {
        if i < n {
          assert rest[i] == messages[i];
        }
        assert i in Positions(messages, kind)
          <==> i in Positions(rest, kind) || (i == n && KindOf(messages[n]) == kind);
      }
    }
  }

  /** The session is three slices: the older messages, at most `preserveLastN` recent ones - fewer only
      if there are no more - and the protected zone. */
  lemma PartitionSlices(messages: seq<Message>, config: Config, total: int)
    ensures var p := PartitionOf(messages, config, total);
            && messages == Older(messages, config) + p.recent + p.protectedZone
            && (config.preserveLastN <= 0 ==> p.recent == [])
            && (config.preserveLastN > 0 ==> |p.recent| <= config.preserveLastN)
            && (config.preserveLastN > |p.recent| ==> Older(messages, config) == [])
  {
    var zone := ZoneStart(messages, config.protectedTokens);
    var recent := RecentStart(zone, config.preserveLastN);
    assert messages == (messages[..recent] + messages[recent..zone]) + messages[zone..];
  }

  /** Every message lies in exactly one part: the older ones split by their flags, in order by
      OfKindIsExact. */
  lemma PartitionCovers(messages: seq<Message>, config: Config, total: int)
    ensures var p := PartitionOf(messages, config, total);
            && messages == Older(messages, config) + p.recent + p.protectedZone
            && multiset(p.summaries) + multiset(p.preserved) + multiset(p.compactable)
               == multiset(Older(messages, config))
  {
    PartitionSlices(messages, config, total);
    OfKindSplits(Older(messages, config));
  }

  /** With the estimate as total, the token sums of the parts add up to it. */
  lemma StatsAddUp(messages: seq<Message>, config: Config)
    ensures var s := PartitionOf(messages, config, TotalTokens(messages)).stats;
            s.protectedTokens + s.preservedTokens + s.recentTokens + s.summaryTokens + s.compactableTokens
            == s.totalTokens
  {
    var zone := ZoneStart(messages, config.protectedTokens);
    var recent := RecentStart(zone, config.preserveLastN);
    var older, middle, tail := messages[..recent], messages[recent..zone], messages[zone..];
    assert messages == (older + middle) + tail;
    OfKindTokensSum(older);
    TotalTokensOfConcat(older + middle, tail);
    TotalTokensOfConcat(older, middle);
  }

  lemma {:induction false} OfKindMembers(messages: seq<Message>, kind: Kind, m: Message)
    ensures m in OfKind(messages, kind) <==> m in messages && KindOf(m) == kind
  {
    if messages != [] {
      assert messages == [messages[0]] + messages[1..];
      OfKindMembers(messages[1..], kind, m);
    }
  }

  /** What may be compacted: exactly the unflagged messages before the recent ones. In particular none of
      the newest `preserveLastN` messages, and none whose tail fits into the protected budget. */
  lemma CompactableIsExact(messages: seq<Message>, config: Config, total: int, i: nat)
    requires DistinctIds(messages) && i < |messages|
    ensures messages[i] in PartitionOf(messages, config, total).compactable
            <==> && !messages[i].isSummary && !messages[i].isPreserved
                 && TotalTokens(messages[i..]) > config.protectedTokens
                 && i + config.preserveLastN < ZoneStart(messages, config.protectedTokens)
  {
    var zone := ZoneStart(messages, config.protectedTokens);
    var recent := RecentStart(zone, config.preserveLastN);
    OfKindMembers(messages[..recent], IsCompactable, messages[i]);
    ZoneIsLongestTail(messages, config.protectedTokens, i);
    if i >= recent {
      assert forall k :: 0 <= k < recent ==> messages[k].id != messages[i].id;
    } else {
      assert messages[..recent][i] == messages[i];
    }
  }

  // ---------------------------------------------------------------------------
  // The three passes
  // ---------------------------------------------------------------------------

  datatype Category = InProtected | InRecent | InOlder(kind: Kind)

  /** The messages from `start` on, and only these, have a category. */
  ghost predicate CategorizedFrom(categories: map<MessageId, Category>, messages: seq<Message>, start: int) {
    forall j :: 0 <= j < |messages| ==> (messages[j].id in categories <==> start <= j)
  }

  lemma ZoneStartIs(messages: seq<Message>, budget: int, i: nat)
    requires i <= |messages|
    requires i < |messages| ==> TotalTokens(messages[i..]) <= budget
    requires i > 0 ==> TotalTokens(messages[i - 1..]) > budget
    ensures ZoneStart(messages, budget) == i
  {
    if i < |messages| {
      ZoneIsLongestTail(messages, budget, i);
    }
    if i > 0 {
      ZoneIsLongestTail(messages, budget, i - 1);
    }
  }

  /** First pass: from the newest message on, until one does not fit. */
  method ProtectNewest(messages: seq<Message>, tokens: seq<nat>, budget: int)
    returns (start: nat, zone: seq<Message>, sum: int, categories: map<MessageId, Category>)
    requires DistinctIds(messages) && PerMessage(messages, tokens)
    ensures start == ZoneStart(messages, budget) && zone == messages[start..] && sum == TotalTokens(zone)
    ensures CategorizedFrom(categories, messages, start)
  {
    start, zone, sum, categories := |messages|, [], 0, map[];
    while start > 0
      invariant start <= |messages| && zone == messages[start..] && sum == TotalTokens(zone)
      invariant start < |messages| ==> sum <= budget
      invariant CategorizedFrom(categories, messages, start)
    {
      var i := start - 1;
      TotalTokensFrom(messages, i);
      if sum + tokens[i] <= budget {
        sum := sum + tokens[i];
        categories := categories[messages[i].id := InProtected];
        zone := [messages[i]] + zone;
        start := i;
      } else {
        break;
      }
    }
    ZoneStartIs(messages, budget, start);
  }

  /** Second pass: the newest messages that are not protected, `n` at most. */
  method KeepRecent(messages: seq<Message>, tokens: seq<nat>, n: int, zone: nat, before: map<MessageId, Category>)
    returns (start: nat, recent: seq<Message>, sum: int, categories: map<MessageId, Category>)
    requires DistinctIds(messages) && PerMessage(messages, tokens) && zone <= |messages|
    requires CategorizedFrom(before, messages, zone)
    ensures start == RecentStart(zone, n) && recent == messages[start..zone] && sum == TotalTokens(recent)
    ensures CategorizedFrom(categories, messages, start)
  {
    recent, sum, categories := [], 0, before;
    var count := 0;
    var i := |messages|;
    while i > 0 && count < n
      invariant 0 <= i <= |messages|
      invariant count == if i < zone then zone - i else 0
      invariant if n <= 0 then count == 0 else count <= n
      invariant recent == messages[zone - count..zone] && sum == TotalTokens(recent)
      invariant CategorizedFrom(categories, messages, zone - count)
    {
      i := i - 1;
      if messages[i].id !in categories {
        assert [messages[i]] + recent == messages[i..zone];
        assert messages[i..zone][1..] == recent;
        categories := categories[messages[i].id := InRecent];
        recent := [messages[i]] + recent;
        sum := sum + tokens[i];
        count := count + 1;
      }
    }
    start := zone - count;
  }

  lemma OfKindOfNext(messages: seq<Message>, n: nat, kind: Kind)
    requires n < |messages|
    ensures OfKind(messages[..n + 1], kind)
            == if KindOf(messages[n]) == kind then OfKind(messages[..n], kind) + [messages[n]]
               else OfKind(messages[..n], kind)
  {
    OfKindOfAppend(messages[..n], messages[n], kind);
    assert messages[..n] + [messages[n]] == messages[..n + 1];
  }

  /** Third pass: what is left, in order, by its flags. */
  method SortOlder(messages: seq<Message>, tokens: seq<nat>, ghost start: nat, before: map<MessageId, Category>)
    returns (summaries: seq<Message>, preserved: seq<Message>, compactable: seq<Message>,
             summaryTokens: int, preservedTokens: int, compactableTokens: int)
    requires DistinctIds(messages) && PerMessage(messages, tokens) && start <= |messages|
    requires CategorizedFrom(before, messages, start)
    ensures summaries == OfKind(messages[..start], IsSummary) && summaryTokens == TotalTokens(summaries)
    ensures preserved == OfKind(messages[..start], IsPreserved) && preservedTokens == TotalTokens(preserved)
    ensures compactable == OfKind(messages[..start], IsCompactable) && compactableTokens == TotalTokens(compactable)
  {
    summaries, preserved, compactable := [], [], [];
    summaryTokens, preservedTokens, compactableTokens := 0, 0, 0;
    var categories := before;
    ghost var done := 0;
    for i := 0 to |messages|
      invariant done == if i < start then i else start
      invariant forall j :: i <= j < |messages| ==> (messages[j].id in categories <==> start <= j)
      invariant summaries == OfKind(messages[..done], IsSummary) && summaryTokens == TotalTokens(summaries)
      invariant preserved == OfKind(messages[..done], IsPreserved) && preservedTokens == TotalTokens(preserved)
      invariant compactable == OfKind(messages[..done], IsCompactable)
      invariant compactableTokens == TotalTokens(compactable)
    {
      var m := messages[i];
      if m.id !in categories {
        OfKindOfNext(messages, done, IsSummary);
        OfKindOfNext(messages, done, IsPreserved);
        OfKindOfNext(messages, done, IsCompactable);
        categories := categories[m.id := InOlder(KindOf(m))];
        if m.isSummary {
          TotalTokensOfAppend(summaries, m);
          summaries := summaries + [m];
          summaryTokens := summaryTokens + tokens[i];
        } else if m.isPreserved {
          TotalTokensOfAppend(preserved, m);
          preserved := preserved + [m];
          preservedTokens := preservedTokens + tokens[i];
        } else {
          TotalTokensOfAppend(compactable, m);
          compactable := compactable + [m];
          compactableTokens := compactableTokens + tokens[i];
        }
        done := done + 1;
      }
    }
  }

  /** Counts come from the estimate even when the API gave the total. */
  method EstimatePerMessage(messages: seq<Message>, count: TokenCount) returns (tokens: seq<nat>)
    requires |count.perMessage| == |messages| ==> PerMessage(messages, count.perMessage)
    ensures PerMessage(messages, tokens)
  {
    if |count.perMessage| == |messages| {
      return count.perMessage;
    }
    tokens := [];
    for i := 0 to |messages|
      invariant PerMessage(messages[..i], tokens)
    {
      var t := EstimateMessageTokens(messages[i]);
      tokens := tokens + [t];
    }
    assert messages[..|messages|] == messages;
  }

  method PartitionMessages(counter: TokenCounter, config: Config, messages: seq<Message>, api: Option<int>)
    returns (p: MessagePartition)
    requires DistinctIds(messages)
    modifies counter`fallback
    ensures messages == [] ==> p == PartitionOf(messages, config, 0) && counter.fallback == old(counter.fallback)
    ensures messages != [] ==> && counter.fallback == (old(counter.fallback) || (counter.useApi && api.None?))
                               && p == PartitionOf(messages, config,
                                                   if old(counter.Asks()) && api.Some? then api.value
                                                   else TotalTokens(messages))
  {
    if |messages| == 0 {
      return MessagePartition([], [], [], [], [], NO_STATS);
    }
    var count := counter.CountTokens(messages, api);
    var tokens := EstimatePerMessage(messages, count);
    var zone, protectedZone, protectedTokens, protectedCategories :=
      ProtectNewest(messages, tokens, config.protectedTokens);
    var start, recent, recentTokens, categories :=
      KeepRecent(messages, tokens, config.preserveLastN, zone, protectedCategories);
    var summaries, preserved, compactable, summaryTokens, preservedTokens, compactableTokens :=
      SortOlder(messages, tokens, start, categories);
    p := MessagePartition(protectedZone, preserved, recent, summaries, compactable,
                          Stats(protectedTokens, preservedTokens, recentTokens, summaryTokens, compactableTokens,
                                count.total));
  }

  function AllPreservedIds(p: MessagePartition): seq<MessageId> {
    Ids(p.protectedZone) + Ids(p.preserved) + Ids(p.recent) + Ids(p.summaries)
  }
}
