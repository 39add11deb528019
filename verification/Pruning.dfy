/** Phase one of hybrid compaction: long tool outputs are replaced by a placeholder. */
module Pruning {
  import opened Content
  import opened Tokens

  const PRUNED_PLACEHOLDER := "[TOOL OUTPUT PRUNED]"

  predicate Prunable(b: ContentBlock) {
    b.kind == ToolResult && |b.toolContent| > |PRUNED_PLACEHOLDER|
  }

  /** The pruned block is built anew: only type, tool id and error flag are copied. */
  function PruneBlock(b: ContentBlock): ContentBlock {
    if Prunable(b) then ToolResultBlock(b.toolResultForUseId, PRUNED_PLACEHOLDER, b.isError) else b
  }

  function PruneContent(content: seq<ContentBlock>): (pruned: seq<ContentBlock>)
    ensures |pruned| == |content|
    ensures forall i :: 0 <= i < |content| ==> pruned[i] == PruneBlock(content[i])
  {
    seq(|content|, i requires 0 <= i < |content| => PruneBlock(content[i]))
  }

  function PruneMessage(m: Message): Message {
    if m.isPreserved || m.isSummary then m else m.(content := PruneContent(m.content))
  }

  function Prune(messages: seq<Message>): (pruned: seq<Message>)
    ensures |pruned| == |messages|
    ensures forall i :: 0 <= i < |messages| ==> pruned[i] == PruneMessage(messages[i])
  {
    seq(|messages|, i requires 0 <= i < |messages| => PruneMessage(messages[i]))
  }

  function SavedByBlock(b: ContentBlock): int {
    if Prunable(b) then ApproximateTokens(b.toolContent) - ApproximateTokens(PRUNED_PLACEHOLDER) else 0
  }

  function SavedByContent(content: seq<ContentBlock>): int {
    if content == [] then 0 else SavedByBlock(content[0]) + SavedByContent(content[1..])
  }

  function SavedBy(messages: seq<Message>): int {
    if messages == [] then 0
    else (if messages[0].isPreserved || messages[0].isSummary then 0 else SavedByContent(messages[0].content))
         + SavedBy(messages[1..])
  }

  /** How many blocks are replaced. */
  function ReplacedIn(content: seq<ContentBlock>): nat {
    if content == [] then 0 else (if Prunable(content[0]) then 1 else 0) + ReplacedIn(content[1..])
  }

  function Replaced(messages: seq<Message>): nat {
    if messages == [] then 0
    else (if messages[0].isPreserved || messages[0].isSummary then 0 else ReplacedIn(messages[0].content))
         + Replaced(messages[1..])
  }

  predicate HasPrunable(m: Message) {
    !m.isPreserved && !m.isSummary && exists i :: 0 <= i < |m.content| && Prunable(m.content[i])
  }

  // ---------------------------------------------------------------------------
  // Pruning is exact
  // ---------------------------------------------------------------------------

  /** A replaced block is at least one token cheaper. */
  lemma BlockSaves(b: ContentBlock)
    ensures BlockTokens(b) == BlockTokens(PruneBlock(b)) + SavedByBlock(b)
    ensures Prunable(b) ==> SavedByBlock(b) >= 1
  {
  }

  lemma {:induction false} ContentSaves(content: seq<ContentBlock>)
    ensures ContentTokens(content) == ContentTokens(PruneContent(content)) + SavedByContent(content)
    ensures SavedByContent(content) >= ReplacedIn(content)
  {
    if content != [] {
      BlockSaves(content[0]);
      ContentSaves(content[1..]);
      assert PruneContent(content)[1..] == PruneContent(content[1..]);
    }
  }

  /** The reported saving is the change of the estimate, to the token, and at least one per block. */
  lemma {:induction false} PruningIsExact(messages: seq<Message>)
    ensures TotalTokens(messages) == TotalTokens(Prune(messages)) + SavedBy(messages)
    ensures SavedBy(messages) >= Replaced(messages)
  {
    if messages != [] {
      ContentSaves(messages[0].content);
      PruningIsExact(messages[1..]);
      assert Prune(messages)[1..] == Prune(messages[1..]);
    }
  }

  /** Pruning changes tool outputs only: messages, blocks, their order, types, tool ids and error flags
      stay, and a message changes exactly if it holds a prunable block and no flag. */
  lemma PruningKeepsShape(m: Message)
    ensures PruneMessage(m).(content := m.content) == m && |PruneMessage(m).content| == |m.content|
    ensures forall i :: 0 <= i < |m.content| ==>
              var (b, b') := (m.content[i], PruneMessage(m).content[i]);
              b'.kind == b.kind && b'.isError == b.isError
              && (b.kind == ToolResult ==> b'.toolResultForUseId == b.toolResultForUseId)
              && (b.kind != ToolResult ==> b' == b)
    ensures PruneMessage(m) != m <==> HasPrunable(m)
  {
    if HasPrunable(m) {
      var i :| 0 <= i < |m.content| && Prunable(m.content[i]);
      assert |PruneMessage(m).content[i].toolContent| < |m.content[i].toolContent|;
    } else {
      assert PruneMessage(m).content == m.content;
    }
  }

  lemma PrunedMessageIsPruned(m: Message)
    ensures PruneMessage(PruneMessage(m)) == PruneMessage(m) && !HasPrunable(PruneMessage(m))
  {
    assert PruneMessage(PruneMessage(m)).content == PruneMessage(m).content;
  }

  /** A second pass changes nothing and saves nothing. */
  lemma PruningIsIdempotent(messages: seq<Message>)
    ensures Prune(Prune(messages)) == Prune(messages) && SavedBy(Prune(messages)) == 0
  {
    forall i | 0 <= i < |messages| ensures Prune(Prune(messages))[i] == Prune(messages)[i] {
      PrunedMessageIsPruned(messages[i]);
    }
    assert Prune(Prune(messages)) == Prune(messages);
    PruningIsExact(Prune(messages));
  }

  // ---------------------------------------------------------------------------
  // The loops
  // ---------------------------------------------------------------------------

  lemma {:induction false} SavedByContentOfAppend(content: seq<ContentBlock>, b: ContentBlock)
    ensures SavedByContent(content + [b]) == SavedByContent(content) + SavedByBlock(b)
  {
    if content == [] {
      assert content + [b] == [b];
      assert SavedByContent([b]) == SavedByBlock(b) + SavedByContent([]);
    } else {
      assert (content + [b])[1..] == content[1..] + [b];
      SavedByContentOfAppend(content[1..], b);
    }
  }

  lemma {:induction false} SavedByOfAppend(messages: seq<Message>, m: Message)
    ensures SavedBy(messages + [m])
            == SavedBy(messages) + if m.isPreserved || m.isSummary then 0 else SavedByContent(m.content)
  {
    if messages == [] {
      assert messages + [m] == [m];
      assert SavedBy([m])
             == (if m.isPreserved || m.isSummary then 0 else SavedByContent(m.content)) + SavedBy([]);
    } else {
      assert (messages + [m])[1..] == messages[1..] + [m];
      SavedByOfAppend(messages[1..], m);
    }
  }

  lemma {:induction false} NothingToSave(content: seq<ContentBlock>)
    requires forall i :: 0 <= i < |content| ==> !Prunable(content[i])
    ensures SavedByContent(content) == 0
  {
    if content != [] {
      NothingToSave(content[1..]);
    }
  }

  method PruneBlocks(blocks: seq<ContentBlock>) returns (content: seq<ContentBlock>, saved: int)
    ensures content == PruneContent(blocks) && saved == SavedByContent(blocks)
  {
    content, saved := [], 0;
    for i := 0 to |blocks|
      invariant content == PruneContent(blocks[..i]) && saved == SavedByContent(blocks[..i])
    {
      var block := blocks[i];
      SavedByContentOfAppend(blocks[..i], block);
      assert blocks[..i] + [block] == blocks[..i + 1];
      if block.kind == ToolResult && |block.toolContent| > |PRUNED_PLACEHOLDER| {
        saved := saved + ApproximateTokens(block.toolContent) - ApproximateTokens(PRUNED_PLACEHOLDER);
        content := content + [ToolResultBlock(block.toolResultForUseId, PRUNED_PLACEHOLDER, block.isError)];
      } else {
        content := content + [block];
      }
    }
    assert blocks[..|blocks|] == blocks;
  }

  method PruneToolOutputs(messages: seq<Message>) returns (pruned: seq<Message>, tokensSaved: int)
    ensures pruned == Prune(messages) && tokensSaved == SavedBy(messages)
  {
    pruned, tokensSaved := [], 0;
    for n := 0 to |messages|
      invariant pruned == Prune(messages[..n]) && tokensSaved == SavedBy(messages[..n])
    {
      var m := messages[n];
      SavedByOfAppend(messages[..n], m);
      assert messages[..n] + [m] == messages[..n + 1];
      if m.isPreserved || m.isSummary {
        pruned := pruned + [m];
        continue;
      }
      var hasPrunable := false;
      for i := 0 to |m.content|
        invariant !hasPrunable && forall j :: 0 <= j < i ==> !Prunable(m.content[j])
      {
        if m.content[i].kind == ToolResult && |m.content[i].toolContent| > |PRUNED_PLACEHOLDER| {
          hasPrunable := true;
          break;
        }
      }
      if !hasPrunable {
        NothingToSave(m.content);
        assert PruneContent(m.content) == m.content;
        pruned := pruned + [m];
        continue;
      }
      var content, saved := PruneBlocks(m.content);
      tokensSaved := tokensSaved + saved;
      pruned := pruned + [m.(content := content)];
    }
    assert messages[..|messages|] == messages;
  }

  /** What wasMessagePruned compares: a block is gone, or the output of a tool_result differs. */
  predicate DiffersAt(original: Message, pruned: Message, i: nat)
    requires i < |original.content|
  {
    i >= |pruned.content|
    || (original.content[i].kind == ToolResult
        && original.content[i].toolContent != pruned.content[i].toolContent)
  }

  predicate Differs(original: Message, pruned: Message) {
    original.id == pruned.id && exists i :: 0 <= i < |original.content| && DiffersAt(original, pruned, i)
  }

  lemma DiffersIffPruned(m: Message)
    ensures Differs(m, PruneMessage(m)) <==> PruneMessage(m) != m
  {
    PruningKeepsShape(m);
    if HasPrunable(m) {
      var i :| 0 <= i < |m.content| && Prunable(m.content[i]);
      assert |PruneMessage(m).content[i].toolContent| < |m.content[i].toolContent|;
      assert DiffersAt(m, PruneMessage(m), i);
    }
  }

  method WasMessagePruned(original: Message, pruned: Message) returns (changed: bool)
    ensures changed <==> Differs(original, pruned)
  {
    if original.id != pruned.id {
      return false;
    }
    for i := 0 to |original.content|
      invariant forall j :: 0 <= j < i ==> !DiffersAt(original, pruned, j)
    {
      if i >= |pruned.content| {
        assert DiffersAt(original, pruned, i);
        return true;
      }
      if original.content[i].kind == ToolResult && original.content[i].toolContent != pruned.content[i].toolContent {
        assert DiffersAt(original, pruned, i);
        return true;
      }
    }
    return false;
  }

  /** The ids of the messages that pruning changes, in order. */
  function PrunedIds(messages: seq<Message>): seq<MessageId> {
    if messages == [] then []
    else (if HasPrunable(messages[0]) then [messages[0].id] else []) + PrunedIds(messages[1..])
  }

  lemma PrunedIdsOfCons(m: Message, rest: seq<Message>)
    ensures PrunedIds([m] + rest) == (if HasPrunable(m) then [m.id] else []) + PrunedIds(rest)
  {
    assert ([m] + rest)[1..] == rest;
  }

  lemma {:induction false} PrunedIdsOfAppend(messages: seq<Message>, m: Message)
    ensures PrunedIds(messages + [m]) == PrunedIds(messages) + if HasPrunable(m) then [m.id] else []
  {
    if messages == [] {
      assert messages + [m] == [m] + [];
      PrunedIdsOfCons(m, []);
    } else {
      var head, rest := messages[0], messages[1..];
      assert messages == [head] + rest && messages + [m] == [head] + (rest + [m]);
      PrunedIdsOfCons(head, rest);
      PrunedIdsOfCons(head, rest + [m]);
      PrunedIdsOfAppend(rest, m);
    }
  }

  lemma {:induction false} PrunedIdsAreExact(messages: seq<Message>, id: MessageId)
    ensures id in PrunedIds(messages) <==>
            exists i :: 0 <= i < |messages| && messages[i].id == id && Prune(messages)[i] != messages[i]
  {
    if messages != [] {
      PrunedIdsAreExact(messages[1..], id);
      PruningKeepsShape(messages[0]);
      if i :| 0 <= i < |messages[1..]| && messages[1..][i].id == id && Prune(messages[1..])[i] != messages[1..][i] {
        assert messages[i + 1].id == id && Prune(messages)[i + 1] != messages[i + 1];
      }
      if i :| 0 < i < |messages| && messages[i].id == id && Prune(messages)[i] != messages[i] {
        assert messages[1..][i - 1].id == id && Prune(messages[1..])[i - 1] != messages[1..][i - 1];
      }
      if messages[0].id == id && HasPrunable(messages[0]) {
        assert Prune(messages)[0] != messages[0];
      }
    }
  }

  method FindPrunedMessageIds(original: seq<Message>, pruned: seq<Message>) returns (ids: seq<MessageId>)
    ensures pruned == Prune(original) ==> ids == PrunedIds(original)
    ensures pruned == original ==> ids == []
  {
    ids := [];
    for i := 0 to |original|
      invariant pruned == Prune(original) ==> ids == PrunedIds(original[..i])
      invariant pruned == original ==> ids == []
    {
      PrunedIdsOfAppend(original[..i], original[i]);
      PruningKeepsShape(original[i]);
      DiffersIffPruned(original[i]);
      assert original[..i] + [original[i]] == original[..i + 1];
      if i < |pruned| {
        var changed := WasMessagePruned(original[i], pruned[i]);
        if changed {
          ids := ids + [original[i].id];
        }
      }
    }
    assert original[..|original|] == original;
  }
}
