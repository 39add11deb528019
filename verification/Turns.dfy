/** The request's message list: stored messages are converted and neighbours with the same role merged.
    The batch and the streaming worker share this loop. */
module Turns {
  import opened Content
  import opened RunMachine

  datatype Turn = Turn(role: Role, content: seq<ContentBlock>)

  /** The model knows two roles: everything but the assistant speaks as the user. */
  function RequestRole(role: Role): Role {
    if role == Assistant then Assistant else User
  }

  predicate Convertible(b: ContentBlock) {
    b.kind == Text || b.kind == ToolUse || b.kind == ToolResult
  }

  /** What a block becomes: only the fields of its type travel. */
  function Convert(b: ContentBlock): ContentBlock {
    match b.kind
    case Text => TextBlock(b.text)
    case ToolUse => ToolUseBlock(b.toolUseId, b.toolName, b.toolInput)
    case ToolResult => ToolResultBlock(b.toolResultForUseId, b.toolContent, b.isError)
    case Image => b
    case Document => b
    case Thinking => b
    case ServerToolUse => b
    case WebSearchResult => b
  }

  function ConvertAll(content: seq<ContentBlock>): seq<ContentBlock> {
    if content == [] then []
    else (if Convertible(content[0]) then [Convert(content[0])] else []) + ConvertAll(content[1..])
  }

  /** One convertible block and who says it. */
  datatype Said = Said(role: Role, block: ContentBlock)

  function Tag(role: Role, content: seq<ContentBlock>): seq<Said> {
    seq(|content|, i requires 0 <= i < |content| => Said(role, content[i]))
  }

  /** Everything said in the stored messages, in order. */
  function SaidIn(messages: seq<StoredMessage>): seq<Said> {
    if messages == [] then []
    else Tag(RequestRole(messages[0].role), ConvertAll(messages[0].content)) + SaidIn(messages[1..])
  }

  function SaidInTurns(turns: seq<Turn>): seq<Said> {
    if turns == [] then [] else Tag(turns[0].role, turns[0].content) + SaidInTurns(turns[1..])
  }

  /** What the API asks for: roles alternate, and nobody says nothing. */
  predicate Alternating(turns: seq<Turn>) {
    && (forall i :: 0 <= i < |turns| ==> turns[i].content != [])
    && (forall i :: 0 <= i < |turns| - 1 ==> turns[i].role != turns[i + 1].role)
  }

  // ---------------------------------------------------------------------------
  // The loop
  // ---------------------------------------------------------------------------

  lemma {:induction false} ConvertAllOfAppend(content: seq<ContentBlock>, b: ContentBlock)
    ensures ConvertAll(content + [b]) == ConvertAll(content) + if Convertible(b) then [Convert(b)] else []
  {
    if content == [] {
      assert content + [b] == [b];
      assert ConvertAll([b]) == (if Convertible(b) then [Convert(b)] else []) + ConvertAll([]);
    } else {
      var head := if Convertible(content[0]) then [Convert(content[0])] else [];
      assert (content + [b])[1..] == content[1..] + [b];
      assert ConvertAll(content + [b]) == head + ConvertAll(content[1..] + [b]);
      ConvertAllOfAppend(content[1..], b);
    }
  }

  lemma {:induction false} SaidInOfAppend(messages: seq<StoredMessage>, m: StoredMessage)
    ensures SaidIn(messages + [m]) == SaidIn(messages) + Tag(RequestRole(m.role), ConvertAll(m.content))
  {
    if messages == [] {
      assert messages + [m] == [m];
      assert SaidIn([m]) == Tag(RequestRole(m.role), ConvertAll(m.content)) + SaidIn([]);
    } else {
      assert (messages + [m])[1..] == messages[1..] + [m];
      SaidInOfAppend(messages[1..], m);
    }
  }

  lemma {:induction false} SaidInTurnsOfAppend(turns: seq<Turn>, t: Turn)
    ensures SaidInTurns(turns + [t]) == SaidInTurns(turns) + Tag(t.role, t.content)
  {
    if turns == [] {
      assert turns + [t] == [t];
      assert SaidInTurns([t]) == Tag(t.role, t.content) + SaidInTurns([]);
    } else {
      assert (turns + [t])[1..] == turns[1..] + [t];
      SaidInTurnsOfAppend(turns[1..], t);
    }
  }

  lemma TagOfConcat(role: Role, a: seq<ContentBlock>, b: seq<ContentBlock>)
    ensures Tag(role, a + b) == Tag(role, a) + Tag(role, b)
  {
  }

  method ConvertBlocks(blocks: seq<ContentBlock>) returns (content: seq<ContentBlock>)
    ensures content == ConvertAll(blocks)
  {
    content := [];
    for i := 0 to |blocks|
      invariant content == ConvertAll(blocks[..i])
    {
      var block := blocks[i];
      ConvertAllOfAppend(blocks[..i], block);
      assert blocks[..i] + [block] == blocks[..i + 1];
      match block.kind {
        case Text => content := content + [TextBlock(block.text)];
        case ToolUse => content := content + [ToolUseBlock(block.toolUseId, block.toolName, block.toolInput)];
        case ToolResult =>
          content := content + [ToolResultBlock(block.toolResultForUseId, block.toolContent, block.isError)];
        case Image =>
        case Document =>
        case Thinking =>
        case ServerToolUse =>
        case WebSearchResult =>
      }
    }
    assert blocks[..|blocks|] == blocks;
  }

  lemma LongerSays(turns: seq<Turn>, content: seq<ContentBlock>)
    requires turns != []
    ensures var n := |turns| - 1;
            var longer := turns[n].(content := turns[n].content + content);
            SaidInTurns(turns[n := longer]) == SaidInTurns(turns) + Tag(turns[n].role, content)
  {
    var n := |turns| - 1;
    var last := turns[n];
    var longer := last.(content := last.content + content);
    SaidInTurnsOfAppend(turns[..n], last);
    SaidInTurnsOfAppend(turns[..n], longer);
    TagOfConcat(last.role, last.content, content);
    assert turns == turns[..n] + [last] && turns[n := longer] == turns[..n] + [longer];
  }

  /** A message into the list: appended to the last turn if the role is the same. */
  method AddMessage(turns: seq<Turn>, role: Role, content: seq<ContentBlock>) returns (merged: seq<Turn>)
    requires Alternating(turns)
    ensures Alternating(merged) && SaidInTurns(merged) == SaidInTurns(turns) + Tag(role, content)
  {
    merged := turns;
    if |content| == 0 {
      return;
    }
    if |merged| > 0 && merged[|merged| - 1].role == role {
      var n := |merged| - 1;
      var last := merged[n];
      merged := merged[n := last.(content := last.content + content)];
      LongerSays(turns, content);
    } else {
      merged := merged + [Turn(role, content)];
      SaidInTurnsOfAppend(turns, Turn(role, content));
    }
  }

  lemma SaidInNext(messages: seq<StoredMessage>, i: nat)
    requires i < |messages|
    ensures SaidIn(messages[..i + 1])
         == SaidIn(messages[..i]) + Tag(RequestRole(messages[i].role), ConvertAll(messages[i].content))
  {
    SaidInOfAppend(messages[..i], messages[i]);
    assert messages[..i] + [messages[i]] == messages[..i + 1];
  }

  /** buildMessages, from the stored messages on. */
  method BuildMessages(sessionMessages: seq<StoredMessage>) returns (turns: seq<Turn>)
    ensures Alternating(turns) && SaidInTurns(turns) == SaidIn(sessionMessages)
  {
    turns := [];
    for i := 0 to |sessionMessages|
      invariant Alternating(turns) && SaidInTurns(turns) == SaidIn(sessionMessages[..i])
    {
      var m := sessionMessages[i];
      var role := if m.role == Assistant then Assistant else User;
      var content := ConvertBlocks(m.content);
      SaidInNext(sessionMessages, i);
      turns := AddMessage(turns, role, content);
    }
    assert sessionMessages[..|sessionMessages|] == sessionMessages;
  }

  // ---------------------------------------------------------------------------
  // The result is a normal form
  // ---------------------------------------------------------------------------

  /** How many of the first things said are said by one role. */
  function Prefix(role: Role, said: seq<Said>): nat {
    if said == [] || said[0].role != role then 0 else 1 + Prefix(role, said[1..])
  }

  lemma {:induction false} PrefixOfTag(role: Role, content: seq<ContentBlock>, rest: seq<Said>)
    requires rest == [] || rest[0].role != role
    ensures Prefix(role, Tag(role, content) + rest) == |content|
  {
    if content == [] {
      assert Tag(role, content) + rest == rest;
    } else {
      assert (Tag(role, content) + rest)[1..] == Tag(role, content[1..]) + rest;
      PrefixOfTag(role, content[1..], rest);
    }
  }

  /** The first turn of an alternating list can be read off what is said. */
  lemma FirstTurn(turns: seq<Turn>)
    requires Alternating(turns) && turns != []
    ensures var said := SaidInTurns(turns);
            var n := |turns[0].content|;
            && said != [] && said[0].role == turns[0].role && Prefix(turns[0].role, said) == n
            && n <= |said| && said[..n] == Tag(turns[0].role, turns[0].content)
            && said[n..] == SaidInTurns(turns[1..])
  {
    var rest := SaidInTurns(turns[1..]);
    if |turns| > 1 {
      assert rest[0] == Said(turns[1].role, turns[1].content[0]);
    }
    PrefixOfTag(turns[0].role, turns[0].content, rest);
  }

  /** Two alternating lists that say the same are the same: the result is determined by what is said,
      however it was spread over the stored messages. */
  lemma {:induction false} AlternatingIsCanonical(a: seq<Turn>, b: seq<Turn>)
    requires Alternating(a) && Alternating(b) && SaidInTurns(a) == SaidInTurns(b)
    ensures a == b
  {
    if a == [] {
      if b != [] {
        FirstTurn(b);
      }
    } else {
      FirstTurn(a);
      if b != [] {
        FirstTurn(b);
        assert a[0].content == b[0].content by {
          forall i | 0 <= i < |a[0].content| ensures a[0].content[i] == b[0].content[i] {
            assert Tag(a[0].role, a[0].content)[i] == Tag(b[0].role, b[0].content)[i];
          }
        }
        AlternatingIsCanonical(a[1..], b[1..]);
        assert a == [a[0]] + a[1..] && b == [b[0]] + b[1..];
      }
    }
  }
}
