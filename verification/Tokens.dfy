/** Token counting: the character-based estimate, and the counter that falls back to it. Strings are
    sequences of bytes here, as Go's len counts them. */
module Tokens {
  import opened Content

  type MessageId = nat

  datatype Message = Message(
    id: MessageId,
    run: Option<nat>,
    role: Role,
    content: seq<ContentBlock>,
    isPreserved: bool,
    isSummary: bool)

  const MESSAGE_OVERHEAD := 4
  const TOOL_OVERHEAD := 10
  const IMAGE_TOKENS := 200

  function ApproximateTokens(text: string): nat {
    (|text| + 3) / 4
  }

  /** The estimate rounds up to whole groups of four bytes, so joining texts saves at most one token. */
  lemma ApproximateTokensOfJoin(a: string, b: string)
    ensures ApproximateTokens(a + b) <= ApproximateTokens(a) + ApproximateTokens(b) <= ApproximateTokens(a + b) + 1
    ensures ApproximateTokens(a) == 0 <==> a == ""
    ensures |a| <= 4 * ApproximateTokens(a) < |a| + 4
  {
    assert |a + b| == |a| + |b|;
  }

  function BlockTokens(b: ContentBlock): nat {
    match b.kind
    case Text => ApproximateTokens(b.text)
    case ToolUse => ApproximateTokens(b.toolName) + TOOL_OVERHEAD + ApproximateTokens(b.toolInput)
    case ToolResult => TOOL_OVERHEAD + ApproximateTokens(b.toolContent)
    case Thinking => ApproximateTokens(b.text)
    case Image => IMAGE_TOKENS
    case Document => IMAGE_TOKENS
    case WebSearchResult => ApproximateTokens(b.searchResults)
    case ServerToolUse => ApproximateTokens(b.text)
  }

  function ContentTokens(content: seq<ContentBlock>): nat {
    if content == [] then 0 else BlockTokens(content[0]) + ContentTokens(content[1..])
  }

  function MessageTokens(m: Message): nat {
    MESSAGE_OVERHEAD + ContentTokens(m.content)
  }

  function TotalTokens(messages: seq<Message>): nat {
    if messages == [] then 0 else MessageTokens(messages[0]) + TotalTokens(messages[1..])
  }

  lemma {:induction false} ContentTokensOfConcat(a: seq<ContentBlock>, b: seq<ContentBlock>)
    ensures ContentTokens(a + b) == ContentTokens(a) + ContentTokens(b)
  {
    if a == [] {
      assert a + b == b;
    } else {
      assert (a + b)[1..] == a[1..] + b;
      ContentTokensOfConcat(a[1..], b);
    }
  }

  lemma {:induction false} TotalTokensOfConcat(a: seq<Message>, b: seq<Message>)
    ensures TotalTokens(a + b) == TotalTokens(a) + TotalTokens(b)
  {
    if a == [] {
      assert a + b == b;
    } else {
      assert (a + b)[1..] == a[1..] + b;
      TotalTokensOfConcat(a[1..], b);
    }
  }

  lemma TotalTokensOfAppend(a: seq<Message>, m: Message)
    ensures TotalTokens(a + [m]) == TotalTokens(a) + MessageTokens(m)
  {
    TotalTokensOfConcat(a, [m]);
    assert TotalTokens([m]) == MessageTokens(m) + TotalTokens([]);
  }

  lemma TotalTokensFrom(messages: seq<Message>, i: nat)
    requires i < |messages|
    ensures TotalTokens(messages[i..]) == MessageTokens(messages[i]) + TotalTokens(messages[i + 1..])
  {
    assert messages[i..][0] == messages[i] && messages[i..][1..] == messages[i + 1..];
  }

  function Texts(texts: seq<string>): seq<ContentBlock> {
    seq(|texts|, i requires 0 <= i < |texts| => TextBlock(texts[i]))
  }

  function Joined(texts: seq<string>): string {
    if texts == [] then "" else texts[0] + Joined(texts[1..])
  }

  /** However a text is spread over the blocks of a message, the estimate is that of the text in one
      block, or at most one more for each further block. */
  lemma {:induction false} EstimateOfSpreadText(texts: seq<string>)
    requires texts != []
    ensures ApproximateTokens(Joined(texts)) <= ContentTokens(Texts(texts))
         <= ApproximateTokens(Joined(texts)) + |texts| - 1
  {
    assert Texts(texts)[1..] == Texts(texts[1..]);
    if |texts| == 1 {
      assert Joined(texts) == texts[0] + "";
    } else {
      EstimateOfSpreadText(texts[1..]);
      ApproximateTokensOfJoin(texts[0], Joined(texts[1..]));
    }
  }

  method EstimateMessageTokens(m: Message) returns (total: nat)
    ensures total == MessageTokens(m)
  {
    total := MESSAGE_OVERHEAD;
    for i := 0 to |m.content|
      invariant total == MESSAGE_OVERHEAD + ContentTokens(m.content[..i])
    {
      var block := m.content[i];
      ContentTokensOfConcat(m.content[..i], [block]);
      assert m.content[..i] + [block] == m.content[..i + 1];
      match block.kind {
        case Text => total := total + ApproximateTokens(block.text);
        case ToolUse =>
          total := total + ApproximateTokens(block.toolName) + TOOL_OVERHEAD;
          if |block.toolInput| > 0 {
            total := total + ApproximateTokens(block.toolInput);
          }
        case ToolResult =>
          total := total + TOOL_OVERHEAD;
          total := total + ApproximateTokens(block.toolContent);
        case Thinking => total := total + ApproximateTokens(block.text);
        case Image => total := total + IMAGE_TOKENS;
        case Document => total := total + IMAGE_TOKENS;
        case WebSearchResult =>
          if |block.searchResults| > 0 {
            total := total + ApproximateTokens(block.searchResults);
          }
        case ServerToolUse =>
          if block.text != "" {
            total := total + ApproximateTokens(block.text);
          }
      }
    }
    assert m.content[..|m.content|] == m.content;
  }

  datatype TokenCount = TokenCount(total: int, usedApi: bool, perMessage: seq<nat>)

  predicate PerMessage(messages: seq<Message>, tokens: seq<nat>) {
    |tokens| == |messages| && forall i :: 0 <= i < |messages| ==> tokens[i] == MessageTokens(messages[i])
  }

  method CountWithApproximation(messages: seq<Message>) returns (count: TokenCount)
    ensures count.total == TotalTokens(messages) && !count.usedApi && PerMessage(messages, count.perMessage)
  {
    var perMessage := [];
    var total := 0;
    for i := 0 to |messages|
      invariant total == TotalTokens(messages[..i]) && PerMessage(messages[..i], perMessage)
    {
      var tokens := EstimateMessageTokens(messages[i]);
      TotalTokensOfAppend(messages[..i], messages[i]);
      assert messages[..i] + [messages[i]] == messages[..i + 1];
      perMessage := perMessage + [tokens];
      total := total + tokens;
    }
    assert messages[..|messages|] == messages;
    count := TokenCount(total, false, perMessage);
  }

  /** `useApi` also says that a client is configured. An answer of None is a failed request: from then
      on the counter only estimates. */
  class TokenCounter {
    const useApi: bool
    var fallback: bool

    constructor (useApi: bool)
      ensures this.useApi == useApi && !fallback
    {
      this.useApi := useApi;
      fallback := false;
    }

    predicate Asks()
      reads this
    {
      useApi && !fallback
    }

    method CountTokens(messages: seq<Message>, api: Option<int>) returns (count: TokenCount)
      modifies this`fallback
      ensures fallback == (old(fallback) || (useApi && api.None?))
      ensures count.usedApi == (old(Asks()) && api.Some?)
      ensures if count.usedApi then count.total == api.value && count.perMessage == []
              else count.total == TotalTokens(messages) && PerMessage(messages, count.perMessage)
    {
      if useApi && !fallback {
        match api {
          case Some(total) => return TokenCount(total, true, []);
          case None => fallback := true;
        }
      }
      count := CountWithApproximation(messages);
    }

    method CountTokensForContent(text: string, api: Option<int>) returns (tokens: int)
      modifies this`fallback
      ensures fallback == (old(fallback) || (useApi && api.None?))
      ensures tokens == if old(Asks()) && api.Some? then api.value else ApproximateTokens(text)
    {
      if useApi && !fallback {
        match api {
          case Some(total) => return total;
          case None => fallback := true;
        }
      }
      tokens := ApproximateTokens(text);
    }
  }
}
