/** The tool call ids of messages, executions and results, as multisets: an assistant message may
    repeat an id, and results may come in any order. */
module ToolIds {
  import opened Content
  import opened Rows
  import opened RunMachine

  function CallIds(content: seq<ContentBlock>): multiset<string> {
    if content == [] then multiset{}
    else (if content[0].kind == ToolUse then multiset{content[0].toolUseId} else multiset{}) + CallIds(content[1..])
  }

  function ResultIds(content: seq<ContentBlock>): multiset<string> {
    if content == [] then multiset{}
    else
      (if content[0].kind == ToolResult then multiset{content[0].toolResultForUseId} else multiset{})
      + ResultIds(content[1..])
  }

  /** The ids of the executions of one iteration. */
  function IdsOf(execs: seq<ExecRow>, id: nat): multiset<string> {
    if execs == [] then multiset{}
    else
      var last := execs[|execs| - 1];
      IdsOf(execs[..|execs| - 1], id) + (if last.iteration == id then multiset{last.toolUseId} else multiset{})
  }

  function ExecIds(execs: seq<ExecRow>): multiset<string> {
    if execs == [] then multiset{} else multiset{execs[0].toolUseId} + ExecIds(execs[1..])
  }

  lemma {:induction false} CallIdsConcat(a: seq<ContentBlock>, b: seq<ContentBlock>)
    ensures CallIds(a + b) == CallIds(a) + CallIds(b)
  {
    if a == [] {
      assert a + b == b;
    } else {
      assert (a + b)[1..] == a[1..] + b;
      CallIdsConcat(a[1..], b);
    }
  }

  lemma {:induction false} ExecIdsConcat(a: seq<ExecRow>, b: seq<ExecRow>)
    ensures ExecIds(a + b) == ExecIds(a) + ExecIds(b)
  {
    if a == [] {
      assert a + b == b;
    } else {
      assert (a + b)[1..] == a[1..] + b;
      ExecIdsConcat(a[1..], b);
    }
  }

  lemma HasToolUseStep(blocks: seq<ResponseBlock>)
    requires blocks != []
    ensures HasToolUse(blocks) <==> blocks[0].RToolUse? || HasToolUse(blocks[1..])
  {
    if HasToolUse(blocks[1..]) {
      var i :| 0 <= i < |blocks[1..]| && blocks[1..][i].RToolUse?;
      assert blocks[i + 1].RToolUse?;
    }
    if HasToolUse(blocks) && !blocks[0].RToolUse? {
      var i :| 0 <= i < |blocks| && blocks[i].RToolUse?;
      assert blocks[1..][i - 1].RToolUse?;
    }
  }

  lemma BlockCall(mode: RunMode, b: ResponseBlock, id: nat, maxAttempts: int, now: int)
    ensures CallIds(ContentOfBlock(mode, b)) == ExecIds(ExecsOfBlock(b, id, maxAttempts, now))
    ensures CallIds(ContentOfBlock(mode, b)) != multiset{} <==> b.RToolUse?
    ensures ExecsOfBlock(b, id, maxAttempts, now) != [] <==> b.RToolUse?
  {
  }

  /** One execution per call, with the call's id: the two loops of processResult agree. */
  lemma {:induction false} CallsHaveExecs(mode: RunMode, blocks: seq<ResponseBlock>, id: nat,
                                          maxAttempts: int, now: int)
    ensures CallIds(ContentOf(mode, blocks)) == ExecIds(ToolExecs(blocks, id, maxAttempts, now))
    ensures CallIds(ContentOf(mode, blocks)) != multiset{} <==> HasToolUse(blocks)
    ensures ToolExecs(blocks, id, maxAttempts, now) != [] <==> HasToolUse(blocks)
  {
    if blocks != [] {
      CallsHaveExecs(mode, blocks[1..], id, maxAttempts, now);
      HasToolUseStep(blocks);
      BlockCall(mode, blocks[0], id, maxAttempts, now);
      CallIdsConcat(ContentOfBlock(mode, blocks[0]), ContentOf(mode, blocks[1..]));
      ExecIdsConcat(ExecsOfBlock(blocks[0], id, maxAttempts, now), ToolExecs(blocks[1..], id, maxAttempts, now));
    }
  }

  lemma {:induction false} NewExecsBelong(blocks: seq<ResponseBlock>, id: nat, maxAttempts: int, now: int)
    ensures forall k :: 0 <= k < |ToolExecs(blocks, id, maxAttempts, now)| ==>
              ToolExecs(blocks, id, maxAttempts, now)[k].iteration == id
  {
    if blocks != [] {
      NewExecsBelong(blocks[1..], id, maxAttempts, now);
    }
  }

  /** No execution of the iteration yet, then exactly the new ones. */
  lemma {:induction false} IdsOfNone(execs: seq<ExecRow>, id: nat)
    requires forall k :: 0 <= k < |execs| ==> execs[k].iteration != id
    ensures IdsOf(execs, id) == multiset{}
  {
    if execs != [] {
      IdsOfNone(execs[..|execs| - 1], id);
    }
  }

  lemma IdsOfMore(execs: seq<ExecRow>, e: ExecRow, id: nat)
    ensures IdsOf(execs + [e], id) == IdsOf(execs, id) + if e.iteration == id then multiset{e.toolUseId} else multiset{}
  {
    assert (execs + [e])[..|execs|] == execs;
  }

  lemma ExecIdsOfMore(execs: seq<ExecRow>, e: ExecRow)
    ensures ExecIds(execs + [e]) == ExecIds(execs) + multiset{e.toolUseId}
  {
    ExecIdsConcat(execs, [e]);
    assert ExecIds([e]) == multiset{e.toolUseId} + ExecIds([]);
  }

  lemma LastOfAdded(execs: seq<ExecRow>, added: seq<ExecRow>)
    requires added != []
    ensures var init, last := added[..|added| - 1], added[|added| - 1];
            added == init + [last] && execs + added == (execs + init) + [last]
  {
  }

  lemma Together(a: multiset<string>, b: multiset<string>, id: string)
    ensures (a + b) + multiset{id} == a + (b + multiset{id})
  {
  }

  lemma {:induction false} IdsOfAppended(execs: seq<ExecRow>, added: seq<ExecRow>, id: nat)
    requires forall k :: 0 <= k < |added| ==> added[k].iteration == id
    ensures IdsOf(execs + added, id) == IdsOf(execs, id) + ExecIds(added)
    decreases |added|
  {
    if added == [] {
      assert execs + added == execs;
    } else {
      var init, last := added[..|added| - 1], added[|added| - 1];
      IdsOfAppended(execs, init, id);
      LastOfAdded(execs, added);
      IdsOfMore(execs + init, last, id);
      ExecIdsOfMore(init, last);
      Together(IdsOf(execs, id), ExecIds(init), last.toolUseId);
    }
  }

  /** Updating executions in place does not change the ids of an iteration. */
  lemma {:induction false} IdsOfUnchanged(execs: seq<ExecRow>, execs': seq<ExecRow>, id: nat)
    requires |execs| == |execs'|
    requires forall k :: 0 <= k < |execs| ==>
               execs'[k].iteration == execs[k].iteration && execs'[k].toolUseId == execs[k].toolUseId
    ensures IdsOf(execs', id) == IdsOf(execs, id)
  {
    if execs != [] {
      IdsOfUnchanged(execs[..|execs| - 1], execs'[..|execs| - 1], id);
    }
  }

  lemma {:induction false} ResultIdsConcat(a: seq<ContentBlock>, b: seq<ContentBlock>)
    ensures ResultIds(a + b) == ResultIds(a) + ResultIds(b)
  {
    if a == [] {
      assert a + b == b;
    } else {
      assert (a + b)[1..] == a[1..] + b;
      ResultIdsConcat(a[1..], b);
    }
  }

  lemma ResultBlocksSplit(execs: seq<ExecRow>, a: seq<nat>, b: seq<nat>)
    requires forall j :: 0 <= j < |a + b| ==> (a + b)[j] < |execs|
    requires forall j :: 0 <= j < |a| ==> a[j] < |execs|
    requires forall j :: 0 <= j < |b| ==> b[j] < |execs|
    ensures ResultIds(ResultBlocks(execs, a + b))
            == ResultIds(ResultBlocks(execs, a)) + ResultIds(ResultBlocks(execs, b))
  {
    assert ResultBlocks(execs, a + b) == ResultBlocks(execs, a) + ResultBlocks(execs, b);
    ResultIdsConcat(ResultBlocks(execs, a), ResultBlocks(execs, b));
  }

  /** Taking one fetched execution out takes its id out of the results. */
  lemma PickOne(execs: seq<ExecRow>, fetched: seq<nat>, j: nat)
    requires j < |fetched|
    requires forall m :: 0 <= m < |fetched| ==> fetched[m] < |execs|
    ensures var without := fetched[..j] + fetched[j + 1..];
            && (forall m :: 0 <= m < |without| ==> without[m] < |execs|)
            && ResultIds(ResultBlocks(execs, fetched))
            == ResultIds(ResultBlocks(execs, without)) + multiset{execs[fetched[j]].toolUseId}
  {
    var before, one, after := fetched[..j], [fetched[j]], fetched[j + 1..];
    assert fetched == before + (one + after);
    ResultBlocksSplit(execs, before, one + after);
    ResultBlocksSplit(execs, one, after);
    ResultBlocksSplit(execs, before, after);
    assert ResultBlocks(execs, one) == [ResultBlock(execs[fetched[j]])];
  }

  lemma FewerExecs(execs: seq<ExecRow>, n: nat, fetched: seq<nat>)
    requires n <= |execs| && forall m :: 0 <= m < |fetched| ==> fetched[m] < n
    ensures ResultBlocks(execs, fetched) == ResultBlocks(execs[..n], fetched)
  {
  }

  /** Whatever order the executions of an iteration are fetched in, their results carry exactly the
      iteration's ids. */
  lemma {:induction false} ResultsCarryIds(execs: seq<ExecRow>, id: nat, fetched: seq<nat>)
    requires Fetches(execs, id, fetched)
    ensures ResultIds(ResultBlocks(execs, fetched)) == IdsOf(execs, id)
    decreases |execs|
  {
    if execs == [] {
      assert fetched == [];
      assert ResultBlocks(execs, fetched) == [];
    } else {
      var n := |execs| - 1;
      var rest := fetched;
      if execs[n].iteration == id {
        assert n in fetched;
        var j :| 0 <= j < |fetched| && fetched[j] == n;
        RemoveOne(execs, id, fetched, j);
        PickOne(execs, fetched, j);
        rest := Dropping(fetched, j);
      } else {
        LastNotFetched(execs, id, fetched);
      }
      ResultsCarryIds(execs[..n], id, rest);
      FewerExecs(execs, n, rest);
    }
  }

  lemma LastNotFetched(execs: seq<ExecRow>, id: nat, fetched: seq<nat>)
    requires execs != [] && execs[|execs| - 1].iteration != id && Fetches(execs, id, fetched)
    ensures Fetches(execs[..|execs| - 1], id, fetched)
  {
    forall m | 0 <= m < |fetched| ensures fetched[m] < |execs| - 1 {
      assert execs[fetched[m]].iteration == id;
    }
  }

  /** What remains of a list without its element at `j`. */
  function Dropping(fetched: seq<nat>, j: nat): seq<nat>
    requires j < |fetched|
  {
    fetched[..j] + fetched[j + 1..]
  }

  lemma DroppingKeepsBelonging(execs: seq<ExecRow>, id: nat, fetched: seq<nat>, j: nat, m: nat)
    requires execs != [] && Fetches(execs, id, fetched)
    requires j < |fetched| && fetched[j] == |execs| - 1 && m < |Dropping(fetched, j)|
    ensures Dropping(fetched, j)[m] < |execs| - 1 && execs[Dropping(fetched, j)[m]].iteration == id
  {
    var o := if m < j then m else m + 1;
    assert Dropping(fetched, j)[m] == fetched[o] && fetched[o] != fetched[j];
  }

  lemma DroppingKeepsDistinct(fetched: seq<nat>, j: nat, m: nat, m': nat)
    requires forall o, o' :: 0 <= o < o' < |fetched| ==> fetched[o] != fetched[o']
    requires j < |fetched| && m < m' < |Dropping(fetched, j)|
    ensures Dropping(fetched, j)[m] != Dropping(fetched, j)[m']
  {
    var o, o' := if m < j then m else m + 1, if m' < j then m' else m' + 1;
    assert Dropping(fetched, j)[m] == fetched[o] && Dropping(fetched, j)[m'] == fetched[o'];
  }

  lemma DroppingKeepsOthers(fetched: seq<nat>, j: nat, k: nat)
    requires j < |fetched| && k in fetched && k != fetched[j]
    ensures k in Dropping(fetched, j)
  {
    var o :| 0 <= o < |fetched| && fetched[o] == k;
    assert Dropping(fetched, j)[if o < j then o else o - 1] == k;
  }

  lemma RemoveOne(execs: seq<ExecRow>, id: nat, fetched: seq<nat>, j: nat)
    requires execs != [] && Fetches(execs, id, fetched)
    requires j < |fetched| && fetched[j] == |execs| - 1
    ensures Fetches(execs[..|execs| - 1], id, Dropping(fetched, j))
  {
    var rest, without := execs[..|execs| - 1], Dropping(fetched, j);
    forall m | 0 <= m < |without| ensures without[m] < |rest| && rest[without[m]].iteration == id {
      DroppingKeepsBelonging(execs, id, fetched, j, m);
    }
    forall m, m' | 0 <= m < m' < |without| ensures without[m] != without[m'] {
      DroppingKeepsDistinct(fetched, j, m, m');
    }
    forall k | 0 <= k < |rest| && rest[k].iteration == id ensures k in without {
      assert execs[k] == rest[k];
      DroppingKeepsOthers(fetched, j, k);
    }
  }
}
