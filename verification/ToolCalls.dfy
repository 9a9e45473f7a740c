/** Pairing the tool uses of a streamed run with their results. */
module ToolCalls {
  import opened Drift
  import opened Hashing

  // Content blocks as far as the pairing looks at them; anything else is `Other`.
  datatype Block =
    | ToolUse(id: string, name: string, command: string)
    | ToolResult(useId: string, content: string, isError: bool)
    | Other

  datatype Use = Use(name: string, command: string)
  datatype Outcome = Outcome(content: string, isError: bool)

  // The tool uses, in stream order.
  function Uses(blocks: seq<Block>): seq<Block>
  {
    if blocks == [] then []
    else Uses(blocks[..|blocks| - 1]) + if blocks[|blocks| - 1].ToolUse? then [blocks[|blocks| - 1]] else []
  }

  // The last result for an id, or an empty one.
  function ResultOf(blocks: seq<Block>, id: string): Outcome
  {
    if blocks == [] then Outcome("", false)
    else
      var last := blocks[|blocks| - 1];
      if last.ToolResult? && last.useId == id then Outcome(last.content, last.isError) else ResultOf(blocks[..|blocks| - 1], id)
  }

  // The last use of an id.
  function LastUse(blocks: seq<Block>, id: string): Use
  {
    if blocks == [] then Use("", "")
    else
      var last := blocks[|blocks| - 1];
      if last.ToolUse? && last.id == id then Use(last.name, last.command) else LastUse(blocks[..|blocks| - 1], id)
  }

  function CallFor(blocks: seq<Block>, id: string): ToolCall
  {
    CallWith(id, LastUse(blocks, id), ResultOf(blocks, id))
  }

  function ResultAt(results: map<string, Outcome>, id: string): Outcome
  {
    if id in results then results[id] else Outcome("", false)
  }

  function CallWith(id: string, use: Use, result: Outcome): ToolCall
  {
    ToolCall(id, use.name, use.command, if result.content == "" then "" else Sha256(result.content), result.isError)
  }

  method ToolCallsFromEvents(events: seq<seq<Block>>) returns (calls: seq<ToolCall>)
    ensures |calls| == |Uses(Flat(events))|
    ensures forall i :: 0 <= i < |calls| ==> Uses(Flat(events))[i].ToolUse? && calls[i] == CallFor(Flat(events), Uses(Flat(events))[i].id)
    ensures forall i :: 0 <= i < |calls| ==> Pairs(Flat(events), Uses(Flat(events))[i].id, calls[i])
  {
    hide Uses, ResultOf, LastUse, CallFor, CallWith, ResultAt, Pairs;
    var uses, results, order := Collect(events);
    ghost var blocks := Flat(events);
    calls := [];
    for i := 0 to |order|
      invariant |calls| == i && forall k :: 0 <= k < i ==> calls[k] == CallFor(blocks, order[k])
    {
      CollectedCall(blocks, uses, results, order, i);
      calls := calls + [CallWith(order[i], uses[order[i]], ResultAt(results, order[i]))];
    }
    forall i | 0 <= i < |calls| ensures Pairs(blocks, Uses(blocks)[i].id, calls[i]) {
      CallPairs(blocks, Uses(blocks)[i].id);
    }
  }

  // A call shows its id, the name and command of the last use of it, the error flag of its last
  // result, and the hash of that result unless it is empty.
  predicate Pairs(blocks: seq<Block>, id: string, call: ToolCall)
  {
    && call.toolUseId == id && call.name == LastUse(blocks, id).name && call.command == LastUse(blocks, id).command
    && call.isError == ResultOf(blocks, id).isError
    && (ResultOf(blocks, id).content == "" ==> call.resultHash == "")
    && (ResultOf(blocks, id).content != "" ==> call.resultHash == Sha256(ResultOf(blocks, id).content))
  }

  lemma CallPairs(blocks: seq<Block>, id: string)
    ensures Pairs(blocks, id, CallFor(blocks, id))
  {
  }

  // The pass over the stream: the last use and the last result of every id, and the order of uses.
  method Collect(events: seq<seq<Block>>) returns (uses: map<string, Use>, results: map<string, Outcome>, order: seq<string>)
    ensures Collected(Flat(events), uses, results, order)
  {
    hide Collected;
    uses, results, order := map[], map[], [];
    NothingCollected();
    for e := 0 to |events|
      invariant Collected(Flat(events[..e]), uses, results, order)
    {
      assert events[..e + 1][..e] == events[..e];
      assert Flat(events[..e]) + events[e][..0] == Flat(events[..e]);
      for b := 0 to |events[e]|
        invariant Collected(Flat(events[..e]) + events[e][..b], uses, results, order)
      {
        ghost var before := Flat(events[..e]) + events[e][..b];
        CollectMore(before, uses, results, order, events[e][b]);
        assert Flat(events[..e]) + events[e][..b + 1] == before + [events[e][b]];
        match events[e][b]
        case ToolUse(id, name, command) =>
          uses := uses[id := Use(name, command)];
          order := order + [id];
        case ToolResult(id, content, isError) => results := results[id := Outcome(content, isError)];
        case Other =>
      }
      assert events[e][..|events[e]|] == events[e];
    }
    assert events[..|events|] == events;
  }

  function Flat(events: seq<seq<Block>>): seq<Block>
  {
    if events == [] then [] else Flat(events[..|events| - 1]) + events[|events| - 1]
  }

  ghost predicate Collected(blocks: seq<Block>, uses: map<string, Use>, results: map<string, Outcome>, order: seq<string>)
  {
    && |order| == |Uses(blocks)|
    && (forall i :: 0 <= i < |order| ==> Uses(blocks)[i].ToolUse? && Uses(blocks)[i].id == order[i] && order[i] in uses)
    && (forall id :: id in uses ==> uses[id] == LastUse(blocks, id))
    && (forall id :: ResultAt(results, id) == ResultOf(blocks, id))
  }

  lemma NothingCollected()
    ensures Collected([], map[], map[], [])
  {
  }

  lemma CollectedCall(blocks: seq<Block>, uses: map<string, Use>, results: map<string, Outcome>, order: seq<string>, i: nat)
    requires Collected(blocks, uses, results, order) && i < |order|
    ensures |order| == |Uses(blocks)| && order[i] in uses && Uses(blocks)[i].ToolUse? && Uses(blocks)[i].id == order[i]
    ensures CallFor(blocks, order[i]) == CallWith(order[i], uses[order[i]], ResultAt(results, order[i]))
  {
    hide Uses, ResultOf, LastUse;
  }

  lemma CollectMore(blocks: seq<Block>, uses: map<string, Use>, results: map<string, Outcome>, order: seq<string>, b: Block)
    requires Collected(blocks, uses, results, order)
    ensures var all := blocks + [b];
            match b
            case ToolUse(id, name, command) => Collected(all, uses[id := Use(name, command)], results, order + [id])
            case ToolResult(id, content, isError) => Collected(all, uses, results[id := Outcome(content, isError)], order)
            case Other => Collected(all, uses, results, order)
  {
    assert (blocks + [b])[..|blocks|] == blocks;
    if b.ToolResult? {
      forall id ensures ResultAt(results[b.useId := Outcome(b.content, b.isError)], id) == ResultOf(blocks + [b], id) {
      }
    }
  }

  // ---- what the calls show -----------------------------------------------

  // Repeating an id changes nothing as long as it repeats the name and the command.
  ghost predicate ConsistentIds(blocks: seq<Block>)
  {
    forall i, j :: 0 <= i < |blocks| && 0 <= j < |blocks| && blocks[i].ToolUse? && blocks[j].ToolUse? && blocks[i].id == blocks[j].id ==>
      blocks[i].name == blocks[j].name && blocks[i].command == blocks[j].command
  }

  lemma {:induction false} LastUseIs(blocks: seq<Block>, i: nat)
    requires i < |blocks| && blocks[i].ToolUse?
    ensures exists k :: i <= k < |blocks| && blocks[k].ToolUse? && blocks[k].id == blocks[i].id
                        && LastUse(blocks, blocks[i].id) == Use(blocks[k].name, blocks[k].command)
  {
    var n := |blocks| - 1;
    if !(blocks[n].ToolUse? && blocks[n].id == blocks[i].id) {
      LastUseIs(blocks[..n], i);
      var k :| i <= k < n && blocks[..n][k].ToolUse? && blocks[..n][k].id == blocks[i].id
               && LastUse(blocks[..n], blocks[i].id) == Use(blocks[..n][k].name, blocks[..n][k].command);
      assert blocks[k].ToolUse?;
    }
  }

  // Every call shows the use it stands for exactly when ids are used consistently; distinct ids are.
  lemma CallsShowUses(blocks: seq<Block>)
    ensures ConsistentIds(blocks) <==>
              forall b :: b in blocks && b.ToolUse? ==>
                CallFor(blocks, b.id).name == b.name && CallFor(blocks, b.id).command == b.command
  {
    if ConsistentIds(blocks) {
      forall b | b in blocks && b.ToolUse?
        ensures CallFor(blocks, b.id).name == b.name && CallFor(blocks, b.id).command == b.command
      {
        var i :| 0 <= i < |blocks| && blocks[i] == b;
        LastUseIs(blocks, i);
      }
    }
    if forall b :: b in blocks && b.ToolUse? ==> CallFor(blocks, b.id).name == b.name && CallFor(blocks, b.id).command == b.command {
      forall i, j | 0 <= i < |blocks| && 0 <= j < |blocks| && blocks[i].ToolUse? && blocks[j].ToolUse? && blocks[i].id == blocks[j].id
        ensures blocks[i].name == blocks[j].name && blocks[i].command == blocks[j].command
      {
        assert blocks[i] in blocks && blocks[j] in blocks;
      }
    }
  }

  // A repeated id with another command: the first call shows the second command.
  lemma SecondUseShows()
    ensures var blocks := [ToolUse("a", "Bash", "x"), ToolUse("a", "Bash", "y")];
            && Uses(blocks) == blocks && CallFor(blocks, blocks[0].id).command == blocks[1].command != blocks[0].command
  {
    var blocks := [ToolUse("a", "Bash", "x"), ToolUse("a", "Bash", "y")];
    var first := blocks[..1];
    assert first == [blocks[0]] && first[..0] == [];
    assert Uses(first[..0]) == [] && Uses(first) == [blocks[0]];
    assert LastUse(blocks, "a") == Use("Bash", "y");
    assert blocks[1].command[0] == 'y' && blocks[0].command[0] == 'x';
  }
}
