/** History repair before a history is replayed to a provider
    (`transformMessages` in internal/providers/transform.go).

    The first pass drops errored turns, rewrites thinking blocks and renames the
    tool-call ids of other models; the second pass answers every tool call that a
    later user or assistant message would leave without a result. */
module Transform {
  import opened Types
  import opened Sequences

  type Normalizer = Option<Id -> Id>
  type IdMap = map<Id, Id>

  predicate Dropped(m: Message) {
    m.role.Assistant? && (m.stopReason.ErrorStop? || m.stopReason.AbortedStop?)
  }

  predicate SameModel(m: Message, target: Model) {
    m.provider == target.provider && m.api == target.api && m.model == target.id
  }

  // ----- First pass -----

  /** The id a call of another model is renamed to, if it is renamed. */
  function Renaming(norm: Normalizer, id: Id): Option<Id> {
    if norm.None? then None
    else
      var n := norm.value(id);
      if n != "" && n != id then Some(n) else None
  }

  function NewId(same: bool, norm: Normalizer, id: Id): Id {
    if !same && Renaming(norm, id).Some? then Renaming(norm, id).value else id
  }

  function RewriteBlock(b: Block, same: bool, norm: Normalizer): seq<Block> {
    match b
    case Thinking(thinking, _) =>
      var trimmed := TrimSpace(thinking);
      if trimmed == "" then [] else if same then [b] else [Text(trimmed, "")]
    case ToolCall(id, _, _, _) =>
      if same then [b] else [b.(thoughtSignature := "", id := NewId(same, norm, id))]
    case _ => [b]
  }

  function RewriteBlocks(blocks: seq<Block>, same: bool, norm: Normalizer): seq<Block> {
    if blocks == [] then []
    else RewriteBlock(blocks[0], same, norm) + RewriteBlocks(blocks[1..], same, norm)
  }

  /** The renamings known after some blocks have been rewritten. */
  function Learn(idMap: IdMap, blocks: seq<Block>, same: bool, norm: Normalizer): IdMap
    decreases |blocks|
  {
    if blocks == [] then idMap
    else
      var b := blocks[0];
      var known :=
        if b.ToolCall? && !same && Renaming(norm, b.id).Some?
        then idMap[b.id := Renaming(norm, b.id).value] else idMap;
      Learn(known, blocks[1..], same, norm)
  }

  function LearnFrom(idMap: IdMap, m: Message, target: Model, norm: Normalizer): IdMap {
    if m.role.Assistant? && !Dropped(m) then Learn(idMap, m.content, SameModel(m, target), norm) else idMap
  }

  function LearnAll(idMap: IdMap, msgs: seq<Message>, target: Model, norm: Normalizer): IdMap
    decreases |msgs|
  {
    if msgs == [] then idMap
    else LearnAll(LearnFrom(idMap, msgs[0], target, norm), msgs[1..], target, norm)
  }

  function RelinkId(idMap: IdMap, id: Id): Id {
    if id in idMap && idMap[id] != "" then idMap[id] else id
  }

  function RewriteMessage(m: Message, target: Model, norm: Normalizer, idMap: IdMap): seq<Message> {
    if m.role.ToolResult? then [m.(toolCallId := RelinkId(idMap, m.toolCallId))]
    else if Dropped(m) then []
    else if m.role.Assistant? then [m.(content := RewriteBlocks(m.content, SameModel(m, target), norm))]
    else [m]
  }

  function FirstPass(msgs: seq<Message>, target: Model, norm: Normalizer, idMap: IdMap): seq<Message> {
    if msgs == [] then []
    else
      RewriteMessage(msgs[0], target, norm, idMap)
      + FirstPass(msgs[1..], target, norm, LearnFrom(idMap, msgs[0], target, norm))
  }

  lemma FirstPassHead(m: Message, rest: seq<Message>, target: Model, norm: Normalizer, idMap: IdMap, done: seq<Message>)
    ensures done + FirstPass([m] + rest, target, norm, idMap)
         == (done + RewriteMessage(m, target, norm, idMap))
            + FirstPass(rest, target, norm, LearnFrom(idMap, m, target, norm))
  {
    assert ([m] + rest)[1..] == rest;
    Reassociate(done, RewriteMessage(m, target, norm, idMap),
      FirstPass(rest, target, norm, LearnFrom(idMap, m, target, norm)));
  }

  lemma RewriteHead(b: Block, rest: seq<Block>, same: bool, norm: Normalizer, done: seq<Block>)
    ensures done + RewriteBlocks([b] + rest, same, norm)
         == (done + RewriteBlock(b, same, norm)) + RewriteBlocks(rest, same, norm)
  {
    assert ([b] + rest)[1..] == rest;
    Reassociate(done, RewriteBlock(b, same, norm), RewriteBlocks(rest, same, norm));
  }

  method RunFirstPass(msgs: seq<Message>, target: Model, norm: Normalizer) returns (firstPass: seq<Message>)
    ensures firstPass == FirstPass(msgs, target, norm, map[])
  {
    firstPass := [];
    var idMap: IdMap := map[];
    for i := 0 to |msgs|
      invariant firstPass + FirstPass(msgs[i..], target, norm, idMap) == FirstPass(msgs, target, norm, map[])
    {
      var msg := msgs[i];
      assert msgs[i..] == [msg] + msgs[i + 1..];
      FirstPassHead(msg, msgs[i + 1..], target, norm, idMap, firstPass);
      match msg.role {
        case ToolResult =>
          if msg.toolCallId in idMap && idMap[msg.toolCallId] != "" {
            msg := msg.(toolCallId := idMap[msg.toolCallId]);
          }
          firstPass := firstPass + [msg];
        case Assistant =>
          if msg.stopReason.ErrorStop? || msg.stopReason.AbortedStop? {
            assert firstPass + [] == firstPass;
            continue;
          }
          var content;
          content, idMap := RewriteContent(msg.content, SameModel(msg, target), norm, idMap);
          firstPass := firstPass + [msg.(content := content)];
        case _ =>
          firstPass := firstPass + [msg];
      }
    }
  }

  method RewriteContent(blocks: seq<Block>, same: bool, norm: Normalizer, known: IdMap)
    returns (content: seq<Block>, idMap: IdMap)
    ensures content == RewriteBlocks(blocks, same, norm)
    ensures idMap == Learn(known, blocks, same, norm)
  {
    content, idMap := [], known;
    for j := 0 to |blocks|
      invariant content + RewriteBlocks(blocks[j..], same, norm) == RewriteBlocks(blocks, same, norm)
      invariant Learn(idMap, blocks[j..], same, norm) == Learn(known, blocks, same, norm)
    {
      var block := blocks[j];
      assert blocks[j..] == [block] + blocks[j + 1..];
      RewriteHead(block, blocks[j + 1..], same, norm, content);
      assert ([block] + blocks[j + 1..])[1..] == blocks[j + 1..];
      match block {
        case Thinking(thinking, _) =>
          var trimmed := TrimSpace(thinking);
          if trimmed == "" {
            assert content + [] == content;
            continue;
          }
          if same {
            content := content + [block];
          } else {
            content := content + [Text(trimmed, "")];
          }
        case ToolCall(_, _, _, _) =>
          var normalized := block;
          if !same {
            normalized := normalized.(thoughtSignature := "");
            if norm.Some? {
              var id := norm.value(block.id);
              if id != "" && id != block.id {
                idMap := idMap[block.id := id];
                normalized := normalized.(id := id);
              }
            }
          }
          content := content + [normalized];
        case _ =>
          content := content + [block];
      }
    }
  }

  // ----- Second pass -----

  function NoResult(call: Block, timestamp: int): Message
    requires call.ToolCall?
  {
    PlainMessage(ToolResult, [Text("No result provided", "")], timestamp)
      .(toolCallId := call.id, toolName := call.name, isError := true)
  }

  /** The results inserted for pending calls; `n` is the length of the output so far. */
  function Missing(pending: seq<Block>, answered: set<Id>, clock: Clock, n: nat): seq<Message> {
    if pending == [] then []
    else if pending[0].ToolCall? && pending[0].id !in answered then
      [NoResult(pending[0], clock(n))] + Missing(pending[1..], answered, clock, n + 1)
    else Missing(pending[1..], answered, clock, n)
  }

  /** What handling one message adds to the output. */
  function Emitted(m: Message, pending: seq<Block>, answered: set<Id>, clock: Clock, n: nat): seq<Message> {
    if m.role.Assistant? || m.role.User? then Missing(pending, answered, clock, n) + [m] else [m]
  }

  function NextPending(m: Message, pending: seq<Block>): seq<Block> {
    if m.role.Assistant? then Calls(m.content) else if m.role.User? then [] else pending
  }

  function NextAnswered(m: Message, answered: set<Id>): set<Id> {
    if m.role.Assistant? || m.role.User? then {}
    else if m.role.ToolResult? then answered + {m.toolCallId}
    else answered
  }

  function SecondPass(msgs: seq<Message>, pending: seq<Block>, answered: set<Id>, clock: Clock, n: nat): seq<Message>
    decreases |msgs|
  {
    if msgs == [] then []
    else
      var emitted := Emitted(msgs[0], pending, answered, clock, n);
      emitted
      + SecondPass(msgs[1..], NextPending(msgs[0], pending), NextAnswered(msgs[0], answered), clock, n + |emitted|)
  }

  method AppendMissingToolResults(pending: seq<Block>, existing: map<Id, bool>, clock: Clock, result: seq<Message>)
    returns (extended: seq<Message>)
    requires forall id :: id in existing ==> existing[id]
    ensures extended == result + Missing(pending, existing.Keys, clock, |result|)
  {
    extended := result;
    for k := 0 to |pending|
      invariant extended + Missing(pending[k..], existing.Keys, clock, |extended|)
             == result + Missing(pending, existing.Keys, clock, |result|)
    {
      var tc := pending[k];
      assert pending[k..][1..] == pending[k + 1..];
      if !tc.ToolCall? {
        continue;
      }
      if tc.id in existing && existing[tc.id] {
        continue;
      }
      extended := extended + [NoResult(tc, clock(|extended|))];
    }
  }

  method RunSecondPass(firstPass: seq<Message>, clock: Clock) returns (result: seq<Message>)
    ensures result == SecondPass(firstPass, [], {}, clock, 0)
  {
    result := [];
    var pending: seq<Block> := [];
    var existing: map<Id, bool> := map[];
    assert existing.Keys == {};
    for i := 0 to |firstPass|
      invariant forall id :: id in existing ==> existing[id]
      invariant result + SecondPass(firstPass[i..], pending, existing.Keys, clock, |result|)
             == SecondPass(firstPass, [], {}, clock, 0)
    {
      var msg := firstPass[i];
      ghost var rest, start, wasPending, wasAnswered := firstPass[i + 1..], result, pending, existing.Keys;
      assert firstPass[i..] == [msg] + rest;
      SecondPassHead(msg, rest, pending, existing.Keys, clock, start);
      match msg.role {
        case Assistant =>
          if |pending| > 0 {
            result := AppendMissingToolResults(pending, existing, clock, result);
          }
          pending := [];
          existing := map[];
          pending := CollectCalls(msg.content);
          result := result + [msg];
          assert existing.Keys == {};
        case ToolResult =>
          existing := existing[msg.toolCallId := true];
          result := result + [msg];
          assert existing.Keys == wasAnswered + {msg.toolCallId};
        case User =>
          if |pending| > 0 {
            result := AppendMissingToolResults(pending, existing, clock, result);
            pending := [];
            existing := map[];
            assert existing.Keys == {};
          }
          result := result + [msg];
        case OtherRole(_) =>
          result := result + [msg];
      }
      assert result == start + Emitted(msg, wasPending, wasAnswered, clock, |start|);
      if msg.role.User? && |wasPending| == 0 {
        NothingPending(rest, existing.Keys, clock, |result|);
      }
    }
  }

  lemma SecondPassHead(
    m: Message, rest: seq<Message>, pending: seq<Block>, answered: set<Id>, clock: Clock, done: seq<Message>)
    ensures var now := done + Emitted(m, pending, answered, clock, |done|);
      done + SecondPass([m] + rest, pending, answered, clock, |done|)
      == now + SecondPass(rest, NextPending(m, pending), NextAnswered(m, answered), clock, |now|)
  {
    assert ([m] + rest)[1..] == rest;
    var emitted := Emitted(m, pending, answered, clock, |done|);
    Reassociate(done, emitted,
      SecondPass(rest, NextPending(m, pending), NextAnswered(m, answered), clock, |done| + |emitted|));
  }

  method CollectCalls(blocks: seq<Block>) returns (calls: seq<Block>)
    ensures calls == Calls(blocks)
  {
    calls := [];
    for j := 0 to |blocks|
      invariant calls + Calls(blocks[j..]) == Calls(blocks)
    {
      assert blocks[j..][1..] == blocks[j + 1..];
      if blocks[j].ToolCall? {
        calls := calls + [blocks[j]];
      }
    }
  }

  lemma NothingInserted(m: Message, answered: set<Id>, clock: Clock, n: nat)
    ensures Emitted(m, [], answered, clock, n) == [m]
  {}

  /** With no call pending, the set of answered ids does not matter. */
  lemma {:induction false} NothingPending(msgs: seq<Message>, answered: set<Id>, clock: Clock, n: nat)
    ensures SecondPass(msgs, [], answered, clock, n) == SecondPass(msgs, [], {}, clock, n)
    decreases |msgs|
  {
    if msgs != [] {
      var m, rest := msgs[0], msgs[1..];
      NothingInserted(m, answered, clock, n);
      NothingInserted(m, {}, clock, n);
      if !m.role.Assistant? {
        NothingPending(rest, NextAnswered(m, answered), clock, n + 1);
        NothingPending(rest, NextAnswered(m, {}), clock, n + 1);
      }
    }
  }

  // ----- Both passes -----

  function Transformed(msgs: seq<Message>, target: Model, norm: Normalizer, clock: Clock): seq<Message> {
    SecondPass(FirstPass(msgs, target, norm, map[]), [], {}, clock, 0)
  }

  method TransformMessages(msgs: seq<Message>, target: Model, norm: Normalizer, clock: Clock)
    returns (result: seq<Message>)
    ensures result == Transformed(msgs, target, norm, clock)
  {
    var firstPass := RunFirstPass(msgs, target, norm);
    result := RunSecondPass(firstPass, clock);
  }
}
