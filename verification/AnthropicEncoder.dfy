/** The Anthropic request built from a history (`anthropicMessagesFromContext` in
    internal/providers/anthropic.go), and when each of its tool uses is answered at once. That each result has its
    use just before it is the subject of Orphans.dfy. */
module AnthropicEncoder {
  import opened Types
  import opened Sequences
  import opened Transform
  import opened TransformLaws
  import opened ToolCallIds

  datatype Part =
    | TextPart(text: string)
    | ThinkingPart(thinking: string, signature: string)
    | ToolUsePart(id: Id, name: string, input: Json)
    | ToolResultPart(toolUseId: Id, content: string, isError: bool)

  datatype Speaker = UserSpeaks | AssistantSpeaks

  datatype RequestMessage = RequestMessage(speaker: Speaker, parts: seq<Part>)

  /** The random ids drawn for the calls that have none, by message and block position. */
  type RandomIds = (nat, nat) -> string

  function TextOf(blocks: seq<Block>, acc: string): string {
    if blocks == [] then acc
    else
      match blocks[0]
      case Text(text, _) => TextOf(blocks[1..], JoinLine(acc, text))
      case Thinking(thinking, _) => TextOf(blocks[1..], JoinLine(acc, thinking))
      case _ => TextOf(blocks[1..], acc)
  }

  function EncodeBlock(b: Block, freshId: string): seq<Part> {
    match b
    case Text(text, _) => [TextPart(text)]
    case Thinking(thinking, signature) =>
      if TrimSpace(thinking) == "" then []
      else if signature != "" then [ThinkingPart(thinking, signature)]
      else [TextPart(thinking)]
    case ToolCall(id, name, arguments, _) =>
      [ToolUsePart(if id == "" then "tool_" + freshId else id, name, arguments)]
    case OtherBlock(_, _) => []
  }

  /** The parts of the blocks from position `j` on, in message `at`. */
  function EncodeBlocks(blocks: seq<Block>, random: RandomIds, at: nat, j: nat): seq<Part>
    requires j <= |blocks|
    decreases |blocks| - j
  {
    if j == |blocks| then []
    else EncodeBlock(blocks[j], random(at, j)) + EncodeBlocks(blocks, random, at, j + 1)
  }

  function EncodeAssistant(m: Message, random: RandomIds, at: nat): RequestMessage {
    var parts := EncodeBlocks(m.content, random, at, 0);
    RequestMessage(AssistantSpeaks, if parts == [] then [TextPart(TextOf(m.content, ""))] else parts)
  }

  function EncodeResult(m: Message): Part {
    var content := TextOf(m.content, "");
    ToolResultPart(m.toolCallId, if TrimSpace(content) == "" then "(no output)" else content, m.isError)
  }

  /** Where the run of tool results that starts at `i` ends. */
  function RunEnd(msgs: seq<Message>, i: nat): (end: nat)
    requires i <= |msgs|
    ensures i <= end <= |msgs|
    ensures forall k :: i <= k < end ==> msgs[k].role.ToolResult?
    ensures end < |msgs| ==> !msgs[end].role.ToolResult?
    decreases |msgs| - i
  {
    if i < |msgs| && msgs[i].role.ToolResult? then RunEnd(msgs, i + 1) else i
  }

  function EncodeRun(msgs: seq<Message>, i: nat, end: nat): seq<Part>
    requires i <= end <= |msgs|
    decreases end - i
  {
    if i == end then [] else [EncodeResult(msgs[i])] + EncodeRun(msgs, i + 1, end)
  }

  /** What the encoding loop appends for the message, or the run of results, at `i`. */
  function Turn(msgs: seq<Message>, random: RandomIds, i: nat): seq<RequestMessage>
    requires i < |msgs|
  {
    match msgs[i].role
    case User => [RequestMessage(UserSpeaks, [TextPart(TextOf(msgs[i].content, ""))])]
    case Assistant => [EncodeAssistant(msgs[i], random, i)]
    case ToolResult => [RequestMessage(UserSpeaks, EncodeRun(msgs, i, RunEnd(msgs, i)))]
    case OtherRole(_) => []
  }

  function NextTurn(msgs: seq<Message>, i: nat): (next: nat)
    requires i < |msgs|
    ensures i < next <= |msgs|
  {
    if msgs[i].role.ToolResult? then RunEnd(msgs, i + 1) else i + 1
  }

  /** The request messages for the history from position `i` on. */
  function Encode(msgs: seq<Message>, random: RandomIds, i: nat): seq<RequestMessage>
    requires i <= |msgs|
    decreases |msgs| - i
  {
    if i == |msgs| then []
    else Turn(msgs, random, i) + Encode(msgs, random, NextTurn(msgs, i))
  }

  function AnthropicRequest(
    history: seq<Message>, target: Model, clock: Clock, random: RandomIds): seq<RequestMessage>
  {
    Encode(Transformed(history, target, AnthropicNormalizer(), clock), random, 0)
  }

  method AnthropicMessagesFromContext(history: seq<Message>, target: Model, clock: Clock, random: RandomIds)
    returns (messages: seq<RequestMessage>)
    ensures messages == AnthropicRequest(history, target, clock, random)
  {
    var transformed := TransformMessages(history, target, AnthropicNormalizer(), clock);
    messages := [];
    var i := 0;
    while i < |transformed|
      invariant 0 <= i <= |transformed|
      invariant messages + Encode(transformed, random, i) == Encode(transformed, random, 0)
    {
      var m := transformed[i];
      ghost var sent, start := messages, i;
      EncodeStep(transformed, random, i, sent);
      match m.role {
        case User =>
          messages := messages + [RequestMessage(UserSpeaks, [TextPart(TextOf(m.content, ""))])];
        case Assistant =>
          var parts := EncodeContent(m.content, random, i);
          if |parts| == 0 {
            parts := parts + [TextPart(TextOf(m.content, ""))];
          }
          assert parts == EncodeAssistant(m, random, start).parts;
          messages := messages + [RequestMessage(AssistantSpeaks, parts)];
        case ToolResult =>
          var parts;
          parts, i := EncodeResults(transformed, i);
          i := i - 1;
          messages := messages + [RequestMessage(UserSpeaks, parts)];
        case OtherRole(_) =>
      }
      i := i + 1;
      assert i == NextTurn(transformed, start);
      assert messages == sent + Turn(transformed, random, start);
    }
  }

  method EncodeResults(msgs: seq<Message>, start: nat) returns (parts: seq<Part>, i: nat)
    requires start < |msgs|
    ensures i == RunEnd(msgs, start) && parts == EncodeRun(msgs, start, i)
  {
    parts, i := [], start;
    ghost var end := RunEnd(msgs, start);
    while i < |msgs| && msgs[i].role.ToolResult?
      invariant start <= i <= end == RunEnd(msgs, i)
      invariant parts + EncodeRun(msgs, i, end) == EncodeRun(msgs, start, end)
    {
      EncodeRunStep(msgs, i, end, parts);
      parts := parts + [EncodeResult(msgs[i])];
      i := i + 1;
    }
    assert parts + [] == parts;
  }

  lemma EncodeRunStep(msgs: seq<Message>, i: nat, end: nat, parts: seq<Part>)
    requires i < end <= |msgs|
    ensures parts + EncodeRun(msgs, i, end) == (parts + [EncodeResult(msgs[i])]) + EncodeRun(msgs, i + 1, end)
  {
    Reassociate(parts, [EncodeResult(msgs[i])], EncodeRun(msgs, i + 1, end));
  }

  lemma EncodeStep(msgs: seq<Message>, random: RandomIds, i: nat, sent: seq<RequestMessage>)
    requires i < |msgs|
    ensures sent + Encode(msgs, random, i)
         == (sent + Turn(msgs, random, i)) + Encode(msgs, random, NextTurn(msgs, i))
  {
    Reassociate(sent, Turn(msgs, random, i), Encode(msgs, random, NextTurn(msgs, i)));
  }

  method EncodeContent(blocks: seq<Block>, random: RandomIds, at: nat) returns (parts: seq<Part>)
    ensures parts == EncodeBlocks(blocks, random, at, 0)
  {
    parts := [];
    for j := 0 to |blocks|
      invariant parts + EncodeBlocks(blocks, random, at, j) == EncodeBlocks(blocks, random, at, 0)
    {
      var c := blocks[j];
      Reassociate(parts, EncodeBlock(c, random(at, j)), EncodeBlocks(blocks, random, at, j + 1));
      if c.Text? {
        parts := parts + [TextPart(c.text)];
      } else if c.Thinking? {
        if TrimSpace(c.thinking) == "" {
          assert parts + [] == parts;
          continue;
        }
        if c.signature != "" {
          parts := parts + [ThinkingPart(c.thinking, c.signature)];
        } else {
          parts := parts + [TextPart(c.thinking)];
        }
      } else if c.ToolCall? {
        var id := c.id;
        if id == "" {
          id := "tool_" + random(at, j);
        }
        parts := parts + [ToolUsePart(id, c.name, c.arguments)];
      } else {
        assert parts + [] == parts;
      }
    }
  }

  // ----- Grouping conserves -----

  function AllParts(request: seq<RequestMessage>): seq<Part> {
    if request == [] then [] else request[0].parts + AllParts(request[1..])
  }

  /** The parts of one message, without any grouping. */
  function OwnParts(m: Message, random: RandomIds, at: nat): seq<Part> {
    match m.role
    case User => [TextPart(TextOf(m.content, ""))]
    case Assistant => EncodeAssistant(m, random, at).parts
    case ToolResult => [EncodeResult(m)]
    case OtherRole(_) => []
  }

  function Ungrouped(msgs: seq<Message>, random: RandomIds, i: nat): seq<Part>
    requires i <= |msgs|
    decreases |msgs| - i
  {
    if i == |msgs| then [] else OwnParts(msgs[i], random, i) + Ungrouped(msgs, random, i + 1)
  }

  lemma {:induction false} RunIsUngrouped(msgs: seq<Message>, random: RandomIds, i: nat, end: nat)
    requires i <= end <= |msgs| && forall k :: i <= k < end ==> msgs[k].role.ToolResult?
    ensures Ungrouped(msgs, random, i) == EncodeRun(msgs, i, end) + Ungrouped(msgs, random, end)
    decreases end - i
  {
    if i < end {
      RunIsUngrouped(msgs, random, i + 1, end);
      Reassociate([EncodeResult(msgs[i])], EncodeRun(msgs, i + 1, end), Ungrouped(msgs, random, end));
    }
  }

  /** The loop that goes ahead and back over runs of results loses, repeats and reorders nothing: the parts of
      the request are those of the messages, one after the other. */
  lemma {:induction false} GroupingConserves(msgs: seq<Message>, random: RandomIds, i: nat)
    requires i <= |msgs|
    ensures AllParts(Encode(msgs, random, i)) == Ungrouped(msgs, random, i)
    decreases |msgs| - i
  {
    if i < |msgs| {
      var turn, next := Turn(msgs, random, i), NextTurn(msgs, i);
      GroupingConserves(msgs, random, next);
      var rest := Encode(msgs, random, next);
      assert turn + rest == if turn == [] then rest else [turn[0]] + rest;
      assert turn != [] ==> ([turn[0]] + rest)[1..] == rest;
      assert [] + Ungrouped(msgs, random, next) == Ungrouped(msgs, random, next);
      if msgs[i].role.ToolResult? {
        RunIsUngrouped(msgs, random, i, next);
      }
    }
  }

  // ----- The pairing law -----

  function ToolUses(parts: seq<Part>): set<Id> {
    set p | p in parts && p.ToolUsePart? :: p.id
  }

  function ToolResults(parts: seq<Part>): set<Id> {
    set p | p in parts && p.ToolResultPart? :: p.toolUseId
  }

  /** An assistant message with tool_use parts is followed at once by a user message of
      tool_result parts that cover all of its ids. */
  predicate PairedAt(request: seq<RequestMessage>, i: nat)
    requires i < |request|
  {
    request[i].speaker.AssistantSpeaks? && ToolUses(request[i].parts) != {} ==>
      && i + 1 < |request|
      && request[i + 1].speaker.UserSpeaks?
      && (forall p :: p in request[i + 1].parts ==> p.ToolResultPart?)
      && ToolUses(request[i].parts) <= ToolResults(request[i + 1].parts)
  }

  predicate Paired(request: seq<RequestMessage>) {
    forall i :: 0 <= i < |request| ==> PairedAt(request, i)
  }

  predicate NoOtherRoles(msgs: seq<Message>) {
    forall m :: m in msgs ==> !m.role.OtherRole?
  }

  /** Every tool call of an assistant message has an id. */
  predicate CallsHaveIds(msgs: seq<Message>) {
    forall m :: m in msgs && m.role.Assistant? ==> "" !in CallIds(m.content)
  }

  lemma {:induction false} EncodeBlocksUses(blocks: seq<Block>, random: RandomIds, at: nat, j: nat)
    requires j <= |blocks| && "" !in CallIds(blocks)
    ensures ToolUses(EncodeBlocks(blocks, random, at, j)) == CallIds(blocks[j..])
    decreases |blocks| - j
  {
    if j < |blocks| {
      EncodeBlocksUses(blocks, random, at, j + 1);
      var b := blocks[j];
      assert blocks[j..] == [b] + blocks[j + 1..];
      assert b in blocks;
      assert b.ToolCall? ==> b.id in CallIds(blocks);
      var head, tail := EncodeBlock(b, random(at, j)), EncodeBlocks(blocks, random, at, j + 1);
      assert ToolUses(head + tail) == ToolUses(head) + ToolUses(tail);
      if b.ToolCall? {
        assert head[0].id == b.id;
        assert ToolUses(head) == {b.id};
        assert CallIds(blocks[j..]) == {b.id} + CallIds(blocks[j + 1..]);
      } else {
        assert ToolUses(head) == {};
        assert CallIds(blocks[j..]) == CallIds(blocks[j + 1..]);
      }
    }
  }

  lemma EncodeAssistantUses(m: Message, random: RandomIds, at: nat)
    requires "" !in CallIds(m.content)
    ensures ToolUses(EncodeAssistant(m, random, at).parts) == CallIds(m.content)
  {
    EncodeBlocksUses(m.content, random, at, 0);
    assert m.content[0..] == m.content;
  }

  lemma {:induction false} EncodeRunResults(msgs: seq<Message>, i: nat, end: nat, open: set<Id>)
    requires i <= end <= |msgs|
    requires forall k :: i <= k < end ==> msgs[k].role.ToolResult?
    ensures var parts := EncodeRun(msgs, i, end);
      && (forall p :: p in parts ==> p.ToolResultPart?)
      && Open(msgs[i..], open) == Open(msgs[end..], open - ToolResults(parts))
      && (Answered(msgs[i..], open) <==> Answered(msgs[end..], open - ToolResults(parts)))
    decreases end - i
  {
    if i < end {
      var id := msgs[i].toolCallId;
      assert msgs[i..][1..] == msgs[i + 1..];
      EncodeRunResults(msgs, i + 1, end, open - {id});
      var rest := EncodeRun(msgs, i + 1, end);
      assert ToolResults([EncodeResult(msgs[i])] + rest) == {id} + ToolResults(rest);
      assert open - ({id} + ToolResults(rest)) == (open - {id}) - ToolResults(rest);
    } else {
      assert open - ToolResults([]) == open;
    }
  }

  /** The encoding is paired exactly when no call is still waiting at the end. */
  lemma {:induction false} EncodePairedIff(msgs: seq<Message>, random: RandomIds, i: nat)
    requires i <= |msgs|
    requires NoOtherRoles(msgs) && CallsHaveIds(msgs) && NoneDropped(msgs)
    requires Answered(msgs[i..], {})
    ensures Paired(Encode(msgs, random, i)) <==> Open(msgs[i..], {}) == {}
    decreases |msgs| - i
  {
    if i < |msgs| {
      var m := msgs[i];
      assert msgs[i..][0] == m && msgs[i..][1..] == msgs[i + 1..];
      assert !m.role.OtherRole? && !Dropped(m);
      var request := Encode(msgs, random, i);
      if m.role.User? {
        EncodePairedIff(msgs, random, i + 1);
        PairedCons(request[0], Encode(msgs, random, i + 1));
      } else if m.role.ToolResult? {
        var end := RunEnd(msgs, i + 1);
        EncodeRunResults(msgs, i, end, {});
        assert {} - ToolResults(EncodeRun(msgs, i, end)) == {};
        EncodePairedIff(msgs, random, end);
        PairedCons(request[0], Encode(msgs, random, end));
      } else {
        EncodeAssistantUses(m, random, i);
        EncodeTurnPairedIff(msgs, random, i);
      }
    }
  }

  lemma PairedCons(head: RequestMessage, tail: seq<RequestMessage>)
    ensures Paired([head] + tail) <==> PairedAt([head] + tail, 0) && Paired(tail)
  {
    var all := [head] + tail;
    if Paired(all) {
      forall i | 0 <= i < |tail| ensures PairedAt(tail, i) { assert PairedAt(all, i + 1); }
    }
    if PairedAt(all, 0) && Paired(tail) {
      forall i | 0 <= i < |all| ensures PairedAt(all, i) {
        if i > 0 { assert PairedAt(tail, i - 1); }
      }
    }
  }

  /** The case of an assistant message: its results, if any, form the next request message. */
  lemma {:induction false} EncodeTurnPairedIff(msgs: seq<Message>, random: RandomIds, i: nat)
    requires i < |msgs| && msgs[i].role.Assistant?
    requires NoOtherRoles(msgs) && CallsHaveIds(msgs) && NoneDropped(msgs)
    requires Answered(msgs[i..], {})
    requires ToolUses(EncodeAssistant(msgs[i], random, i).parts) == CallIds(msgs[i].content)
    ensures Paired(Encode(msgs, random, i)) <==> Open(msgs[i..], {}) == {}
    decreases |msgs| - i, 0
  {
    var m, open := msgs[i], CallIds(msgs[i].content);
    assert msgs[i..][0] == m && msgs[i..][1..] == msgs[i + 1..];
    assert Answered(msgs[i + 1..], open) && Open(msgs[i..], {}) == Open(msgs[i + 1..], open);
    var end := RunEnd(msgs, i + 1);
    var results := EncodeRun(msgs, i + 1, end);
    EncodeRunResults(msgs, i + 1, end, open);
    if end < |msgs| {
      assert msgs[end..][0] == msgs[end];
      assert msgs[end] in msgs;
      assert Flushes(msgs[end]) && open - ToolResults(results) == {};
      EncodePairedIff(msgs, random, end);
    } else {
      assert msgs[end..] == [] && Open(msgs[i + 1..], open) == open - ToolResults(results);
      assert Encode(msgs, random, end) == [];
    }
    var head := EncodeAssistant(m, random, i);
    if end > i + 1 {
      PairedTurn(head, results, Encode(msgs, random, end), open);
    } else {
      assert open - ToolResults(results) == open;
      PairedCons(head, Encode(msgs, random, end));
    }
  }

  /** An assistant turn followed by its group of results. */
  lemma PairedTurn(head: RequestMessage, results: seq<Part>, tail: seq<RequestMessage>, open: set<Id>)
    requires head.speaker.AssistantSpeaks? && ToolUses(head.parts) == open
    requires forall p :: p in results ==> p.ToolResultPart?
    ensures Paired([head] + ([RequestMessage(UserSpeaks, results)] + tail))
       <==> open - ToolResults(results) == {} && Paired(tail)
  {
    var next := RequestMessage(UserSpeaks, results);
    PairedCons(head, [next] + tail);
    PairedCons(next, tail);
    var all := [head] + ([next] + tail);
    assert all[0] == head && all[1] == next;
    assert open - ToolResults(results) == {} ==> forall id :: id in open ==> id !in open - ToolResults(results);
  }

  // ----- Whole requests -----

  lemma {:induction false} FirstPassKeepsShape(msgs: seq<Message>, target: Model, idMap: IdMap)
    requires NoOtherRoles(msgs) && CallsHaveIds(msgs)
    requires forall id :: id in idMap ==> idMap[id] != ""
    ensures NoOtherRoles(FirstPass(msgs, target, AnthropicNormalizer(), idMap))
    ensures CallsHaveIds(FirstPass(msgs, target, AnthropicNormalizer(), idMap))
    decreases |msgs|
  {
    if msgs != [] {
      var norm := AnthropicNormalizer();
      var m, rest := msgs[0], msgs[1..];
      assert m in msgs && forall x :: x in rest ==> x in msgs;
      var known := LearnFrom(idMap, m, target, norm);
      if m.role.Assistant? && !Dropped(m) {
        RewriteRenames(m.content, SameModel(m, target), norm);
        LearnNonEmpty(idMap, m.content, SameModel(m, target), norm);
        assert forall id :: id != "" ==> NewId(SameModel(m, target), norm, id) != "";
      }
      FirstPassKeepsShape(rest, target, known);
    }
  }

  lemma {:induction false} LearnNonEmpty(idMap: IdMap, blocks: seq<Block>, same: bool, norm: Normalizer)
    requires forall id :: id in idMap ==> idMap[id] != ""
    ensures forall id :: id in Learn(idMap, blocks, same, norm) ==> Learn(idMap, blocks, same, norm)[id] != ""
    decreases |blocks|
  {
    if blocks != [] {
      var b := blocks[0];
      LearnNonEmpty(if b.ToolCall? && !same && Renaming(norm, b.id).Some?
        then idMap[b.id := Renaming(norm, b.id).value] else idMap, blocks[1..], same, norm);
    }
  }

  /** For a history of user, assistant and tool messages whose calls have ids: the Anthropic request is
      paired exactly when, after renaming, the last turn's calls all have their results.
      This is the whole weakness of the second pass, which never flushes at the end of the list. */
  lemma RequestPairedIff(history: seq<Message>, target: Model, clock: Clock, random: RandomIds)
    requires NoOtherRoles(history) && CallsHaveIds(history)
    ensures Paired(AnthropicRequest(history, target, clock, random))
       <==> Open(FirstPass(history, target, AnthropicNormalizer(), map[]), {}) == {}
  {
    var norm := AnthropicNormalizer();
    var first, sent := FirstPass(history, target, norm, map[]), Transformed(history, target, norm, clock);
    FirstPassKeepsShape(history, target, map[]);
    FirstPassDropsNone(history, target, norm, map[]);
    SecondPassOnlyInserts(first, [], {}, clock, 0);
    InsertionsAreResults(sent, first);
    assert CallIds([]) - {} == {};
    SecondPassAnswers(first, [], {}, clock, 0);
    assert sent[0..] == sent;
    EncodePairedIff(sent, random, 0);
  }

  /** A history that ends with no call waiting is sent paired, to every target that shares
      no id with another model. */
  lemma SettledHistoryIsPaired(history: seq<Message>, target: Model, clock: Clock, random: RandomIds)
    requires NoOtherRoles(history) && CallsHaveIds(history) && NoSharedIds(history, target)
    requires Open(history, {}) == {}
    ensures Paired(AnthropicRequest(history, target, clock, random))
  {
    FirstPassKeepsAnswers(history, target, AnthropicNormalizer(), map[], {}, true, {});
    RequestPairedIff(history, target, clock, random);
  }

  /** If moreover the names it gets are fresh, a history is sent paired exactly when no call waits at its end. */
  lemma HistoryIsPairedIff(history: seq<Message>, target: Model, clock: Clock, random: RandomIds)
    requires NoOtherRoles(history) && CallsHaveIds(history) && NoSharedIds(history, target)
    requires FreshNames(history, target, AnthropicNormalizer())
    ensures Paired(AnthropicRequest(history, target, clock, random)) <==> Open(history, {}) == {}
  {
    FirstPassKeepsAnswers(history, target, AnthropicNormalizer(), map[], {}, true, {});
    FirstPassKeepsWaiting(history, target, AnthropicNormalizer(), map[], {}, true, {},
      AllIds(history), UsedIds(history, target, false));
    RequestPairedIff(history, target, clock, random);
  }
}
