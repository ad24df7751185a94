/** Messages, content blocks and models, shared by every part of the engine.

    A Go string is a byte sequence; `string` stands for it with one char per byte.
    JSON values, usage numbers and error texts are opaque payloads. */
module Types {
  type Id = string
  type Json = string

  datatype Option<+T> = None | Some(value: T)

  datatype Role = User | Assistant | ToolResult | OtherRole(name: string)

  datatype StopReason = ErrorStop | AbortedStop | OtherStop(reason: string)

  datatype Block =
    | Text(text: string, textSignature: string)
    | Thinking(thinking: string, signature: string)
    | ToolCall(id: Id, name: string, arguments: Json, thoughtSignature: string)
    | OtherBlock(kind: string, data: Json)

  datatype Message = Message(
    role: Role,
    content: seq<Block>,
    timestamp: int,
    toolCallId: Id,
    toolName: string,
    isError: bool,
    api: string,
    provider: string,
    model: string,
    stopReason: StopReason,
    payload: Json)

  datatype Model = Model(id: string, api: string, provider: string)

  datatype ToolOutput = ToolOutput(content: seq<Block>, isError: bool)

  /** A reading of the wall clock for every moment at which the program may ask for one. */
  type Clock = nat -> int

  function PlainMessage(role: Role, content: seq<Block>, timestamp: int): Message {
    Message(role, content, timestamp, "", "", false, "", "", "", OtherStop(""), "")
  }

  function TextMessage(role: Role, text: string, timestamp: int): Message {
    PlainMessage(role, [Text(text, "")], timestamp)
  }

  function ToolResultMessage(callId: Id, name: string, result: ToolOutput, timestamp: int): Message {
    PlainMessage(ToolResult, result.content, timestamp).(toolCallId := callId, toolName := name,
      isError := result.isError)
  }

  /** The tool calls among some blocks, in order. */
  function Calls(blocks: seq<Block>): seq<Block> {
    if blocks == [] then []
    else (if blocks[0].ToolCall? then [blocks[0]] else []) + Calls(blocks[1..])
  }

  function CallIds(blocks: seq<Block>): set<Id> {
    set b | b in blocks && b.ToolCall? :: b.id
  }

  predicate IsSpace(c: char) {
    c == ' ' || c == '\t' || c == '\n' || c == '\r' || c as int == 11 || c as int == 12
  }

  function TrimLeft(s: string): string {
    if s != "" && IsSpace(s[0]) then TrimLeft(s[1..]) else s
  }

  function TrimRight(s: string): string {
    if s != "" && IsSpace(s[|s| - 1]) then TrimRight(s[..|s| - 1]) else s
  }

  function TrimSpace(s: string): string {
    TrimRight(TrimLeft(s))
  }

  /** Texts joined by newlines. */
  function Join(parts: seq<string>): string {
    if parts == [] then "" else if |parts| == 1 then parts[0] else parts[0] + "\n" + Join(parts[1..])
  }

  /** A text joined to what was gathered so far; empty texts gathered first leave no newline. */
  function JoinLine(acc: string, text: string): string {
    if acc != "" then acc + "\n" + text else acc + text
  }

  lemma {:induction false} CallsAreToolCalls(blocks: seq<Block>)
    ensures forall b :: b in Calls(blocks) <==> b in blocks && b.ToolCall?
  {
    if blocks != [] {
      CallsAreToolCalls(blocks[1..]);
      assert blocks == [blocks[0]] + blocks[1..];
    }
  }
}
