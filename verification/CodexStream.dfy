/** The reader of the Codex event stream (`parseCodexSSEResponse` in internal/providers/openai.go): one pass over
    the bytes, proved to be the same as cutting the stream into blocks at blank lines and taking the first
    terminal event. */
module CodexStream {
  import opened Types
  import opened Sequences

  datatype StreamEvent = StreamEvent(
    kind: string, code: string, message: string, failedMessage: string, response: string)

  datatype Response = Response(status: string, payload: Json)

  /** JSON, as decoders that may fail. */
  datatype Decoder = Decoder(event: string -> Option<StreamEvent>, response: string -> Option<Response>)

  datatype Outcome =
    | Completed(response: Response)
    | ProviderError(message: string)
    | BadResponse(raw: string)
    | EndedEarly
    | ReadFailed

  // ----- Lines -----

  function NewlineAt(s: string): (k: nat)
    requires '\n' in s
    ensures k < |s| && s[k] == '\n' && '\n' !in s[..k]
  {
    if s[0] == '\n' then 0 else
      assert s == [s[0]] + s[1..];
      var k := NewlineAt(s[1..]);
      assert s[..k + 1] == [s[0]] + s[1..][..k];
      k + 1
  }

  /** The lines that end in a newline, without it. */
  function FullLines(s: string): seq<string>
    decreases |s|
  {
    if '\n' !in s then [] else [s[..NewlineAt(s)]] + FullLines(s[NewlineAt(s) + 1..])
  }

  /** What follows the last newline. */
  function Tail(s: string): string
    decreases |s|
  {
    if '\n' !in s then s else Tail(s[NewlineAt(s) + 1..])
  }

  function JoinLines(lines: seq<string>, tail: string): string {
    if lines == [] then tail else lines[0] + "\n" + JoinLines(lines[1..], tail)
  }

  lemma CutAt(s: string, k: nat)
    requires k < |s| && s[k] == '\n'
    ensures s == s[..k] + "\n" + s[k + 1..]
  {}

  lemma {:induction false} LinesRoundTrip(s: string)
    ensures JoinLines(FullLines(s), Tail(s)) == s
    ensures '\n' !in Tail(s) && forall line :: line in FullLines(s) ==> '\n' !in line
    decreases |s|
  {
    if '\n' in s {
      var k := NewlineAt(s);
      LinesRoundTrip(s[k + 1..]);
      CutAt(s, k);
      assert FullLines(s)[1..] == FullLines(s[k + 1..]);
    }
  }

  function TrimEol(s: string): string {
    if s != "" && (s[|s| - 1] == '\r' || s[|s| - 1] == '\n') then TrimEol(s[..|s| - 1]) else s
  }

  predicate IsBlank(line: string) {
    TrimEol(line) == ""
  }

  const DATA := "data:"

  function DataLine(line: string): seq<string> {
    var trimmed := TrimEol(line);
    if DATA <= trimmed then [TrimSpace(trimmed[|DATA|..])] else []
  }

  // ----- Events -----

  function OrElse(a: string, b: string): string {
    if TrimSpace(a) != "" then TrimSpace(a) else b
  }

  /** What a payload means, if it is a terminal event. */
  function TerminalOf(json: Decoder, payload: string): Option<Outcome> {
    if payload == "" || payload == "[DONE]" then None
    else
      match json.event(payload)
      case None => None
      case Some(event) =>
        if event.kind == "error" then
          Some(ProviderError(OrElse(event.message, OrElse(event.code, "codex stream error"))))
        else if event.kind == "response.failed" then
          Some(ProviderError(OrElse(event.failedMessage, "codex response failed")))
        else if event.kind == "response.completed" || event.kind == "response.done" then
          if event.response == "" then Some(ProviderError("codex stream missing completed response"))
          else
            match json.response(event.response)
            case None => Some(BadResponse(event.response))
            case Some(out) => Some(Completed(if TrimSpace(out.status) == "" then out.(status := "completed") else out))
        else None
  }

  function Payload(data: seq<string>): string {
    TrimSpace(Join(data))
  }

  /** The terminal event in a block with these data lines, if it holds one. */
  function Terminal(json: Decoder, data: seq<string>): Option<Outcome> {
    TerminalOf(json, Payload(data))
  }

  method ParseEvent(json: Decoder, data: seq<string>) returns (r: Option<Outcome>)
    ensures r == Terminal(json, data)
  {
    if |data| == 0 {
      return None;
    }
    var payload := TrimSpace(Join(data));
    if payload == "" || payload == "[DONE]" {
      return None;
    }
    var decoded := json.event(payload);
    if decoded.None? {
      return None;
    }
    var event := decoded.value;
    if event.kind == "error" {
      var msg := TrimSpace(event.message);
      if msg == "" {
        msg := TrimSpace(event.code);
      }
      if msg == "" {
        msg := "codex stream error";
      }
      return Some(ProviderError(msg));
    } else if event.kind == "response.failed" {
      var msg := TrimSpace(event.failedMessage);
      if msg == "" {
        msg := "codex response failed";
      }
      return Some(ProviderError(msg));
    } else if event.kind == "response.completed" || event.kind == "response.done" {
      if |event.response| == 0 {
        return Some(ProviderError("codex stream missing completed response"));
      }
      var out := json.response(event.response);
      if out.None? {
        return Some(BadResponse(event.response));
      }
      if TrimSpace(out.value.status) == "" {
        return Some(Completed(out.value.(status := "completed")));
      }
      return Some(Completed(out.value));
    }
    return None;
  }

  // ----- The simple form: blocks -----

  /** The lines cut at the blank ones; the last block is the unfinished one. */
  function Blocks(lines: seq<string>): (blocks: seq<seq<string>>)
    ensures blocks != []
  {
    if lines == [] then [[]]
    else
      var rest := Blocks(lines[1..]);
      if IsBlank(lines[0]) then [[]] + rest else [[lines[0]] + rest[0]] + rest[1..]
  }

  function Data(block: seq<string>): seq<string> {
    if block == [] then [] else DataLine(block[0]) + Data(block[1..])
  }

  function FirstTerminal(json: Decoder, blocks: seq<seq<string>>): Option<Outcome> {
    if blocks == [] then None
    else
      var r := Terminal(json, Data(blocks[0]));
      if r.Some? then r else FirstTerminal(json, blocks[1..])
  }

  function Finished(blocks: seq<seq<string>>): seq<seq<string>>
    requires blocks != []
  {
    blocks[..|blocks| - 1]
  }

  function Unfinished(blocks: seq<seq<string>>): seq<string>
    requires blocks != []
  {
    blocks[|blocks| - 1]
  }

  /** The first terminal event of a finished block; at the end of the input the unfinished block counts too.
      `broken` says that reading failed where the stream stops. */
  function Parsed(json: Decoder, stream: string, broken: bool): Outcome {
    var blocks := Blocks(FullLines(stream));
    var first := FirstTerminal(json, Finished(blocks));
    if first.Some? then first.value
    else if broken then ReadFailed
    else
      var last := Terminal(json, Data(Unfinished(blocks) + [Tail(stream)]));
      if last.Some? then last.value else EndedEarly
  }

  // ----- The one pass -----

  /** What the loop does from some line on, with the data lines of the block under way. */
  function Scan(json: Decoder, data: seq<string>, lines: seq<string>, tail: string, broken: bool): Outcome
    decreases |lines|
  {
    if lines == [] then
      if broken then ReadFailed
      else
        var last := Terminal(json, data + DataLine(tail));
        if last.Some? then last.value else EndedEarly
    else if IsBlank(lines[0]) then
      var r := Terminal(json, data);
      if r.Some? then r.value else Scan(json, [], lines[1..], tail, broken)
    else Scan(json, data + DataLine(lines[0]), lines[1..], tail, broken)
  }

  function ScanBytes(json: Decoder, data: seq<string>, stream: string, broken: bool): Outcome {
    Scan(json, data, FullLines(stream), Tail(stream), broken)
  }

  // ----- The one pass is the simple form -----

  /** The simple form, where the first block already has some data lines. */
  function Decided(json: Decoder, data: seq<string>, blocks: seq<seq<string>>, tail: string, broken: bool): Outcome
    requires blocks != []
    decreases |blocks|
  {
    if |blocks| == 1 then
      if broken then ReadFailed
      else
        var last := Terminal(json, data + Data(blocks[0] + [tail]));
        if last.Some? then last.value else EndedEarly
    else
      var r := Terminal(json, data + Data(blocks[0]));
      if r.Some? then r.value else Decided(json, [], blocks[1..], tail, broken)
  }

  lemma DataCons(line: string, block: seq<string>, data: seq<string>)
    ensures data + Data([line] + block) == data + DataLine(line) + Data(block)
  {
    assert ([line] + block)[1..] == block;
  }

  lemma {:induction false} ScanIsDecided(
    json: Decoder, data: seq<string>, lines: seq<string>, tail: string, broken: bool)
    ensures Scan(json, data, lines, tail, broken) == Decided(json, data, Blocks(lines), tail, broken)
    decreases |lines|
  {
    if lines == [] {
      DataCons(tail, [], data);
      assert [[]][0] + [tail] == [tail] + [];
      assert data + DataLine(tail) + [] == data + DataLine(tail);
    } else {
      var line, rest := lines[0], Blocks(lines[1..]);
      if IsBlank(line) {
        ScanIsDecided(json, [], lines[1..], tail, broken);
        assert ([[]] + rest)[1..] == rest && data + [] == data;
      } else {
        ScanIsDecided(json, data + DataLine(line), lines[1..], tail, broken);
        DataCons(line, rest[0], data);
        DataCons(line, rest[0] + [tail], data);
        Reassociate([line], rest[0], [tail]);
        assert ([[line] + rest[0]] + rest[1..])[1..] == rest[1..];
      }
    }
  }

  lemma {:induction false} DecidedIsFirstTerminal(json: Decoder, blocks: seq<seq<string>>, tail: string, broken: bool)
    requires blocks != []
    ensures Decided(json, [], blocks, tail, broken) ==
      var first := FirstTerminal(json, Finished(blocks));
      if first.Some? then first.value else Decided(json, [], [Unfinished(blocks)], tail, broken)
    decreases |blocks|
  {
    if |blocks| == 1 {
      assert blocks == [Unfinished(blocks)];
    } else {
      var rest := blocks[1..];
      DecidedIsFirstTerminal(json, rest, tail, broken);
      assert Unfinished(blocks) == Unfinished(rest);
      assert Finished(blocks)[1..] == Finished(rest) && Finished(blocks)[0] == blocks[0];
      assert [] + Data(blocks[0]) == Data(blocks[0]);
    }
  }

  lemma ScanIsParsed(json: Decoder, stream: string, broken: bool)
    ensures ScanBytes(json, [], stream, broken) == Parsed(json, stream, broken)
  {
    var blocks := Blocks(FullLines(stream));
    ScanIsDecided(json, [], FullLines(stream), Tail(stream), broken);
    DecidedIsFirstTerminal(json, blocks, Tail(stream), broken);
    assert [] + Data(Unfinished(blocks) + [Tail(stream)]) == Data(Unfinished(blocks) + [Tail(stream)]);
  }

  method ReadString(stream: string, from: nat) returns (line: string, next: nat, eof: bool)
    requires from <= |stream|
    ensures eof <==> '\n' !in stream[from..]
    ensures eof ==> line == stream[from..] && next == |stream|
    ensures !eof ==> line == stream[from..][..NewlineAt(stream[from..])] + "\n"
    ensures !eof ==> next == from + NewlineAt(stream[from..]) + 1
  {
    next := from;
    while next < |stream| && stream[next] != '\n'
      invariant from <= next <= |stream| && '\n' !in stream[from..next]
    {
      TakeNext(stream[from..], next - from);
      assert stream[from..][..next - from] == stream[from..next];
      assert stream[from..][..next - from + 1] == stream[from..next + 1];
      next := next + 1;
    }
    DropSplit(stream, from, next);
    if next == |stream| {
      assert stream[from..next] == stream[from..];
      return stream[from..], next, true;
    }
    FirstNewline(stream[from..], next - from);
    assert stream[from..][..next - from] == stream[from..next];
    return stream[from..next] + "\n", next + 1, false;
  }

  lemma {:induction false} FirstNewline(s: string, k: nat)
    requires k < |s| && s[k] == '\n' && '\n' !in s[..k]
    ensures '\n' in s && NewlineAt(s) == k
  {
    if k > 0 {
      TakeHead(s, k);
      FirstNewline(s[1..], k - 1);
      assert NewlineAt(s) == NewlineAt(s[1..]) + 1;
    }
  }

  /** One line of the loop, as `ReadString` returns it. */
  lemma ScanStep(json: Decoder, data: seq<string>, rest: string, broken: bool, line: string, next: string)
    requires '\n' in rest && line == rest[..NewlineAt(rest)] + "\n" && next == rest[NewlineAt(rest) + 1..]
    ensures ScanBytes(json, data, rest, broken) ==
      if !IsBlank(line) then ScanBytes(json, data + DataLine(line), next, broken)
      else if Terminal(json, data).Some? then Terminal(json, data).value
      else ScanBytes(json, [], next, broken)
  {
    var bare := rest[..NewlineAt(rest)];
    assert line[..|bare|] == bare;
    assert TrimEol(line) == TrimEol(bare);
    assert FullLines(rest)[1..] == FullLines(next);
  }

  lemma ScanEnd(json: Decoder, data: seq<string>, rest: string, broken: bool)
    requires '\n' !in rest
    ensures ScanBytes(json, data, rest, broken) ==
      if broken then ReadFailed
      else if Terminal(json, data + DataLine(rest)).Some? then Terminal(json, data + DataLine(rest)).value
        else EndedEarly
    ensures IsBlank(rest) ==> data + DataLine(rest) == data
  {}

  /** A blank line dispatches what was collected; a data line is collected; any other line is skipped. */
  method TakeLine(json: Decoder, data: seq<string>, line: string) returns (out: Option<Outcome>, data': seq<string>)
    ensures IsBlank(line) ==> out == Terminal(json, data) && data' == []
    ensures !IsBlank(line) ==> out == None && data' == data + DataLine(line)
  {
    out, data' := None, data;
    var trimmed := TrimEol(line);
    if trimmed == "" {
      out := ParseEvent(json, data);
      data' := [];
    } else if DATA <= trimmed {
      data' := data + [TrimSpace(trimmed[|DATA|..])];
    } else {
      assert data + [] == data;
    }
  }

  /** The loop is the simple form. */
  method ParseCodexSSEResponse(json: Decoder, stream: string, broken: bool) returns (r: Outcome)
    ensures r == Parsed(json, stream, broken)
  {
    var data: seq<string> := [];
    var at := 0;
    ScanIsParsed(json, stream, broken);
    assert stream[0..] == stream;
    while true
      invariant at <= |stream|
      invariant ScanBytes(json, data, stream[at..], broken) == Parsed(json, stream, broken)
      decreases |stream| - at
    {
      ghost var rest, before := stream[at..], data;
      var line, next, eof := ReadString(stream, at);
      if eof && broken {
        ScanEnd(json, data, rest, broken);
        return ReadFailed;
      }
      var out;
      out, data := TakeLine(json, data, line);
      if eof {
        ScanEnd(json, before, rest, broken);
        if out.Some? {
          return out.value;
        }
        out := ParseEvent(json, data);
        return if out.Some? then out.value else EndedEarly;
      }
      assert stream[next..] == rest[NewlineAt(rest) + 1..];
      ScanStep(json, before, rest, broken, line, stream[next..]);
      if out.Some? {
        return out.value;
      }
      at := next;
    }
  }

  // ----- Laws -----

  lemma {:induction false} LinesExtend(s: string, more: string)
    ensures FullLines(s + more) == FullLines(s) + FullLines(Tail(s) + more)
    decreases |s|
  {
    if '\n' in s {
      var k := NewlineAt(s);
      assert (s + more)[..k] == s[..k] && (s + more)[k + 1..] == s[k + 1..] + more;
      FirstNewline(s + more, k);
      LinesExtend(s[k + 1..], more);
      Reassociate([s[..k]], FullLines(s[k + 1..]), FullLines(Tail(s) + more));
    }
  }

  lemma {:induction false} BlocksExtend(lines: seq<string>, more: seq<string>)
    ensures Finished(Blocks(lines)) <= Finished(Blocks(lines + more))
    decreases |lines|
  {
    if lines != [] {
      assert (lines + more)[1..] == lines[1..] + more;
      BlocksExtend(lines[1..], more);
      var short, long := Blocks(lines[1..]), Blocks(lines[1..] + more);
      if IsBlank(lines[0]) {
        assert Finished([[]] + short) == [[]] + Finished(short);
        assert Finished([[]] + long) == [[]] + Finished(long);
      } else {
        FinishedCons(lines[0], short);
        FinishedCons(lines[0], long);
      }
    }
  }

  lemma FinishedCons(line: string, blocks: seq<seq<string>>)
    requires blocks != []
    ensures Finished([[line] + blocks[0]] + blocks[1..])
         == if |blocks| == 1 then [] else [[line] + Finished(blocks)[0]] + Finished(blocks)[1..]
  {}

  lemma {:induction false} FirstStaysFirst(json: Decoder, some: seq<seq<string>>, all: seq<seq<string>>)
    requires some <= all && FirstTerminal(json, some).Some?
    ensures FirstTerminal(json, all) == FirstTerminal(json, some)
    decreases |some|
  {
    if Terminal(json, Data(some[0])).None? {
      assert some[1..] <= all[1..];
      FirstStaysFirst(json, some[1..], all[1..]);
    }
  }

  /** Once a finished block holds a terminal event, no later byte matters, nor how the stream ends. */
  lemma LaterBytesNeverMatter(json: Decoder, stream: string, more: string, broken: bool, broken': bool)
    requires FirstTerminal(json, Finished(Blocks(FullLines(stream)))).Some?
    ensures Parsed(json, stream + more, broken) == Parsed(json, stream, broken')
  {
    LinesExtend(stream, more);
    BlocksExtend(FullLines(stream), FullLines(Tail(stream) + more));
    FirstStaysFirst(json, Finished(Blocks(FullLines(stream))), Finished(Blocks(FullLines(stream + more))));
  }
}
