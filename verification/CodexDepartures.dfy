/** Where the Codex stream reader departs from the event stream parser of the HTML standard. */
module CodexDepartures {
  import opened Types
  import opened Sequences
  import opened CodexStream
  import opened EventStream

  // ----- Both readers as lists of payloads -----

  function TrimAll(lines: seq<string>): (trimmed: seq<string>)
    ensures |trimmed| == |lines| && forall k :: 0 <= k < |lines| ==> trimmed[k] == TrimSpace(lines[k])
  {
    seq(|lines|, k requires 0 <= k < |lines| => TrimSpace(lines[k]))
  }

  /** An event's data, each of its lines trimmed: the readers are compared up to spaces around data lines. */
  function Normal(data: string): string {
    Payload(TrimAll(FullLines(data + "\n")))
  }

  function Normals(events: seq<string>): seq<string> {
    if events == [] then [] else [Normal(events[0])] + Normals(events[1..])
  }

  function StandardPayloads(stream: string): seq<string> {
    Normals(Events(stream))
  }

  function Payloads(blocks: seq<seq<string>>): seq<string> {
    if blocks == [] then [] else [Payload(Data(blocks[0]))] + Payloads(blocks[1..])
  }

  function FinishedPayloads(stream: string): seq<string> {
    Payloads(Finished(Blocks(FullLines(stream))))
  }

  function UnfinishedPayload(stream: string): string {
    Payload(Data(Unfinished(Blocks(FullLines(stream))) + [Tail(stream)]))
  }

  function CodexPayloads(stream: string): seq<string> {
    FinishedPayloads(stream) + [UnfinishedPayload(stream)]
  }

  function FirstOf(json: Decoder, payloads: seq<string>): Outcome {
    if payloads == [] then EndedEarly
    else if TerminalOf(json, payloads[0]).Some? then TerminalOf(json, payloads[0]).value
    else FirstOf(json, payloads[1..])
  }

  /** A client that reads its events by the standard. */
  function ParsedByTheStandard(json: Decoder, stream: string): Outcome {
    FirstOf(json, StandardPayloads(stream))
  }

  lemma {:induction false} FirstOfBlocks(json: Decoder, blocks: seq<seq<string>>, last: string)
    ensures var first := FirstTerminal(json, blocks);
      FirstOf(json, Payloads(blocks) + [last]) == if first.Some? then first.value else FirstOf(json, [last])
  {
    if blocks == [] {
      assert Payloads(blocks) + [last] == [last];
    } else {
      FirstOfBlocks(json, blocks[1..], last);
      assert (Payloads(blocks) + [last])[1..] == Payloads(blocks[1..]) + [last];
    }
  }

  lemma ParsedIsFirst(json: Decoder, stream: string)
    ensures Parsed(json, stream, false) == FirstOf(json, CodexPayloads(stream))
  {
    FirstOfBlocks(json, Finished(Blocks(FullLines(stream))), UnfinishedPayload(stream));
    assert [UnfinishedPayload(stream)][1..] == [];
  }

  // ----- On every stream: when the two agree for every decoder -----

  const IGNORED := {"", "[DONE]"}

  /** The payloads in the order in which they first come, without those in `seen`. */
  function Firsts(payloads: seq<string>, seen: set<string>): seq<string>
    decreases |payloads|
  {
    if payloads == [] then []
    else if payloads[0] in seen then Firsts(payloads[1..], seen)
    else [payloads[0]] + Firsts(payloads[1..], seen + {payloads[0]})
  }

  lemma {:induction false} FirstOfFirsts(json: Decoder, payloads: seq<string>, seen: set<string>)
    requires forall p :: p in seen ==> TerminalOf(json, p).None?
    ensures FirstOf(json, payloads) == FirstOf(json, Firsts(payloads, seen))
    decreases |payloads|
  {
    if payloads != [] {
      if payloads[0] in seen {
        FirstOfFirsts(json, payloads[1..], seen);
      } else {
        assert Firsts(payloads, seen)[1..] == Firsts(payloads[1..], seen + {payloads[0]});
        if TerminalOf(json, payloads[0]).None? {
          FirstOfFirsts(json, payloads[1..], seen + {payloads[0]});
        }
      }
    }
  }

  /** No payload comes twice, and none is in `seen`. */
  predicate Novel(payloads: seq<string>, seen: set<string>)
    decreases |payloads|
  {
    payloads == [] || (payloads[0] !in seen && Novel(payloads[1..], seen + {payloads[0]}))
  }

  lemma {:induction false} FirstsAreNovel(payloads: seq<string>, seen: set<string>)
    ensures Novel(Firsts(payloads, seen), seen)
    decreases |payloads|
  {
    if payloads != [] {
      if payloads[0] in seen {
        FirstsAreNovel(payloads[1..], seen);
      } else {
        FirstsAreNovel(payloads[1..], seen + {payloads[0]});
        assert Firsts(payloads, seen)[1..] == Firsts(payloads[1..], seen + {payloads[0]});
      }
    }
  }

  /** A decoder that knows two payloads, and tells them apart. */
  function Telling(a: string, b: string): Decoder {
    Decoder(
      (p: string) =>
        if p == a then Some(StreamEvent("response.failed", "", "", "first", ""))
        else if p == b then Some(StreamEvent("response.failed", "", "", "second", ""))
        else None,
      (p: string) => None)
  }

  lemma TellingTells(a: string, b: string, p: string)
    ensures p in IGNORED || (p != a && p != b) ==> TerminalOf(Telling(a, b), p).None?
    ensures p !in IGNORED && p == a ==> TerminalOf(Telling(a, b), p) == Some(ProviderError("first"))
    ensures p !in IGNORED && p == b && a != b ==> TerminalOf(Telling(a, b), p) == Some(ProviderError("second"))
  {
    assert TrimSpace("first") == "first" && TrimSpace("second") == "second";
  }

  /** Different lists of new payloads are told apart by some decoder, which knows none of the payloads in `seen`. */
  lemma {:induction false} Distinguish(xs: seq<string>, ys: seq<string>, seen: set<string>) returns (json: Decoder)
    requires Novel(xs, seen) && Novel(ys, seen) && xs != ys && IGNORED <= seen
    ensures FirstOf(json, xs) != FirstOf(json, ys)
    ensures forall p :: p in seen ==> TerminalOf(json, p).None?
    decreases |xs|
  {
    if xs != [] && ys != [] && xs[0] == ys[0] {
      assert xs == [xs[0]] + xs[1..] && ys == [ys[0]] + ys[1..];
      json := Distinguish(xs[1..], ys[1..], seen + {xs[0]});
      assert TerminalOf(json, xs[0]).None?;
    } else {
      var a := if xs == [] then ys[0] else xs[0];
      var b := if ys == [] then xs[0] else ys[0];
      json := Telling(a, b);
      forall p | p in seen ensures TerminalOf(json, p).None? { TellingTells(a, b, p); }
      TellingTells(a, b, a);
      TellingTells(a, b, b);
    }
  }

  /** On every stream: the two agree for every decoder exactly when their payloads, but for empty ones, `[DONE]` and
      repetitions, are the same in the same order. */
  lemma AgreeIff(stream: string)
    ensures (forall json :: Parsed(json, stream, false) == ParsedByTheStandard(json, stream))
       <==> Firsts(CodexPayloads(stream), IGNORED) == Firsts(StandardPayloads(stream), IGNORED)
  {
    var xs, ys := CodexPayloads(stream), StandardPayloads(stream);
    forall json ensures Parsed(json, stream, false) == FirstOf(json, Firsts(xs, IGNORED))
      ensures ParsedByTheStandard(json, stream) == FirstOf(json, Firsts(ys, IGNORED))
    {
      ParsedIsFirst(json, stream);
      FirstOfFirsts(json, xs, IGNORED);
      FirstOfFirsts(json, ys, IGNORED);
    }
    if Firsts(xs, IGNORED) != Firsts(ys, IGNORED) {
      FirstsAreNovel(xs, IGNORED);
      FirstsAreNovel(ys, IGNORED);
      var json := Distinguish(Firsts(xs, IGNORED), Firsts(ys, IGNORED), IGNORED);
      assert Parsed(json, stream, false) != ParsedByTheStandard(json, stream);
    }
  }

  // ----- On plain streams: they differ in the unfinished block alone -----

  predicate FeedFollows(s: string) {
    forall k :: 0 <= k < |s| && s[k] == '\r' ==> k + 1 < |s| && s[k + 1] == '\n'
  }

  /** No byte order mark, no carriage return but before a line feed, and no field `data` without a colon. */
  predicate IsPlain(stream: string) {
    && !HasMark(stream) && FeedFollows(stream)
    && forall line :: line in FullLines(stream) ==> TrimEol(line) != "data"
  }

  function TrimEols(lines: seq<string>): seq<string> {
    if lines == [] then [] else [TrimEol(lines[0])] + TrimEols(lines[1..])
  }

  lemma TakeHas(s: string, k: nat)
    requires k <= |s|
    ensures forall i: nat :: i < k ==> s[i] in s[..k]
  {
    forall i: nat | i < k ensures s[i] in s[..k] {
      assert s[..k][i] == s[i];
    }
  }

  lemma Unended(s: string)
    requires !HasEnd(s)
    ensures TrimEol(s) == s && '\n' !in s && '\r' !in s
  {
    assert '\n' in s ==> IsEnd('\n') && HasEnd(s);
    assert '\r' in s ==> IsEnd('\r') && HasEnd(s);
    if s != "" {
      assert s[|s| - 1] in s;
    }
  }

  /** The first line end is the first line feed, or the carriage return just before it. */
  lemma FirstEnd(s: string)
    requires '\n' in s && FeedFollows(s)
    ensures HasEnd(s)
    ensures var k, e := NewlineAt(s), EndAt(s);
      (e == k || e + 1 == k) && EndLength(s, e) == k + 1 - e && (e < k ==> s[e] == '\r')
  {
    assert IsEnd('\n');
    var k, e := NewlineAt(s), EndAt(s);
    Unended(s[..e]);
    TakeHas(s, e);
    TakeHas(s, k);
    if e < k {
      assert s[e] == '\r' && s[e + 1] == '\n';
    }
  }

  lemma TrimReturn(s: string)
    ensures TrimEol(s + "\r") == TrimEol(s)
  {
    assert (s + "\r")[..|s|] == s;
  }

  lemma EndOfLine(s: string)
    requires '\n' in s && FeedFollows(s)
    ensures HasEnd(s)
    ensures var k, e := NewlineAt(s), EndAt(s);
      s[..e] == TrimEol(s[..k]) && e + EndLength(s, e) == k + 1
  {
    FirstEnd(s);
    var k, e := NewlineAt(s), EndAt(s);
    Unended(s[..e]);
    if e < k {
      TrimReturn(s[..e]);
      assert s[..k] == s[..e] + "\r";
    }
  }

  lemma {:induction false} PlainLines(s: string)
    requires FeedFollows(s)
    ensures Lines(s) == TrimEols(FullLines(s))
    decreases |s|
  {
    if '\n' in s {
      var k := NewlineAt(s);
      EndOfLine(s);
      PlainLines(s[k + 1..]);
      assert FullLines(s)[1..] == FullLines(s[k + 1..]);
    } else {
      assert forall k :: 0 <= k < |s| ==> s[k] != '\n';
      forall k: nat | k < |s| ensures s[k] != '\r' {
        assert k + 1 < |s| ==> s[k + 1] != '\n';
      }
    }
  }

  lemma SpaceIsTrimmed(s: string)
    requires s != "" && s[0] == ' '
    ensures TrimSpace(s[1..]) == TrimSpace(s)
  {}

  lemma DataFields(l: string)
    ensures DATA <= l <==> ':' in l && l[..ColonAt(l)] == "data"
    ensures DATA <= l ==> ColonAt(l) == 4
  {
    if DATA <= l {
      assert l[4] == DATA[4] == ':' && l[..4] == DATA[..4] == "data";
      TakeHas(l, ColonAt(l));
      assert ColonAt(l) == 4;
    }
    if ':' in l && l[..ColonAt(l)] == "data" {
      assert l[..5] == l[..4] + [':'] == DATA;
    }
  }

  /** Both readers take the same data from a line, but for spaces. */
  lemma SameData(line: string)
    requires TrimEol(line) != "data"
    ensures DataLine(line)
         == if FieldName(TrimEol(line)) == "data" then [TrimSpace(FieldValue(TrimEol(line)))] else []
  {
    var l := TrimEol(line);
    DataFields(l);
    if DATA <= l && l[5..] != "" && l[5] == ' ' {
      SpaceIsTrimmed(l[5..]);
      assert l[5..][1..] == l[6..];
    }
  }

  lemma {:induction false} BufferSnoc(values: seq<string>, v: string)
    ensures JoinLines(values + [v], "") == JoinLines(values, "") + v + "\n"
  {
    if values == [] {
      assert [] + [v] == [v] && [v][1..] == [];
    } else {
      BufferSnoc(values[1..], v);
      assert (values + [v])[1..] == values[1..] + [v];
    }
  }

  lemma FirstLine(v: string, rest: string)
    requires '\n' !in v
    ensures FullLines(v + "\n" + rest) == [v] + FullLines(rest)
  {
    var b := v + "\n" + rest;
    assert b[..|v|] == v && b[|v| + 1..] == rest;
    FirstNewline(b, |v|);
  }

  lemma {:induction false} BufferLines(values: seq<string>)
    requires forall v :: v in values ==> '\n' !in v
    ensures FullLines(JoinLines(values, "")) == values
  {
    if values != [] {
      assert values == [values[0]] + values[1..];
      BufferLines(values[1..]);
      FirstLine(values[0], JoinLines(values[1..], ""));
    }
  }

  lemma {:induction false} BufferEnds(values: seq<string>)
    requires values != []
    ensures var b := JoinLines(values, ""); b != "" && b[|b| - 1] == '\n'
  {
    if |values| > 1 {
      BufferEnds(values[1..]);
    }
  }

  lemma NormalOf(data: string, b: string, values: seq<string>)
    requires data + "\n" == b && FullLines(b) == values
    ensures Normal(data) == Payload(TrimAll(values))
  {}

  lemma Unfinish(b: string)
    requires b != "" && b[|b| - 1] == '\n'
    ensures b[..|b| - 1] + "\n" == b
  {}

  lemma NormalOfBuffer(values: seq<string>, b: string)
    requires values != [] && forall v :: v in values ==> '\n' !in v
    requires b == JoinLines(values, "")
    ensures b != "" && Normal(b[..|b| - 1]) == Payload(TrimAll(values))
  {
    BufferLines(values);
    BufferEnds(values);
    Unfinish(b);
    NormalOf(b[..|b| - 1], b, values);
  }

  function Nonempty(payloads: seq<string>): seq<string> {
    if payloads == [] then []
    else (if payloads[0] == "" then [] else [payloads[0]]) + Nonempty(payloads[1..])
  }

  /** The payloads of the finished blocks, where the first already has some data lines. */
  function FinishedFrom(data: seq<string>, lines: seq<string>): seq<string>
    decreases |lines|
  {
    if lines == [] then []
    else if IsBlank(lines[0]) then [Payload(data)] + FinishedFrom([], lines[1..])
    else FinishedFrom(data + DataLine(lines[0]), lines[1..])
  }

  lemma NonemptyHead(p: string, rest: seq<string>)
    ensures Nonempty([p] + rest) == (if p == "" then [] else [p]) + Nonempty(rest)
  {
    assert ([p] + rest)[1..] == rest;
  }

  lemma Unfed(line: string)
    requires '\n' !in line
    ensures '\n' !in FieldValue(TrimEol(line))
  {
    TrimEolPrefix(line);
  }

  lemma {:induction false} TrimEolPrefix(line: string)
    ensures TrimEol(line) <= line
  {
    if line != "" && (line[|line| - 1] == '\r' || line[|line| - 1] == '\n') {
      TrimEolPrefix(line[..|line| - 1]);
    }
  }

  lemma TrimAllSnoc(values: seq<string>, v: string)
    ensures TrimAll(values + [v]) == TrimAll(values) + [TrimSpace(v)]
  {}

  /** The standard's interpretation of plain lines gives the finished blocks. */
  lemma {:induction false} InterpretIsFinished(lines: seq<string>, values: seq<string>)
    requires forall line :: line in lines ==> '\n' !in line && TrimEol(line) != "data"
    requires forall v :: v in values ==> '\n' !in v
    ensures Nonempty(Normals(Interpret(TrimEols(lines), JoinLines(values, ""))))
         == Nonempty(FinishedFrom(TrimAll(values), lines))
    decreases |lines|
  {
    if lines != [] {
      var line, rest := lines[0], lines[1..];
      assert line in lines && forall x :: x in rest ==> x in lines;
      assert TrimEols(lines)[1..] == TrimEols(rest);
      if IsBlank(line) {
        InterpretIsFinished(rest, []);
        BlankLine(rest, values);
      } else {
        SameData(line);
        Unfed(line);
        if FieldName(TrimEol(line)) == "data" {
          var v := FieldValue(TrimEol(line));
          BufferSnoc(values, v);
          TrimAllSnoc(values, v);
          InterpretIsFinished(rest, values + [v]);
        } else {
          assert TrimAll(values) + [] == TrimAll(values);
          InterpretIsFinished(rest, values);
        }
      }
    }
  }

  lemma BlankLine(rest: seq<string>, values: seq<string>)
    requires forall v :: v in values ==> '\n' !in v
    requires Nonempty(Normals(Interpret(TrimEols(rest), ""))) == Nonempty(FinishedFrom([], rest))
    ensures var b, more := JoinLines(values, ""), Interpret(TrimEols(rest), "");
      Nonempty(Normals((if b == "" then [] else [b[..|b| - 1]]) + more))
      == Nonempty([Payload(TrimAll(values))] + FinishedFrom([], rest))
  {
    var b, more := JoinLines(values, ""), Interpret(TrimEols(rest), "");
    NonemptyHead(Payload(TrimAll(values)), FinishedFrom([], rest));
    if values == [] {
      assert [] + more == more && TrimAll(values) == [] && Payload([]) == "";
    } else {
      NormalOfBuffer(values, b);
      NormalsHead(b[..|b| - 1], more);
    }
  }

  lemma NormalsHead(data: string, more: seq<string>)
    ensures Nonempty(Normals([data] + more))
         == (if Normal(data) == "" then [] else [Normal(data)]) + Nonempty(Normals(more))
  {
    assert ([data] + more)[1..] == more;
    NonemptyHead(Normal(data), Normals(more));
  }

  /** The payloads of some blocks, where the first already has some data lines. */
  function PayloadsFrom(data: seq<string>, blocks: seq<seq<string>>): seq<string> {
    if blocks == [] then [] else [Payload(data + Data(blocks[0]))] + Payloads(blocks[1..])
  }

  lemma {:induction false} FinishedFromBlocks(data: seq<string>, lines: seq<string>)
    ensures FinishedFrom(data, lines) == PayloadsFrom(data, Finished(Blocks(lines)))
    decreases |lines|
  {
    if lines != [] {
      var line, rest := lines[0], Blocks(lines[1..]);
      if IsBlank(line) {
        FinishedFromBlocks([], lines[1..]);
        assert Finished([[]] + rest) == [[]] + Finished(rest) && ([[]] + Finished(rest))[1..] == Finished(rest);
        assert data + Data([]) == data;
        PayloadsFromNone(Finished(rest));
      } else {
        FinishedFromBlocks(data + DataLine(line), lines[1..]);
        FinishedCons(line, rest);
        if |rest| > 1 {
          DataCons(line, rest[0], data);
          assert Finished(rest)[0] == rest[0];
        }
      }
    }
  }

  lemma PayloadsFromNone(blocks: seq<seq<string>>)
    ensures PayloadsFrom([], blocks) == Payloads(blocks)
  {
    if blocks != [] {
      assert [] + Data(blocks[0]) == Data(blocks[0]);
    }
  }

  /** On a plain stream the standard's events are the finished blocks. */
  lemma PlainIsFinished(stream: string)
    requires IsPlain(stream)
    ensures Nonempty(FinishedPayloads(stream)) == Nonempty(StandardPayloads(stream))
  {
    var lines := FullLines(stream);
    PlainLines(stream);
    LinesRoundTrip(stream);
    InterpretIsFinished(lines, []);
    assert TrimAll([]) == [];
    FinishedFromBlocks([], lines);
    PayloadsFromNone(Finished(Blocks(lines)));
  }

  lemma {:induction false} FirstOfNonempty(json: Decoder, payloads: seq<string>)
    ensures FirstOf(json, payloads) == FirstOf(json, Nonempty(payloads))
    ensures (forall p :: p in payloads ==> TerminalOf(json, p).None?)
       <==> (forall p :: p in Nonempty(payloads) ==> TerminalOf(json, p).None?)
  {
    if payloads != [] {
      var p, rest := payloads[0], payloads[1..];
      FirstOfNonempty(json, rest);
      assert payloads == [p] + rest;
      if p != "" {
        assert Nonempty(payloads)[1..] == Nonempty(rest);
      } else {
        assert Nonempty(payloads) == Nonempty(rest);
      }
    }
  }

  lemma {:induction false} FirstOfSnoc(json: Decoder, payloads: seq<string>, last: string)
    ensures FirstOf(json, payloads + [last])
         == if forall p :: p in payloads ==> TerminalOf(json, p).None? then FirstOf(json, [last])
            else FirstOf(json, payloads)
    ensures (forall p :: p in payloads ==> TerminalOf(json, p).None?) <==> FirstOf(json, payloads) == EndedEarly
  {
    if payloads == [] {
      assert [] + [last] == [last];
    } else {
      FirstOfSnoc(json, payloads[1..], last);
      assert (payloads + [last])[1..] == payloads[1..] + [last];
      assert payloads == [payloads[0]] + payloads[1..];
    }
  }

  /** On a plain stream the readers differ exactly when no event of the standard is terminal and the unfinished
      block, which the standard discards, is. */
  lemma PlainDepartsIff(json: Decoder, stream: string)
    requires IsPlain(stream)
    ensures Parsed(json, stream, false) != ParsedByTheStandard(json, stream)
       <==> (forall p :: p in StandardPayloads(stream) ==> TerminalOf(json, p).None?)
            && TerminalOf(json, UnfinishedPayload(stream)).Some?
  {
    var xs, ys, last := FinishedPayloads(stream), StandardPayloads(stream), UnfinishedPayload(stream);
    PlainIsFinished(stream);
    FirstOfNonempty(json, xs);
    FirstOfNonempty(json, ys);
    ParsedIsFirst(json, stream);
    FirstOfSnoc(json, xs, last);
    FirstOfSnoc(json, ys, last);
    assert [last][1..] == [];
  }

  // ----- A stream where they differ -----

  lemma OneLine(s: string)
    requires !HasEnd(s) && s != ""
    ensures FinishedPayloads(s) == [] && CodexPayloads(s) == [UnfinishedPayload(s)]
    ensures UnfinishedPayload(s) == Payload(DataLine(s))
  {
    Unended(s);
    assert Blocks(FullLines(s)) == [[]];
    assert Finished(Blocks(FullLines(s))) == [];
    assert Unfinished(Blocks(FullLines(s))) + [Tail(s)] == [s];
    assert Data([s][1..]) == [];
    assert Data([s]) == DataLine(s);
  }

  /** An unfinished block. */
  lemma UnfinishedDeparts()
    ensures var stream, json := "data: x", Telling("x", "y");
      Parsed(json, stream, false) == ProviderError("first") && ParsedByTheStandard(json, stream) == EndedEarly
  {
    var stream, json := "data: x", Telling("x", "y");
    DataOfX();
    OneLine(stream);
    TellingTells("x", "y", "x");
    ParsedIsFirst(json, stream);
    assert Events(stream) == [];
  }

  lemma DataOfX()
    ensures !HasEnd("data: x") && Payload(DataLine("data: x")) == "x"
  {
    var line := "data: x";
    assert DATA <= line && line[|DATA|..] == " x";
    assert " x"[1..] == "x" && TrimSpace("x") == "x";
    assert DataLine(line) == ["x"];
  }
}
