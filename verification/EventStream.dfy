/** The event stream parser of the HTML standard (WHATWG), sections 9.2.5 and 9.2.6, as far as the data of
    events goes: line ends, fields, the data buffer and its dispatch. Independent of the Codex reader. */
module EventStream {
  import opened Types

  // ----- Lines: they end at CR LF, at LF or at CR -----

  predicate IsEnd(c: char) {
    c == '\n' || c == '\r'
  }

  predicate HasEnd(s: string) {
    exists c :: c in s && IsEnd(c)
  }

  function EndAt(s: string): (k: nat)
    requires HasEnd(s)
    ensures k < |s| && IsEnd(s[k]) && !HasEnd(s[..k])
  {
    if IsEnd(s[0]) then 0
    else
      assert s == [s[0]] + s[1..];
      var k := EndAt(s[1..]);
      assert s[..k + 1] == [s[0]] + s[1..][..k];
      k + 1
  }

  function EndLength(s: string, k: nat): (n: nat)
    requires k < |s|
    ensures 0 < n && k + n <= |s|
  {
    if s[k] == '\r' && k + 1 < |s| && s[k + 1] == '\n' then 2 else 1
  }

  /** The lines that end; what follows the last end is never dispatched. */
  function Lines(s: string): seq<string>
    decreases |s|
  {
    if !HasEnd(s) then []
    else
      var k := EndAt(s);
      [s[..k]] + Lines(s[k + EndLength(s, k)..])
  }

  /** One leading byte order mark is dropped, as UTF-8 decoding does. */
  predicate HasMark(s: string) {
    |s| >= 3 && s[0] as int == 0xEF && s[1] as int == 0xBB && s[2] as int == 0xBF
  }

  function Unmarked(s: string): string {
    if HasMark(s) then s[3..] else s
  }

  // ----- Fields -----

  function ColonAt(line: string): (k: nat)
    requires ':' in line
    ensures k < |line| && line[k] == ':' && ':' !in line[..k]
  {
    if line[0] == ':' then 0
    else
      assert line == [line[0]] + line[1..];
      var k := ColonAt(line[1..]);
      assert line[..k + 1] == [line[0]] + line[1..][..k];
      k + 1
  }

  /** The name runs to the first colon; a line without one is a name. A comment has the empty name. */
  function FieldName(line: string): string {
    if ':' in line then line[..ColonAt(line)] else line
  }

  /** One leading space of the value is dropped. */
  function FieldValue(line: string): string {
    if ':' !in line then ""
    else
      var value := line[ColonAt(line) + 1..];
      if value != "" && value[0] == ' ' then value[1..] else value
  }

  // ----- Interpretation -----

  /** The data of the events dispatched over some lines; `buffer` is the data buffer before them. */
  function Interpret(lines: seq<string>, buffer: string): seq<string>
    decreases |lines|
  {
    if lines == [] then []
    else if lines[0] == "" then
      (if buffer == "" then [] else [buffer[..|buffer| - 1]]) + Interpret(lines[1..], "")
    else
      Interpret(lines[1..], if FieldName(lines[0]) == "data" then buffer + FieldValue(lines[0]) + "\n" else buffer)
  }

  /** The data of every event of a stream; an event that no blank line ends is discarded. */
  function Events(stream: string): seq<string> {
    Interpret(Lines(Unmarked(stream)), "")
  }
}
