/** The conversation read off a branch (`BuildContext` in internal/session/manager.go). */
module SessionContext {
  import opened Types
  import opened Sequences
  import opened Sessions
  import opened BranchLaws

  datatype Settings = Settings(thinking: string, provider: string, modelId: string)

  datatype Context = Context(messages: seq<Message>, settings: Settings)

  function SettingsAfter(s: Settings, body: Body): Settings {
    match body
    case ThinkingLevelChange(level) => if level != "" then s.(thinking := level) else s
    case ModelChange(provider, modelId) => s.(provider := provider, modelId := modelId)
    case MessageBody(Some(m)) =>
      if m.role.Assistant? then
        s.(provider := if m.provider != "" then m.provider else s.provider,
           modelId := if m.model != "" then m.model else s.modelId)
      else s
    case _ => s
  }

  const DEFAULTS := Settings("medium", "", "")

  function SettingsOf(bodies: seq<Body>, s: Settings): Settings {
    if bodies == [] then s else SettingsOf(bodies[1..], SettingsAfter(s, bodies[0]))
  }

  function Bodies(entries: seq<Entry>): (bodies: seq<Body>)
    ensures |bodies| == |entries| && forall k :: 0 <= k < |entries| ==> bodies[k] == entries[k].body
  {
    seq(|entries|, k requires 0 <= k < |entries| => entries[k].body)
  }

  function BranchSummaryText(summary: string): string {
    "<branch_summary>\n" + summary + "\n</branch_summary>"
  }

  function SummaryText(summary: string): string {
    "<summary>\n" + summary + "\n</summary>"
  }

  /** The message an entry contributes, if any; `n` is how many messages come before it. */
  function EntryMessage(body: Body, clock: Clock, n: nat): seq<Message> {
    match body
    case MessageBody(Some(m)) => [m]
    case CustomMessage(_, content, _, _) => if |content| > 0 then [PlainMessage(User, content, clock(n))] else []
    case BranchSummary(_, summary, _) =>
      if summary != "" then [TextMessage(User, BranchSummaryText(summary), clock(n))] else []
    case _ => []
  }

  function Emit(clock: Clock): (Body, nat) -> seq<Message> {
    (b: Body, n: nat) => EntryMessage(b, clock, n)
  }

  function EntryMessages(entries: seq<Entry>, clock: Clock, n: nat): seq<Message> {
    Spread(Bodies(entries), Emit(clock), n)
  }

  /** The position of the last compaction entry, or -1. */
  function LastCompaction(branch: seq<Entry>): (c: int)
    ensures -1 <= c < |branch|
    ensures c >= 0 ==> branch[c].body.Compaction?
    ensures forall k :: c < k < |branch| ==> !branch[k].body.Compaction?
  {
    if branch == [] then -1
    else if branch[|branch| - 1].body.Compaction? then |branch| - 1
    else LastCompaction(branch[..|branch| - 1])
  }

  /** The first position before `c` that holds `id`, or `c`. */
  function KeptFrom(branch: seq<Entry>, id: Id, c: nat): (k: nat)
    requires c <= |branch|
    ensures k <= c
    ensures k < c ==> branch[k].id == id
    ensures forall i :: 0 <= i < k ==> branch[i].id != id
  {
    if c == 0 then 0
    else
      var k := KeptFrom(branch, id, c - 1);
      if k < c - 1 || branch[c - 1].id == id then k else c
  }

  /** The entries whose messages the context holds, besides the summary. */
  function Kept(branch: seq<Entry>): seq<Entry> {
    var c := LastCompaction(branch);
    if c < 0 then branch else branch[KeptFrom(branch, branch[c].body.firstKeptEntryId, c)..]
  }

  function Summary(branch: seq<Entry>, clock: Clock): seq<Message> {
    var c := LastCompaction(branch);
    if c >= 0 && branch[c].body.summary != "" then [TextMessage(User, SummaryText(branch[c].body.summary), clock(0))]
    else []
  }

  function ContextMessages(branch: seq<Entry>, clock: Clock): seq<Message> {
    var summary := Summary(branch, clock);
    summary + EntryMessages(Kept(branch), clock, |summary|)
  }

  function ContextOf(branch: seq<Entry>, clock: Clock): Context {
    Context(ContextMessages(branch, clock), SettingsOf(Bodies(branch), DEFAULTS))
  }

  method BuildContext(branch: seq<Entry>, clock: Clock) returns (ctx: Context)
    requires UniqueIds(branch)
    ensures ctx == ContextOf(branch, clock)
  {
    var settings, compaction := ScanBranch(branch);
    var messages: seq<Message> := [];
    if compaction >= 0 {
      var c := branch[compaction].body;
      if c.summary != "" {
        messages := messages + [TextMessage(User, SummaryText(c.summary), clock(|messages|))];
      }
      assert messages == Summary(branch, clock);
      messages := AppendFrom(branch, compaction, clock, messages);
    } else {
      messages := AppendMessages(branch, clock, messages);
    }
    ctx := Context(messages, settings);
  }

  /** The first loop of `BuildContext`: the settings, and the last compaction entry. */
  method ScanBranch(branch: seq<Entry>) returns (settings: Settings, compaction: int)
    ensures settings == SettingsOf(Bodies(branch), DEFAULTS) && compaction == LastCompaction(branch)
  {
    settings, compaction := DEFAULTS, -1;
    ghost var bodies := Bodies(branch);
    for i := 0 to |branch|
      invariant SettingsOf(bodies[i..], settings) == SettingsOf(bodies, DEFAULTS)
      invariant -1 <= compaction < i
      invariant compaction >= 0 ==> branch[compaction].body.Compaction?
      invariant forall k :: compaction < k < i ==> !branch[k].body.Compaction?
    {
      DropNext(bodies, i);
      match branch[i].body {
        case ThinkingLevelChange(level) =>
          if level != "" {
            settings := settings.(thinking := level);
          }
        case ModelChange(provider, modelId) =>
          settings := settings.(provider := provider, modelId := modelId);
        case MessageBody(Some(m)) =>
          if m.role.Assistant? {
            if m.provider != "" {
              settings := settings.(provider := m.provider);
            }
            if m.model != "" {
              settings := settings.(modelId := m.model);
            }
          }
        case Compaction(_, _, _, _) =>
          compaction := i;
        case _ =>
      }
    }
  }

  /** The part of `BuildContext` after the summary: the kept entries before the compaction entry, then the rest. */
  method AppendFrom(
    branch: seq<Entry>, compaction: nat, clock: Clock, done: seq<Message>)
    returns (messages: seq<Message>)
    requires UniqueIds(branch) && compaction == LastCompaction(branch)
    ensures messages == done + EntryMessages(Kept(branch), clock, |done|)
  {
    var firstKept := branch[compaction].body.firstKeptEntryId;
    var at := FirstWithId(branch, compaction);
    messages := AppendKept(branch, firstKept, at, clock, done);
    messages := AppendMessages(branch[at + 1..], clock, messages);
    JoinKept(branch, KeptFrom(branch, firstKept, at), at, clock, done);
  }

  /** The search for the compaction entry by its id, from the root. */
  method FirstWithId(branch: seq<Entry>, compaction: nat) returns (at: nat)
    requires UniqueIds(branch) && compaction < |branch| && branch[compaction].body.Compaction?
    ensures at == compaction
  {
    at := 0;
    while !(branch[at].body.Compaction? && branch[at].id == branch[compaction].id)
      invariant at <= compaction
      decreases compaction - at
    {
      at := at + 1;
    }
  }

  /** Appends what the entries from the first kept one up to `at` contribute. */
  method AppendKept(
    branch: seq<Entry>, firstKept: Id, at: nat, clock: Clock, done: seq<Message>)
    returns (messages: seq<Message>)
    requires at <= |branch|
    ensures messages == done + EntryMessages(branch[KeptFrom(branch, firstKept, at)..at], clock, |done|)
  {
    messages := done;
    var found := false;
    ghost var k := KeptFrom(branch, firstKept, at);
    ghost var all := done + EntryMessages(branch[k..at], clock, |done|);
    for i := 0 to at
      invariant !found ==> i <= k && messages == done
      invariant found ==> k <= i && messages + EntryMessages(branch[i..at], clock, |messages|) == all
    {
      if branch[i].id == firstKept {
        found := true;
      }
      if found {
        EntriesStep(branch, i, at, clock, messages);
        messages := messages + EntryMessage(branch[i].body, clock, |messages|);
      }
    }
    assert branch[at..at] == [];
  }

  lemma EntriesStep(branch: seq<Entry>, i: nat, at: nat, clock: Clock, done: seq<Message>)
    requires i < at <= |branch|
    ensures var now := done + EntryMessage(branch[i].body, clock, |done|);
      done + EntryMessages(branch[i..at], clock, |done|) == now + EntryMessages(branch[i + 1..at], clock, |now|)
  {
    var bodies := Bodies(branch[i..at]);
    SpreadStep(bodies, Emit(clock), 0, done);
    assert bodies[0..] == bodies && bodies[1..] == Bodies(branch[i + 1..at]);
  }

  method AppendMessages(entries: seq<Entry>, clock: Clock, done: seq<Message>) returns (messages: seq<Message>)
    ensures messages == done + EntryMessages(entries, clock, |done|)
  {
    messages := done;
    ghost var bodies := Bodies(entries);
    assert bodies[0..] == bodies;
    for i := 0 to |entries|
      invariant messages + Spread(bodies[i..], Emit(clock), |messages|) == done + EntryMessages(entries, clock, |done|)
    {
      SpreadStep(bodies, Emit(clock), i, messages);
      messages := messages + EntryMessage(entries[i].body, clock, |messages|);
    }
  }

  /** The compaction entry itself contributes nothing. */
  lemma JoinKept(branch: seq<Entry>, k: nat, c: nat, clock: Clock, done: seq<Message>)
    requires k <= c < |branch| && branch[c].body.Compaction?
    ensures var now := done + EntryMessages(branch[k..c], clock, |done|);
      now + EntryMessages(branch[c + 1..], clock, |now|) == done + EntryMessages(branch[k..], clock, |done|)
  {
    var kept := EntryMessages(branch[k..c], clock, |done|);
    EntriesSplit(branch, k, c, clock, |done|);
    assert Bodies(branch[c..])[1..] == Bodies(branch[c + 1..]);
    SpreadSilent(Bodies(branch[c..]), Emit(clock), |done| + |kept|);
    Reassociate(done, kept, EntryMessages(branch[c + 1..], clock, |done| + |kept|));
  }

  lemma EntriesSplit(branch: seq<Entry>, k: nat, c: nat, clock: Clock, n: nat)
    requires k <= c <= |branch|
    ensures var kept := EntryMessages(branch[k..c], clock, n);
      EntryMessages(branch[k..], clock, n) == kept + EntryMessages(branch[c..], clock, n + |kept|)
  {
    assert Bodies(branch[k..]) == Bodies(branch[k..c]) + Bodies(branch[c..]);
    SpreadSplit(Bodies(branch[k..c]), Bodies(branch[c..]), Emit(clock), n);
  }
}
