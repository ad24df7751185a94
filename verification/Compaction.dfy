/** Host-made compaction: the cut, the summary source and the compaction entry
    (`compactContext` and its helpers in internal/agent/runtime.go, without a sidecar). */
module Compactions {
  import opened Types
  import opened Sequences
  import opened Sessions
  import opened BranchLaws
  import opened SessionContext
  import opened SessionManager

  const KEEP := 8

  predicate LikeBody(b: Body) {
    b.MessageBody? || b.CustomMessage? || b.BranchSummary?
  }

  predicate MessageLike(e: Entry) {
    LikeBody(e.body)
  }

  function MessageLikes(entries: seq<Entry>): seq<Entry> {
    Filter(entries, MessageLike)
  }

  function SelectFirstKept(branch: seq<Entry>, keep: nat): Option<Id> {
    var likes := MessageLikes(branch);
    var k := if keep == 0 then 1 else keep;
    if |likes| <= k then None else Some(likes[|likes| - k].id)
  }

  method SelectCompactionFirstKeptEntry(branch: seq<Entry>, keepRecent: int) returns (r: Option<Id>)
    ensures r == SelectFirstKept(branch, if keepRecent < 0 then 0 else keepRecent)
  {
    var keep := keepRecent;
    if keep <= 0 {
      keep := 1;
    }
    var ids: seq<Id> := [];
    assert branch[0..] == branch;
    for i := 0 to |branch|
      invariant ids + LikeIds(branch[i..]) == LikeIds(branch)
    {
      LikeIdsStep(branch, i, ids);
      if branch[i].body.MessageBody? || branch[i].body.CustomMessage? || branch[i].body.BranchSummary? {
        ids := ids + [branch[i].id];
      }
    }
    assert ids + [] == ids;
    LikeIdsSelect(branch, keep);
    return if |ids| <= keep then None else Some(ids[|ids| - keep]);
  }

  /** The ids of the message-like entries, in order. */
  function LikeIds(entries: seq<Entry>): seq<Id> {
    if entries == [] then [] else (if MessageLike(entries[0]) then [entries[0].id] else []) + LikeIds(entries[1..])
  }

  lemma {:induction false} LikeIdsAre(entries: seq<Entry>)
    ensures var ids, likes := LikeIds(entries), MessageLikes(entries);
      |ids| == |likes| && forall k :: 0 <= k < |ids| ==> ids[k] == likes[k].id
  {
    if entries != [] {
      LikeIdsAre(entries[1..]);
    }
  }

  lemma LikeIdsSelect(branch: seq<Entry>, keep: nat)
    requires keep > 0
    ensures SelectFirstKept(branch, keep)
         == var ids := LikeIds(branch); if |ids| <= keep then None else Some(ids[|ids| - keep])
  {
    LikeIdsAre(branch);
  }

  lemma LikeIdsStep(branch: seq<Entry>, i: nat, done: seq<Id>)
    requires i < |branch|
    ensures done + LikeIds(branch[i..])
         == (if MessageLike(branch[i]) then done + [branch[i].id] else done) + LikeIds(branch[i + 1..])
  {
    DropNext(branch, i);
    var one := if MessageLike(branch[i]) then [branch[i].id] else [];
    Reassociate(done, one, LikeIds(branch[i + 1..]));
    assert done + [] == done;
  }

  lemma {:induction false} AllMessageLike(entries: seq<Entry>)
    requires forall k :: 0 <= k < |entries| ==> MessageLike(entries[k])
    ensures MessageLikes(entries) == entries
  {
    if entries != [] {
      AllMessageLike(entries[1..]);
      DropNext(entries, 0);
    }
  }

  lemma {:induction false} LikesAreFewer(entries: seq<Entry>)
    ensures |MessageLikes(entries)| <= |entries|
  {
    if entries != [] {
      LikesAreFewer(entries[1..]);
    }
  }

  // ----- The summary source -----

  function AssistantText(blocks: seq<Block>, acc: string): string {
    if blocks == [] then acc
    else if blocks[0].Text? then AssistantText(blocks[1..], JoinLine(acc, blocks[0].text))
    else AssistantText(blocks[1..], acc)
  }

  function TextParts(blocks: seq<Block>): seq<string> {
    if blocks == [] then []
    else
      (if blocks[0].Text? && TrimSpace(blocks[0].text) != "" then [TrimSpace(blocks[0].text)] else [])
      + TextParts(blocks[1..])
  }

  function RoleName(role: Role): string {
    match role
    case User => "user"
    case Assistant => "assistant"
    case ToolResult => "toolResult"
    case OtherRole(name) => name
  }

  /** The text of a message-like entry, trimmed. */
  function EntryText(b: Body): string {
    match b
    case MessageBody(Some(m)) => TrimSpace(AssistantText(m.content, ""))
    case CustomMessage(_, content, _, _) => TrimSpace(Join(TextParts(content)))
    case BranchSummary(_, summary, _) => TrimSpace(summary)
    case _ => ""
  }

  function SourceLine(b: Body): seq<string> {
    var text := EntryText(b);
    match b
    case MessageBody(Some(m)) => if text == "" then [] else [RoleName(m.role) + ": " + text]
    case CustomMessage(customType, _, _, _) =>
      if text == "" then []
      else if customType != "" then ["custom[" + customType + "]: " + text]
      else ["custom: " + text]
    case BranchSummary(_, _, _) => if text == "" then [] else ["branch_summary: " + text]
    case ModelChange(provider, modelId) => ["model_change: " + provider + "/" + modelId]
    case ThinkingLevelChange(level) => ["thinking_level_change: " + level]
    case _ => []
  }

  function Lines(bodies: seq<Body>): seq<string> {
    if bodies == [] then [] else SourceLine(bodies[0]) + Lines(bodies[1..])
  }

  /** The lines of the entries before the first kept one. */
  function SourceLines(branch: seq<Entry>, firstKept: Id): seq<string> {
    Lines(Bodies(branch[..KeptFrom(branch, firstKept, |branch|)]))
  }

  method FormatCompactionSource(branch: seq<Entry>, firstKept: Id) returns (source: string)
    ensures source == Join(SourceLines(branch, firstKept))
  {
    var lines: seq<string> := [];
    ghost var cut := KeptFrom(branch, firstKept, |branch|);
    ghost var bodies := Bodies(branch[..cut]);
    assert bodies[0..] == bodies;
    for i := 0 to |branch|
      invariant i <= cut && lines + Lines(bodies[i..]) == Lines(bodies)
    {
      if branch[i].id == firstKept {
        break;
      }
      KeptFromBound(branch, firstKept, |branch|, i);
      DropNext(bodies, i);
      Reassociate(lines, SourceLine(branch[i].body), Lines(bodies[i + 1..]));
      lines := lines + SourceLine(branch[i].body);
    }
    assert lines + Lines([]) == lines;
    source := Join(lines);
  }

  lemma KeptFromBound(branch: seq<Entry>, id: Id, c: nat, i: nat)
    requires c <= |branch| && i < c && i <= KeptFrom(branch, id, c) && branch[i].id != id
    ensures i < KeptFrom(branch, id, c)
  {}

  // ----- The compaction itself -----

  function SummaryOf(reply: string): string {
    if TrimSpace(reply) == "" then "Compaction summary unavailable." else TrimSpace(reply)
  }

  /** What the provider answers when asked for a summary; `None` when it fails or cannot be built. */
  type SummaryReply = Option<string>

  /** The source the provider is asked to summarise, if there is a cut and something to summarise before it. */
  function SummaryAsked(s: Session): seq<string> {
    var branch := Branch(s, s.leaf);
    var firstKept := SelectFirstKept(branch, KEEP);
    if firstKept.None? then []
    else
      var source := Join(SourceLines(branch, firstKept.value));
      if TrimSpace(source) == "" then [] else [source]
  }

  predicate CanCompact(s: Session, reply: SummaryReply, writable: bool) {
    var branch := Branch(s, s.leaf);
    var firstKept := SelectFirstKept(branch, KEEP);
    && firstKept.Some? && reply.Some?
    && TrimSpace(Join(SourceLines(branch, firstKept.value))) != ""
    && CanAppend(s, writable)
  }

  function CompactionBody(s: Session, reply: string, tokens: int): Body
    requires SelectFirstKept(Branch(s, s.leaf), KEEP).Some?
  {
    Compaction(SummaryOf(reply), SelectFirstKept(Branch(s, s.leaf), KEEP).value, tokens, "")
  }

  /** The session after trying to compact: unchanged unless an append was tried. */
  function Compacted(
    host: Host, s: Session, reply: SummaryReply, tokens: int, timestamp: string, writable: bool): Session
  {
    var branch := Branch(s, s.leaf);
    var firstKept := SelectFirstKept(branch, KEEP);
    if firstKept.None? || TrimSpace(Join(SourceLines(branch, firstKept.value))) == "" || reply.None? then s
    else Append(host, s, CompactionBody(s, reply.value, tokens), timestamp, writable)
  }

  method CompactContext(
    m: Manager, reply: SummaryReply, tokens: int, timestamp: string, writable: bool)
    returns (ok: bool)
    requires m.Valid()
    modifies m
    ensures m.Valid() && ok == CanCompact(old(m.Value()), reply, writable)
    ensures m.Value() == Compacted(m.host, old(m.Value()), reply, tokens, timestamp, writable)
  {
    var branch := m.Branch(m.leafId);
    if |branch| == 0 {
      return false;
    }
    var firstKept := SelectCompactionFirstKeptEntry(branch, 8);
    if firstKept.None? {
      return false;
    }
    var source := FormatCompactionSource(branch, firstKept.value);
    if TrimSpace(source) == "" || reply.None? {
      return false;
    }
    var summary := TrimSpace(reply.value);
    if summary == "" {
      summary := "Compaction summary unavailable.";
    }
    var appended := m.Append(Compaction(summary, firstKept.value, tokens, ""), timestamp, writable);
    return appended.Some?;
  }

  // ----- Compaction conserves the conversation -----

  lemma {:induction false} BodiesOfLikes(entries: seq<Entry>)
    ensures Bodies(MessageLikes(entries)) == Filter(Bodies(entries), LikeBody)
  {
    if entries != [] {
      BodiesOfLikes(entries[1..]);
      assert Bodies(entries)[1..] == Bodies(entries[1..]);
      var one := FilterOne(entries[0], MessageLike);
      assert Bodies(one) == FilterOne(entries[0].body, LikeBody);
      assert Bodies(one + MessageLikes(entries[1..])) == Bodies(one) + Bodies(MessageLikes(entries[1..]));
    }
  }

  lemma SilentEntries(entries: seq<Entry>, clock: Clock, n: nat)
    ensures EntryMessages(entries, clock, n) == EntryMessages(MessageLikes(entries), clock, n)
  {
    BodiesOfLikes(entries);
    SpreadFilter(Bodies(entries), LikeBody, Emit(clock), n);
  }

  /** The position of the first kept entry on the branch. */
  function Cut(branch: seq<Entry>): nat
    requires SelectFirstKept(branch, KEEP).Some?
  {
    KeptFrom(branch, SelectFirstKept(branch, KEEP).value, |branch|)
  }

  lemma CutKeepsEight(branch: seq<Entry>)
    requires UniqueIds(branch) && SelectFirstKept(branch, KEEP).Some?
    ensures var cut := Cut(branch);
      cut < |branch| && MessageLike(branch[cut]) && |MessageLikes(branch[cut..])| == KEEP
      && branch[cut].id == SelectFirstKept(branch, KEEP).value
      && MessageLikes(branch) == MessageLikes(branch[..cut]) + MessageLikes(branch[cut..])
  {
    var p := FilterNth(branch, MessageLike, |MessageLikes(branch)| - KEEP);
    assert branch[p].id == SelectFirstKept(branch, KEEP).value;
    assert Cut(branch) == p;
    SplitAt(branch, p);
    FilterSplit(branch[..p], branch[p..], MessageLike);
  }

  lemma {:induction false} LineIsInSource(bodies: seq<Body>, k: nat)
    requires k < |bodies|
    ensures forall line :: line in SourceLine(bodies[k]) ==> line in Lines(bodies)
  {
    if k > 0 {
      LineIsInSource(bodies[1..], k - 1);
    }
  }

  /** The conversation is split at the cut: every earlier message-like entry with text feeds the summary source,
      in order and with nothing of the kept entries; the rest are exactly the last eight. */
  lemma SourceCoversThePast(branch: seq<Entry>, k: nat)
    requires UniqueIds(branch) && SelectFirstKept(branch, KEEP).Some?
    requires k < Cut(branch) && MessageLike(branch[k]) && EntryText(branch[k].body) != ""
    ensures SourceLines(branch, SelectFirstKept(branch, KEEP).value) == Lines(Bodies(branch[..Cut(branch)]))
    ensures |SourceLine(branch[k].body)| == 1
    ensures SourceLine(branch[k].body)[0] in SourceLines(branch, SelectFirstKept(branch, KEEP).value)
  {
    LineIsInSource(Bodies(branch[..Cut(branch)]), k);
  }

  lemma KeptAfterCompaction(branch: seq<Entry>, c: Entry)
    requires UniqueIds(branch) && SelectFirstKept(branch, KEEP).Some?
    requires c.body.Compaction? && c.body.firstKeptEntryId == SelectFirstKept(branch, KEEP).value
    ensures Kept(branch + [c]) == branch[Cut(branch)..] + [c]
  {
    var all, cut := branch + [c], Cut(branch);
    CutKeepsEight(branch);
    var k := KeptFrom(all, c.body.firstKeptEntryId, |branch|);
    assert forall i :: 0 <= i <= cut ==> all[i] == branch[i];
    assert all[cut..] == branch[cut..] + [c];
  }

  /** A compaction conserves the conversation, whatever earlier compactions the branch holds: the branch grows by one
      entry, and the new context is the summary followed by the messages of exactly the last eight message-like
      entries. That a non-empty session has a leaf is kept by all the runtime does (RuntimeSessions.dfy). */
  lemma CompactionConserves(
    host: Host, s: Session, reply: SummaryReply, tokens: int, timestamp: string, writable: bool, clock: Clock)
    requires LeafSet(s) && CanCompact(s, reply, writable)
    requires !Compacted(host, s, reply, tokens, timestamp, writable).clash
    ensures var branch, after := Branch(s, ""), Compacted(host, s, reply, tokens, timestamp, writable);
      var last := MessageLikes(branch[Cut(branch)..]);
      && Branch(after, "") == branch + [after.entries[|s.entries|]]
      && |last| == KEEP && MessageLikes(branch) == MessageLikes(branch[..Cut(branch)]) + last
      && ContextMessages(Branch(after, ""), clock)
         == [TextMessage(User, SummaryText(SummaryOf(reply.value)), clock(0))] + EntryMessages(last, clock, 1)
  {
    var branch, after := Branch(s, ""), Compacted(host, s, reply, tokens, timestamp, writable);
    var c := after.entries[|s.entries|];
    CutNeedsEntries(s, reply, writable);
    AppendExtends(host, s, CompactionBody(s, reply.value, tokens), timestamp, writable);
    PathIsBranch(s.entries, s.leaf, {});
    CutKeepsEight(branch);
    CompactedContext(branch, c, clock);
  }

  lemma CompactedContext(branch: seq<Entry>, c: Entry, clock: Clock)
    requires UniqueIds(branch) && SelectFirstKept(branch, KEEP).Some?
    requires c.body.Compaction? && c.body.firstKeptEntryId == SelectFirstKept(branch, KEEP).value
      && c.body.summary != ""
    ensures ContextMessages(branch + [c], clock)
         == [TextMessage(User, SummaryText(c.body.summary), clock(0))]
            + EntryMessages(MessageLikes(branch[Cut(branch)..]), clock, 1)
  {
    KeptAfterCompaction(branch, c);
    SummaryAlone(branch[Cut(branch)..], c, clock, 1);
    SilentEntries(branch[Cut(branch)..], clock, 1);
  }

  lemma CutNeedsEntries(s: Session, reply: SummaryReply, writable: bool)
    ensures s.entries == [] ==> Branch(s, s.leaf) == [] && !CanCompact(s, reply, writable)
  {
    PathIsBranch(s.entries, s.leaf, {});
  }

  lemma SummaryAlone(entries: seq<Entry>, c: Entry, clock: Clock, n: nat)
    requires c.body.Compaction?
    ensures EntryMessages(entries + [c], clock, n) == EntryMessages(entries, clock, n)
  {
    assert Bodies(entries + [c]) == Bodies(entries) + [c.body];
    SpreadSplit(Bodies(entries), [c.body], Emit(clock), n);
  }

  /** With no leaf set, the branch is read from the last entry but the compaction entry becomes a new root,
      so the new context is the summary alone: the last eight messages are lost. */
  lemma CompactionWithoutLeaf(
    host: Host, s: Session, reply: SummaryReply, tokens: int, timestamp: string, writable: bool, clock: Clock)
    requires s.leaf == ""
    ensures var after := Compacted(host, s, reply, tokens, timestamp, writable);
      CanCompact(s, reply, writable) && !after.clash ==>
      ContextMessages(Branch(after, ""), clock) == [TextMessage(User, SummaryText(SummaryOf(reply.value)), clock(0))]
  {
    var after := Compacted(host, s, reply, tokens, timestamp, writable);
    if CanCompact(s, reply, writable) && !after.clash {
      AppendExtends(host, s, CompactionBody(s, reply.value, tokens), timestamp, writable);
      LoneCompaction(after.entries[|s.entries|], clock);
    }
  }

  lemma LoneCompaction(c: Entry, clock: Clock)
    requires c.body.Compaction? && c.body.summary != ""
    ensures ContextMessages([c], clock) == [TextMessage(User, SummaryText(c.body.summary), clock(0))]
  {
    assert Kept([c]) == [] + [c] || Kept([c]) == [];
    SummaryAlone([], c, clock, 1);
  }

  /** Hence compaction conserves the conversation exactly when there is a leaf, or nothing to keep. */
  lemma CompactionConservesIff(
    host: Host, s: Session, reply: SummaryReply, tokens: int, timestamp: string, writable: bool, clock: Clock)
    ensures CanCompact(s, reply, writable) && !Compacted(host, s, reply, tokens, timestamp, writable).clash ==>
      var branch, after := Branch(s, ""), Compacted(host, s, reply, tokens, timestamp, writable);
      var recent := EntryMessages(MessageLikes(branch[Cut(branch)..]), clock, 1);
      (ContextMessages(Branch(after, ""), clock)
       == [TextMessage(User, SummaryText(SummaryOf(reply.value)), clock(0))] + recent
       <==> s.leaf != "" || recent == [])
  {
    if s.leaf == "" {
      CompactionWithoutLeaf(host, s, reply, tokens, timestamp, writable, clock);
    } else if CanCompact(s, reply, writable) && !Compacted(host, s, reply, tokens, timestamp, writable).clash {
      CompactionConserves(host, s, reply, tokens, timestamp, writable, clock);
    }
  }
}
