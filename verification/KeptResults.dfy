/** When a compaction orphans tool results: the cut at the eighth message-like entry may part a call from them. */
module KeptResults {
  import opened Types
  import opened Sequences
  import opened Transform
  import opened TransformLaws
  import opened Orphans
  import opened Sessions
  import opened BranchLaws
  import opened SessionContext
  import opened Compactions
  import opened ConversationLog
  import opened RunSession
  import opened Failures

  lemma LeadingSummary(m: Message, kept: seq<Message>)
    requires m.role.User?
    ensures Unled([m] + kept) == Unled(kept)
  {
    assert ([m] + kept)[1..] == kept;
  }

  /** A compaction of a conversation without orphans leaves one without them exactly when no result comes before the
      first kept answer among the last eight message-like entries. */
  lemma CompactionOrphansIff(
    host: Host, s: Session, reply: SummaryReply, tokens: int, timestamp: string, writable: bool, clock: Clock)
    requires LeafSet(s) && CanCompact(s, reply, writable)
    requires !Compacted(host, s, reply, tokens, timestamp, writable).clash
    requires NoOrphans(SessionLog(s), {})
    ensures var branch, after := Branch(s, ""), Compacted(host, s, reply, tokens, timestamp, writable);
      NoOrphans(ContextMessages(Branch(after, ""), clock), {})
      <==> !Unled(EntryMessages(MessageLikes(branch[Cut(branch)..]), clock, 1))
  {
    var branch, after := Branch(s, ""), Compacted(host, s, reply, tokens, timestamp, writable);
    CutNeedsEntries(s, reply, writable);
    CompactionConserves(host, s, reply, tokens, timestamp, writable, clock);
    CompactLogs(host, s, reply, tokens, timestamp, writable);
    ContextOrphansIff(Branch(after, ""), clock);
    LeadingSummary(TextMessage(User, SummaryText(SummaryOf(reply.value)), clock(0)),
      EntryMessages(MessageLikes(branch[Cut(branch)..]), clock, 1));
  }

  // ----- A compaction that parts a call from its result -----

  const ASKING := PlainMessage(Assistant, [ToolCall("a", "read", "{}", "")], 2)

  const RESULT := ToolResultMessage("a", "read", ToolOutput([Text("done", "")], false), 3)

  /** A question, a call, its result and seven more messages. */
  function Ten(): (bodies: seq<Body>)
    ensures |bodies| == 10 && bodies[0] == HELLO
    ensures bodies[1] == MessageBody(Some(ASKING)) && bodies[2] == MessageBody(Some(RESULT))
    ensures forall k :: 3 <= k < 10 ==> bodies[k] == HELLO
  {
    [HELLO, MessageBody(Some(ASKING)), MessageBody(Some(RESULT))] + seq(7, _ => HELLO)
  }

  lemma TenCut(branch: seq<Entry>)
    requires Bodies(branch) == Ten() && UniqueIds(branch)
    ensures |branch| == 10 && SelectFirstKept(branch, KEEP) == Some(branch[2].id) && Cut(branch) == 2
    ensures MessageLikes(branch[2..]) == branch[2..]
  {
    assert forall k :: 0 <= k < 10 ==> branch[k].body == Ten()[k];
    AllMessageLike(branch);
    AllMessageLike(branch[2..]);
  }

  lemma TenLines(branch: seq<Entry>)
    requires Bodies(branch) == Ten() && UniqueIds(branch)
    ensures |branch| == 10 && SourceLines(branch, branch[2].id) == ["user: hello"]
  {
    TenCut(branch);
    var bodies, content := Bodies(branch[..2]), ASKING.content;
    assert bodies[0] == Ten()[0] && bodies[1] == Ten()[1];
    assert bodies[1..] == [Ten()[1]] && bodies[1..][1..] == [];
    HelloIsALine();
    assert content[1..] == [] && AssistantText(content, "") == "";
    assert SourceLine(Ten()[1]) == [];
    assert Lines(bodies[1..][1..]) == [];
    assert Lines(bodies[1..]) == [];
    assert Lines(bodies) == ["user: hello"];
  }

  lemma TenCanCompact(s: Session)
    requires s.file != "" && Bodies(Branch(s, s.leaf)) == Ten() && UniqueIds(Branch(s, s.leaf))
    ensures CanCompact(s, Some("done"), true)
  {
    TenCut(Branch(s, s.leaf));
    TenLines(Branch(s, s.leaf));
    assert TrimSpace("user: hello") == "user: hello";
  }

  lemma {:induction false} HellosHoldNoOrphans(bodies: seq<Body>, calls: set<Id>)
    requires forall k :: 0 <= k < |bodies| ==> bodies[k] == HELLO
    ensures NoOrphans(LogOf(bodies), calls)
    decreases |bodies|
  {
    if bodies != [] {
      var m := TextMessage(User, "hello", 0);
      assert Untimed(EntryMessage(HELLO, NO_CLOCK, 0)) == [m];
      HellosHoldNoOrphans(bodies[1..], {});
      assert ([m] + LogOf(bodies[1..]))[1..] == LogOf(bodies[1..]);
    }
  }

  /** Of a single message. */
  lemma LogCons(m: Message, bodies: seq<Body>)
    requires bodies != [] && bodies[0] == MessageBody(Some(m))
    ensures LogOf(bodies) == [m.(timestamp := 0)] + LogOf(bodies[1..])
    ensures LogOf(bodies)[1..] == LogOf(bodies[1..])
  {
    assert Untimed(EntryMessage(bodies[0], NO_CLOCK, 0)) == [m.(timestamp := 0)];
  }

  lemma TenHoldNoOrphans()
    ensures NoOrphans(LogOf(Ten()), {})
  {
    var ten := Ten();
    HellosHoldNoOrphans(ten[1..][1..][1..], {"a"});
    LogCons(TextMessage(User, "hello", 1), ten);
    LogCons(ASKING, ten[1..]);
    LogCons(RESULT, ten[1..][1..]);
    assert ASKING.content[0] in ASKING.content;
    assert CallIds(ASKING.content) == {"a"};
  }

  lemma TenAreUnled(kept: seq<Entry>, clock: Clock)
    requires kept != [] && kept[0].body == MessageBody(Some(RESULT))
    ensures Unled(EntryMessages(kept, clock, 1))
  {
    assert Emit(clock)(Bodies(kept)[0], 1) == [RESULT];
  }

  lemma PartsCallFromResult(host: Host, s: Session, clock: Clock)
    requires host.draw == Tally && Tallied(s) && s.leaf != "" && s.file != ""
    requires Bodies(Branch(s, s.leaf)) == Ten() && UniqueIds(Branch(s, s.leaf)) && Branch(s, "") == Branch(s, s.leaf)
    ensures CanCompact(s, Some("done"), true) && NoOrphans(SessionLog(s), {})
    ensures var after := Compacted(host, s, Some("done"), 0, "", true);
      !after.clash && !NoOrphans(ContextMessages(Branch(after, ""), clock), {})
  {
    var branch := Branch(s, s.leaf);
    TenCanCompact(s);
    TenCut(branch);
    TenHoldNoOrphans();
    assert BranchOf(s.entries, s.leaf) == branch;
    AppendTallies(host, s, CompactionBody(s, "done", 0), "");
    assert branch[2..][0].body == Bodies(branch)[2];
    TenAreUnled(branch[2..], clock);
    CompactionOrphansIff(host, s, Some("done"), 0, "", true, clock);
  }

  /** An ordinary conversation of ten messages without orphans; a compaction keeps the result and hides its call. */
  lemma CompactionOrphansResult(host: Host, clock: Clock)
    requires host.draw == Tally
    ensures var s := Talk(host, Ten());
      var after := Compacted(host, s, Some("done"), 0, "", true);
      && CanCompact(s, Some("done"), true) && NoOrphans(SessionLog(s), {})
      && !after.clash && !NoOrphans(ContextMessages(Branch(after, ""), clock), {})
  {
    TalkIsChain(host, Ten());
    TalkGrows(host, Ten());
    PartsCallFromResult(host, Talk(host, Ten()), clock);
  }
}
