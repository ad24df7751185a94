/** Concrete sessions, reached by the steps of the session manager, at which the exact conditions of
    SessionFiles.dfy, Compaction.dfy and Fork.dfy fail: each failure is real. */
module Failures {
  import opened Types
  import opened Sequences
  import opened Sessions
  import opened BranchLaws
  import opened SessionContext
  import opened SessionFiles
  import opened Compactions
  import opened Forks

  // ----- Ids that never clash -----

  /** The n-th random id is n + 1 strokes. */
  function Tally(n: nat): Draw {
    seq(n + 1, _ => 'x')
  }

  /** Only ids drawn so far are in use. */
  predicate Tallied(s: Session) {
    !s.clash && forall e :: e in s.entries ==> |e.id| <= s.drawn
  }

  lemma AppendTallies(host: Host, s: Session, body: Body, timestamp: string)
    requires host.draw == Tally && Tallied(s) && s.file != ""
    ensures var after := Append(host, s, body, timestamp, true);
      && Tallied(after) && after.drawn == s.drawn + 1 && after.file == s.file
      && after.entries == s.entries + [Entry(Tally(s.drawn), s.leaf, timestamp, body)] && after.leaf == Tally(s.drawn)
  {
    forall id | id in Index(s.entries) ensures |id| <= s.drawn {
      assert s.entries[Index(s.entries)[id]] in s.entries;
    }
    assert Tally(s.drawn) !in Index(s.entries);
  }

  lemma {:induction false} AppendAllTallies(host: Host, s: Session, bodies: seq<Body>, timestamp: string)
    requires host.draw == Tally && Tallied(s) && s.file != ""
    ensures var after := AppendAll(host, s, bodies, timestamp);
      && Tallied(after) && after.drawn == s.drawn + |bodies| && |after.entries| == |s.entries| + |bodies|
      && forall k :: |s.entries| <= k < |after.entries| ==> |after.entries[k].id| > s.drawn
    ensures s.entries <= AppendAll(host, s, bodies, timestamp).entries
    decreases |bodies|
  {
    if bodies != [] {
      AppendTallies(host, s, bodies[0], timestamp);
      AppendAllTallies(host, Append(host, s, bodies[0], timestamp, true), bodies[1..], timestamp);
    }
  }

  const NOBODY := Session("", Header("", 0, "", "", "", ""), [], "", [], 0, false)

  function Fresh(host: Host): Session {
    Create(host, NOBODY, "", "", "", "")
  }

  /** A new session with these bodies appended, one under the other. */
  function Talk(host: Host, bodies: seq<Body>): Session {
    AppendAll(host, Fresh(host), bodies, "")
  }

  lemma TalkGrows(host: Host, bodies: seq<Body>)
    requires host.draw == Tally && bodies != []
    ensures var s := Talk(host, bodies);
      && Tallied(s) && Grown(s) && s.file != "" && s.header == Fresh(host).header
      && Bodies(s.entries) == bodies && |s.entries| == |bodies| && s.drawn == |bodies| + 1
  {
    AppendAllTallies(host, Fresh(host), bodies, "");
    AppendAllChains(host, Fresh(host), bodies, "");
    assert Bodies([]) + bodies == bodies;
  }

  lemma LeafBranch(s: Session)
    requires Grown(s) && !s.clash && s.entries != []
    ensures TreeSession(s) && UniqueIds(s.entries) && s.leaf != ""
    ensures Branch(s, "") == s.entries && BranchOf(s.entries, s.leaf) == s.entries
  {
    GrownBranch(s);
    assert ChainAt(s.entries, |s.entries| - 1);
  }

  lemma TalkIsChain(host: Host, bodies: seq<Body>)
    requires host.draw == Tally && bodies != []
    ensures var s := Talk(host, bodies);
      && TreeSession(s) && UniqueIds(s.entries) && s.leaf != "" && s.file != ""
      && Bodies(s.entries) == bodies && |s.entries| == |bodies|
      && Branch(s, "") == s.entries && Branch(s, s.leaf) == s.entries
  {
    TalkGrows(host, bodies);
    LeafBranch(Talk(host, bodies));
  }

  const HELLO := MessageBody(Some(TextMessage(User, "hello", 1)))

  lemma HelloIsSaid(entries: seq<Entry>, clock: Clock, n: nat)
    requires entries != [] && entries[0].body == HELLO
    ensures EntryMessages(entries, clock, n) != []
  {
    assert Emit(clock)(Bodies(entries)[0], n) == [TextMessage(User, "hello", 1)];
  }

  // ----- A compaction without a leaf loses what it should keep -----

  function Nine(): (bodies: seq<Body>)
    ensures |bodies| == 9 && forall k :: 0 <= k < 9 ==> bodies[k] == HELLO
  {
    seq(9, _ => HELLO)
  }

  lemma NineBodies(branch: seq<Entry>)
    requires Bodies(branch) == Nine()
    ensures |branch| == 9 && forall k :: 0 <= k < 9 ==> branch[k].body == HELLO
  {
    assert forall k :: 0 <= k < 9 ==> branch[k].body == Bodies(branch)[k];
  }

  lemma NineCut(branch: seq<Entry>)
    requires Bodies(branch) == Nine() && UniqueIds(branch)
    ensures |branch| == 9 && SelectFirstKept(branch, KEEP) == Some(branch[1].id) && Cut(branch) == 1
    ensures MessageLikes(branch[1..]) == branch[1..]
  {
    NineBodies(branch);
    AllMessageLike(branch);
    AllMessageLike(branch[1..]);
  }

  lemma HelloLine(branch: seq<Entry>)
    requires Bodies(branch) == Nine() && UniqueIds(branch)
    ensures |branch| == 9 && SourceLines(branch, branch[1].id) == ["user: hello"]
  {
    NineCut(branch);
    NineBodies(branch);
    var bodies := Bodies(branch[..1]);
    assert bodies == [HELLO] && bodies[1..] == [];
    HelloIsALine();
    assert Lines(bodies) == ["user: hello"] + [];
  }

  lemma HelloIsALine()
    ensures SourceLine(HELLO) == ["user: hello"]
  {
    HelloText();
    HelloIsJoined();
  }

  lemma HelloIsJoined()
    ensures RoleName(User) + ": " + "hello" == "user: hello"
  {}

  lemma HelloText()
    ensures EntryText(HELLO) == "hello"
  {
    var content := [Text("hello", "")];
    HelloIsTrimmed();
    assert content[1..] == [] && AssistantText(content, "") == "hello";
  }

  lemma HelloIsTrimmed()
    ensures TrimSpace("hello") == "hello"
  {}

  lemma NineCanCompact(s: Session)
    requires s.file != "" && Bodies(Branch(s, s.leaf)) == Nine() && UniqueIds(Branch(s, s.leaf))
    ensures CanCompact(s, Some("done"), true)
  {
    var branch := Branch(s, s.leaf);
    NineCut(branch);
    HelloLine(branch);
    assert TrimSpace("user: hello") == "user: hello";
  }

  lemma LosesMessages(host: Host, s: Session, clock: Clock)
    requires host.draw == Tally && Tallied(s) && s.leaf == "" && s.file != ""
    requires Bodies(Branch(s, "")) == Nine() && UniqueIds(Branch(s, ""))
    ensures CanCompact(s, Some("done"), true)
    ensures var branch, after := Branch(s, ""), Compacted(host, s, Some("done"), 0, "", true);
      && !after.clash
      && ContextMessages(Branch(after, ""), clock) == [TextMessage(User, SummaryText("done"), clock(0))]
      && EntryMessages(MessageLikes(branch[Cut(branch)..]), clock, 1) != []
  {
    NineCanCompact(s);
    CompactionIsTallied(host, s);
    EightAreSaid(Branch(s, ""), clock);
    DoneIsASummary();
    CompactionWithoutLeaf(host, s, Some("done"), 0, "", true, clock);
  }

  lemma DoneIsASummary()
    ensures SummaryOf("done") == "done"
  {
    assert TrimSpace("done") == "done";
  }

  lemma CompactedIsAppended(host: Host, s: Session)
    requires CanCompact(s, Some("done"), true)
    ensures Compacted(host, s, Some("done"), 0, "", true) == Append(host, s, CompactionBody(s, "done", 0), "", true)
  {}

  lemma CompactionIsTallied(host: Host, s: Session)
    requires host.draw == Tally && Tallied(s) && s.file != "" && CanCompact(s, Some("done"), true)
    ensures !Compacted(host, s, Some("done"), 0, "", true).clash
  {
    CompactedIsAppended(host, s);
    AppendTallies(host, s, CompactionBody(s, "done", 0), "");
  }

  lemma EightAreSaid(branch: seq<Entry>, clock: Clock)
    requires Bodies(branch) == Nine() && UniqueIds(branch)
    ensures SelectFirstKept(branch, KEEP).Some? && EntryMessages(MessageLikes(branch[Cut(branch)..]), clock, 1) != []
  {
    NineCut(branch);
    NineBodies(branch);
    HelloIsSaid(branch[1..], clock, 1);
  }

  function NineWithoutLeaf(host: Host): Session {
    SetLeaf(Talk(host, Nine()), "")
  }

  lemma NineWithoutLeafIsTree(host: Host)
    requires host.draw == Tally
    ensures var s := NineWithoutLeaf(host);
      && TreeSession(s) && Tallied(s) && s.leaf == "" && s.file != ""
      && Bodies(Branch(s, "")) == Nine() && UniqueIds(Branch(s, ""))
  {
    TalkIsChain(host, Nine());
    TalkGrows(host, Nine());
  }

  /** After `SetLeaf("")`, which the manager offers but no part of the runtime asks for, a compaction leaves the
      summary alone: the eight messages it should keep are lost. */
  lemma CompactionLosesMessages(host: Host, clock: Clock)
    requires host.draw == Tally
    ensures TreeSession(NineWithoutLeaf(host)) && CanCompact(NineWithoutLeaf(host), Some("done"), true)
    ensures var s := NineWithoutLeaf(host);
      var branch, after := Branch(s, ""), Compacted(host, s, Some("done"), 0, "", true);
      && !after.clash
      && ContextMessages(Branch(after, ""), clock) == [TextMessage(User, SummaryText("done"), clock(0))]
      && EntryMessages(MessageLikes(branch[Cut(branch)..]), clock, 1) != []
  {
    NineWithoutLeafIsTree(host);
    LosesMessages(host, NineWithoutLeaf(host), clock);
  }

  // ----- A fork that drops the kept messages -----

  /** `s` is `nine` after a compaction. */
  predicate IsShortened(s: Session, nine: Session) {
    && |nine.entries| == 9 && Bodies(nine.entries) == Nine() && UniqueIds(nine.entries)
    && Tallied(s) && s.leaf != "" && |s.leaf| <= s.drawn
    && s.entries == nine.entries + [Entry(s.leaf, nine.leaf, "", Compaction("done", nine.entries[1].id, 0, ""))]
    && Branch(s, s.leaf) == s.entries
  }

  lemma ShortenedBranch(host: Host, nine: Session)
    requires host.draw == Tally && Tallied(nine) && Grown(nine)
    requires Bodies(nine.entries) == Nine() && UniqueIds(nine.entries) && Branch(nine, nine.leaf) == nine.entries
    ensures CanCompact(nine, Some("done"), true) && IsShortened(Compacted(host, nine, Some("done"), 0, "", true), nine)
  {
    NineCanCompact(nine);
    CompactedIsAppended(host, nine);
    var body := CompactionBody(nine, "done", 0);
    NineIsCutAtOne(nine);
    AppendIsShortened(host, nine, body);
  }

  lemma NineIsCutAtOne(nine: Session)
    requires |nine.entries| == 9 && Bodies(nine.entries) == Nine() && UniqueIds(nine.entries)
    requires Branch(nine, nine.leaf) == nine.entries && SelectFirstKept(nine.entries, KEEP).Some?
    ensures CompactionBody(nine, "done", 0) == Compaction("done", nine.entries[1].id, 0, "")
  {
    NineCut(nine.entries);
    DoneIsASummary();
  }

  lemma AppendIsShortened(host: Host, nine: Session, body: Body)
    requires host.draw == Tally && Tallied(nine) && Grown(nine)
    requires |nine.entries| == 9 && Bodies(nine.entries) == Nine() && UniqueIds(nine.entries)
    requires body == Compaction("done", nine.entries[1].id, 0, "")
    ensures IsShortened(Append(host, nine, body, "", true), nine)
  {
    var s := Append(host, nine, body, "", true);
    AppendTallies(host, nine, body, "");
    GrowOne(host, nine, body, "");
    LeafBranch(s);
  }

  /** The fork draws new ids. */
  lemma ForkTallies(host: Host, s: Session, prev: Settings)
    requires host.draw == Tally && Tallied(s)
    ensures var fork := Forked(host, s, "", s.leaf, prev, "");
      !fork.clash && forall id :: id in Index(fork.entries) ==> |id| > s.drawn
  {
    var created := Create(host, s, "", s.header.cwd, TrimSpace(s.file), "");
    AppendAllTallies(host, created, ForkedBodies(Branch(s, s.leaf), prev), "");
  }

  lemma ShortenedContext(s: Session, nine: Session, clock: Clock)
    requires IsShortened(s, nine)
    ensures var c, summary := LastCompaction(s.entries), Summary(s.entries, clock);
      && c == 9 && s.entries[c].body.firstKeptEntryId == nine.entries[1].id
      && summary == [TextMessage(User, SummaryText("done"), clock(0))]
      && EntryMessages(s.entries[c + 1..], clock, |summary|) == []
      && EntryMessages(s.entries[KeptFrom(s.entries, nine.entries[1].id, c)..c], clock, |summary|) != []
  {
    var branch := s.entries;
    NineBodies(nine.entries);
    assert branch[9].body.Compaction? && LastCompaction(branch) == 9;
    assert forall k :: 0 <= k < 9 ==> branch[k] == nine.entries[k];
    var first := KeptFrom(branch, branch[1].id, 9);
    assert first <= 1;
    assert branch[first..9][0] == nine.entries[first];
    HelloIsSaid(branch[first..9], clock, 1);
    assert branch[10..] == [] && Bodies([]) == [];
  }

  lemma DropsKeptMessages(host: Host, s: Session, nine: Session, prev: Settings, clock: Clock)
    requires host.draw == Tally && IsShortened(s, nine)
    ensures var fork := Forked(host, s, "", s.leaf, prev, "");
      && ContextMessages(Branch(fork, ""), clock) == [TextMessage(User, SummaryText("done"), clock(0))]
      && ContextMessages(Branch(s, s.leaf), clock) != ContextMessages(Branch(fork, ""), clock)
  {
    ForkTallies(host, s, prev);
    ShortenedContext(s, nine, clock);
    assert s.entries[1] in s.entries && s.entries[1] == nine.entries[1];
    ForkOfCompacted(host, s, "", s.leaf, prev, "", clock);
  }

  /** Nine messages and a compaction: the fork shows the summary alone; the eight messages that the compaction
      kept, and that the source session shows, are dropped. */
  lemma ForkDropsKeptMessages(host: Host, prev: Settings, clock: Clock)
    requires host.draw == Tally
    ensures CanCompact(Talk(host, Nine()), Some("done"), true)
    ensures var s := Compacted(host, Talk(host, Nine()), Some("done"), 0, "", true);
      var fork := Forked(host, s, "", s.leaf, prev, "");
      && ContextMessages(Branch(fork, ""), clock) == [TextMessage(User, SummaryText("done"), clock(0))]
      && ContextMessages(Branch(s, s.leaf), clock) != ContextMessages(Branch(fork, ""), clock)
  {
    var nine := Talk(host, Nine());
    TalkIsChain(host, Nine());
    TalkGrows(host, Nine());
    ShortenedBranch(host, nine);
    DropsKeptMessages(host, Compacted(host, nine, Some("done"), 0, "", true), nine, prev, clock);
  }

  // ----- A fork that changes the model -----

  const RUNNING := Settings("high", "openai", "gpt")

  lemma ChangesTheModel(host: Host, s: Session, clock: Clock)
    requires host.draw == Tally && Tallied(s) && Bodies(Branch(s, s.leaf)) == [HELLO]
    ensures var fork := Forked(host, s, "", s.leaf, RUNNING, "");
      && ContextOf(Branch(s, s.leaf), clock).settings == DEFAULTS
      && ContextOf(Branch(fork, ""), clock).messages == ContextOf(Branch(s, s.leaf), clock).messages
      && ContextOf(Branch(fork, ""), clock).settings != DEFAULTS
  {
    ForkTallies(host, s, RUNNING);
    SettingsOne(HELLO, DEFAULTS);
    ForkPreservesMeaning(host, s, "", s.leaf, RUNNING, "", clock);
  }

  /** The conversation sets no model; its fork gets the running one. */
  lemma ForkChangesModel(host: Host, clock: Clock)
    requires host.draw == Tally
    ensures var s := Talk(host, [HELLO]);
      var fork := Forked(host, s, "", s.leaf, RUNNING, "");
      && ContextOf(Branch(s, s.leaf), clock).settings == DEFAULTS
      && ContextOf(Branch(fork, ""), clock).messages == ContextOf(Branch(s, s.leaf), clock).messages
      && ContextOf(Branch(fork, ""), clock).settings != DEFAULTS
  {
    TalkIsChain(host, [HELLO]);
    TalkGrows(host, [HELLO]);
    ChangesTheModel(host, Talk(host, [HELLO]), clock);
  }

  // ----- A second root that is re-parented, and a leaf that is unknown -----

  const HEADER := Header("session", CURRENT_VERSION, Tally(0), "", "", "")
  const ROOT := Entry(Tally(1), "", "", HELLO)
  const SECOND_ROOT := Entry(Tally(2), "", "", HELLO)

  /** All the JSON that two entries need. */
  function CodecOfTwo(): Codec {
    Codec(
      (h: Header) => "h", (line: string) => Some(HEADER),
      (e: Entry) => if e == ROOT then "0" else "1",
      (line: string) => Some(if line == "0" then ROOT else SECOND_ROOT))
  }

  function HostOfTwo(): Host {
    Host(Tally, CodecOfTwo())
  }

  function TwoRoots(): Session {
    Append(HostOfTwo(), SetLeaf(Talk(HostOfTwo(), [HELLO]), ""), HELLO, "", true)
  }

  lemma OneIsPersisted()
    ensures var one := Talk(HostOfTwo(), [HELLO]);
      && Persisted(HostOfTwo(), one) && one.entries == [ROOT] && Tallied(one) && one.drawn == 2
      && one.leaf == ROOT.id && one.header == HEADER && one.file != ""
  {
    AppendAllOne(HostOfTwo(), Fresh(HostOfTwo()), HELLO, "");
    AppendTallies(HostOfTwo(), Fresh(HostOfTwo()), HELLO, "");
    AppendPersists(HostOfTwo(), Fresh(HostOfTwo()), HELLO, "", true);
    assert [] + [ROOT] == [ROOT];
  }

  lemma TwoArePersisted()
    ensures var two := TwoRoots();
      && Persisted(HostOfTwo(), two) && two.entries == [ROOT, SECOND_ROOT] && two.header == HEADER && two.file != ""
  {
    OneIsPersisted();
    var one := SetLeaf(Talk(HostOfTwo(), [HELLO]), "");
    AppendTallies(HostOfTwo(), one, HELLO, "");
    AppendPersists(HostOfTwo(), one, HELLO, "", true);
    assert [ROOT] + [SECOND_ROOT] == [ROOT, SECOND_ROOT];
  }

  lemma CodecIsFaithful(entries: seq<Entry>)
    requires forall e :: e in entries ==> e == ROOT || e == SECOND_ROOT
    ensures Faithful(CodecOfTwo(), HEADER, entries)
  {
    assert ROOT.id != SECOND_ROOT.id by { assert |ROOT.id| == 2 && |SECOND_ROOT.id| == 3; }
  }

  /** An entry appended after `SetLeaf("")` is a second root; reopening its file puts it under the first. */
  lemma SecondRootIsReparented(t: Session, writable: bool)
    ensures var two := TwoRoots();
      var opening := Open(HostOfTwo(), t, two.file, two.lines, writable);
      && |two.entries| == 2 && two.entries[1].parentId == ""
      && opening.Opened? && opening.session.entries != two.entries
      && |opening.session.entries| == 2 && opening.session.entries[1].parentId != ""
  {
    var two := TwoRoots();
    TwoArePersisted();
    CodecIsFaithful(two.entries);
    assert two.lines == ["h", "0", "1"] by {
      assert EntryLines(HostOfTwo(), two.entries) == ["0", "1"] && two.lines == ["h"] + ["0", "1"];
    }
    ReparentsSecond(HostOfTwo(), two, t, writable);
  }

  lemma ReparentsSecond(host: Host, two: Session, t: Session, writable: bool)
    requires Persisted(host, two) && two.file != "" && Faithful(host.codec, two.header, two.entries)
    requires two.entries == [ROOT, SECOND_ROOT] && two.lines == ["h", "0", "1"]
    ensures var opening := Open(host, t, two.file, two.lines, writable);
      && opening.Opened? && opening.session.entries != two.entries
      && |opening.session.entries| == 2 && opening.session.entries[1].parentId != ""
  {
    ReopenPersisted(host, two, t, writable);
    MigrateFillsIn(host, two.entries, [], t.drawn);
    PersistedOpens(host, two, t, writable);
    assert two.entries[1].parentId == "";
  }

  /** A session that is open on an entry, and opens a file that holds only a header, is left with an unknown leaf. */
  lemma HeaderOnlyLeavesLeafUnknown(writable: bool)
    ensures var t, empty := Talk(HostOfTwo(), [HELLO]), Fresh(HostOfTwo());
      var opening := Open(HostOfTwo(), t, empty.file, empty.lines, writable);
      && LeafKnown(t)
      && opening.Opened? && opening.session.entries == [] && !LeafKnown(opening.session)
  {
    var t, empty := Talk(HostOfTwo(), [HELLO]), Fresh(HostOfTwo());
    OneIsPersisted();
    IndexComplete(t.entries);
    CodecIsFaithful([]);
    assert empty.lines == ["h"];
    ReopenPersisted(HostOfTwo(), empty, t, writable);
    HeaderOnlyKeepsOldLeaf(HostOfTwo(), empty, t, writable);
  }
}
