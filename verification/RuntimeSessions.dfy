/** What everything the runtime does to its session keeps (internal/agent/runtime.go): a session with entries
    has a leaf. */
module RuntimeSessions {
  import opened Types
  import opened Sequences
  import opened Sessions
  import opened BranchLaws
  import opened SessionContext
  import opened Compactions
  import opened Forks
  import opened Navigation
  import Files = SessionFiles

  /** The ways the runtime and its host actions change the session. */
  datatype Deed =
    | Appends(body: Body, timestamp: string, writable: bool)
    | Compacts(reply: SummaryReply, tokens: int, timestamp: string, writable: bool)
    | Navigates(target: Id, wish: Wish, timestamp: string, writable: bool)
    | ForksAt(dir: string, id: Id, prev: Settings, timestamp: string, dirReady: bool, writes: nat)
    | Starts(dir: string, cwd: string, parent: string, timestamp: string, dirReady: bool, writable: bool)
    | Opens(path: string, lines: seq<string>, writable: bool)

  function Created(
    host: Host, s: Session, dir: string, cwd: string, parent: string, timestamp: string, dirReady: bool,
    writable: bool): Session
  {
    if !dirReady then s
    else
      var created := Create(host, s, dir, cwd, parent, timestamp);
      if writable then created else created.(lines := [])
  }

  function Done(host: Host, s: Session, deed: Deed): Session {
    match deed
    case Appends(body, timestamp, writable) => Append(host, s, body, timestamp, writable)
    case Compacts(reply, tokens, timestamp, writable) => Compacted(host, s, reply, tokens, timestamp, writable)
    case Navigates(target, wish, timestamp, writable) =>
      // the action's target is trimmed, and an action without one is skipped
      if TrimSpace(target) == "" then s else Navigated(host, s, TrimSpace(target), wish, timestamp, writable)
    case ForksAt(dir, id, prev, timestamp, dirReady, writes) =>
      ForkState(host, s, dir, id, prev, timestamp, dirReady, writes)
    case Starts(dir, cwd, parent, timestamp, dirReady, writable) =>
      Created(host, s, dir, cwd, parent, timestamp, dirReady, writable)
    case Opens(path, lines, writable) =>
      var opening := Files.Open(host, s, path, lines, writable);
      if opening.Opened? then opening.session else s
  }

  function AllDone(host: Host, s: Session, deeds: seq<Deed>): Session
    decreases |deeds|
  {
    if deeds == [] then s else AllDone(host, Done(host, s, deeds[0]), deeds[1..])
  }

  lemma AppendSetsLeaf(host: Host, s: Session, body: Body, timestamp: string, writable: bool)
    requires LeafSet(s)
    ensures LeafSet(Append(host, s, body, timestamp, writable))
  {
    NextIdFresh(host, Index(s.entries).Keys, s.drawn, 100);
  }

  lemma {:induction false} AppendSomeSetsLeaf(host: Host, s: Session, bodies: seq<Body>, timestamp: string, writes: nat)
    requires LeafSet(s)
    ensures LeafSet(AppendSome(host, s, bodies, timestamp, writes))
    decreases |bodies|
  {
    if bodies != [] {
      AppendSetsLeaf(host, s, bodies[0], timestamp, writes > 0);
      if writes > 0 {
        AppendSomeSetsLeaf(host, Append(host, s, bodies[0], timestamp, true), bodies[1..], timestamp, writes - 1);
      }
    }
  }

  lemma OpenSetsLeaf(host: Host, s: Session, path: string, lines: seq<string>, writable: bool)
    requires LeafSet(s) && Files.Open(host, s, path, lines, writable).Opened?
    ensures LeafSet(Files.Open(host, s, path, lines, writable).session)
  {
    var read := Files.Nonblank(lines);
    var entries := Files.ReadEntries(host.codec, read[1..]);
    Files.MigrateFillsIn(host, entries, [], s.drawn);
    var migrated := Files.Migrate(host, entries, [], s.drawn).0;
    assert migrated[0..] == migrated;
    assert migrated != [] ==> migrated[|migrated| - 1].id != "";
  }

  lemma DeedSetsLeaf(host: Host, s: Session, deed: Deed)
    requires LeafSet(s)
    ensures LeafSet(Done(host, s, deed))
  {
    match deed
    case Appends(body, timestamp, writable) => AppendSetsLeaf(host, s, body, timestamp, writable);
    case Compacts(reply, tokens, timestamp, writable) =>
      if SelectFirstKept(Branch(s, s.leaf), KEEP).Some? && reply.Some? {
        AppendSetsLeaf(host, s, CompactionBody(s, reply.value, tokens), timestamp, writable);
      }
    case Navigates(target, wish, timestamp, writable) =>
      if TrimSpace(target) != "" {
        var moved := SetLeaf(s, TrimSpace(target));
        AppendSetsLeaf(host, moved, BranchSummary(s.leaf, wish.summary, wish.details), timestamp, writable);
      }
    case ForksAt(dir, id, prev, timestamp, dirReady, writes) =>
      if dirReady && writes > 0 {
        var created := Created(host, s, dir, s.header.cwd, TrimSpace(s.file), timestamp, dirReady, true);
        AppendSomeSetsLeaf(host, created, ForkedBodies(Branch(s, id), prev), timestamp, writes - 1);
      }
    case Starts(_, _, _, _, _, _) =>
    case Opens(path, lines, writable) =>
      if Files.Open(host, s, path, lines, writable).Opened? {
        OpenSetsLeaf(host, s, path, lines, writable);
      }
  }

  /** Over any run of what the runtime does, from a session manager just made: a session with entries has a leaf. */
  lemma {:induction false} EverySessionHasItsLeaf(host: Host, s: Session, deeds: seq<Deed>)
    requires LeafSet(s)
    ensures LeafSet(AllDone(host, s, deeds))
    decreases |deeds|
  {
    if deeds != [] {
      DeedSetsLeaf(host, s, deeds[0]);
      EverySessionHasItsLeaf(host, Done(host, s, deeds[0]), deeds[1..]);
    }
  }
}
