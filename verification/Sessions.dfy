/** The session tree as a value: an append-only log with parent pointers, an index by id
    and a movable leaf (internal/session/manager.go). The class in Manager.dfy is proved
    against the functions of this module. */
module Sessions {
  import opened Types

  const CURRENT_VERSION := 3
  /** The longest line a `bufio.Scanner` with its default buffer accepts. */
  const MAX_LINE := 65535

  datatype Header = Header(
    kind: string, version: int, id: Id, timestamp: string, cwd: string, parentSession: string)

  datatype Body =
    | MessageBody(message: Option<Message>)
    | ModelChange(provider: string, modelId: string)
    | ThinkingLevelChange(level: string)
    | Compaction(summary: string, firstKeptEntryId: Id, tokensBefore: int, details: Json)
    | BranchSummary(fromId: Id, summary: string, details: Json)
    | Custom(customType: string, data: Json)
    | CustomMessage(customType: string, content: seq<Block>, display: bool, data: Json)
    | Label(targetId: Id, text: string)
    | SessionInfo(name: string)
    | OtherBody(kind: string, payload: Json)

  datatype Entry = Entry(id: Id, parentId: Id, timestamp: string, body: Body)

  type Draw = s: string | s != "" witness "0"

  /** JSON, as a pair of functions; what is needed of them is stated by `SessionFiles.Faithful`. */
  datatype Codec = Codec(
    encodeHeader: Header -> string, decodeHeader: string -> Option<Header>,
    encodeEntry: Entry -> string, decodeEntry: string -> Option<Entry>)

  /** The random source of ids and the JSON codec. */
  datatype Host = Host(draw: nat -> Draw, codec: Codec)

  datatype Session = Session(
    file: string,           // "" before the session is initialised
    header: Header,
    entries: seq<Entry>,
    leaf: Id,
    lines: seq<string>,     // the session file, line by line
    drawn: nat,             // random ids drawn so far
    clash: bool)            // history: some append was given an id already in use

  // ----- Index and branch -----

  /** The last position of every id. */
  function Index(entries: seq<Entry>): (index: map<Id, nat>)
    ensures forall id :: id in index ==> index[id] < |entries| && entries[index[id]].id == id
  {
    if entries == [] then map[]
    else
      var n := |entries| - 1;
      Index(entries[..n])[entries[n].id := n]
  }

  /** The walk from `cur` to the root, root first; it stops at an unknown or an already seen id. */
  function PathTo(entries: seq<Entry>, index: map<Id, nat>, cur: Id, seen: set<Id>): seq<Entry>
    requires forall id :: id in index ==> index[id] < |entries|
    decreases |index.Keys - seen|
  {
    if cur == "" || cur in seen || cur !in index then []
    else
      assert index.Keys - (seen + {cur}) == (index.Keys - seen) - {cur};
      PathTo(entries, index, entries[index[cur]].parentId, seen + {cur}) + [entries[index[cur]]]
  }

  function BranchStart(entries: seq<Entry>, leaf: Id, id: Id): Id {
    if id != "" then id
    else if leaf != "" then leaf
    else if entries != [] then entries[|entries| - 1].id
    else ""
  }

  function BranchOf(entries: seq<Entry>, id: Id): seq<Entry> {
    PathTo(entries, Index(entries), id, {})
  }

  function Branch(s: Session, id: Id): seq<Entry> {
    BranchOf(s.entries, BranchStart(s.entries, s.leaf, id))
  }

  // ----- Steps -----

  /** `nextIDSeen`: up to `tries` draws, then two draws glued together, unchecked. */
  function NextId(host: Host, seen: set<Id>, drawn: nat, tries: nat): (Id, nat)
    decreases tries
  {
    if tries == 0 then (host.draw(drawn) + host.draw(drawn + 1), drawn + 2)
    else if host.draw(drawn) !in seen then (host.draw(drawn), drawn + 1)
    else NextId(host, seen, drawn + 1, tries - 1)
  }

  function FreshId(host: Host, s: Session): (Id, nat) {
    NextId(host, Index(s.entries).Keys, s.drawn, 100)
  }

  /** Appending needs an initialised session and a file that can be written. */
  predicate CanAppend(s: Session, writable: bool) {
    s.file != "" && writable
  }

  function Append(host: Host, s: Session, body: Body, timestamp: string, writable: bool): Session {
    var (id, drawn) := FreshId(host, s);
    var e := Entry(id, s.leaf, timestamp, body);
    if CanAppend(s, writable) then
      s.(entries := s.entries + [e], leaf := id, lines := s.lines + [host.codec.encodeEntry(e)],
         drawn := drawn, clash := s.clash || id in Index(s.entries))
    else s.(drawn := drawn)
  }

  function SetLeaf(s: Session, id: Id): Session {
    if id == "" || id in Index(s.entries) then s.(leaf := id) else s
  }

  function FileLines(host: Host, header: Header, entries: seq<Entry>): seq<string> {
    [host.codec.encodeHeader(header)] + EntryLines(host, entries)
  }

  function EntryLines(host: Host, entries: seq<Entry>): (lines: seq<string>)
    ensures |lines| == |entries|
    ensures forall k :: 0 <= k < |entries| ==> lines[k] == host.codec.encodeEntry(entries[k])
  {
    seq(|entries|, k requires 0 <= k < |entries| => host.codec.encodeEntry(entries[k]))
  }

  function Create(host: Host, s: Session, dir: string, cwd: string, parent: string, timestamp: string): Session {
    var sid := host.draw(s.drawn);
    var header := Header("session", CURRENT_VERSION, sid, timestamp, cwd, parent);
    Session(dir + "/" + sid + ".jsonl", header, [], "", FileLines(host, header, []), s.drawn + 1, false)
  }

  // ----- The tree invariant -----

  predicate UniqueIds(entries: seq<Entry>) {
    forall i, j :: 0 <= i < j < |entries| ==> entries[i].id != entries[j].id
  }

  predicate ParentIsEarlier(entries: seq<Entry>, k: nat)
    requires k < |entries|
  {
    var p := entries[k].parentId;
    p == "" || (p in Index(entries) && Index(entries)[p] < k)
  }

  /** Unique non-empty ids, and every parent an earlier entry. */
  predicate Tree(entries: seq<Entry>) {
    && UniqueIds(entries)
    && (forall k :: 0 <= k < |entries| ==> entries[k].id != "" && ParentIsEarlier(entries, k))
  }

  predicate LeafKnown(s: Session) {
    s.leaf == "" || s.leaf in Index(s.entries)
  }

  /** There is no leaf only before the first entry. */
  predicate LeafSet(s: Session) {
    s.leaf == "" ==> s.entries == []
  }

  predicate TreeSession(s: Session) {
    Tree(s.entries) && LeafKnown(s)
  }

  lemma {:induction false} IndexComplete(entries: seq<Entry>)
    ensures forall k :: 0 <= k < |entries| ==> entries[k].id in Index(entries) && k <= Index(entries)[entries[k].id]
  {
    if entries != [] {
      var n := |entries| - 1;
      IndexComplete(entries[..n]);
      assert forall k :: 0 <= k < n ==> entries[k] == entries[..n][k];
    }
  }

  lemma IndexAppend(entries: seq<Entry>, e: Entry)
    ensures Index(entries + [e]) == Index(entries)[e.id := |entries|]
  {
    assert (entries + [e])[..|entries|] == entries;
  }

  lemma UniqueIndex(entries: seq<Entry>, k: nat)
    requires UniqueIds(entries) && k < |entries|
    ensures entries[k].id in Index(entries) && Index(entries)[entries[k].id] == k
  {
    IndexComplete(entries);
  }

  /** `FreshId` clashes only if a hundred draws and the glued pair are all in use. */
  lemma {:induction false} NextIdFresh(host: Host, seen: set<Id>, drawn: nat, tries: nat)
    ensures NextId(host, seen, drawn, tries).0 != ""
    ensures NextId(host, seen, drawn, tries).0 in seen <==>
      && (forall i :: drawn <= i < drawn + tries ==> host.draw(i) in seen)
      && host.draw(drawn + tries) + host.draw(drawn + tries + 1) in seen
    decreases tries
  {
    if tries > 0 && host.draw(drawn) in seen {
      NextIdFresh(host, seen, drawn + 1, tries - 1);
    }
  }

  lemma AppendEntryKeepsTree(entries: seq<Entry>, e: Entry)
    requires Tree(entries) && e.id != "" && e.id !in Index(entries)
    requires e.parentId == "" || e.parentId in Index(entries)
    ensures Tree(entries + [e])
  {
    var all := entries + [e];
    IndexAppend(entries, e);
    IndexComplete(entries);
    forall k | 0 <= k < |all| ensures all[k].id != "" && ParentIsEarlier(all, k) {
      if k < |entries| { assert ParentIsEarlier(entries, k); }
    }
  }

  lemma AppendKeepsTree(host: Host, s: Session, body: Body, timestamp: string, writable: bool)
    requires TreeSession(s) && !Append(host, s, body, timestamp, writable).clash
    ensures TreeSession(Append(host, s, body, timestamp, writable))
  {
    NextIdFresh(host, Index(s.entries).Keys, s.drawn, 100);
    var (id, drawn) := FreshId(host, s);
    if CanAppend(s, writable) {
      AppendEntryKeepsTree(s.entries, Entry(id, s.leaf, timestamp, body));
      IndexAppend(s.entries, Entry(id, s.leaf, timestamp, body));
    }
  }

  // ----- Branches of a tree -----

  /** The ancestors of the entry at `k`, root first, by positions. */
  function Lineage(entries: seq<Entry>, k: nat): seq<Entry>
    requires Tree(entries) && k < |entries|
    decreases k
  {
    assert ParentIsEarlier(entries, k);
    var p := entries[k].parentId;
    (if p == "" then [] else Lineage(entries, Index(entries)[p])) + [entries[k]]
  }

  lemma {:induction false} PathIsLineage(entries: seq<Entry>, id: Id, seen: set<Id>)
    requires Tree(entries) && id in Index(entries)
    requires forall x :: x in seen && x in Index(entries) ==> Index(entries)[id] < Index(entries)[x]
    ensures PathTo(entries, Index(entries), id, seen) == Lineage(entries, Index(entries)[id])
    decreases Index(entries)[id]
  {
    var k := Index(entries)[id];
    assert ParentIsEarlier(entries, k);
    var p := entries[k].parentId;
    if p != "" {
      PathIsLineage(entries, p, seen + {id});
    }
  }

  // ----- Branches of any entry graph -----

  /** A walk that has seen the new entry's id goes as if the entry were not there. */
  lemma {:induction false} PathIgnoresNew(entries: seq<Entry>, e: Entry, cur: Id, seen: set<Id>)
    requires e.id !in Index(entries)
    ensures PathTo(entries + [e], Index(entries + [e]), cur, seen + {e.id})
      == PathTo(entries, Index(entries), cur, seen)
    decreases |Index(entries).Keys - seen|
  {
    IndexAppend(entries, e);
    if cur != "" && cur !in seen && cur in Index(entries) {
      var k := Index(entries)[cur];
      assert (entries + [e])[k] == entries[k] && cur !in seen + {e.id};
      assert Index(entries).Keys - (seen + {cur}) == (Index(entries).Keys - seen) - {cur};
      assert seen + {e.id} + {cur} == seen + {cur} + {e.id};
      PathIgnoresNew(entries, e, entries[k].parentId, seen + {cur});
    }
  }

  /** Whatever the graph, the branch of a new entry is the branch of its parent and the entry. */
  lemma NewBranch(entries: seq<Entry>, e: Entry)
    requires e.id != "" && e.id !in Index(entries)
    ensures BranchOf(entries + [e], e.id) == BranchOf(entries, e.parentId) + [e]
  {
    IndexAppend(entries, e);
    PathIgnoresNew(entries, e, e.parentId, {});
    assert {} + {e.id} == {e.id};
  }

  /** The id at which the walk to the root stops: none, an unknown one, or one seen before. */
  function StopOf(entries: seq<Entry>, index: map<Id, nat>, cur: Id, seen: set<Id>): Id
    requires forall id :: id in index ==> index[id] < |entries|
    decreases |index.Keys - seen|
  {
    if cur == "" || cur in seen || cur !in index then cur
    else
      assert index.Keys - (seen + {cur}) == (index.Keys - seen) - {cur};
      StopOf(entries, index, entries[index[cur]].parentId, seen + {cur})
  }

  lemma SnocInjective<T>(a: seq<T>, b: seq<T>, x: T)
    ensures a + [x] == b + [x] <==> a == b
  {
    assert (a + [x])[..|a|] == a && (b + [x])[..|b|] == b;
  }

  lemma {:induction false} PathStaysIff(entries: seq<Entry>, e: Entry, cur: Id, seen: set<Id>)
    requires e.id != "" && e.id !in Index(entries) && e.id !in seen
    ensures PathTo(entries + [e], Index(entries + [e]), cur, seen) == PathTo(entries, Index(entries), cur, seen)
       <==> StopOf(entries, Index(entries), cur, seen) != e.id
    decreases |Index(entries).Keys - seen|
  {
    IndexAppend(entries, e);
    if cur != "" && cur !in seen && cur in Index(entries) {
      var k := Index(entries)[cur];
      assert (entries + [e])[k] == entries[k];
      assert Index(entries).Keys - (seen + {cur}) == (Index(entries).Keys - seen) - {cur};
      PathStaysIff(entries, e, entries[k].parentId, seen + {cur});
      SnocInjective(PathTo(entries + [e], Index(entries + [e]), entries[k].parentId, seen + {cur}),
        PathTo(entries, Index(entries), entries[k].parentId, seen + {cur}), entries[k]);
    }
  }

  /** On every graph, a new entry leaves a branch as it was exactly when the branch does not hang on its very id. */
  lemma BranchStaysIff(entries: seq<Entry>, e: Entry, id: Id)
    requires e.id != "" && e.id !in Index(entries)
    ensures BranchOf(entries + [e], id) == BranchOf(entries, id) <==> StopOf(entries, Index(entries), id, {}) != e.id
  {
    PathStaysIff(entries, e, id, {});
  }

  /** Appending a body under the leaf extends the leaf's branch by one entry, or starts a new root, on every graph. */
  lemma AppendExtends(host: Host, s: Session, body: Body, timestamp: string, writable: bool)
    requires CanAppend(s, writable) && !Append(host, s, body, timestamp, writable).clash
    ensures var after := Append(host, s, body, timestamp, writable);
      var e := Entry(after.leaf, s.leaf, timestamp, body);
      && (TreeSession(s) ==> TreeSession(after)) && after.leaf != "" && after.entries == s.entries + [e]
      && BranchOf(after.entries, after.leaf) == BranchOf(s.entries, s.leaf) + [e]
      && (s.leaf == "" ==> BranchOf(s.entries, s.leaf) == [])
  {
    var after := Append(host, s, body, timestamp, writable);
    NextIdFresh(host, Index(s.entries).Keys, s.drawn, 100);
    if TreeSession(s) {
      AppendKeepsTree(host, s, body, timestamp, writable);
    }
    NewBranch(s.entries, Entry(after.leaf, s.leaf, timestamp, body));
  }

  datatype Op = AppendOp(body: Body, timestamp: string, writable: bool) | SetLeafOp(id: Id)

  function Apply(host: Host, s: Session, op: Op): Session {
    match op
    case AppendOp(body, timestamp, writable) => Append(host, s, body, timestamp, writable)
    case SetLeafOp(id) => SetLeaf(s, id)
  }

  function ApplyAll(host: Host, s: Session, ops: seq<Op>): Session
    decreases |ops|
  {
    if ops == [] then s else ApplyAll(host, Apply(host, s, ops[0]), ops[1..])
  }

  lemma {:induction false} ClashIsForever(host: Host, s: Session, ops: seq<Op>)
    ensures s.clash ==> ApplyAll(host, s, ops).clash
    decreases |ops|
  {
    if ops != [] {
      ClashIsForever(host, Apply(host, s, ops[0]), ops[1..]);
    }
  }

  /** Every parent, and the leaf, is an entry or nothing. Repeated ids, later parents and cycles are allowed. */
  predicate Anchored(s: Session) {
    LeafKnown(s) && forall e :: e in s.entries ==> e.parentId == "" || e.parentId in Index(s.entries)
  }

  lemma TreeIsAnchored(s: Session)
    requires TreeSession(s)
    ensures Anchored(s)
  {
    forall k | 0 <= k < |s.entries| ensures s.entries[k].parentId == "" || s.entries[k].parentId in Index(s.entries) {
      assert ParentIsEarlier(s.entries, k);
    }
  }

  lemma {:induction false} StopIsKnown(entries: seq<Entry>, cur: Id, seen: set<Id>)
    requires forall e :: e in entries ==> e.parentId == "" || e.parentId in Index(entries)
    requires cur == "" || cur in Index(entries)
    ensures var stop := StopOf(entries, Index(entries), cur, seen); stop == "" || stop in Index(entries)
    decreases |Index(entries).Keys - seen|
  {
    if cur != "" && cur !in seen {
      assert Index(entries).Keys - (seen + {cur}) == (Index(entries).Keys - seen) - {cur};
      StopIsKnown(entries, entries[Index(entries)[cur]].parentId, seen + {cur});
    }
  }

  /** Where every parent is known, appending an entry changes no existing branch, and puts the new entry at the end
      of its parent's. */
  lemma AppendBranches(entries: seq<Entry>, e: Entry)
    requires forall x :: x in entries ==> x.parentId == "" || x.parentId in Index(entries)
    requires e.id != "" && e.id !in Index(entries)
    ensures forall id :: id in Index(entries) ==> BranchOf(entries + [e], id) == BranchOf(entries, id)
    ensures BranchOf(entries + [e], e.id) == BranchOf(entries, e.parentId) + [e]
  {
    NewBranch(entries, e);
    forall id | id in Index(entries) ensures BranchOf(entries + [e], id) == BranchOf(entries, id) {
      StopIsKnown(entries, id, {});
      BranchStaysIff(entries, e, id);
    }
  }

  lemma AppendKeepsAnchors(host: Host, s: Session, body: Body, timestamp: string, writable: bool)
    requires Anchored(s) && !Append(host, s, body, timestamp, writable).clash
    ensures var after := Append(host, s, body, timestamp, writable);
      && Anchored(after) && (TreeSession(s) ==> TreeSession(after)) && s.entries <= after.entries
      && forall id :: id in Index(s.entries) ==>
           id in Index(after.entries) && BranchOf(after.entries, id) == BranchOf(s.entries, id)
  {
    if CanAppend(s, writable) {
      var after := Append(host, s, body, timestamp, writable);
      AppendExtends(host, s, body, timestamp, writable);
      var e := after.entries[|s.entries|];
      IndexAppend(s.entries, e);
      AppendBranches(s.entries, e);
    }
  }

  /** Any run of appends and leaf moves never changes the branch of an existing id, and keeps a tree a tree: history
      is stable. All that is asked is that no append was given an id in use, and that nothing hangs on an unknown id;
      one that does may get a parent later (`BranchStaysIff`). */
  lemma {:induction false} HistoryIsStable(host: Host, s: Session, ops: seq<Op>)
    requires Anchored(s) && !ApplyAll(host, s, ops).clash
    ensures var later := ApplyAll(host, s, ops);
      && Anchored(later) && (TreeSession(s) ==> TreeSession(later))
      && s.entries <= later.entries
      && forall id :: id in Index(s.entries) ==>
           id in Index(later.entries) && BranchOf(later.entries, id) == BranchOf(s.entries, id)
    decreases |ops|
  {
    if ops != [] {
      ClashIsForever(host, Apply(host, s, ops[0]), ops[1..]);
      if ops[0].AppendOp? {
        AppendKeepsAnchors(host, s, ops[0].body, ops[0].timestamp, ops[0].writable);
      }
      HistoryIsStable(host, Apply(host, s, ops[0]), ops[1..]);
    }
  }
}
