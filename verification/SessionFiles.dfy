/** Opening a session file: reading its lines, migrating old entries, and what a reopened
    session keeps (`Open` and `rebuildIndexAndMigrate` in internal/session/manager.go). */
module SessionFiles {
  import opened Types
  import opened Sequences
  import opened Sessions
  import opened BranchLaws

  datatype OpenError = LineTooLong | EmptyFile | BadHeader | WrongHeaderKind

  // ----- Reading -----

  predicate HasLongLine(lines: seq<string>) {
    exists line :: line in lines && |line| > MAX_LINE
  }

  function NonblankLine(line: string): seq<string> {
    if TrimSpace(line) != "" then [TrimSpace(line)] else []
  }

  function Nonblank(lines: seq<string>): seq<string> {
    if lines == [] then [] else NonblankLine(lines[0]) + Nonblank(lines[1..])
  }

  /** An entry line that does not decode, or that has no type, is skipped. */
  function ReadEntry(codec: Codec, line: string): seq<Entry> {
    match codec.decodeEntry(line)
    case None => []
    case Some(e) => if e.body.OtherBody? && e.body.kind == "" then [] else [e]
  }

  function ReadEntries(codec: Codec, lines: seq<string>): seq<Entry> {
    if lines == [] then [] else ReadEntry(codec, lines[0]) + ReadEntries(codec, lines[1..])
  }

  // ----- Migration -----

  function LastId(entries: seq<Entry>): Id {
    if entries == [] then "" else entries[|entries| - 1].id
  }

  function MigratedEntry(e: Entry, id: Id, last: Id): Entry {
    e.(id := id, parentId := if e.parentId == "" && last != "" then last else e.parentId)
  }

  /** The entries with missing ids drawn and missing parents set to the entry before; `done` is migrated. */
  function Migrate(host: Host, todo: seq<Entry>, done: seq<Entry>, drawn: nat): (seq<Entry>, nat)
    decreases |todo|
  {
    if todo == [] then (done, drawn)
    else
      var (id, drawn') :=
        if todo[0].id == "" then NextId(host, Index(done).Keys, drawn, 100) else (todo[0].id, drawn);
      Migrate(host, todo[1..], done + [MigratedEntry(todo[0], id, LastId(done))], drawn')
  }

  /** The session after `rebuildIndexAndMigrate`, for a header and entries just read from `lines`. */
  function Rebuilt(
    host: Host, s: Session, path: string, header: Header, entries: seq<Entry>, lines: seq<string>,
    writable: bool): Session
  {
    var (migrated, drawn) := Migrate(host, entries, [], s.drawn);
    var current := if header.version < CURRENT_VERSION then header.(version := CURRENT_VERSION) else header;
    var changed := migrated != entries || header.version < CURRENT_VERSION;
    Session(path, current, migrated,
      if migrated != [] then LastId(migrated) else s.leaf,
      if changed && writable then FileLines(host, current, migrated) else lines,
      drawn, false)
  }

  lemma RebuiltIs(
    host: Host, s: Session, path: string, header: Header, entries: seq<Entry>, lines: seq<string>, writable: bool,
    after: Session)
    requires (after.entries, after.drawn) == Migrate(host, entries, [], s.drawn)
    requires after.file == path && !after.clash
    requires after.header == if header.version < CURRENT_VERSION then header.(version := CURRENT_VERSION) else header
    requires after.leaf == if after.entries != [] then LastId(after.entries) else s.leaf
    requires after.lines == if (after.entries != entries || header.version < CURRENT_VERSION) && writable
      then FileLines(host, after.header, after.entries) else lines
    ensures after == Rebuilt(host, s, path, header, entries, lines, writable)
  {}

  datatype Opening = Opened(session: Session) | Failed(error: OpenError)

  function Open(host: Host, s: Session, path: string, lines: seq<string>, writable: bool): Opening {
    var read := Nonblank(lines);
    if HasLongLine(lines) then Failed(LineTooLong)
    else if read == [] then Failed(EmptyFile)
    else
      match host.codec.decodeHeader(read[0])
      case None => Failed(BadHeader)
      case Some(h) =>
        if h.kind != "session" then Failed(WrongHeaderKind)
        else
          var header := if h.version == 0 then h.(version := 1) else h;
          Opened(Rebuilt(host, s, path, header, ReadEntries(host.codec, read[1..]), lines, writable))
  }

  // ----- What migration gives -----

  predicate Complete(entries: seq<Entry>) {
    forall k :: 0 <= k < |entries| ==> entries[k].id != "" && (k > 0 ==> entries[k].parentId != "")
  }

  /** `after` is `before` with only an empty id and an empty parent filled in. */
  predicate FilledIn(before: Entry, after: Entry) {
    && after.body == before.body && after.timestamp == before.timestamp
    && (before.id != "" ==> after.id == before.id)
    && (before.parentId != "" ==> after.parentId == before.parentId)
  }

  predicate OnlyFillsIn(before: seq<Entry>, after: seq<Entry>) {
    |after| == |before| && forall k :: 0 <= k < |before| ==> FilledIn(before[k], after[k])
  }

  lemma {:induction false} MigrateFillsIn(host: Host, todo: seq<Entry>, done: seq<Entry>, drawn: nat)
    requires Complete(done)
    ensures var (after, _) := Migrate(host, todo, done, drawn);
      done <= after && Complete(after) && OnlyFillsIn(todo, after[|done|..])
    decreases |todo|
  {
    if todo != [] {
      NextIdFresh(host, Index(done).Keys, drawn, 100);
      var (id, drawn') :=
        if todo[0].id == "" then NextId(host, Index(done).Keys, drawn, 100) else (todo[0].id, drawn);
      var e := MigratedEntry(todo[0], id, LastId(done));
      CompleteSnoc(done, e);
      MigrateFillsIn(host, todo[1..], done + [e], drawn');
      var after := Migrate(host, todo, done, drawn).0;
      assert after[|done|] == (done + [e])[|done|] == e;
      DropNext(after, |done|);
      FillsInCons(todo[0], todo[1..], e, after[|done| + 1..]);
      DropNext(todo, 0);
    }
  }

  lemma CompleteSnoc(done: seq<Entry>, e: Entry)
    requires Complete(done) && e.id != "" && (done != [] ==> e.parentId != "")
    ensures Complete(done + [e])
  {}

  lemma FillsInCons(b: Entry, before: seq<Entry>, a: Entry, after: seq<Entry>)
    requires FilledIn(b, a) && OnlyFillsIn(before, after)
    ensures OnlyFillsIn([b] + before, [a] + after)
  {}

  /** Nothing is changed, and no id drawn, exactly when every id and every later parent is there. */
  lemma {:induction false} MigrateIdleIff(host: Host, todo: seq<Entry>, done: seq<Entry>, drawn: nat)
    requires Complete(done)
    ensures Migrate(host, todo, done, drawn).0 == done + todo <==> Complete(done + todo)
    ensures Complete(done + todo) ==> Migrate(host, todo, done, drawn).1 == drawn
    decreases |todo|
  {
    MigrateFillsIn(host, todo, done, drawn);
    if Complete(done + todo) && todo != [] {
      var all := done + todo;
      assert all[|done|] == todo[0];
      assert done + [todo[0]] + todo[1..] == all;
      assert Complete(done + [todo[0]]) by {
        assert forall k :: 0 <= k <= |done| ==> (done + [todo[0]])[k] == all[k];
      }
      MigrateIdleIff(host, todo[1..], done + [todo[0]], drawn);
    } else if todo == [] {
      assert done + todo == done;
    }
  }

  /** Every non-empty list of loaded entries is migrated to one with all ids and all later parents; the
      leaf is the last entry; and running the migration again changes nothing. */
  lemma MigrationCompletes(
    host: Host, s: Session, path: string, header: Header, entries: seq<Entry>, lines: seq<string>, writable: bool)
    requires entries != []
    ensures var after := Rebuilt(host, s, path, header, entries, lines, writable);
      && Complete(after.entries) && OnlyFillsIn(entries, after.entries)
      && after.leaf == after.entries[|entries| - 1].id && after.leaf in Index(after.entries)
      && after.header.version >= CURRENT_VERSION
      && Rebuilt(host, after, path, after.header, after.entries, after.lines, writable) == after
  {
    var migrated := Migrate(host, entries, [], s.drawn).0;
    MigrateFillsIn(host, entries, [], s.drawn);
    assert migrated[0..] == migrated && [] + migrated == migrated;
    MigrateIdleIff(host, migrated, [], Migrate(host, entries, [], s.drawn).1);
  }

  lemma {:induction false} MigrateChains(host: Host, todo: seq<Entry>, done: seq<Entry>, drawn: nat)
    requires Chain(done) && forall e :: e in todo ==> e.id == "" && e.parentId == ""
    ensures Chain(Migrate(host, todo, done, drawn).0)
    decreases |todo|
  {
    if todo != [] {
      NextIdFresh(host, Index(done).Keys, drawn, 100);
      var (id, drawn') := NextId(host, Index(done).Keys, drawn, 100);
      var e := MigratedEntry(todo[0], id, LastId(done));
      assert done != [] ==> ChainAt(done, |done| - 1);
      ChainSnoc(done, e);
      MigrateChains(host, todo[1..], done + [e], drawn');
    }
  }

  /** A file with no ids and no parents becomes one chain; the leaf's branch is the whole file, in order,
      exactly when the ids drawn for it are distinct. */
  lemma OldFileBecomesChain(
    host: Host, s: Session, path: string, header: Header, entries: seq<Entry>, lines: seq<string>, writable: bool)
    requires entries != [] && forall e :: e in entries ==> e.id == "" && e.parentId == ""
    ensures var after := Rebuilt(host, s, path, header, entries, lines, writable);
      && Chain(after.entries) && OnlyFillsIn(entries, after.entries)
      && (Branch(after, "") == after.entries <==> UniqueIds(after.entries))
  {
    MigrateChains(host, entries, [], s.drawn);
    MigrationCompletes(host, s, path, header, entries, lines, writable);
    ChainBranchIff(Rebuilt(host, s, path, header, entries, lines, writable).entries);
  }

  // ----- Persist and reopen -----

  /** A written line is neither blank nor padded. */
  predicate IsTrimmed(line: string) {
    line != "" && TrimSpace(line) == line
  }

  /** JSON gives back the header and the entries that it encoded, each from a trimmed line. */
  predicate Faithful(codec: Codec, header: Header, entries: seq<Entry>) {
    && codec.decodeHeader(codec.encodeHeader(header)) == Some(header) && IsTrimmed(codec.encodeHeader(header))
    && forall e :: e in entries ==>
         codec.decodeEntry(codec.encodeEntry(e)) == Some(e) && IsTrimmed(codec.encodeEntry(e))
  }

  /** The file holds the header and the entries, line by line, and the header is a current one. */
  predicate Persisted(host: Host, s: Session) {
    && s.lines == FileLines(host, s.header, s.entries)
    && s.header.kind == "session" && s.header.version == CURRENT_VERSION
    && forall e :: e in s.entries ==> !(e.body.OtherBody? && e.body.kind == "")
  }

  lemma {:induction false} NonblankEncoded(lines: seq<string>)
    requires forall line :: line in lines ==> IsTrimmed(line)
    ensures Nonblank(lines) == lines
  {
    if lines != [] {
      DropNext(lines, 0);
      assert IsTrimmed(lines[0]) && forall line :: line in lines[1..] ==> line in lines;
      NonblankEncoded(lines[1..]);
    }
  }

  lemma {:induction false} ReadBack(host: Host, header: Header, entries: seq<Entry>)
    requires Faithful(host.codec, header, entries)
    requires forall e :: e in entries ==> !(e.body.OtherBody? && e.body.kind == "")
    ensures ReadEntries(host.codec, EntryLines(host, entries)) == entries
  {
    if entries != [] {
      assert entries[0] in entries && forall e :: e in entries[1..] ==> e in entries;
      ReadBack(host, header, entries[1..]);
      assert EntryLines(host, entries)[1..] == EntryLines(host, entries[1..]);
    }
  }

  lemma AppendPersists(host: Host, s: Session, body: Body, timestamp: string, writable: bool)
    requires Persisted(host, s) && !(body.OtherBody? && body.kind == "")
    ensures Persisted(host, Append(host, s, body, timestamp, writable))
  {
    var after := Append(host, s, body, timestamp, writable);
    if CanAppend(s, writable) {
      var e := after.entries[|s.entries|];
      assert EntryLines(host, s.entries + [e]) == EntryLines(host, s.entries) + [host.codec.encodeEntry(e)];
      Reassociate([host.codec.encodeHeader(s.header)], EntryLines(host, s.entries), [host.codec.encodeEntry(e)]);
    }
  }

  /** Appends of entries that have a type, and moves to some leaf. */
  predicate Ordinary(op: Op) {
    match op
    case AppendOp(body, _, _) => !(body.OtherBody? && body.kind == "")
    case SetLeafOp(id) => id != ""
  }

  lemma {:induction false} OrdinaryRun(host: Host, s: Session, ops: seq<Op>)
    requires forall op :: op in ops ==> Ordinary(op)
    requires Persisted(host, s) && Complete(s.entries) && LeafSet(s)
    ensures var after := ApplyAll(host, s, ops);
      Persisted(host, after) && Complete(after.entries) && after.header == s.header && after.file == s.file
    decreases |ops|
  {
    if ops != [] {
      var next := Apply(host, s, ops[0]);
      assert ops[0] in ops && forall op :: op in ops[1..] ==> op in ops;
      if ops[0].AppendOp? {
        AppendPersists(host, s, ops[0].body, ops[0].timestamp, ops[0].writable);
        NextIdFresh(host, Index(s.entries).Keys, s.drawn, 100);
        if CanAppend(s, ops[0].writable) {
          CompleteSnoc(s.entries, next.entries[|s.entries|]);
        }
      }
      OrdinaryRun(host, next, ops[1..]);
    }
  }

  lemma ReadPersisted(host: Host, s: Session)
    requires Faithful(host.codec, s.header, s.entries) && Persisted(host, s)
    ensures Nonblank(s.lines) == s.lines && s.lines != []
    ensures host.codec.decodeHeader(s.lines[0]) == Some(s.header)
    ensures ReadEntries(host.codec, s.lines[1..]) == s.entries
  {
    forall line | line in s.lines ensures IsTrimmed(line) {
      var i :| 0 <= i < |s.lines| && s.lines[i] == line;
      if i > 0 { assert s.entries[i - 1] in s.entries && line == host.codec.encodeEntry(s.entries[i - 1]); }
    }
    NonblankEncoded(s.lines);
    assert s.lines[1..] == EntryLines(host, s.entries);
    ReadBack(host, s.header, s.entries);
  }

  lemma PersistedOpens(host: Host, s: Session, t: Session, writable: bool)
    requires Faithful(host.codec, s.header, s.entries) && Persisted(host, s)
    ensures Open(host, t, s.file, s.lines, writable)
         == if HasLongLine(s.lines) then Failed(LineTooLong)
            else Opened(Rebuilt(host, t, s.file, s.header, s.entries, s.lines, writable))
  {
    ReadPersisted(host, s);
  }

  /** Reopening a persisted session fails exactly on a line past the scanner's limit. Otherwise it gives back
      the header, and gives back the entries, without a rewrite, exactly when every id and later parent is there:
      a second root (an entry appended after `SetLeaf("")`) is what it re-parents. */
  lemma ReopenPersisted(host: Host, s: Session, t: Session, writable: bool)
    requires Faithful(host.codec, s.header, s.entries) && Persisted(host, s)
    ensures var opening := Open(host, t, s.file, s.lines, writable);
      && (opening == Failed(LineTooLong) <==> HasLongLine(s.lines))
      && (opening.Opened? <==> !HasLongLine(s.lines))
      && (opening.Opened? ==>
            var r := opening.session;
            && r.file == s.file && r.header == s.header
            && (r.entries == s.entries <==> Complete(s.entries))
            && (Complete(s.entries) ==> r.lines == s.lines && r.drawn == t.drawn)
            && (s.entries != [] ==> r.leaf == LastId(r.entries))
            && (s.entries == [] ==> r.leaf == t.leaf))
  {
    PersistedOpens(host, s, t, writable);
    assert [] + s.entries == s.entries;
    MigrateIdleIff(host, s.entries, [], t.drawn);
    var migrated := Migrate(host, s.entries, [], t.drawn).0;
    assert |migrated| == |s.entries| by {
      MigrateFillsIn(host, s.entries, [], t.drawn);
    }
  }

  /** After any ordinary run from a new session, the file is the header and the entries, and reopening it
      anywhere gives the same header and entries, with the last entry as leaf and no rewrite. */
  lemma PersistAndReopen(
    host: Host, s: Session, dir: string, cwd: string, parent: string, timestamp: string, ops: seq<Op>, t: Session,
    writable: bool)
    requires forall op :: op in ops ==> Ordinary(op)
    requires var after := ApplyAll(host, Create(host, s, dir, cwd, parent, timestamp), ops);
      Faithful(host.codec, after.header, after.entries)
    ensures var after := ApplyAll(host, Create(host, s, dir, cwd, parent, timestamp), ops);
      && after.lines == FileLines(host, after.header, after.entries)
      && (after.entries != [] && !HasLongLine(after.lines) ==>
            Open(host, t, after.file, after.lines, writable)
            == Opened(after.(leaf := LastId(after.entries), drawn := t.drawn, clash := false)))
  {
    var created := Create(host, s, dir, cwd, parent, timestamp);
    OrdinaryRun(host, created, ops);
    var after := ApplyAll(host, created, ops);
    ReopenPersisted(host, after, t, writable);
  }

  lemma {:induction false} ReadNoneIff(codec: Codec, lines: seq<string>)
    ensures ReadEntries(codec, lines) == [] <==> forall line :: line in lines ==> ReadEntry(codec, line) == []
  {
    if lines != [] {
      ReadNoneIff(codec, lines[1..]);
      assert lines == [lines[0]] + lines[1..];
    }
  }

  lemma {:induction false} MigratedSize(host: Host, todo: seq<Entry>, done: seq<Entry>, drawn: nat)
    ensures |Migrate(host, todo, done, drawn).0| == |done| + |todo|
    decreases |todo|
  {
    if todo != [] {
      var (id, drawn') :=
        if todo[0].id == "" then NextId(host, Index(done).Keys, drawn, 100) else (todo[0].id, drawn);
      MigratedSize(host, todo[1..], done + [MigratedEntry(todo[0], id, LastId(done))], drawn');
    }
  }

  /** For every file that opens: the leaf is the last entry's; if no line after the header is an entry, it is the leaf
      of the session that was open before. So it is known exactly when some line is an entry or that leaf was empty. */
  lemma OpenedLeafKnownIff(host: Host, t: Session, path: string, lines: seq<string>, writable: bool)
    requires Open(host, t, path, lines, writable).Opened?
    ensures var r, read := Open(host, t, path, lines, writable).session, Nonblank(lines);
      var holdsEntry := exists line :: line in read[1..] && ReadEntry(host.codec, line) != [];
      && (r.entries != [] <==> holdsEntry)
      && r.leaf == (if r.entries != [] then r.entries[|r.entries| - 1].id else t.leaf)
      && (LeafKnown(r) <==> holdsEntry || t.leaf == "")
  {
    var r, read := Open(host, t, path, lines, writable).session, Nonblank(lines);
    ReadNoneIff(host.codec, read[1..]);
    MigratedSize(host, ReadEntries(host.codec, read[1..]), [], t.drawn);
    IndexComplete(r.entries);
  }

  /** In particular, on the file of a session without entries the old leaf survives. */
  lemma HeaderOnlyKeepsOldLeaf(host: Host, s: Session, t: Session, writable: bool)
    requires Faithful(host.codec, s.header, s.entries) && Persisted(host, s) && s.entries == [] && !HasLongLine(s.lines)
    ensures var r := Open(host, t, s.file, s.lines, writable).session;
      r.leaf == t.leaf && (LeafKnown(r) <==> t.leaf == "")
  {
    ReopenPersisted(host, s, t, writable);
  }
}
