/** The session manager (`Manager` in internal/session/manager.go), updated in place.
    Every method is proved against the value it stands for in Sessions, SessionFiles and SessionContext. */
module SessionManager {
  import opened Types
  import opened Sequences
  import opened Sessions
  import opened BranchLaws
  import opened SessionContext
  import Files = SessionFiles

  class Manager {
    const dir: string
    const host: Host
    var file: string
    var header: Header
    var entries: seq<Entry>
    var byId: map<Id, nat>
    var leafId: Id
    var lines: seq<string>
    var drawn: nat
    ghost var clash: bool

    /** The index is exact, whatever the entries are. */
    ghost predicate Valid()
      reads this
    {
      byId == Index(entries)
    }

    ghost function Value(): Session
      reads this
    {
      Session(file, header, entries, leafId, lines, drawn, clash)
    }

    constructor (dir: string, host: Host)
      ensures Valid() && this.dir == dir && this.host == host
      ensures file == "" && entries == [] && leafId == "" && !clash
    {
      this.dir, this.host := dir, host;
      file, header, entries, byId, leafId := "", Header("", 0, "", "", "", ""), [], map[], "";
      lines, drawn, clash := [], 0, false;
    }

    /** `dirReady` and `writable` say whether the directory could be made and the file written. */
    method CreateNew(
      cwd: string, parentSession: string, timestamp: string, dirReady: bool, writable: bool)
      returns (ok: bool)
      requires Valid()
      modifies this
      ensures Valid() && ok == (dirReady && writable)
      ensures !dirReady ==> Value() == old(Value())
      ensures dirReady ==>
        var created := Create(host, old(Value()), dir, cwd, parentSession, timestamp);
        Value() == if writable then created else created.(lines := [])
    {
      if !dirReady {
        return false;
      }
      var sid := host.draw(drawn);
      drawn := drawn + 1;
      header := Header("session", CURRENT_VERSION, sid, timestamp, cwd, parentSession);
      entries := [];
      byId := map[];
      leafId := "";
      clash := false;
      file := dir + "/" + sid + ".jsonl";
      ok := FlushAll(writable);
      if !ok {
        lines := [];
      }
    }

    method FlushAll(writable: bool) returns (ok: bool)
      modifies this`lines
      ensures ok == (file != "" && writable)
      ensures lines == if ok then FileLines(host, header, entries) else old(lines)
    {
      if file == "" || !writable {
        return false;
      }
      lines := [host.codec.encodeHeader(header)];
      for k := 0 to |entries|
        invariant lines == FileLines(host, header, entries[..k])
      {
        TakeNext(entries, k);
        assert EntryLines(host, entries[..k + 1])
            == EntryLines(host, entries[..k]) + [host.codec.encodeEntry(entries[k])];
        Reassociate([host.codec.encodeHeader(header)], EntryLines(host, entries[..k]),
          [host.codec.encodeEntry(entries[k])]);
        lines := lines + [host.codec.encodeEntry(entries[k])];
      }
      assert entries[..|entries|] == entries;
      return true;
    }

    method SetLeaf(id: Id) returns (ok: bool)
      requires Valid()
      modifies this`leafId
      ensures Valid() && Value() == Sessions.SetLeaf(old(Value()), id)
      ensures ok <==> id == "" || id in Index(entries)
    {
      if id == "" {
        leafId := "";
        return true;
      }
      if id !in byId {
        return false;
      }
      leafId := id;
      return true;
    }

    method NextIdSeen(seen: map<Id, nat>) returns (id: Id)
      modifies this`drawn
      ensures (id, drawn) == NextId(host, seen.Keys, old(drawn), 100)
    {
      for i := 0 to 100
        invariant NextId(host, seen.Keys, drawn, 100 - i) == NextId(host, seen.Keys, old(drawn), 100)
      {
        id := host.draw(drawn);
        drawn := drawn + 1;
        if id !in seen {
          return;
        }
      }
      id := host.draw(drawn) + host.draw(drawn + 1);
      drawn := drawn + 2;
    }

    /** Each `Append…` method fills one body and appends it under the current leaf. */
    method Append(body: Body, timestamp: string, writable: bool) returns (appended: Option<Entry>)
      requires Valid()
      modifies this
      ensures Valid() && Value() == Sessions.Append(host, old(Value()), body, timestamp, writable)
      ensures appended.Some? <==> CanAppend(old(Value()), writable)
      ensures appended.Some? ==> entries == old(entries) + [appended.value] && appended.value.body == body
    {
      var id := NextIdSeen(byId);
      var e := Entry(id, leafId, timestamp, body);
      var ok := AppendEntry(e, writable);
      return if ok then Some(e) else None;
    }

    method AppendEntry(e: Entry, writable: bool) returns (ok: bool)
      requires Valid()
      modifies this
      ensures Valid() && ok == CanAppend(old(Value()), writable)
      ensures Value() == if !ok then old(Value()) else
        old(Value()).(entries := old(entries) + [e], leaf := e.id, lines := old(lines) + [host.codec.encodeEntry(e)],
                      clash := old(clash) || e.id in Index(old(entries)))
    {
      if file == "" || !writable {
        return false;
      }
      IndexAppend(entries, e);
      clash := clash || e.id in byId;
      lines := lines + [host.codec.encodeEntry(e)];
      entries := entries + [e];
      byId := byId[e.id := |entries| - 1];
      leafId := e.id;
      return true;
    }

    method Branch(id: Id) returns (path: seq<Entry>)
      requires Valid()
      ensures path == Sessions.Branch(Value(), id)
    {
      var leaf := id;
      if leaf == "" {
        leaf := leafId;
      }
      if leaf == "" && |entries| > 0 {
        leaf := entries[|entries| - 1].id;
      }
      if leaf == "" {
        return [];
      }
      path := WalkUp(entries, byId, leaf);
      path := ReverseInPlace(path);
    }

    method BuildContext(id: Id, clock: Clock) returns (ctx: Context)
      requires Valid()
      ensures ctx == ContextOf(Sessions.Branch(Value(), id), clock)
    {
      var branch := Branch(id);
      PathIsBranch(entries, BranchStart(entries, leafId, id), {});
      ctx := SessionContext.BuildContext(branch, clock);
    }

    /** `content` is the file at `path`, line by line. */
    method Open(path: string, content: seq<string>, writable: bool) returns (error: Option<Files.OpenError>)
      requires Valid() && path != ""
      modifies this
      ensures Valid()
      ensures match Files.Open(host, old(Value()), path, content, writable)
              case Opened(session) => error == None && Value() == session
              case Failed(e) => error == Some(e) && Value() == old(Value())
    {
      var tooLong, read := ScanLines(content);
      if tooLong {
        return Some(Files.LineTooLong);
      }
      if |read| == 0 {
        return Some(Files.EmptyFile);
      }
      var decoded := host.codec.decodeHeader(read[0]);
      if decoded.None? {
        return Some(Files.BadHeader);
      }
      var h := decoded.value;
      if h.kind != "session" {
        return Some(Files.WrongHeaderKind);
      }
      if h.version == 0 {
        h := h.(version := 1);
      }
      var loaded := DecodeEntries(read[1..]);
      Load(path, h, loaded, content, writable);
      return None;
    }

    method Load(path: string, h: Header, loaded: seq<Entry>, content: seq<string>, writable: bool)
      requires path != ""
      modifies this
      ensures Valid() && Value() == Files.Rebuilt(host, old(Value()), path, h, loaded, content, writable)
    {
      header := h;
      entries := loaded;
      file := path;
      lines := content;
      clash := false;
      RebuildIndexAndMigrate(writable);
    }

    static method ScanLines(content: seq<string>) returns (tooLong: bool, read: seq<string>)
      ensures tooLong == Files.HasLongLine(content)
      ensures !tooLong ==> read == Files.Nonblank(content)
    {
      tooLong, read := false, [];
      for k := 0 to |content|
        invariant forall line :: line in content[..k] ==> |line| <= MAX_LINE
        invariant read + Files.Nonblank(content[k..]) == Files.Nonblank(content)
      {
        DropNext(content, k);
        TakeNext(content, k);
        Reassociate(read, Files.NonblankLine(content[k]), Files.Nonblank(content[k + 1..]));
        if |content[k]| > MAX_LINE {
          assert content[k] in content;
          return true, read;
        }
        var line := TrimSpace(content[k]);
        if line != "" {
          read := read + [line];
        } else {
          assert read + [] == read;
        }
      }
      assert content[..|content|] == content;
    }

    method DecodeEntries(encoded: seq<string>) returns (loaded: seq<Entry>)
      ensures loaded == Files.ReadEntries(host.codec, encoded)
    {
      loaded := [];
      for k := 0 to |encoded|
        invariant loaded + Files.ReadEntries(host.codec, encoded[k..]) == Files.ReadEntries(host.codec, encoded)
      {
        DropNext(encoded, k);
        Reassociate(loaded, Files.ReadEntry(host.codec, encoded[k]), Files.ReadEntries(host.codec, encoded[k + 1..]));
        var e := host.codec.decodeEntry(encoded[k]);
        if e.None? || (e.value.body.OtherBody? && e.value.body.kind == "") {
          assert loaded + [] == loaded;
          continue;
        }
        loaded := loaded + [e.value];
      }
    }

    /** Draws a missing id and fills in a missing parent. */
    method FillIn(i: nat, last: Id) returns (filled: bool)
      requires i < |entries|
      modifies this`entries, this`drawn
      ensures var e := old(entries[i]);
        var (id, drawn') := if e.id == "" then NextId(host, byId.Keys, old(drawn), 100) else (e.id, old(drawn));
        drawn == drawn' && entries == old(entries)[i := Files.MigratedEntry(e, id, last)]
      ensures filled <==> entries[i] != old(entries[i])
    {
      filled := false;
      if entries[i].id == "" {
        NextIdFresh(host, byId.Keys, drawn, 100);
        var id := NextIdSeen(byId);
        entries := entries[i := entries[i].(id := id)];
        filled := true;
      }
      if entries[i].parentId == "" && last != "" {
        entries := entries[i := entries[i].(parentId := last)];
        filled := true;
      }
    }

    method MigrateEntries() returns (changed: bool)
      modifies this`entries, this`byId, this`drawn
      ensures Valid() && (entries, drawn) == Files.Migrate(host, old(entries), [], old(drawn))
      ensures changed <==> entries != old(entries)
    {
      byId := map[];
      changed := false;
      var last := "";
      ghost var loaded := entries;
      for i := 0 to |entries|
        invariant |entries| == |loaded| && entries[i..] == loaded[i..]
        invariant byId == Index(entries[..i]) && last == Files.LastId(entries[..i])
        invariant changed <==> entries[..i] != loaded[..i]
        invariant Files.Migrate(host, loaded[i..], entries[..i], drawn) == Files.Migrate(host, loaded, [], old(drawn))
      {
        ghost var done := entries[..i];
        DropNext(entries, i);
        DropNext(loaded, i);
        TakeNext(loaded, i);
        var filled := FillIn(i, last);
        changed := changed || filled;
        byId := byId[entries[i].id := i];
        last := entries[i].id;
        TakeNext(entries, i);
        assert entries[..i] == done && entries[i + 1..] == loaded[i + 1..];
        IndexAppend(done, entries[i]);
        SnocDiffers(done, loaded[..i], entries[i], loaded[i]);
      }
      assert entries[..|entries|] == entries && loaded[..|loaded|] == loaded;
    }

    method RebuildIndexAndMigrate(writable: bool)
      requires file != "" && !clash
      modifies this
      ensures Valid()
      ensures Value() == Files.Rebuilt(host, old(Value()), old(file), old(header), old(entries), old(lines), writable)
    {
      ghost var was, loaded, written := Value(), entries, lines;
      var changed := MigrateEntries();
      ghost var current := if header.version < CURRENT_VERSION then header.(version := CURRENT_VERSION) else header;
      if header.version < CURRENT_VERSION {
        header := header.(version := CURRENT_VERSION);
        changed := true;
      }
      if |entries| > 0 {
        leafId := entries[|entries| - 1].id;
      }
      if changed {
        var _ := FlushAll(writable);
      }
      Files.RebuiltIs(host, was, file, old(header), loaded, written, writable, Value());
    }
  }

  lemma SnocDiffers<T>(a: seq<T>, b: seq<T>, x: T, y: T)
    requires |a| == |b|
    ensures a + [x] == b + [y] <==> a == b && x == y
  {
    if a + [x] == b + [y] {
      assert a == (a + [x])[..|a|] && (a + [x])[|a|] == (b + [y])[|b|];
    }
  }

  function Reversed<T>(s: seq<T>): (r: seq<T>)
    ensures |r| == |s| && forall k :: 0 <= k < |s| ==> r[k] == s[|s| - 1 - k]
  {
    seq(|s|, k requires 0 <= k < |s| => s[|s| - 1 - k])
  }

  lemma ReversedSnoc<T>(s: seq<T>, x: T)
    ensures Reversed(s + [x]) == [x] + Reversed(s)
  {}

  /** The walk of `Branch`, from the leaf up; every turn of the loop uses up an unseen id. */
  method WalkUp(entries: seq<Entry>, index: map<Id, nat>, leaf: Id) returns (path: seq<Entry>)
    requires forall id :: id in index ==> index[id] < |entries|
    ensures Reversed(path) == PathTo(entries, index, leaf, {})
  {
    path := [];
    var cur, seen := leaf, {};
    while cur != ""
      invariant PathTo(entries, index, leaf, {}) == PathTo(entries, index, cur, seen) + Reversed(path)
      decreases |index.Keys - seen|, cur != ""
    {
      if cur in seen {
        break;
      }
      ghost var before := seen;
      seen := seen + {cur};
      if cur !in index {
        break;
      }
      assert index.Keys - seen == (index.Keys - before) - {cur};
      var e := entries[index[cur]];
      Reassociate(PathTo(entries, index, e.parentId, seen), [e], Reversed(path));
      ReversedSnoc(path, e);
      path := path + [e];
      cur := e.parentId;
    }
    assert [] + Reversed(path) == Reversed(path);
  }

  /** The swap loop at the end of `Branch`. */
  method ReverseInPlace<T>(s: seq<T>) returns (path: seq<T>)
    ensures path == Reversed(s)
  {
    path := s;
    var i, j := 0, |path| - 1;
    while i < j
      invariant 0 <= i && j == |s| - 1 - i && i <= j + 1 && |path| == |s|
      invariant forall k :: 0 <= k < i ==> path[k] == s[|s| - 1 - k] && path[|s| - 1 - k] == s[k]
      invariant forall k :: i <= k < |s| - i ==> path[k] == s[k]
    {
      var x, y := path[i], path[j];
      path := path[i := y][j := x];
      i, j := i + 1, j - 1;
    }
  }
}
