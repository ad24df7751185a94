/** What a branch is on every entry graph, cyclic or dangling. */
module BranchLaws {
  import opened Types
  import opened Sequences
  import opened Sessions

  function Ids(path: seq<Entry>): set<Id> {
    set e | e in path :: e.id
  }

  predicate LinkedAt(path: seq<Entry>, i: nat)
    requires i < |path|
  {
    i > 0 ==> path[i].parentId == path[i - 1].id && path[i - 1].id != ""
  }

  predicate Linked(path: seq<Entry>) {
    forall i :: 0 <= i < |path| ==> LinkedAt(path, i)
  }

  predicate Indexed(entries: seq<Entry>, path: seq<Entry>) {
    forall e :: e in path ==> e.id in Index(entries) && e == entries[Index(entries)[e.id]]
  }

  /** A path of indexed entries, linked by parents, without a repeated id, that ends at `id` and
      goes as far up as it can: to a root, to a dangling parent, or to an id of `seen` or of its own. */
  predicate IsBranch(entries: seq<Entry>, path: seq<Entry>, id: Id, seen: set<Id>) {
    if id == "" || id !in Index(entries) || id in seen then path == []
    else
      && path != [] && path[|path| - 1].id == id
      && Indexed(entries, path) && Linked(path) && UniqueIds(path)
      && Ids(path) !! seen && "" !in Ids(path)
      && var up := path[0].parentId; (up == "" || up !in Index(entries) || up in seen + Ids(path))
  }

  lemma UniqueSnoc(up: seq<Entry>, e: Entry)
    ensures UniqueIds(up + [e]) <==> UniqueIds(up) && e.id !in Ids(up)
  {
    var all := up + [e];
    if UniqueIds(all) {
      forall i, j | 0 <= i < j < |up| ensures up[i].id != up[j].id { assert all[i].id != all[j].id; }
      forall k | 0 <= k < |up| ensures up[k].id != e.id { assert all[k].id != all[|up|].id; }
    }
    if UniqueIds(up) && e.id !in Ids(up) {
      forall k | 0 <= k < |up| ensures all[k].id != e.id { assert up[k] in up; }
    }
  }

  lemma LinkedSnoc(up: seq<Entry>, e: Entry)
    ensures Linked(up + [e]) <==>
      Linked(up) && (up != [] ==> e.parentId == up[|up| - 1].id && up[|up| - 1].id != "")
  {
    var all := up + [e];
    assert forall i :: 0 <= i < |up| ==> LinkedAt(all, i) == LinkedAt(up, i);
    assert Linked(all) ==> LinkedAt(all, |up|);
  }

  lemma IndexedSnoc(entries: seq<Entry>, up: seq<Entry>, e: Entry)
    ensures Ids(up + [e]) == Ids(up) + {e.id}
    ensures Indexed(entries, up + [e]) <==>
      Indexed(entries, up) && e.id in Index(entries) && e == entries[Index(entries)[e.id]]
  {
    var all := up + [e];
    assert forall x :: x in all <==> x in up || x == e;
  }

  /** A branch grows at its leaf end. */
  lemma BranchSnoc(entries: seq<Entry>, up: seq<Entry>, e: Entry, seen: set<Id>)
    requires e.id != "" && e.id !in seen && e.id in Index(entries) && e == entries[Index(entries)[e.id]]
    requires IsBranch(entries, up, e.parentId, seen + {e.id})
    ensures IsBranch(entries, up + [e], e.id, seen)
  {
    UniqueSnoc(up, e);
    LinkedSnoc(up, e);
    IndexedSnoc(entries, up, e);
    if up != [] {
      assert up[|up| - 1] in up && (up + [e])[0] == up[0];
    }
  }

  lemma BranchUnsnoc(entries: seq<Entry>, up: seq<Entry>, e: Entry, seen: set<Id>)
    requires IsBranch(entries, up + [e], e.id, seen)
    ensures e.id != "" && e.id !in seen && e.id in Index(entries) && e == entries[Index(entries)[e.id]]
    ensures IsBranch(entries, up, e.parentId, seen + {e.id})
  {
    var path := up + [e];
    assert path[|up|] == e;
    UniqueSnoc(up, e);
    LinkedSnoc(up, e);
    IndexedSnoc(entries, up, e);
    if up != [] {
      assert path[0] == up[0] && up[|up| - 1] in up;
    } else {
      assert path[0] == e;
    }
  }

  lemma {:induction false} PathIsBranch(entries: seq<Entry>, id: Id, seen: set<Id>)
    ensures IsBranch(entries, PathTo(entries, Index(entries), id, seen), id, seen)
    decreases |Index(entries).Keys - seen|
  {
    var index := Index(entries);
    if id != "" && id !in seen && id in index {
      var e := entries[index[id]];
      assert index.Keys - (seen + {id}) == (index.Keys - seen) - {id};
      PathIsBranch(entries, e.parentId, seen + {id});
      BranchSnoc(entries, PathTo(entries, index, e.parentId, seen + {id}), e, seen);
    }
  }

  lemma {:induction false} BranchIsPath(entries: seq<Entry>, path: seq<Entry>, id: Id, seen: set<Id>)
    requires IsBranch(entries, path, id, seen)
    ensures path == PathTo(entries, Index(entries), id, seen)
    decreases |path|
  {
    if path != [] {
      var n := |path| - 1;
      TakeNext(path, n);
      assert path[..n + 1] == path;
      BranchUnsnoc(entries, path[..n], path[n], seen);
      BranchIsPath(entries, path[..n], path[n].parentId, seen + {id});
    }
  }

  /** On every entry graph, `BranchOf` is the one path that `IsBranch` describes. */
  lemma BranchCharacterised(entries: seq<Entry>, id: Id, path: seq<Entry>)
    ensures path == BranchOf(entries, id) <==> IsBranch(entries, path, id, {})
  {
    PathIsBranch(entries, id, {});
    if IsBranch(entries, path, id, {}) {
      BranchIsPath(entries, path, id, {});
    }
  }

  // ----- Chains -----

  /** One line of descent: each entry's parent is the entry before it. */
  predicate Chain(entries: seq<Entry>) {
    forall k :: 0 <= k < |entries| ==> ChainAt(entries, k)
  }

  predicate ChainAt(entries: seq<Entry>, k: nat)
    requires k < |entries|
  {
    entries[k].id != "" && entries[k].parentId == if k == 0 then "" else entries[k - 1].id
  }

  lemma ChainSnoc(entries: seq<Entry>, e: Entry)
    requires Chain(entries) && e.id != ""
    requires e.parentId == if entries == [] then "" else entries[|entries| - 1].id
    ensures Chain(entries + [e])
  {
    forall k | 0 <= k <= |entries| ensures ChainAt(entries + [e], k) {
      if k < |entries| { assert ChainAt(entries, k); }
    }
  }

  lemma ChainParent(entries: seq<Entry>, k: nat)
    requires 0 < k < |entries| && ChainAt(entries, k) && UniqueIds(entries)
    ensures entries[k].parentId in Index(entries) && Index(entries)[entries[k].parentId] == k - 1
  {
    UniqueIndex(entries, k - 1);
  }

  lemma {:induction false} ChainPath(entries: seq<Entry>, k: nat, seen: set<Id>)
    requires Chain(entries) && UniqueIds(entries) && k < |entries|
    requires forall j :: 0 <= j <= k ==> entries[j].id !in seen
    ensures PathTo(entries, Index(entries), entries[k].id, seen) == entries[..k + 1]
    decreases k
  {
    assert ChainAt(entries, k);
    UniqueIndex(entries, k);
    TakeNext(entries, k);
    if k > 0 {
      ChainPath(entries, k - 1, seen + {entries[k].id});
    }
  }

  lemma ChainIsTree(entries: seq<Entry>)
    requires Chain(entries) && UniqueIds(entries)
    ensures Tree(entries)
  {
    forall k | 0 <= k < |entries| ensures entries[k].id != "" && ParentIsEarlier(entries, k) {
      assert ChainAt(entries, k);
      if k > 0 { ChainParent(entries, k); }
    }
  }

  /** The branch of a chain's last entry is the whole chain exactly when no id repeats. */
  lemma ChainBranchIff(entries: seq<Entry>)
    requires Chain(entries) && entries != []
    ensures BranchOf(entries, entries[|entries| - 1].id) == entries <==> UniqueIds(entries)
  {
    var n := |entries| - 1;
    assert ChainAt(entries, n);
    if UniqueIds(entries) {
      ChainPath(entries, n, {});
      assert entries[..n + 1] == entries;
    } else {
      PathIsBranch(entries, entries[n].id, {});
    }
  }
}
