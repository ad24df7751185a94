/** Moving through the session tree (`navigateTree` in internal/agent/runtime.go): the leaf is set to another
    entry and, if there is a summary of the branch left behind, the summary is appended there.
    What the extension hooks decide is a parameter. */
module Navigation {
  import opened Types
  import opened Sequences
  import opened Sessions
  import opened SessionContext
  import opened SessionManager

  /** What the action and the hook before it ask for; the summary is trimmed already. */
  datatype Wish = Wish(cancel: bool, summary: string, details: Json)

  predicate Moves(s: Session, target: Id, wish: Wish) {
    s.leaf != target && !wish.cancel && (target == "" || target in Index(s.entries))
  }

  function Navigated(host: Host, s: Session, target: Id, wish: Wish, timestamp: string, writable: bool): Session {
    if !Moves(s, target, wish) then s
    else
      var moved := SetLeaf(s, target);
      if wish.summary == "" then moved
      else Append(host, moved, BranchSummary(s.leaf, wish.summary, wish.details), timestamp, writable)
  }

  method NavigateTree(m: Manager, target: Id, wish: Wish, timestamp: string, writable: bool) returns (ok: bool)
    requires m.Valid()
    modifies m
    ensures m.Valid() && m.Value() == Navigated(m.host, old(m.Value()), target, wish, timestamp, writable)
    ensures ok <==>
      if !Moves(old(m.Value()), target, wish) then old(m.leafId) == target || wish.cancel
      else wish.summary == "" || CanAppend(old(m.Value()), writable)
  {
    var oldLeaf := m.leafId;
    if oldLeaf == target || wish.cancel {
      return true;
    }
    ok := m.SetLeaf(target);
    if !ok {
      return false;
    }
    if wish.summary != "" {
      var entry := m.Append(BranchSummary(oldLeaf, wish.summary, wish.details), timestamp, writable);
      return entry.Some?;
    }
  }

  // ----- A context grows by what is appended -----

  lemma {:induction false} KeptFromPrefix(branch: seq<Entry>, e: Entry, id: Id, c: nat)
    requires c <= |branch|
    ensures KeptFrom(branch + [e], id, c) == KeptFrom(branch, id, c)
  {
    if c > 0 {
      KeptFromPrefix(branch, e, id, c - 1);
      assert (branch + [e])[c - 1] == branch[c - 1];
    }
  }

  lemma LastCompactionStays(branch: seq<Entry>, e: Entry)
    requires !e.body.Compaction?
    ensures LastCompaction(branch + [e]) == LastCompaction(branch)
  {
    assert (branch + [e])[..|branch|] == branch;
  }

  lemma KeptGrows(branch: seq<Entry>, e: Entry, clock: Clock)
    requires !e.body.Compaction?
    ensures Kept(branch + [e]) == Kept(branch) + [e]
    ensures Summary(branch + [e], clock) == Summary(branch, clock)
  {
    var all, c := branch + [e], LastCompaction(branch);
    LastCompactionStays(branch, e);
    if c >= 0 {
      assert all[c] == branch[c];
      var id := branch[c].body.firstKeptEntryId;
      KeptFromPrefix(branch, e, id, c);
      var k := KeptFrom(branch, id, c);
      assert all[k..] == branch[k..] + [e];
    }
  }

  lemma EntriesSnoc(entries: seq<Entry>, e: Entry, clock: Clock, n: nat)
    ensures var before := EntryMessages(entries, clock, n);
      EntryMessages(entries + [e], clock, n) == before + EntryMessage(e.body, clock, n + |before|)
  {
    var f := Emit(clock);
    assert Bodies(entries + [e]) == Bodies(entries) + [e.body];
    SpreadSplit(Bodies(entries), [e.body], f, n);
    SpreadOne(e.body, f, n + |EntryMessages(entries, clock, n)|);
  }

  lemma GrowAfter(summary: seq<Message>, kept: seq<Entry>, kept': seq<Entry>, e: Entry, clock: Clock)
    requires kept' == kept + [e]
    ensures var before := summary + EntryMessages(kept, clock, |summary|);
      summary + EntryMessages(kept', clock, |summary|) == before + EntryMessage(e.body, clock, |before|)
  {
    EntriesSnoc(kept, e, clock, |summary|);
    var shown := EntryMessages(kept, clock, |summary|);
    Reassociate(summary, shown, EntryMessage(e.body, clock, |summary| + |shown|));
  }

  /** Unless it is a compaction, an appended entry adds its own message to the context and changes nothing else. */
  lemma ContextGrows(branch: seq<Entry>, e: Entry, clock: Clock)
    requires !e.body.Compaction?
    ensures var before := ContextMessages(branch, clock);
      ContextMessages(branch + [e], clock) == before + EntryMessage(e.body, clock, |before|)
  {
    KeptGrows(branch, e, clock);
    GrowAfter(Summary(branch, clock), Kept(branch), Kept(branch + [e]), e, clock);
  }

  // ----- Moving -----

  function Ops(s: Session, target: Id, wish: Wish, timestamp: string, writable: bool): seq<Op> {
    if !Moves(s, target, wish) then []
    else if wish.summary == "" then [SetLeafOp(target)]
    else [SetLeafOp(target), AppendOp(BranchSummary(s.leaf, wish.summary, wish.details), timestamp, writable)]
  }

  lemma ApplyOne(host: Host, s: Session, op: Op)
    ensures ApplyAll(host, s, [op]) == Apply(host, s, op)
  {
    assert [op][1..] == [];
  }

  lemma ApplyTwo(host: Host, s: Session, a: Op, b: Op)
    ensures ApplyAll(host, s, [a, b]) == Apply(host, Apply(host, s, a), b)
  {
    assert [a, b][1..] == [b];
    ApplyOne(host, Apply(host, s, a), b);
  }

  lemma NavigationIsOps(host: Host, s: Session, target: Id, wish: Wish, timestamp: string, writable: bool)
    ensures ApplyAll(host, s, Ops(s, target, wish, timestamp, writable))
      == Navigated(host, s, target, wish, timestamp, writable)
  {
    ApplyOne(host, s, SetLeafOp(target));
    ApplyTwo(host, s, SetLeafOp(target),
      AppendOp(BranchSummary(s.leaf, wish.summary, wish.details), timestamp, writable));
  }

  /** Wherever one moves, no existing branch changes. */
  lemma NavigationKeepsHistory(host: Host, s: Session, target: Id, wish: Wish, timestamp: string, writable: bool)
    requires Anchored(s) && !Navigated(host, s, target, wish, timestamp, writable).clash
    ensures var after := Navigated(host, s, target, wish, timestamp, writable);
      && Anchored(after) && (TreeSession(s) ==> TreeSession(after))
      && forall id :: id in Index(s.entries) ==>
           id in Index(after.entries) && BranchOf(after.entries, id) == BranchOf(s.entries, id)
  {
    NavigationIsOps(host, s, target, wish, timestamp, writable);
    HistoryIsStable(host, s, Ops(s, target, wish, timestamp, writable));
  }

  /** The new context is the one at the target, followed by the summary of the branch that was left. */
  lemma NavigationMovesContext(
    host: Host, s: Session, target: Id, wish: Wish, timestamp: string, writable: bool, clock: Clock)
    requires Moves(s, target, wish) && target != "" && CanAppend(s, writable)
    requires !Navigated(host, s, target, wish, timestamp, writable).clash
    ensures var after := Navigated(host, s, target, wish, timestamp, writable);
      var there := ContextMessages(BranchOf(s.entries, target), clock);
      ContextMessages(Branch(after, ""), clock) ==
        if wish.summary == "" then there
        else there + [TextMessage(User, BranchSummaryText(wish.summary), clock(|there|))]
  {
    var after, there := Navigated(host, s, target, wish, timestamp, writable), BranchOf(s.entries, target);
    if wish.summary == "" {
      assert Branch(after, "") == there;
    } else {
      var body := BranchSummary(s.leaf, wish.summary, wish.details);
      var e := Entry(after.leaf, target, timestamp, body);
      AppendExtends(host, SetLeaf(s, target), body, timestamp, writable);
      assert Branch(after, "") == there + [e];
      ContextGrows(there, e, clock);
    }
  }

  /** Going elsewhere and back gives the old conversation and settings back, whatever was summarised on the way. */
  lemma ThereAndBack(host: Host, s: Session, target: Id, wish: Wish, timestamp: string, writable: bool, clock: Clock)
    requires Anchored(s) && s.leaf != "" && !Navigated(host, s, target, wish, timestamp, writable).clash
    ensures var there := Navigated(host, s, target, wish, timestamp, writable);
      var back := Navigated(host, there, s.leaf, Wish(false, "", ""), timestamp, writable);
      && back.leaf == s.leaf
      && ContextOf(Branch(back, ""), clock) == ContextOf(Branch(s, ""), clock)
  {
    NavigationKeepsHistory(host, s, target, wish, timestamp, writable);
    var there := Navigated(host, s, target, wish, timestamp, writable);
    assert s.leaf in Index(there.entries);
    assert BranchOf(there.entries, s.leaf) == BranchOf(s.entries, s.leaf);
  }
}
