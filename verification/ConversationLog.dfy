/** The raw conversation on a branch, before compaction hides a part of it, with timestamps left out;
    and what a suffix of it inherits. */
module ConversationLog {
  import opened Types
  import opened Sequences
  import opened Sessions
  import opened SessionContext
  import opened Transform
  import opened TransformLaws
  import opened AnthropicEncoder
  import opened Orphans

  function Untimed(msgs: seq<Message>): (r: seq<Message>)
    ensures |r| == |msgs| && forall k :: 0 <= k < |msgs| ==> r[k] == msgs[k].(timestamp := 0)
  {
    seq(|msgs|, k requires 0 <= k < |msgs| => msgs[k].(timestamp := 0))
  }

  const NO_CLOCK: Clock := (_ => 0)

  function LogOf(bodies: seq<Body>): seq<Message> {
    if bodies == [] then [] else Untimed(EntryMessage(bodies[0], NO_CLOCK, 0)) + LogOf(bodies[1..])
  }

  lemma {:induction false} LogSplit(a: seq<Body>, b: seq<Body>)
    ensures LogOf(a + b) == LogOf(a) + LogOf(b)
  {
    if a == [] {
      assert a + b == b;
    } else {
      assert (a + b)[1..] == a[1..] + b;
      LogSplit(a[1..], b);
      Reassociate(Untimed(EntryMessage(a[0], NO_CLOCK, 0)), LogOf(a[1..]), LogOf(b));
    }
  }

  lemma LogOne(b: Body)
    ensures LogOf([b]) == Untimed(EntryMessage(b, NO_CLOCK, 0))
  {
    assert [b][1..] == [];
  }

  lemma UntimedSplit(a: seq<Message>, b: seq<Message>)
    ensures Untimed(a + b) == Untimed(a) + Untimed(b)
  {}

  lemma {:induction false} MessagesAreLog(bodies: seq<Body>, clock: Clock, n: nat)
    ensures Untimed(Spread(bodies, Emit(clock), n)) == LogOf(bodies)
    decreases |bodies|
  {
    if bodies != [] {
      var f := Emit(clock);
      var head := f(bodies[0], n);
      MessagesAreLog(bodies[1..], clock, n + |head|);
      UntimedSplit(head, Spread(bodies[1..], f, n + |head|));
      assert Untimed(head) == Untimed(EntryMessage(bodies[0], NO_CLOCK, 0));
    }
  }

  /** The context is at most one summary message and a suffix of the log. */
  lemma ContextIsSuffix(
    branch: seq<Entry>, clock: Clock)
    returns (hidden: seq<Message>, summary: seq<Message>, kept: seq<Message>)
    ensures LogOf(Bodies(branch)) == hidden + kept
    ensures Untimed(ContextMessages(branch, clock)) == summary + kept
    ensures summary == [] || (|summary| == 1 && summary[0].role.User?)
  {
    var sum := Summary(branch, clock);
    summary := Untimed(sum);
    UntimedSplit(sum, EntryMessages(Kept(branch), clock, |sum|));
    MessagesAreLog(Bodies(Kept(branch)), clock, |sum|);
    kept := LogOf(Bodies(Kept(branch)));
    var c := LastCompaction(branch);
    var k := if c < 0 then 0 else KeptFrom(branch, branch[c].body.firstKeptEntryId, c);
    hidden := LogOf(Bodies(branch)[..k]);
    assert Kept(branch) == branch[k..] && Bodies(branch[k..]) == Bodies(branch)[k..];
    SplitAt(Bodies(branch), k);
    LogSplit(Bodies(branch)[..k], Bodies(branch)[k..]);
  }

  /** Whatever the clock reads, the context is the same but for timestamps. */
  lemma ContextUntimed(branch: seq<Entry>, clock: Clock, clock': Clock)
    ensures Untimed(ContextMessages(branch, clock)) == Untimed(ContextMessages(branch, clock'))
  {
    var summary, summary', kept := Summary(branch, clock), Summary(branch, clock'), Kept(branch);
    UntimedSplit(summary, EntryMessages(kept, clock, |summary|));
    UntimedSplit(summary', EntryMessages(kept, clock', |summary'|));
    MessagesAreLog(Bodies(kept), clock, |summary|);
    MessagesAreLog(Bodies(kept), clock', |summary'|);
  }

  /** Without a compaction the context is the whole conversation. */
  lemma ContextIsLog(branch: seq<Entry>, clock: Clock)
    requires LastCompaction(branch) < 0
    ensures Untimed(ContextMessages(branch, clock)) == LogOf(Bodies(branch))
  {
    MessagesAreLog(Bodies(branch), clock, 0);
    assert [] + EntryMessages(branch, clock, 0) == EntryMessages(branch, clock, 0);
  }

  // ----- What a suffix inherits -----

  /** A context waits for what its kept entries wait for. */
  lemma ContextWaits(branch: seq<Entry>, clock: Clock)
    ensures Open(ContextMessages(branch, clock), {}) == Open(LogOf(Bodies(Kept(branch))), {})
  {
    var summary, kept := Summary(branch, clock), Kept(branch);
    MessagesAreLog(Bodies(kept), clock, |summary|);
    OpenIgnoresTime(EntryMessages(kept, clock, |summary|), {});
    OpenSplit(summary, EntryMessages(kept, clock, |summary|), {});
    assert Open(summary, {}) == {};
  }

  lemma {:induction false} OpenMonotone(msgs: seq<Message>, less: set<Id>, more: set<Id>)
    requires less <= more
    ensures Open(msgs, less) <= Open(msgs, more)
    ensures Answered(msgs, more) ==> Answered(msgs, less)
    decreases |msgs|
  {
    if msgs != [] {
      OpenMonotone(msgs[1..], OpenAfter(msgs[0], less), OpenAfter(msgs[0], more));
    }
  }

  lemma {:induction false} OpenIgnoresTime(msgs: seq<Message>, open: set<Id>)
    ensures Open(Untimed(msgs), open) == Open(msgs, open)
    ensures Answered(Untimed(msgs), open) == Answered(msgs, open)
    decreases |msgs|
  {
    if msgs != [] {
      assert Untimed(msgs)[1..] == Untimed(msgs[1..]);
      OpenIgnoresTime(msgs[1..], OpenAfter(msgs[0], open));
    }
  }

  /** No call is waiting at the end. */
  predicate Closed(msgs: seq<Message>) {
    Open(msgs, {}) == {}
  }

  /** No call is waiting at the end, nor when any user or kept assistant message comes. */
  predicate Clean(msgs: seq<Message>) {
    Closed(msgs) && Answered(msgs, {})
  }

  /** Every message of the context is a user message or, but for its timestamp, a message of the log. */
  lemma ContextMembers(branch: seq<Entry>, clock: Clock, m: Message)
    requires m in ContextMessages(branch, clock)
    ensures m.role.User? || m.(timestamp := 0) in LogOf(Bodies(branch))
  {
    var hidden, summary, kept := ContextIsSuffix(branch, clock);
    UntimedMembers(ContextMessages(branch, clock), m);
    PartsMembers(LogOf(Bodies(branch)), hidden, summary, kept, m.(timestamp := 0));
  }

  lemma UntimedMembers(msgs: seq<Message>, m: Message)
    requires m in msgs
    ensures m.(timestamp := 0) in Untimed(msgs)
  {
    var k :| 0 <= k < |msgs| && msgs[k] == m;
    assert Untimed(msgs)[k] == m.(timestamp := 0);
  }

  lemma PartsMembers(log: seq<Message>, hidden: seq<Message>, summary: seq<Message>, kept: seq<Message>, m: Message)
    requires log == hidden + kept && m in summary + kept
    requires summary == [] || (|summary| == 1 && summary[0].role.User?)
    ensures m.role.User? || m in log
  {}

  /** What `log` promises, `history` keeps. */
  predicate Inherits(log: seq<Message>, history: seq<Message>) {
    && (Closed(log) ==> Closed(history))
    && (Clean(log) ==> Clean(history))
    && (NoOtherRoles(log) ==> NoOtherRoles(history))
    && (CallsHaveIds(log) ==> CallsHaveIds(history))
  }

  /** A compaction may hide a part of the log, but it never opens a call. */
  lemma ContextInherits(branch: seq<Entry>, clock: Clock)
    ensures Inherits(LogOf(Bodies(branch)), ContextMessages(branch, clock))
  {
    ContextStaysClosed(branch, clock);
    forall m | m in ContextMessages(branch, clock)
      ensures m.role.User? || m.(timestamp := 0) in LogOf(Bodies(branch))
    {
      ContextMembers(branch, clock, m);
    }
    MembersInherit(LogOf(Bodies(branch)), ContextMessages(branch, clock));
  }

  lemma {:induction false} OrphansIgnoreTime(msgs: seq<Message>, calls: set<Id>)
    ensures NoOrphans(Untimed(msgs), calls) == NoOrphans(msgs, calls)
    ensures Unled(Untimed(msgs)) == Unled(msgs)
    decreases |msgs|
  {
    if msgs != [] {
      assert Untimed(msgs)[1..] == Untimed(msgs[1..]);
      OrphansIgnoreTime(msgs[1..], CallsAfter(msgs[0], calls));
    }
  }

  /** A compaction may orphan results: exactly those that the context holds before any kept answer. */
  lemma ContextOrphansIff(branch: seq<Entry>, clock: Clock)
    requires NoOrphans(LogOf(Bodies(branch)), {})
    ensures NoOrphans(ContextMessages(branch, clock), {}) <==> !Unled(ContextMessages(branch, clock))
  {
    var hidden, summary, kept := ContextIsSuffix(branch, clock);
    OrphansIgnoreTime(ContextMessages(branch, clock), {});
    OrphansSplit(hidden, kept, {});
    PartOrphansIff(kept, LastCalls(hidden, {}));
    if summary == [] {
      assert summary + kept == kept;
    } else {
      assert (summary + kept)[1..] == kept;
    }
  }

  lemma MembersInherit(log: seq<Message>, history: seq<Message>)
    requires forall m :: m in history ==> m.role.User? || m.(timestamp := 0) in log
    ensures NoOtherRoles(log) ==> NoOtherRoles(history)
    ensures CallsHaveIds(log) ==> CallsHaveIds(history)
  {}

  lemma ContextStaysClosed(branch: seq<Entry>, clock: Clock)
    ensures var log, history := LogOf(Bodies(branch)), ContextMessages(branch, clock);
      (Closed(log) ==> Closed(history)) && (Clean(log) ==> Clean(history))
  {
    var hidden, summary, kept := ContextIsSuffix(branch, clock);
    OpenIgnoresTime(ContextMessages(branch, clock), {});
    OpenSplit(hidden, kept, {});
    OpenSplit(summary, kept, {});
    OpenMonotone(kept, {}, Open(hidden, {}));
    assert Open(summary, {}) == {} && Answered(summary, {});
  }
}
