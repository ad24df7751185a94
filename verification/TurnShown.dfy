/** Where the turn under way stands in the session: its messages are the last entries of the branch under the leaf,
    so a context can hide a part of it only through a compaction that comes after it. */
module TurnShown {
  import opened Types
  import opened Sequences
  import opened Sessions
  import opened BranchLaws
  import opened SessionContext
  import opened Transform
  import opened TransformLaws
  import opened Compactions
  import opened ConversationLog
  import opened AgentRun
  import opened RunJournal
  import opened RunSession

  /** The last bodies are those of the turn's messages. */
  predicate Ends(bodies: seq<Body>, turn: seq<Logged>) {
    && |turn| <= |bodies|
    && forall k :: 0 <= k < |turn| ==> bodies[|bodies| - |turn| + k] == MessageBody(Some(turn[k].message))
  }

  /** Unless an id was drawn twice. */
  predicate Shown(s: Run) {
    !s.session.clash ==>
      s.turnStart <= |s.journal| && Ends(Bodies(BranchOf(s.session.entries, s.session.leaf)), s.journal[s.turnStart..])
  }

  // ----- Every step -----

  lemma NoTurn(s: Run)
    requires s.turnStart == |s.journal|
    ensures Shown(s)
  {}

  lemma SameShown(s: Run, s': Run)
    requires Shown(s) && (s'.session, s'.journal, s'.turnStart) == (s.session, s.journal, s.turnStart)
    ensures Shown(s')
  {}

  lemma EndsSnoc(bodies: seq<Body>, turn: seq<Logged>, l: Logged)
    requires Ends(bodies, turn)
    ensures Ends(bodies + [MessageBody(Some(l.message))], turn + [l])
  {}

  lemma LogShows(host: Host, s: Run, m: Message, source: Source, t: Tick, next: Pc)
    requires Shown(s) && s.turnStart <= |s.journal|
    ensures Shown(Log(host, s, m, source, t, next))
  {
    var body, l := MessageBody(Some(m)), Logged(m, source);
    var after := Append(host, s.session, body, t.timestamp, t.writable);
    if CanAppend(s.session, t.writable) && !after.clash {
      AppendExtends(host, s.session, body, t.timestamp, t.writable);
      var branch := BranchOf(s.session.entries, s.session.leaf);
      var e := Entry(after.leaf, s.session.leaf, t.timestamp, body);
      assert Bodies(branch + [e]) == Bodies(branch) + [body];
      EndsSnoc(Bodies(branch), s.journal[s.turnStart..], l);
      Extend(s.journal, s.turnStart, l);
    }
  }

  lemma AnswerShows(host: Host, a: Run, t: Tick)
    requires Shown(a) && a.turnStart == |a.journal| && t.reply.Answer?
    ensures Shown(OnAnswer(host, a, t))
  {
    var m := AssistantMessage(t.model, t.reply, t.now);
    var b, r := a.(retry := 0, last := m), OnAnswer(host, a, t);
    var logged := Log(host, b, m, FromProvider, t, Tools(0));
    LogShows(host, b, m, FromProvider, t, Tools(0));
    if logged.pc.Done? || Calls(m.content) != [] {
      assert r == logged;
    } else {
      NoTurn(r);
    }
  }

  lemma FailureShows(host: Host, a: Run, t: Tick)
    requires a.turnStart == |a.journal| && t.reply.Failure?
    ensures OnFailure(host, a, t).turnStart == |OnFailure(host, a, t).journal|
  {}

  lemma CallingShows(env: Env, host: Host, s: Run)
    requires Shown(s) && s.turnStart == |s.journal|
    ensures Shown(StepCalling(env, host, s))
  {
    var t := env(s.tick);
    var a := Ask(Arrive(env, s), t);
    match t.reply
    case Answer(_, _, _) => SameShown(s, a); AnswerShows(host, a, t);
    case Failure(_, _, _, _) => FailureShows(host, a, t);
    case NoProvider(_) => SameShown(s, StepCalling(env, host, s));
  }

  lemma ResultShows(host: Host, a: Run, k: nat, m: Message, t: Tick)
    requires Shown(a) && a.turnStart <= |a.journal|
    ensures Shown(OnResult(host, a, k, m, t))
  {
    LogShows(host, a, m, FromTool, t, Tools(k + 1));
    SameShown(Log(host, a, m, FromTool, t, Tools(k + 1)), OnResult(host, a, k, m, t));
  }

  lemma ToolsShow(env: Env, host: Host, s: Run)
    requires Shown(s) && s.turnStart <= |s.journal| && s.pc.Tools?
    ensures Shown(StepTools(env, host, s))
  {
    var a := Arrive(env, s);
    SameShown(s, a);
    forall m ensures Shown(OnResult(host, a, s.pc.k, m, env(s.tick))) {
      ResultShows(host, a, s.pc.k, m, env(s.tick));
    }
  }

  lemma SkippingShows(env: Env, host: Host, s: Run)
    requires Shown(s) && s.turnStart <= |s.journal| && s.pc.Skipping?
    ensures Shown(StepSkipping(env, host, s))
  {
    var a := Arrive(env, s);
    SameShown(s, a);
    forall m, next ensures Shown(Log(host, a, m, FromSkip, env(s.tick), next)) {
      LogShows(host, a, m, FromSkip, env(s.tick), next);
    }
  }

  lemma DeliverShows(env: Env, host: Host, s: Run)
    requires s.turnStart == |s.journal|
    ensures StepDeliver(env, host, s).turnStart == |StepDeliver(env, host, s).journal|
  {}

  lemma StepShows(env: Env, host: Host, s: Run)
    requires JournalKept(s) && Shown(s)
    ensures Shown(Step(env, host, s))
  {
    match s.pc
    case Tools(_) => ToolsShow(env, host, s);
    case Skipping(_) => SkippingShows(env, host, s);
    case Calling => CallingShows(env, host, s);
    case Deliver => DeliverShows(env, host, s);
    case Threshold => NoTurn(StepThreshold(env, host, s));
    case Head => NoTurn(StepHead(env, s));
    case Waiting(_) => NoTurn(StepWaiting(env, s));
    case Done(_) =>
  }

  lemma {:induction false} RunShows(env: Env, host: Host, s: Run)
    requires InBounds(s) && JournalKept(s) && Shown(s)
    ensures Shown(RunToEnd(env, host, s))
    decreases MAX_TURNS - s.turn, Rank(s.pc), Left(s)
  {
    if !s.pc.Done? {
      StepDescends(env, host, s);
      StepKeepsJournal(env, host, s);
      StepShows(env, host, s);
      RunShows(env, host, Step(env, host, s));
    }
  }

  /** However a prompt ends, the turn under way, if any, is the end of the branch under the leaf. */
  lemma PromptShowsTurn(env: Env, host: Host, s: Run, text: string)
    requires AllUsers(s.steering) && AllUsers(s.follow)
    ensures Shown(Prompted(env, host, s, text))
  {
    var asked := Asked(env, host, s, text);
    if TrimSpace(text) != "" && CanAppend(s.session, env(s.tick).writable) {
      ArriveHoldsUsers(env, Fresh(s));
      BeginKeepsJournal(env, asked);
      NoTurn(Begin(env, asked));
      RunShows(env, host, Begin(env, asked));
    } else {
      NoTurn(Prompted(env, host, s, text));
    }
  }

  // ----- What a context shows of the turn -----

  lemma {:induction false} TurnLog(bodies: seq<Body>, turn: seq<Logged>)
    requires Ends(bodies, turn) && |bodies| == |turn|
    ensures LogOf(bodies) == Untimed(Messages(turn))
  {
    if turn != [] {
      TurnLog(bodies[1..], turn[1..]);
      assert Untimed(EntryMessage(bodies[0], NO_CLOCK, 0)) == [turn[0].message.(timestamp := 0)];
      assert Messages(turn)[1..] == Messages(turn[1..]);
      assert Untimed(Messages(turn))[1..] == Untimed(Messages(turn[1..]));
    }
  }

  /** What the log from some entry on shows: the whole turn at its end, or only the end of it. */
  lemma LogFrom(bodies: seq<Body>, turn: seq<Logged>, k: nat) returns (before: seq<Message>)
    requires Ends(bodies, turn) && k <= |bodies|
    ensures var start := |bodies| - |turn|;
      LogOf(bodies[k..])
      == if k <= start then before + Untimed(Messages(turn)) else Untimed(Messages(turn[k - start..]))
  {
    var start := |bodies| - |turn|;
    if k <= start {
      before := LogOf(bodies[k..start]);
      DropSplit(bodies, k, start);
      LogSplit(bodies[k..start], bodies[start..]);
      TurnLog(bodies[start..], turn);
    } else {
      before := [];
      TurnLog(bodies[k..], turn[k - start..]);
    }
  }

  // ----- What a context waits for -----

  function ResultIds(results: seq<Logged>): set<Id> {
    set l | l in results && l.message.role.ToolResult? :: l.message.toolCallId
  }

  /** The calls of a turn that have no result. */
  function Waits(turn: seq<Logged>): set<Id>
    requires turn != []
  {
    CallIds(turn[0].message.content) - ResultIds(turn[1..])
  }

  lemma {:induction false} ResultsLeave(results: seq<Logged>, open: set<Id>)
    requires forall l :: l in results ==> l.message.role.ToolResult?
    ensures Open(Messages(results), open) == open - ResultIds(results)
    decreases |results|
  {
    if results != [] {
      var first, rest := results[0], results[1..];
      assert first in results && forall l :: l in rest ==> l in results;
      assert Messages(results)[1..] == Messages(rest);
      ResultsLeave(rest, open - {first.message.toolCallId});
      assert results == [first] + rest;
      assert ResultIds(results) == {first.message.toolCallId} + ResultIds(rest);
    }
  }

  lemma TurnIsResults(turn: seq<Logged>)
    requires turn != [] && TurnPrefix(turn)
    ensures forall k :: 1 <= k < |turn| ==> turn[k].message.role.ToolResult?
  {
    forall k | 1 <= k < |turn| ensures turn[k].message.role.ToolResult? {
      assert turn[1..][k - 1] == turn[k];
      assert IsResultOf(Calls(turn[0].message.content)[k - 1], turn[1..][k - 1]);
    }
  }

  lemma TurnLeaves(turn: seq<Logged>, open: set<Id>)
    requires turn != [] && TurnPrefix(turn) && !Dropped(turn[0].message)
    ensures Open(Messages(turn), open) == Waits(turn)
  {
    var m := turn[0].message;
    TurnIsResults(turn);
    ResultsLeave(turn[1..], CallIds(m.content));
    assert Messages(turn)[1..] == Messages(turn[1..]) && Messages(turn)[0] == m;
  }

  lemma WaitsFrom(bodies: seq<Body>, turn: seq<Logged>, k: nat)
    requires Ends(bodies, turn) && k <= |bodies|
    requires turn != [] && TurnPrefix(turn) && !Dropped(turn[0].message)
    ensures Open(LogOf(bodies[k..]), {}) == if k <= |bodies| - |turn| then Waits(turn) else {}
  {
    var start := |bodies| - |turn|;
    var before := LogFrom(bodies, turn, k);
    if k <= start {
      OpenSplit(before, Untimed(Messages(turn)), {});
      OpenIgnoresTime(Messages(turn), Open(before, {}));
      TurnLeaves(turn, Open(before, {}));
    } else {
      TurnIsResults(turn);
      OpenIgnoresTime(Messages(turn[k - start..]), {});
      ResultsLeave(turn[k - start..], {});
    }
  }

  lemma BodiesFrom(branch: seq<Entry>, k: nat)
    requires k <= |branch|
    ensures Bodies(branch[k..]) == Bodies(branch)[k..]
  {}

  lemma TurnIsMessages(branch: seq<Entry>, turn: seq<Logged>)
    requires Ends(Bodies(branch), turn)
    ensures forall k :: |branch| - |turn| <= k < |branch| ==> branch[k].body.MessageBody?
  {
    forall k | |branch| - |turn| <= k < |branch| ensures branch[k].body.MessageBody? {
      var i := k - (|branch| - |turn|);
      assert Bodies(branch)[|branch| - |turn| + i] == MessageBody(Some(turn[i].message));
    }
  }

  /** Every compaction of the branch comes before the turn, so its context shows the turn whole. */
  lemma ContextShowsTurn(branch: seq<Entry>, turn: seq<Logged>, clock: Clock)
    requires Ends(Bodies(branch), turn) && turn != [] && TurnPrefix(turn) && !Dropped(turn[0].message)
    ensures Open(ContextMessages(branch, clock), {}) == Waits(turn)
  {
    var c, start := LastCompaction(branch), |branch| - |turn|;
    TurnIsMessages(branch, turn);
    var k := if c < 0 then 0 else KeptFrom(branch, branch[c].body.firstKeptEntryId, c);
    ContextWaits(branch, clock);
    BodiesFrom(branch, k);
    assert Kept(branch) == branch[k..];
    WaitsFrom(Bodies(branch), turn, k);
  }

  /** A compaction after the turn keeps all of it exactly when it has at most eight messages. */
  lemma CutCoversIff(branch: seq<Entry>, turn: seq<Logged>)
    requires Ends(Bodies(branch), turn) && UniqueIds(branch) && SelectFirstKept(branch, KEEP).Some?
    ensures Cut(branch) <= |branch| - |turn| <==> |turn| <= KEEP
  {
    var cut, start := Cut(branch), |branch| - |turn|;
    CutKeepsEight(branch);
    if cut > start {
      LikesAreFewer(branch[cut..]);
    } else {
      TurnIsMessages(branch, turn);
      AllMessageLike(branch[start..]);
      DropSplit(branch, cut, start);
      FilterSplit(branch[cut..start], branch[start..], MessageLike);
    }
  }

  lemma CompactionIsSilent(entries: seq<Entry>, c: Entry)
    requires c.body.Compaction?
    ensures LogOf(Bodies(entries + [c])) == LogOf(Bodies(entries))
  {
    assert Bodies(entries + [c]) == Bodies(entries) + [c.body];
    LogSplit(Bodies(entries), [c.body]);
    LogOne(c.body);
  }

  lemma CompactedShowsTurn(branch: seq<Entry>, c: Entry, turn: seq<Logged>, clock: Clock)
    requires Ends(Bodies(branch), turn) && turn != [] && TurnPrefix(turn) && !Dropped(turn[0].message)
    requires UniqueIds(branch) && SelectFirstKept(branch, KEEP).Some?
    requires c.body.Compaction? && c.body.firstKeptEntryId == SelectFirstKept(branch, KEEP).value
    ensures Open(ContextMessages(branch + [c], clock), {}) == if |turn| <= KEEP then Waits(turn) else {}
  {
    var cut := Cut(branch);
    KeptAfterCompaction(branch, c);
    ContextWaits(branch + [c], clock);
    CompactionIsSilent(branch[cut..], c);
    BodiesFrom(branch, cut);
    CutCoversIff(branch, turn);
    WaitsFrom(Bodies(branch), turn, cut);
  }

  /** What a session that ends with a turn waits for, before and after a compaction. */
  lemma SessionWaits(
    host: Host, s: Session, turn: seq<Logged>, reply: SummaryReply, tokens: int, timestamp: string, writable: bool,
    clock: Clock)
    requires s.leaf != "" && Ends(Bodies(BranchOf(s.entries, s.leaf)), turn)
    requires turn != [] && TurnPrefix(turn) && !Dropped(turn[0].message)
    ensures Open(ContextMessages(Branch(s, s.leaf), clock), {}) == Waits(turn)
    ensures var after := Compacted(host, s, reply, tokens, timestamp, writable);
      !after.clash ==>
        Open(ContextMessages(Branch(after, after.leaf), clock), {})
        == if |after.entries| > |s.entries| && |turn| > KEEP then {} else Waits(turn)
  {
    var branch, after := BranchOf(s.entries, s.leaf), Compacted(host, s, reply, tokens, timestamp, writable);
    ContextShowsTurn(branch, turn, clock);
    if CanCompact(s, reply, writable) && !after.clash {
      var body := CompactionBody(s, reply.value, tokens);
      AppendExtends(host, s, body, timestamp, writable);
      PathIsBranch(s.entries, s.leaf, {});
      CompactedShowsTurn(branch, Entry(after.leaf, s.leaf, timestamp, body), turn, clock);
    }
  }
}
