/** What a run does to the session, and what the provider is sent: the branch under the leaf always holds
    the conversation before the run and then the journal, and every request inherits from it. */
module RunSession {
  import opened Types
  import opened Sequences
  import opened Sessions
  import opened SessionContext
  import opened Transform
  import opened TransformLaws
  import opened AnthropicEncoder
  import opened Orphans
  import opened Compactions
  import opened ConversationLog
  import opened AgentRun
  import opened RunJournal

  function Messages(journal: seq<Logged>): (msgs: seq<Message>)
    ensures |msgs| == |journal| && forall k :: 0 <= k < |journal| ==> msgs[k] == journal[k].message
  {
    seq(|journal|, k requires 0 <= k < |journal| => journal[k].message)
  }

  /** The raw conversation under the leaf. */
  function SessionLog(s: Session): seq<Message> {
    LogOf(Bodies(BranchOf(s.entries, s.leaf)))
  }

  // ----- Turns leave no call waiting -----

  lemma {:induction false} ResultsAnswer(calls: seq<Block>, results: seq<Logged>, open: set<Id>)
    requires ResultsOf(calls, results) && |results| == |calls|
    ensures Open(Messages(results), open) == open - CallIds(calls)
    ensures Answered(Messages(results), open)
    decreases |results|
  {
    if calls != [] {
      var call, l := calls[0], results[0];
      assert IsResultOf(call, l);
      forall k | 0 <= k < |results| - 1 ensures IsResultOf(calls[1..][k], results[1..][k]) {
        assert IsResultOf(calls[k + 1], results[k + 1]);
      }
      ResultsAnswer(calls[1..], results[1..], open - {call.id});
      assert Messages(results)[1..] == Messages(results[1..]);
      FirstCall(calls);
    }
  }

  lemma FirstCall(calls: seq<Block>)
    requires calls != [] && calls[0].ToolCall?
    ensures CallIds(calls) == {calls[0].id} + CallIds(calls[1..])
  {
    assert calls == [calls[0]] + calls[1..];
  }

  lemma MessagesSplit(a: seq<Logged>, b: seq<Logged>)
    ensures Messages(a + b) == Messages(a) + Messages(b)
  {}

  lemma TurnCloses(l: Logged, results: seq<Logged>)
    requires IsAnswer(l) && ResultsOf(Calls(l.message.content), results) && |results| == |Calls(l.message.content)|
    ensures Clean(Messages([l] + results))
  {
    var m := l.message;
    var open := OpenAfter(m, {});
    MessagesSplit([l], results);
    ResultsAnswer(Calls(m.content), results, open);
    OpenSplit([m], Messages(results), {});
    CallsSameIds(m.content);
    assert Messages([l]) == [m] && [m][1..] == [];
  }

  lemma {:induction false} TurnsClose(journal: seq<Logged>)
    requires Turns(journal)
    ensures Clean(Messages(journal))
    decreases |journal|
  {
    if journal != [] {
      var n := if IsQueued(journal[0]) then 1 else |Calls(journal[0].message.content)| + 1;
      var head, rest := journal[..n], journal[n..];
      if IsQueued(journal[0]) {
        assert head == [journal[0]] && Messages(head) == [journal[0].message];
        assert [journal[0].message][1..] == [];
      } else {
        assert head == [journal[0]] + journal[1..n];
        TurnCloses(journal[0], journal[1..n]);
      }
      TurnsClose(rest);
      SplitAt(journal, n);
      MessagesSplit(head, rest);
      OpenSplit(Messages(head), Messages(rest), {});
    }
  }

  predicate HasIds(journal: seq<Logged>) {
    forall l :: l in journal && l.source.FromProvider? ==> "" !in CallIds(l.message.content)
  }

  lemma {:induction false} TurnsShape(journal: seq<Logged>)
    requires Turns(journal)
    ensures forall l :: l in journal ==>
      !l.message.role.OtherRole? && (l.message.role.Assistant? ==> l.source.FromProvider?)
    decreases |journal|
  {
    if journal != [] {
      var n := if IsQueued(journal[0]) then 1 else |Calls(journal[0].message.content)| + 1;
      TurnsShape(journal[n..]);
      forall k | 0 <= k < |journal|
        ensures !journal[k].message.role.OtherRole?
          && (journal[k].message.role.Assistant? ==> journal[k].source.FromProvider?)
      {
        if 0 < k < n {
          assert journal[1..n][k - 1] == journal[k];
          assert IsResultOf(Calls(journal[0].message.content)[k - 1], journal[1..n][k - 1]);
        } else if k >= n {
          assert journal[n..][k - n] == journal[k];
        }
      }
    }
  }

  /** The run's first word was a queued message. */
  predicate LeadsWithUser(journal: seq<Logged>) {
    journal != [] && IsQueued(journal[0])
  }

  lemma UserCloses(journal: seq<Logged>, open: set<Id>)
    requires LeadsWithUser(journal)
    ensures Open(Messages(journal), open) == Open(Messages(journal), {})
  {
    assert Messages(journal)[0].role.User?;
  }

  /** Whole turns added to a conversation keep what it promises; if they start with a user message, they close it. */
  lemma TurnsInherit(base: seq<Message>, journal: seq<Logged>)
    requires Turns(journal) && HasIds(journal)
    ensures Inherits(base, base + Untimed(Messages(journal)))
    ensures LeadsWithUser(journal) ==> Closed(base + Untimed(Messages(journal)))
  {
    if LeadsWithUser(journal) {
      UserCloses(journal, Open(base, {}));
      OpenIgnoresTime(Messages(journal), Open(base, {}));
    }
    var added := Untimed(Messages(journal));
    TurnsClose(journal);
    TurnsShape(journal);
    OpenIgnoresTime(Messages(journal), {});
    OpenSplit(base, added, {});
    forall m | m in added ensures !m.role.OtherRole? && (m.role.Assistant? ==> "" !in CallIds(m.content)) {
      var k :| 0 <= k < |added| && added[k] == m;
      assert journal[k] in journal && m == journal[k].message.(timestamp := 0);
    }
  }

  /** No failed or aborted answer asks for tools. */
  predicate AnswersKept(journal: seq<Logged>) {
    forall l :: l in journal && l.source.FromProvider? && Dropped(l.message) ==> Calls(l.message.content) == []
  }

  /** An answer and results of its calls. */
  lemma {:induction false} ResultsAreNoOrphans(calls: seq<Block>, results: seq<Logged>, ids: set<Id>)
    requires ResultsOf(calls, results) && CallIds(calls) <= ids
    ensures NoOrphans(Messages(results), ids)
    decreases |results|
  {
    if results != [] {
      assert IsResultOf(calls[0], results[0]) && calls[0] in calls;
      assert forall k :: 0 <= k < |results[1..]| ==> IsResultOf(calls[1..][k], results[1..][k]);
      assert forall b :: b in calls[1..] ==> b in calls;
      ResultsAreNoOrphans(calls[1..], results[1..], ids);
      assert Messages(results)[1..] == Messages(results[1..]);
    }
  }

  lemma TurnHasNoOrphans(answer: Logged, results: seq<Logged>, before: set<Id>)
    requires IsAnswer(answer) && ResultsOf(Calls(answer.message.content), results)
    requires Dropped(answer.message) ==> Calls(answer.message.content) == []
    ensures NoOrphans(Messages([answer] + results), before)
  {
    CallsSameIds(answer.message.content);
    assert Messages([answer] + results)[1..] == Messages(results);
    if Dropped(answer.message) {
      assert results == [];
    } else {
      ResultsAreNoOrphans(Calls(answer.message.content), results, CallIds(answer.message.content));
    }
  }

  lemma {:induction false} TurnsHaveNoOrphans(journal: seq<Logged>, before: set<Id>)
    requires Turns(journal) && AnswersKept(journal)
    ensures NoOrphans(Messages(journal), before)
    decreases |journal|
  {
    if journal != [] {
      var n := if IsQueued(journal[0]) then 1 else |Calls(journal[0].message.content)| + 1;
      var head, rest := journal[..n], journal[n..];
      assert forall l :: l in rest ==> l in journal;
      assert journal[0] in journal;
      if IsQueued(journal[0]) {
        assert head == [journal[0]] && Messages(head) == [journal[0].message];
        assert [journal[0].message][1..] == [];
      } else {
        assert head == [journal[0]] + journal[1..n];
        TurnHasNoOrphans(journal[0], journal[1..n], before);
      }
      SplitAt(journal, n);
      MessagesSplit(head, rest);
      OrphansSplit(Messages(head), Messages(rest), before);
      TurnsHaveNoOrphans(rest, LastCalls(Messages(head), before));
    }
  }

  lemma TurnsAddNoOrphans(base: seq<Message>, journal: seq<Logged>)
    requires NoOrphans(base, {}) && Turns(journal) && AnswersKept(journal)
    ensures NoOrphans(base + Untimed(Messages(journal)), {})
  {
    var before := LastCalls(base, {});
    TurnsHaveNoOrphans(journal, before);
    OrphansIgnoreTime(Messages(journal), before);
    OrphansSplit(base, Untimed(Messages(journal)), {});
  }

  // ----- Appends and compactions -----

  lemma AppendLogs(host: Host, s: Session, body: Body, timestamp: string, writable: bool)
    requires CanAppend(s, writable) && !Append(host, s, body, timestamp, writable).clash
    ensures var after := Append(host, s, body, timestamp, writable);
      after.leaf != "" && SessionLog(after) == SessionLog(s) + Untimed(EntryMessage(body, NO_CLOCK, 0))
  {
    var before, after := BranchOf(s.entries, s.leaf), Append(host, s, body, timestamp, writable);
    AppendExtends(host, s, body, timestamp, writable);
    var e := Entry(after.leaf, s.leaf, timestamp, body);
    assert BranchOf(after.entries, after.leaf) == before + [e];
    assert Bodies(before + [e]) == Bodies(before) + [body];
    LogSplit(Bodies(before), [body]);
    LogOne(body);
  }

  lemma CompactLogs(host: Host, s: Session, reply: SummaryReply, tokens: int, timestamp: string, writable: bool)
    requires s.leaf != "" && !Compacted(host, s, reply, tokens, timestamp, writable).clash
    ensures var after := Compacted(host, s, reply, tokens, timestamp, writable);
      after.leaf != "" && SessionLog(after) == SessionLog(s)
  {
    if CanCompact(s, reply, writable) {
      AppendLogs(host, s, CompactionBody(s, reply.value, tokens), timestamp, writable);
      assert SessionLog(s) + [] == SessionLog(s);
    }
  }

  // ----- The invariant -----

  predicate Fits(base: seq<Message>, journal: seq<Logged>, history: seq<Message>) {
    && Inherits(base, history)
    && (LeadsWithUser(journal) ==> Closed(history))
    && (NoOrphans(base, {}) && AnswersKept(journal) ==> (NoOrphans(history, {}) <==> !Unled(history)))
  }

  predicate RequestsInherit(base: seq<Message>, journal: seq<Logged>, requests: seq<Request>) {
    forall r :: r in requests ==> Fits(base, journal, r.history)
  }

  /** What is logged later never widens what a request promises. */
  lemma FitsOn(base: seq<Message>, journal: seq<Logged>, l: Logged, requests: seq<Request>)
    requires RequestsInherit(base, journal, requests)
    requires IsQueued(l) && journal == [] ==> requests == []
    ensures RequestsInherit(base, journal + [l], requests)
  {
    assert forall x :: x in journal ==> x in journal + [l];
    assert AnswersKept(journal + [l]) ==> AnswersKept(journal);
    assert requests != [] && LeadsWithUser(journal + [l]) ==> LeadsWithUser(journal);
  }

  /** Unless an id was drawn twice. */
  predicate SessionKept(base: seq<Message>, s: Run) {
    !s.session.clash ==>
      && s.session.leaf != ""
      && SessionLog(s.session) == base + Untimed(Messages(s.journal))
      && RequestsInherit(base, s.journal, s.requests)
  }

  /** A run that has asked before it said anything holds no batch. */
  predicate FirstWord(s: Run) {
    && (s.journal == [] && s.requests != [] ==> s.pending == [])
    && (s.pc.Threshold? || s.pc.Calling? || s.pc.Waiting? ==> s.pending == [])
  }

  lemma LogKeepsSession(base: seq<Message>, host: Host, s: Run, m: Message, source: Source, t: Tick, next: Pc)
    requires SessionKept(base, s)
    requires (source.FromSteering? || source.FromFollowUp?) && s.journal == [] ==> s.requests == []
    ensures SessionKept(base, Log(host, s, m, source, t, next))
  {
    var after := Log(host, s, m, source, t, next);
    if CanAppend(s.session, t.writable) && !after.session.clash {
      AppendLogs(host, s.session, MessageBody(Some(m)), t.timestamp, t.writable);
      var l := Logged(m, source);
      MessagesSplit(s.journal, [l]);
      assert Messages([l]) == [m];
      UntimedSplit(Messages(s.journal), [m]);
      Reassociate(base, Untimed(Messages(s.journal)), Untimed([m]));
      FitsOn(base, s.journal, l, s.requests);
    }
  }

  lemma CompactKeepsSession(base: seq<Message>, host: Host, s: Run, t: Tick)
    requires SessionKept(base, s)
    ensures SessionKept(base, TryCompact(host, s, t))
  {
    var after := Compacted(host, s.session, t.summary, t.tokens, t.timestamp, t.writable);
    if !after.clash {
      CompactLogs(host, s.session, t.summary, t.tokens, t.timestamp, t.writable);
    }
  }

  lemma ContextOfTurns(base: seq<Message>, journal: seq<Logged>, branch: seq<Entry>, clock: Clock)
    requires Turns(journal) && HasIds(journal)
    requires LogOf(Bodies(branch)) == base + Untimed(Messages(journal))
    ensures Fits(base, journal, ContextMessages(branch, clock))
  {
    TurnsInherit(base, journal);
    ContextInherits(branch, clock);
    if NoOrphans(base, {}) && AnswersKept(journal) {
      TurnsAddNoOrphans(base, journal);
      ContextOrphansIff(branch, clock);
    }
  }

  /** The provider call: the context of the branch under the leaf inherits from the conversation so far. */
  lemma AskKeepsSession(base: seq<Message>, a: Run, t: Tick)
    requires SessionKept(base, a) && JournalKept(a) && HasIds(a.journal) && a.pc.Calling?
    ensures SessionKept(base, Ask(a, t))
  {
    var branch := BranchOf(a.session.entries, a.session.leaf);
    if !a.session.clash {
      assert Turns(a.journal) by {
        SplitAt(a.journal, a.turnStart);
        assert a.journal[..a.turnStart] + [] == a.journal[..a.turnStart];
      }
      ContextOfTurns(base, a.journal, branch, t.clock);
    }
  }

  /** Every tool call the provider asks for has an id. */
  ghost predicate ProviderGivesIds(env: Env) {
    forall n :: env(n).reply.Answer? ==> "" !in CallIds(env(n).reply.content)
  }

  ghost predicate RunKept(base: seq<Message>, s: Run) {
    JournalKept(s) && HasIds(s.journal) && FirstWord(s) && SessionKept(base, s)
  }

  lemma AnswerKeepsSession(base: seq<Message>, host: Host, a: Run, t: Tick)
    requires SessionKept(base, a) && t.reply.Answer?
    ensures SessionKept(base, OnAnswer(host, a, t))
  {
    var m := AssistantMessage(t.model, t.reply, t.now);
    var b := a.(retry := 0, last := m);
    SameSession(base, a, b);
    LogKeepsSession(base, host, b, m, FromProvider, t, Tools(0));
    SameSession(base, Log(host, b, m, FromProvider, t, Tools(0)), OnAnswer(host, a, t));
  }

  lemma FailureLogsNothing(host: Host, a: Run, t: Tick)
    requires t.reply.Failure?
    ensures var r := OnFailure(host, a, t);
      && (r.journal, r.requests) == (a.journal, a.requests)
      && (r.session == a.session || r.session == TryCompact(host, a, t).session)
  {}

  lemma SameSession(base: seq<Message>, s: Run, s': Run)
    requires SessionKept(base, s) && (s'.session, s'.journal, s'.requests) == (s.session, s.journal, s.requests)
    ensures SessionKept(base, s')
  {}

  lemma FailureKeepsSession(base: seq<Message>, host: Host, a: Run, t: Tick)
    requires SessionKept(base, a) && t.reply.Failure?
    ensures SessionKept(base, OnFailure(host, a, t))
  {
    var c, r := TryCompact(host, a, t), OnFailure(host, a, t);
    CompactKeepsSession(base, host, a, t);
    FailureLogsNothing(host, a, t);
    SameSession(base, if r.session == a.session then a else c, r);
  }

  lemma CallingKeepsSession(base: seq<Message>, env: Env, host: Host, s: Run)
    requires RunKept(base, s) && s.pc.Calling?
    ensures SessionKept(base, StepCalling(env, host, s))
  {
    var a, t := Arrive(env, s), env(s.tick);
    ArriveHoldsUsers(env, s);
    AskKeepsSession(base, a, t);
    match t.reply
    case Answer(_, _, _) => AnswerKeepsSession(base, host, Ask(a, t), t);
    case Failure(_, _, _, _) => FailureKeepsSession(base, host, Ask(a, t), t);
    case NoProvider(_) => SameSession(base, s, StepCalling(env, host, s));
  }

  lemma ResultKeepsSession(base: seq<Message>, host: Host, a: Run, k: nat, m: Message, t: Tick)
    requires SessionKept(base, a)
    ensures SessionKept(base, OnResult(host, a, k, m, t))
  {
    LogKeepsSession(base, host, a, m, FromTool, t, Tools(k + 1));
  }

  lemma ToolsKeepSession(base: seq<Message>, env: Env, host: Host, s: Run)
    requires SessionKept(base, s) && s.pc.Tools?
    ensures SessionKept(base, StepTools(env, host, s))
  {
    forall m ensures SessionKept(base, OnResult(host, Arrive(env, s), s.pc.k, m, env(s.tick))) {
      ResultKeepsSession(base, host, Arrive(env, s), s.pc.k, m, env(s.tick));
    }
  }

  lemma SkippingKeepsSession(base: seq<Message>, env: Env, host: Host, s: Run)
    requires SessionKept(base, s) && s.pc.Skipping?
    ensures SessionKept(base, StepSkipping(env, host, s))
  {
    forall m, next ensures SessionKept(base, Log(host, Arrive(env, s), m, FromSkip, env(s.tick), next)) {
      LogKeepsSession(base, host, Arrive(env, s), m, FromSkip, env(s.tick), next);
    }
  }

  lemma DeliverKeepsSession(base: seq<Message>, env: Env, host: Host, s: Run)
    requires SessionKept(base, s) && FirstWord(s) && s.pc.Deliver? && s.pending != []
    ensures SessionKept(base, StepDeliver(env, host, s))
  {
    var logged := Log(host, Arrive(env, s), s.pending[0], s.pendingFrom, env(s.tick), Deliver);
    LogKeepsSession(base, host, Arrive(env, s), s.pending[0], s.pendingFrom, env(s.tick), Deliver);
    var after := StepDeliver(env, host, s);
    assert (after.session, after.journal, after.requests) == (logged.session, logged.journal, logged.requests);
  }

  lemma HeadKeepsSession(base: seq<Message>, env: Env, s: Run)
    requires SessionKept(base, s)
    ensures SessionKept(base, StepHead(env, s))
    ensures s.pc.Waiting? ==> SessionKept(base, StepWaiting(env, s))
  {
    SameSession(base, s, StepHead(env, s));
    if s.pc.Waiting? { SameSession(base, s, StepWaiting(env, s)); }
  }

  lemma ThresholdKeepsSession(base: seq<Message>, env: Env, host: Host, s: Run)
    requires SessionKept(base, s)
    ensures SessionKept(base, StepThreshold(env, host, s))
  {
    var a := Arrive(env, s);
    CompactKeepsSession(base, host, a, env(s.tick));
    var c, after := TryCompact(host, a, env(s.tick)), StepThreshold(env, host, s);
    SameSession(base, if after == a.(pc := Calling) then a else c, after);
  }

  lemma StepKeepsSession(base: seq<Message>, env: Env, host: Host, s: Run)
    requires RunKept(base, s)
    ensures SessionKept(base, Step(env, host, s))
  {
    var after := Step(env, host, s);
    match s.pc
    case Deliver =>
      if s.pending != [] { DeliverKeepsSession(base, env, host, s); } else { SameSession(base, s, after); }
    case Threshold => ThresholdKeepsSession(base, env, host, s);
    case Calling => CallingKeepsSession(base, env, host, s);
    case Tools(_) => ToolsKeepSession(base, env, host, s);
    case Skipping(_) => SkippingKeepsSession(base, env, host, s);
    case Head => HeadKeepsSession(base, env, s);
    case Waiting(_) => HeadKeepsSession(base, env, s);
    case Done(_) =>
  }

  lemma AnswerKeepsIds(host: Host, a: Run, t: Tick)
    requires HasIds(a.journal) && t.reply.Answer? && "" !in CallIds(t.reply.content)
    ensures HasIds(OnAnswer(host, a, t).journal)
  {}

  lemma CallingKeepsIds(env: Env, host: Host, s: Run)
    requires HasIds(s.journal) && ProviderGivesIds(env)
    ensures HasIds(StepCalling(env, host, s).journal)
  {
    var t := env(s.tick);
    if t.reply.Answer? {
      AnswerKeepsIds(host, Ask(Arrive(env, s), t), t);
    } else if t.reply.Failure? {
      FailureLogsNothing(host, Ask(Arrive(env, s), t), t);
    }
  }

  lemma DeliverKeepsIds(env: Env, host: Host, s: Run)
    requires JournalKept(s) && HasIds(s.journal) && s.pc.Deliver?
    ensures HasIds(StepDeliver(env, host, s).journal)
  {}

  lemma ToolsKeepIds(env: Env, host: Host, s: Run)
    requires HasIds(s.journal)
    ensures s.pc.Tools? ==> HasIds(StepTools(env, host, s).journal)
    ensures s.pc.Skipping? ==> HasIds(StepSkipping(env, host, s).journal)
  {
    forall m, k ensures HasIds(OnResult(host, Arrive(env, s), k, m, env(s.tick)).journal) {}
  }

  lemma StepKeepsIds(env: Env, host: Host, s: Run)
    requires JournalKept(s) && HasIds(s.journal) && ProviderGivesIds(env)
    ensures HasIds(Step(env, host, s).journal)
  {
    match s.pc
    case Calling => CallingKeepsIds(env, host, s);
    case Deliver => DeliverKeepsIds(env, host, s);
    case Tools(_) => ToolsKeepIds(env, host, s);
    case Skipping(_) => ToolsKeepIds(env, host, s);
    case _ =>
  }

  lemma AnswerKeepsFirstWord(host: Host, a: Run, t: Tick)
    requires a.pending == [] && a.pc.Calling? && t.reply.Answer?
    ensures FirstWord(OnAnswer(host, a, t))
  {
    var r := OnAnswer(host, a, t);
    assert r.journal != [] || (r.pending == [] && r.pc.Done?);
    assert !r.pc.Threshold? && !r.pc.Calling? && !r.pc.Waiting?;
  }

  lemma FailureKeepsFirstWord(host: Host, a: Run, t: Tick)
    requires a.pending == [] && t.reply.Failure?
    ensures FirstWord(OnFailure(host, a, t))
  {
    assert OnFailure(host, a, t).pending == [];
  }

  lemma CallingKeepsFirstWord(env: Env, host: Host, s: Run)
    requires FirstWord(s) && s.pc.Calling?
    ensures FirstWord(StepCalling(env, host, s))
  {
    var t := env(s.tick);
    var a := Ask(Arrive(env, s), t);
    match t.reply
    case Answer(_, _, _) => AnswerKeepsFirstWord(host, a, t);
    case Failure(_, _, _, _) => FailureKeepsFirstWord(host, a, t);
    case NoProvider(_) =>
  }

  lemma ToolsKeepFirstWord(env: Env, host: Host, s: Run)
    requires s.journal != []
    ensures s.pc.Tools? ==> FirstWord(StepTools(env, host, s))
    ensures s.pc.Skipping? ==> FirstWord(StepSkipping(env, host, s))
  {}

  lemma StepKeepsFirstWord(env: Env, host: Host, s: Run)
    requires JournalKept(s) && FirstWord(s)
    ensures FirstWord(Step(env, host, s))
  {
    match s.pc
    case Calling => CallingKeepsFirstWord(env, host, s);
    case Tools(_) => ToolsKeepFirstWord(env, host, s);
    case Skipping(_) => ToolsKeepFirstWord(env, host, s);
    case Deliver => assert FirstWord(StepDeliver(env, host, s));
    case _ =>
  }

  lemma {:induction false} RunKeepsSession(base: seq<Message>, env: Env, host: Host, s: Run)
    requires InBounds(s) && RunKept(base, s) && ProviderGivesIds(env)
    ensures RunKept(base, RunToEnd(env, host, s))
    decreases MAX_TURNS - s.turn, Rank(s.pc), Left(s)
  {
    if !s.pc.Done? {
      StepDescends(env, host, s);
      StepKeepsJournal(env, host, s);
      StepKeepsSession(base, env, host, s);
      StepKeepsIds(env, host, s);
      StepKeepsFirstWord(env, host, s);
      RunKeepsSession(base, env, host, Step(env, host, s));
    }
  }

  // ----- Prompts -----

  /** The conversation a prompt starts from: what was there, and the user message. */
  function Base(s: Session, text: string): seq<Message> {
    SessionLog(s) + [UserMessage(text, 0)]
  }

  lemma PromptAsks(env: Env, host: Host, s: Run, text: string)
    requires CanAppend(s.session, env(s.tick).writable)
    ensures SessionKept(Base(s.session, text), Asked(env, host, s, text))
  {
    var t, asked := env(s.tick), Asked(env, host, s, text);
    if !asked.session.clash {
      var user := UserMessage(text, t.now);
      AppendLogs(host, s.session, MessageBody(Some(user)), t.timestamp, t.writable);
      assert Untimed([user]) == [UserMessage(text, 0)];
      assert Base(s.session, text) + [] == Base(s.session, text);
    }
  }

  /** Over every run of `Prompt`: unless an id was drawn twice, the branch under the leaf holds the
      conversation before the run, the user message and then the journal, whatever was compacted meanwhile;
      and what that conversation promised, every request kept. */
  lemma PromptKeepsSession(env: Env, host: Host, s: Run, text: string)
    requires AllUsers(s.steering) && AllUsers(s.follow) && ProviderGivesIds(env)
    requires CanAppend(s.session, env(s.tick).writable) && TrimSpace(text) != ""
    ensures RunKept(Base(s.session, text), Prompted(env, host, s, text))
  {
    var base, asked := Base(s.session, text), Asked(env, host, s, text);
    ArriveHoldsUsers(env, Fresh(s));
    PromptAsks(env, host, s, text);
    BeginKeepsJournal(env, asked);
    SameSession(base, asked, Begin(env, asked));
    RunKeepsSession(base, env, host, Begin(env, asked));
  }

  /** Over every run of `Continue` on a session with a leaf, the same. */
  lemma ContinueKeepsSession(env: Env, host: Host, s: Run)
    requires AllUsers(s.steering) && AllUsers(s.follow) && ProviderGivesIds(env)
    requires LeafSet(s.session)
    requires CanContinue(Resumed(env, s), env(s.tick).clock)
    ensures s.session.leaf != "" && RunKept(SessionLog(s.session), Continued(env, host, s))
  {
    var base, resumed := SessionLog(s.session), Resumed(env, s);
    NoEntriesNoContext(s.session, env(s.tick).clock);
    ArriveHoldsUsers(env, Fresh(s));
    assert base + Untimed(Messages([])) == base;
    assert SessionKept(base, resumed);
    BeginKeepsJournal(env, resumed);
    SameSession(base, resumed, Begin(env, resumed));
    RunKeepsSession(base, env, host, Begin(env, resumed));
  }

  lemma NoEntriesNoContext(s: Session, clock: Clock)
    ensures s.entries == [] ==> ContextMessages(Branch(s, s.leaf), clock) == []
  {
    if s.entries == [] {
      assert Branch(s, s.leaf) == [] && Bodies([]) == [];
    }
  }
}
