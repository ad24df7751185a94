/** The message log of every run: each assistant message is followed directly by exactly one result for each
    of its tool calls, in call order; only an interrupted run ends inside such a turn. */
module RunJournal {
  import opened Types
  import opened Sequences
  import opened Sessions
  import opened AgentRun

  predicate IsQueued(l: Logged) {
    (l.source.FromSteering? || l.source.FromFollowUp?) && l.message.role.User?
  }

  predicate IsAnswer(l: Logged) {
    l.source.FromProvider? && l.message.role.Assistant?
  }

  predicate IsResultOf(call: Block, l: Logged) {
    && call.ToolCall?
    && l.message.role.ToolResult? && l.message.toolCallId == call.id && l.message.toolName == call.name
    && (l.source.FromTool?
        || (l.source.FromSkip? && l.message.isError && l.message.content == SKIPPED.content))
  }

  /** The results of the first calls, one each and in call order. */
  predicate ResultsOf(calls: seq<Block>, results: seq<Logged>) {
    |results| <= |calls| && forall k :: 0 <= k < |results| ==> IsResultOf(calls[k], results[k])
  }

  /** Queued user messages, and assistant messages each directly followed by the results of all its calls. */
  predicate Turns(journal: seq<Logged>)
    decreases |journal|
  {
    if journal == [] then true
    else if IsQueued(journal[0]) then Turns(journal[1..])
    else
      var calls := Calls(journal[0].message.content);
      && IsAnswer(journal[0])
      && |calls| < |journal|
      && ResultsOf(calls, journal[1..|calls| + 1])
      && Turns(journal[|calls| + 1..])
  }

  /** An assistant message and the results of its first calls, or nothing. */
  predicate TurnPrefix(current: seq<Logged>) {
    current == [] || (IsAnswer(current[0]) && ResultsOf(Calls(current[0].message.content), current[1..]))
  }

  predicate AllUsers(msgs: seq<Message>) {
    forall m :: m in msgs ==> m.role.User?
  }

  predicate QueuesHoldUsers(s: Run) {
    AllUsers(s.pending) && AllUsers(s.steering) && AllUsers(s.follow)
  }

  /** The turn under way, where the run stands. */
  predicate UnderWay(pc: Pc, last: Message, current: seq<Logged>) {
    match pc
    case Tools(k) => At(k, last, current)
    case Skipping(k) => At(k, last, current)
    case Done(outcome) => TurnPrefix(current) && (outcome.Aborted? || outcome.AppendFailed? || current == [])
    case _ => current == []
  }

  predicate At(k: nat, last: Message, current: seq<Logged>) {
    TurnPrefix(current) && |current| == k + 1 && current[0] == Logged(last, FromProvider)
  }

  predicate JournalKept(s: Run) {
    && s.turnStart <= |s.journal|
    && Turns(s.journal[..s.turnStart])
    && UnderWay(s.pc, s.last, s.journal[s.turnStart..])
    && (s.pendingFrom.FromSteering? || s.pendingFrom.FromFollowUp?)
    && QueuesHoldUsers(s)
  }

  /** What `Turns` means, by positions: the results of an answer stand directly after it, one for each call. */
  lemma {:induction false} AnswersHaveResults(journal: seq<Logged>, i: nat, k: nat)
    requires Turns(journal) && i < |journal| && journal[i].source.FromProvider?
    requires k < |Calls(journal[i].message.content)|
    ensures i + 1 + k < |journal| && IsResultOf(Calls(journal[i].message.content)[k], journal[i + 1 + k])
    decreases |journal|
  {
    var n := if IsQueued(journal[0]) then 1 else |Calls(journal[0].message.content)| + 1;
    if i >= n {
      AnswersHaveResults(journal[n..], i - n, k);
    } else {
      assert i == 0 by {
        if i > 0 { OnlyResults(journal, i); }
      }
      assert journal[1..n][k] == journal[k + 1];
    }
  }

  lemma OnlyResults(journal: seq<Logged>, i: nat)
    requires Turns(journal) && 0 < i < |journal| && !IsQueued(journal[0]) && i <= |Calls(journal[0].message.content)|
    ensures IsResultOf(Calls(journal[0].message.content)[i - 1], journal[i])
  {
    var n := |Calls(journal[0].message.content)| + 1;
    assert journal[1..n][i - 1] == journal[i];
  }

  /** And every result of the journal stands in such a place: it is the result of a call of the answer at `a`. */
  lemma {:induction false} ResultsHaveCalls(journal: seq<Logged>, i: nat) returns (a: nat)
    requires Turns(journal) && i < |journal| && journal[i].message.role.ToolResult?
    ensures a < i && journal[a].source.FromProvider? && i - a - 1 < |Calls(journal[a].message.content)|
    ensures IsResultOf(Calls(journal[a].message.content)[i - a - 1], journal[i])
    decreases |journal|
  {
    var n := if IsQueued(journal[0]) then 1 else |Calls(journal[0].message.content)| + 1;
    if i >= n {
      a := ResultsHaveCalls(journal[n..], i - n);
      a := a + n;
    } else {
      a := 0;
      OnlyResults(journal, i);
    }
  }

  // ----- The building blocks -----

  lemma {:induction false} TurnsJoin(a: seq<Logged>, b: seq<Logged>)
    requires Turns(a) && Turns(b)
    ensures Turns(a + b)
    decreases |a|
  {
    if a == [] {
      assert a + b == b;
    } else {
      var n := if IsQueued(a[0]) then 1 else |Calls(a[0].message.content)| + 1;
      TurnsJoin(a[n..], b);
      JoinSlices(a, b, n);
    }
  }

  lemma JoinSlices<T>(a: seq<T>, b: seq<T>, n: nat)
    requires 1 <= n <= |a|
    ensures (a + b)[n..] == a[n..] + b && (a + b)[1..n] == a[1..n] && (a + b)[0] == a[0]
  {}

  /** A finished turn joins the turns before it. */
  lemma TurnEnds(journal: seq<Logged>, start: nat)
    requires start <= |journal| && Turns(journal[..start]) && Turns(journal[start..])
    ensures Turns(journal[..|journal|]) && journal[|journal|..] == []
  {
    TurnsJoin(journal[..start], journal[start..]);
    SplitAt(journal, start);
    assert journal[..|journal|] == journal;
  }

  lemma CompleteTurn(current: seq<Logged>)
    requires current != [] && TurnPrefix(current) && |current| == |Calls(current[0].message.content)| + 1
    ensures Turns(current)
  {
    assert current[1..|current|] == current[1..] && current[|current|..] == [];
  }

  lemma Extend(journal: seq<Logged>, start: nat, l: Logged)
    requires start <= |journal|
    ensures (journal + [l])[..start] == journal[..start]
    ensures (journal + [l])[start..] == journal[start..] + [l]
  {}

  lemma OneQueued(l: Logged)
    requires IsQueued(l)
    ensures Turns([l])
  {
    assert [l][1..] == [];
  }

  lemma {:induction false} AcceptedAreUsers(msgs: seq<Message>, now: int)
    ensures AllUsers(Accepted(msgs, now))
  {
    if msgs != [] {
      AcceptedAreUsers(msgs[1..], now);
    }
  }

  lemma ArriveHoldsUsers(env: Env, s: Run)
    requires QueuesHoldUsers(s)
    ensures QueuesHoldUsers(Arrive(env, s))
  {
    AcceptedAreUsers(env(s.tick).steer, env(s.tick).now);
    AcceptedAreUsers(env(s.tick).follow, env(s.tick).now);
  }

  lemma TakeHoldsUsers(s: Run, mode: QueueMode)
    requires QueuesHoldUsers(s)
    ensures QueuesHoldUsers(TakeSteering(s, mode)) && QueuesHoldUsers(TakeFollowUp(s, mode))
  {}

  lemma ResultJoins(k: nat, last: Message, current: seq<Logged>, l: Logged)
    requires At(k, last, current) && k < |Calls(last.content)| && IsResultOf(Calls(last.content)[k], l)
    ensures At(k + 1, last, current + [l])
  {
    assert (current + [l])[1..] == current[1..] + [l];
  }

  // ----- Every step -----

  lemma DeliverKeeps(env: Env, host: Host, s: Run)
    requires JournalKept(s) && s.pc.Deliver? && s.pending != []
    ensures JournalKept(StepDeliver(env, host, s))
  {
    var l := Logged(s.pending[0], s.pendingFrom);
    ArriveHoldsUsers(env, s);
    assert IsQueued(l) by { assert s.pending[0] in s.pending; }
    Extend(s.journal, s.turnStart, l);
    OneQueued(l);
    assert s.journal[s.turnStart..] + [l] == [l];
    TurnEnds(s.journal + [l], s.turnStart);
  }

  lemma AnswerKeeps(host: Host, a: Run, t: Tick)
    requires JournalKept(a) && a.pc.Calling? && t.reply.Answer?
    ensures JournalKept(OnAnswer(host, a, t))
  {
    var m := AssistantMessage(t.model, t.reply, t.now);
    var s := a.(retry := 0, last := m);
    AnswerJoins(host, s, m, t);
    var logged := Log(host, s, m, FromProvider, t, Tools(0));
    if !logged.pc.Done? && Calls(m.content) == [] {
      CompleteTurn(logged.journal[a.turnStart..]);
      TurnEnds(logged.journal, a.turnStart);
      TakeHoldsUsers(logged.(turnStart := |logged.journal|), t.followUpMode);
    }
  }

  lemma AnswerJoins(host: Host, s: Run, m: Message, t: Tick)
    requires JournalKept(s) && s.pc.Calling? && s.last == m && m.role.Assistant?
    ensures JournalKept(Log(host, s, m, FromProvider, t, Tools(0)))
  {
    var l := Logged(m, FromProvider);
    Extend(s.journal, s.turnStart, l);
    assert s.journal[s.turnStart..] + [l] == [l] && [l][1..] == [];
    assert At(0, m, [l]);
  }

  lemma CallingKeeps(env: Env, host: Host, s: Run)
    requires JournalKept(s) && s.pc.Calling?
    ensures JournalKept(StepCalling(env, host, s))
  {
    var a, t := Arrive(env, s), env(s.tick);
    ArriveHoldsUsers(env, s);
    var asked := Ask(a, t);
    assert JournalKept(asked);
    match t.reply
    case Answer(_, _, _) => AnswerKeeps(host, asked, t);
    case Failure(_, _, _, _) =>
      var r := OnFailure(host, asked, t);
      assert (r.journal, r.turnStart, r.pending, r.pendingFrom) == (a.journal, a.turnStart, a.pending, a.pendingFrom);
      assert (r.steering, r.follow) == (a.steering, a.follow);
    case NoProvider(_) =>
  }

  lemma TurnOver(s: Run, k: nat)
    requires JournalKept(s) && (s.pc == Tools(k) || s.pc == Skipping(k)) && k >= |Calls(s.last.content)|
    ensures JournalKept(NextTurn(s.(turnStart := |s.journal|)))
  {
    CompleteTurn(s.journal[s.turnStart..]);
    TurnEnds(s.journal, s.turnStart);
  }

  lemma ResultKeeps(host: Host, s: Run, k: nat, l: Logged, t: Tick, next: Pc)
    requires JournalKept(s) && (s.pc == Tools(k) || s.pc == Skipping(k)) && k < |Calls(s.last.content)|
    requires IsResultOf(Calls(s.last.content)[k], l)
    requires next == Tools(k + 1) || next == Skipping(k + 1)
    ensures JournalKept(Log(host, s, l.message, l.source, t, next))
  {
    Extend(s.journal, s.turnStart, l);
    ResultJoins(k, s.last, s.journal[s.turnStart..], l);
  }

  lemma ToolsKeep(env: Env, host: Host, s: Run)
    requires JournalKept(s) && s.pc.Tools?
    ensures JournalKept(StepTools(env, host, s))
  {
    var calls, k := Calls(s.last.content), s.pc.k;
    if k >= |calls| {
      TurnOver(s, k);
    } else {
      var a, t := Arrive(env, s), env(s.tick);
      ArriveHoldsUsers(env, s);
      CallsAreToolCalls(s.last.content);
      assert calls[k] in calls;
      var output := ToolResultOf(calls[k].name, t);
      if !a.canceled && output.Some? {
        ToolKeeps(host, a, k, ToolResultMessage(calls[k].id, calls[k].name, output.value, t.now), t);
      }
    }
  }

  lemma ToolKeeps(host: Host, s: Run, k: nat, m: Message, t: Tick)
    requires JournalKept(s) && s.pc == Tools(k) && k < |Calls(s.last.content)|
    requires IsResultOf(Calls(s.last.content)[k], Logged(m, FromTool))
    ensures JournalKept(OnResult(host, s, k, m, t))
  {
    ResultKeeps(host, s, k, Logged(m, FromTool), t, Tools(k + 1));
    TakeHoldsUsers(Log(host, s, m, FromTool, t, Tools(k + 1)), t.steeringMode);
  }

  lemma SkippingKeeps(env: Env, host: Host, s: Run)
    requires JournalKept(s) && s.pc.Skipping?
    ensures JournalKept(StepSkipping(env, host, s))
  {
    var calls, k := Calls(s.last.content), s.pc.k;
    if k >= |calls| {
      TurnOver(s, k);
    } else {
      ArriveHoldsUsers(env, s);
      CallsAreToolCalls(s.last.content);
      assert calls[k] in calls;
      var m := ToolResultMessage(calls[k].id, calls[k].name, SKIPPED, env(s.tick).now);
      ResultKeeps(host, Arrive(env, s), k, Logged(m, FromSkip), env(s.tick), Skipping(k + 1));
    }
  }

  lemma StepKeepsJournal(env: Env, host: Host, s: Run)
    requires JournalKept(s)
    ensures JournalKept(Step(env, host, s))
  {
    ArriveHoldsUsers(env, s);
    match s.pc
    case Deliver => if s.pending != [] { DeliverKeeps(env, host, s); }
    case Calling => CallingKeeps(env, host, s);
    case Tools(_) => ToolsKeep(env, host, s);
    case Skipping(_) => SkippingKeeps(env, host, s);
    case _ =>
  }

  // ----- Skipped calls -----

  predicate EndsSkipped(journal: seq<Logged>) {
    journal != [] && journal[|journal| - 1].source.FromSkip?
  }

  predicate EndsInTools(journal: seq<Logged>) {
    journal != [] && (journal[|journal| - 1].source.FromTool? || journal[|journal| - 1].source.FromSkip?)
  }

  /** Calls are skipped only after a call of the same turn was run, and after a skipped call come only
      skipped calls and then the steering messages that caused it. */
  predicate SkipsInOrder(journal: seq<Logged>) {
    forall k :: 0 <= k < |journal| ==>
      && (journal[k].source.FromSkip? ==> EndsInTools(journal[..k]))
      && (EndsSkipped(journal[..k]) ==> journal[k].source.FromSkip? || journal[k].source.FromSteering?)
  }

  lemma SkipsSnoc(journal: seq<Logged>, l: Logged)
    requires SkipsInOrder(journal)
    requires l.source.FromSkip? ==> EndsInTools(journal)
    requires EndsSkipped(journal) ==> l.source.FromSkip? || l.source.FromSteering?
    ensures SkipsInOrder(journal + [l])
  {
    var all := journal + [l];
    assert all[..|journal|] == journal;
    assert forall k :: 0 <= k < |journal| ==> all[..k] == journal[..k];
  }

  predicate SkipsKept(s: Run) {
    && SkipsInOrder(s.journal)
    && (s.pendingFrom.FromSteering? || s.pendingFrom.FromFollowUp?)
    && match s.pc
       case Skipping(_) => s.pending != [] && s.pendingFrom.FromSteering? && EndsInTools(s.journal)
       case Head => EndsSkipped(s.journal) ==> s.pending != [] && s.pendingFrom.FromSteering?
       case Deliver => EndsSkipped(s.journal) ==> s.pending != [] && s.pendingFrom.FromSteering?
       case Done(_) => true
       case _ => !EndsSkipped(s.journal)
  }

  lemma AnswerKeepsSkips(host: Host, a: Run, t: Tick)
    requires SkipsKept(a) && a.pc.Calling? && t.reply.Answer?
    ensures SkipsKept(OnAnswer(host, a, t))
  {
    var m := AssistantMessage(t.model, t.reply, t.now);
    var s := a.(retry := 0, last := m);
    var logged := Log(host, s, m, FromProvider, t, Tools(0));
    assert SkipsKept(logged) by { SkipsSnoc(a.journal, Logged(m, FromProvider)); }
    if !logged.pc.Done? && Calls(m.content) == [] {
      var closed := TakeFollowUp(logged.(turnStart := |logged.journal|), t.followUpMode);
      assert SkipsKept(closed.(pc := Head)) && SkipsKept(Stop(closed, Finished));
    }
  }

  lemma CallingKeepsSkips(env: Env, host: Host, s: Run)
    requires SkipsKept(s) && s.pc.Calling?
    ensures SkipsKept(StepCalling(env, host, s))
  {
    var t := env(s.tick);
    var asked := Ask(Arrive(env, s), t);
    match t.reply
    case Answer(_, _, _) => AnswerKeepsSkips(host, asked, t);
    case Failure(_, _, _, _) =>
      var r := OnFailure(host, asked, t);
      assert (r.journal, r.pendingFrom) == (s.journal, s.pendingFrom);
    case NoProvider(_) =>
  }

  lemma ResultKeepsSkips(host: Host, a: Run, k: nat, m: Message, t: Tick)
    requires SkipsKept(a) && a.pc.Tools?
    ensures SkipsKept(OnResult(host, a, k, m, t))
  {
    SkipsSnoc(a.journal, Logged(m, FromTool));
  }

  lemma ToolsKeepSkips(env: Env, host: Host, s: Run)
    requires SkipsKept(s) && s.pc.Tools?
    ensures SkipsKept(StepTools(env, host, s))
  {
    forall m ensures SkipsKept(OnResult(host, Arrive(env, s), s.pc.k, m, env(s.tick))) {
      ResultKeepsSkips(host, Arrive(env, s), s.pc.k, m, env(s.tick));
    }
  }

  lemma SkippingKeepsSkips(env: Env, host: Host, s: Run)
    requires SkipsKept(s) && s.pc.Skipping?
    ensures SkipsKept(StepSkipping(env, host, s))
  {
    forall m ensures SkipsInOrder(s.journal + [Logged(m, FromSkip)]) {
      SkipsSnoc(s.journal, Logged(m, FromSkip));
    }
  }

  lemma StepKeepsSkips(env: Env, host: Host, s: Run)
    requires SkipsKept(s)
    ensures SkipsKept(Step(env, host, s))
  {
    match s.pc
    case Deliver => if s.pending != [] { SkipsSnoc(s.journal, Logged(s.pending[0], s.pendingFrom)); }
    case Calling => CallingKeepsSkips(env, host, s);
    case Tools(_) => ToolsKeepSkips(env, host, s);
    case Skipping(_) => SkippingKeepsSkips(env, host, s);
    case _ =>
  }

  // ----- Every run -----

  lemma {:induction false} RunKeepsJournal(env: Env, host: Host, s: Run)
    requires InBounds(s) && JournalKept(s) && SkipsKept(s)
    ensures JournalKept(RunToEnd(env, host, s)) && SkipsKept(RunToEnd(env, host, s))
    decreases MAX_TURNS - s.turn, Rank(s.pc), Left(s)
  {
    if !s.pc.Done? {
      StepDescends(env, host, s);
      StepKeepsJournal(env, host, s);
      StepKeepsSkips(env, host, s);
      RunKeepsJournal(env, host, Step(env, host, s));
    }
  }

  lemma BeginKeepsJournal(env: Env, s: Run)
    requires QueuesHoldUsers(s) && s.journal == [] && s.turnStart == 0
    ensures JournalKept(Begin(env, s)) && SkipsKept(Begin(env, s))
  {
    var a := Arrive(env, s);
    ArriveHoldsUsers(env, s);
    TakeHoldsUsers(a, env(s.tick).steeringMode);
    var steered := TakeSteering(a, env(s.tick).steeringMode);
    ArriveHoldsUsers(env, steered);
    TakeHoldsUsers(Arrive(env, steered), env(steered.tick).followUpMode);
    assert s.journal[..0] == [];
  }

  /** Whatever the provider, the tools, the disk and the other goroutines do: the messages a prompt's run appended
      are whole turns, then, only if it was aborted or could not append, an assistant message with the results
      of its first calls. Every call is run or, once a steering message interrupted its turn, skipped. */
  lemma PromptKeepsJournal(env: Env, host: Host, s: Run, text: string)
    requires AllUsers(s.steering) && AllUsers(s.follow)
    ensures var end := Prompted(env, host, s, text);
      && end.turnStart <= |end.journal|
      && Turns(end.journal[..end.turnStart])
      && TurnPrefix(end.journal[end.turnStart..])
      && (end.pc.outcome.Aborted? || end.pc.outcome.AppendFailed? || Turns(end.journal))
      && SkipsInOrder(end.journal)
      && AllUsers(end.steering) && AllUsers(end.follow)
  {
    var asked := Asked(env, host, s, text);
    ArriveHoldsUsers(env, Fresh(s));
    if TrimSpace(text) != "" && CanAppend(s.session, env(s.tick).writable) {
      BeginKeepsJournal(env, asked);
      RunKeepsJournal(env, host, Begin(env, asked));
      var end := Prompted(env, host, s, text);
      SplitAt(end.journal, end.turnStart);
      assert end.journal[..end.turnStart] + [] == end.journal[..end.turnStart];
    }
  }
}
