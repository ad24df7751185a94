/** The runtime (`Runtime` in internal/agent/runtime.go): two queues, a session and the run loop, updated in
    place. `RunLoop` is proved to do exactly what the machine of AgentRun.dfy does. */
module AgentRuntime {
  import opened Types
  import opened Sequences
  import opened Sessions
  import opened SessionContext
  import opened SessionManager
  import opened Compactions
  import opened AgentRun

  class Runtime {
    const session: Manager
    var steeringQueue: seq<Message>
    var followUpQueue: seq<Message>
    var canceled: bool      // the context of the run under way
    var tick: nat           // how often the runtime has met its environment

    constructor (session: Manager)
      requires session.Valid()
      ensures this.session == session && steeringQueue == followUpQueue == []
    {
      this.session, steeringQueue, followUpQueue, canceled, tick := session, [], [], false, 0;
    }

    /** The machine state `s` is where the runtime stands, but for the local variables of the loop. */
    ghost predicate Stands(s: Run)
      reads this, session
    {
      && session.Valid()
      && s.session == session.Value()
      && s.steering == steeringQueue && s.follow == followUpQueue
      && s.canceled == canceled && s.tick == tick
    }

    // ----- The queues -----

    method SteerMessage(message: Message, now: int) returns (ok: bool)
      modifies this`steeringQueue
      ensures steeringQueue == old(steeringQueue) + AcceptOne(message, now)
      ensures ok <==> Accept(message, now).Some?
    {
      var m := message;
      if m.role == OtherRole("") {
        m := m.(role := User);
      }
      if m.role != User || !HasContent(m.content) {
        return false;
      }
      if m.timestamp == 0 {
        m := m.(timestamp := now);
      }
      steeringQueue := steeringQueue + [m];
      return true;
    }

    method FollowUpMessage(message: Message, now: int) returns (ok: bool)
      modifies this`followUpQueue
      ensures followUpQueue == old(followUpQueue) + AcceptOne(message, now)
      ensures ok <==> Accept(message, now).Some?
    {
      var m := message;
      if m.role == OtherRole("") {
        m := m.(role := User);
      }
      if m.role != User || !HasContent(m.content) {
        return false;
      }
      if m.timestamp == 0 {
        m := m.(timestamp := now);
      }
      followUpQueue := followUpQueue + [m];
      return true;
    }

    method DequeueSteering(mode: QueueMode) returns (batch: seq<Message>)
      modifies this`steeringQueue
      ensures batch == Batch(old(steeringQueue), mode) && steeringQueue == Remaining(old(steeringQueue), mode)
    {
      if |steeringQueue| == 0 {
        return [];
      }
      if mode == All {
        batch := steeringQueue;
        steeringQueue := [];
        return;
      }
      batch := steeringQueue[..1];
      steeringQueue := steeringQueue[1..];
    }

    method DequeueFollowUp(mode: QueueMode) returns (batch: seq<Message>)
      modifies this`followUpQueue
      ensures batch == Batch(old(followUpQueue), mode) && followUpQueue == Remaining(old(followUpQueue), mode)
    {
      if |followUpQueue| == 0 {
        return [];
      }
      if mode == All {
        batch := followUpQueue;
        followUpQueue := [];
        return;
      }
      batch := followUpQueue[..1];
      followUpQueue := followUpQueue[1..];
    }

    method SteerAll(messages: seq<Message>, now: int)
      modifies this`steeringQueue
      ensures steeringQueue == old(steeringQueue) + Accepted(messages, now)
    {
      assert messages[0..] == messages;
      for i := 0 to |messages|
        invariant steeringQueue + Accepted(messages[i..], now) == old(steeringQueue) + Accepted(messages, now)
      {
        DropNext(messages, i);
        Reassociate(steeringQueue, AcceptOne(messages[i], now), Accepted(messages[i + 1..], now));
        var _ := SteerMessage(messages[i], now);
      }
      assert steeringQueue + [] == steeringQueue;
    }

    method FollowUpAll(messages: seq<Message>, now: int)
      modifies this`followUpQueue
      ensures followUpQueue == old(followUpQueue) + Accepted(messages, now)
    {
      assert messages[0..] == messages;
      for i := 0 to |messages|
        invariant followUpQueue + Accepted(messages[i..], now) == old(followUpQueue) + Accepted(messages, now)
      {
        DropNext(messages, i);
        Reassociate(followUpQueue, AcceptOne(messages[i], now), Accepted(messages[i + 1..], now));
        var _ := FollowUpMessage(messages[i], now);
      }
      assert followUpQueue + [] == followUpQueue;
    }

    method HoldSteering(mode: QueueMode, ghost s: Run) returns (batch: seq<Message>, ghost s': Run)
      requires Stands(s)
      modifies this`steeringQueue
      ensures s' == TakeSteering(s, mode) && Stands(s') && batch == s'.pending
    {
      batch := DequeueSteering(mode);
      s' := TakeSteering(s, mode);
    }

    method HoldFollowUp(mode: QueueMode, ghost s: Run) returns (batch: seq<Message>, ghost s': Run)
      requires Stands(s)
      modifies this`followUpQueue
      ensures s' == TakeFollowUp(s, mode) && Stands(s') && batch == s'.pending
    {
      batch := DequeueFollowUp(mode);
      s' := TakeFollowUp(s, mode);
    }

    /** What the other goroutines did since the last time: `Steer`, `FollowUp` and `Abort` calls. */
    method Meet(env: Env, ghost s: Run) returns (t: Tick)
      requires Stands(s)
      modifies this`steeringQueue, this`followUpQueue, this`canceled, this`tick
      ensures t == env(s.tick) && Stands(Arrive(env, s))
    {
      t := env(tick);
      SteerAll(t.steer, t.now);
      FollowUpAll(t.follow, t.now);
      if t.cancel {
        canceled := true;
      }
      tick := tick + 1;
    }

    /** `appendSessionMessageWithEvents`. */
    method AppendMessage(
      m: Message, t: Tick, ghost s: Run, ghost source: Source, ghost next: Pc)
      returns (ok: bool, ghost s': Run)
      requires Stands(s) && !next.Done?
      modifies session
      ensures s' == Log(session.host, s, m, source, t, next) && Stands(s')
      ensures SameTurn(s, s') && s'.pending == s.pending
      ensures ok <==> s'.pc == next
      ensures !ok ==> s'.pc == Done(AppendFailed)
    {
      var entry := session.Append(MessageBody(Some(m)), t.timestamp, t.writable);
      return entry.Some?, Log(session.host, s, m, source, t, next);
    }
  
    // ----- The run loop -----

    /** Appends the held batch. */
    method DeliverPending(
      env: Env, pending: seq<Message>, ghost first: Run, ghost s: Run)
      returns (ok: bool, ghost s': Run)
      requires Stands(s) && Reaches(env, session.host, first, s)
      requires s.pc == Deliver && s.pending == pending
      modifies this, session
      ensures Stands(s') && Reaches(env, session.host, first, s') && SameTurn(s, s')
      ensures if ok then s'.pc == Threshold && s'.pending == [] else s'.pc == Done(AppendFailed)
    {
      s' := s;
      assert pending[0..] == pending;
      for i := 0 to |pending|
        invariant Stands(s') && Reaches(env, session.host, first, s') && SameTurn(s, s')
        invariant s'.pc == Deliver && s'.pending == pending[i..]
      {
        StepReaches(env, session.host, first, s');
        DropNext(pending, i);
        ghost var before := s';
        var t := Meet(env, s');
        ok, s' := AppendMessage(pending[i], t, Arrive(env, s'), s'.pendingFrom, Deliver);
        if !ok {
          assert s' == Step(env, session.host, before);
          return;
        }
        s' := s'.(pending := pending[i + 1..], turnStart := |s'.journal|);
        assert s' == Step(env, session.host, before);
      }
      StepReaches(env, session.host, first, s');
      s' := Step(env, session.host, s');
      ok := true;
    }
  
    /** The skipped result of call number `k`. */
    method SkipCall(env: Env, k: nat, call: Block, ghost s: Run) returns (ok: bool, ghost s': Run)
      requires Stands(s) && s.pc == Skipping(k)
      requires k < |Calls(s.last.content)| && call == Calls(s.last.content)[k] && call.ToolCall?
      modifies this, session
      ensures s' == Step(env, session.host, s) && Stands(s')
      ensures SameTurn(s, s') && s'.pending == s.pending
      ensures s'.pc == if ok then Skipping(k + 1) else Done(AppendFailed)
    {
      StepSkips(env, session.host, s, k);
      ghost var a := Arrive(env, s);
      assert SameTurn(s, a) && a.pending == s.pending;
      var t := Meet(env, s);
      var skipMsg := ToolResultMessage(call.id, call.name, SKIPPED, t.now);
      ok, s' := AppendMessage(skipMsg, t, a, FromSkip, Skipping(k + 1));
    }

    /** A result for every remaining call. */
    method SkipRemaining(
      env: Env, calls: seq<Block>, start: nat, ghost first: Run, ghost s: Run)
      returns (ok: bool, ghost s': Run)
      requires Stands(s) && Reaches(env, session.host, first, s)
      requires s.pc == Skipping(start) && calls == Calls(s.last.content) && start <= |calls|
      modifies this, session
      ensures Stands(s') && Reaches(env, session.host, first, s')
      ensures (s'.retry, s'.last, s'.pending) == (s.retry, s.last, s.pending)
      ensures if ok then s'.pc == Head && s'.turn == s.turn + 1 else s'.pc == Done(AppendFailed)
    {
      s' := s;
      for k := start to |calls|
        invariant Stands(s') && Reaches(env, session.host, first, s') && SameTurn(s, s') && s'.pending == s.pending
        invariant s'.pc == Skipping(k)
      {
        StepReaches(env, session.host, first, s');
        CallsAreToolCalls(s.last.content);
        assert calls[k] in calls;
        ok, s' := SkipCall(env, k, calls[k], s');
        if !ok {
          return;
        }
      }
      StepReaches(env, session.host, first, s');
      s' := Step(env, session.host, s');
      ok := true;
    }

    /** Runs one tool; `None` when it was cancelled. */
    static method ExecuteTool(name: string, t: Tick) returns (output: Option<ToolOutput>)
      ensures output == ToolResultOf(name, t)
    {
      if name !in t.activeTools {
        return Some(ToolOutput([Text("tool is not active: " + name, "")], true));
      }
      match t.tool {
        case ToolCanceled => return None;
        case ToolFailed(error, failed) =>
          var content := failed.content;
          if |content| == 0 {
            content := [Text(error, "")];
          }
          return Some(ToolOutput(content, true));
        case ToolDone(done) => return Some(done);
      }
    }

    /** Appends the result of call number `k` and looks at the steering queue. */
    method AppendResult(k: nat, toolMsg: Message, t: Tick, ghost a: Run)
      returns (outcome: Option<Outcome>, steering: seq<Message>, ghost s': Run)
      requires Stands(a) && a.pending == []
      modifies this`steeringQueue, session
      ensures s' == OnResult(session.host, a, k, toolMsg, t) && Stands(s') && SameTurn(a, s')
      ensures outcome.Some? ==> s'.pc == Done(outcome.value)
      ensures outcome.None? ==> s'.pending == steering
      ensures outcome.None? ==> s'.pc == if steering == [] then Tools(k + 1) else Skipping(k + 1)
    {
      var ok;
      ok, s' := AppendMessage(toolMsg, t, a, FromTool, Tools(k + 1));
      if !ok {
        return Some(AppendFailed), [], s';
      }
      ghost var held;
      steering, held := HoldSteering(t.steeringMode, s');
      if |steering| > 0 {
        s' := held.(pc := Skipping(k + 1));
      }
      assert s' == OnResult(session.host, a, k, toolMsg, t);
      outcome := None;
    }

    /** Call number `k`: run it, append its result, look at the steering queue. */
    method ExecuteCall(env: Env, k: nat, call: Block, ghost s: Run)
      returns (outcome: Option<Outcome>, steering: seq<Message>, ghost s': Run)
      requires Stands(s) && s.pc == Tools(k) && s.pending == []
      requires k < |Calls(s.last.content)| && call == Calls(s.last.content)[k] && call.ToolCall?
      modifies this, session
      ensures s' == Step(env, session.host, s) && Stands(s') && SameTurn(s, s')
      ensures outcome.Some? ==> s'.pc == Done(outcome.value)
      ensures outcome.None? ==> s'.pending == steering
      ensures outcome.None? ==> s'.pc == if steering == [] then Tools(k + 1) else Skipping(k + 1)
    {
      StepRuns(env, session.host, s, k);
      ghost var a := Arrive(env, s);
      assert SameTurn(s, a) && a.pending == s.pending;
      var t := Meet(env, s);
      if canceled {
        return Some(Aborted), [], Stop(a, Aborted);
      }
      var output := ExecuteTool(call.name, t);
      if output.None? {
        return Some(Aborted), [], Stop(a, Aborted);
      }
      var toolMsg := ToolResultMessage(call.id, call.name, output.value, t.now);
      outcome, steering, s' := AppendResult(k, toolMsg, t, a);
    }

    /** The tool calls of a turn, until one is interrupted by a steering message. */
    method ExecuteTools(env: Env, calls: seq<Block>, ghost first: Run, ghost s: Run)
      returns (outcome: Option<Outcome>, pending: seq<Message>, ghost s': Run)
      requires Stands(s) && Reaches(env, session.host, first, s)
      requires s.pc == Tools(0) && calls == Calls(s.last.content) && s.pending == []
      modifies this, session
      ensures Stands(s') && Reaches(env, session.host, first, s')
      ensures (s'.retry, s'.last) == (s.retry, s.last) && (outcome.None? ==> pending == s'.pending)
      ensures Outlives(outcome, s, s')
    {
      s', pending := s, [];
      for k := 0 to |calls|
        invariant Stands(s') && Reaches(env, session.host, first, s') && SameTurn(s, s') && pending == s'.pending == []
        invariant s'.pc == Tools(k)
      {
        StepReaches(env, session.host, first, s');
        CallsAreToolCalls(s.last.content);
        assert calls[k] in calls;
        var steering;
        outcome, steering, s' := ExecuteCall(env, k, calls[k], s');
        if outcome.Some? {
          return;
        }
        if |steering| > 0 {
          pending := steering;
          var ok;
          ok, s' := SkipRemaining(env, calls, k + 1, first, s');
          outcome := if ok then None else Some(AppendFailed);
          return;
        }
      }
      StepReaches(env, session.host, first, s');
      ToolsEnd(env, session.host, s');
      s' := Step(env, session.host, s');
      outcome := None;
    }

    /** A failed provider call. */
    method HandleError(t: Tick, retry: nat, ghost a: Run)
      returns (outcome: Option<Outcome>, retry': nat, waits: bool, ghost s': Run)
      requires Stands(a) && t.reply.Failure? && a.pc.Calling? && a.retry == retry
      modifies session
      ensures s' == OnFailure(session.host, a, t) && Stands(s')
      ensures (s'.last, s'.pending, s'.retry) == (a.last, a.pending, retry')
      ensures outcome.Some? ==> s'.pc == Done(outcome.value)
      ensures outcome.None? && waits ==> s'.pc == Waiting(t.reply.error) && s'.turn == a.turn
      ensures outcome.None? && !waits ==> s'.pc == Head && s'.turn == a.turn + 1
    {
      s' := OnFailure(session.host, a, t);
      if t.reply.canceled || canceled {
        return Some(Aborted), retry, false, s';
      }
      if t.autoCompaction && t.reply.overflow {
        var compacted := CompactContext(session, t.summary, t.tokens, t.timestamp, t.writable);
        if compacted {
          return None, 0, false, s';
        }
      }
      if t.autoRetry && !t.reply.overflow && t.reply.transient {
        var attempt := retry + 1;
        if attempt > MAX_RETRIES {
          return Some(ProviderFailed(t.reply.error)), 0, false, s';
        }
        return None, attempt, true, s';
      }
      return Some(ProviderFailed(t.reply.error)), 0, false, s';
    }

    method WaitForRetry(env: Env, retry: nat, error: string, ghost s: Run)
      returns (outcome: Option<Outcome>, retry': nat, ghost s': Run)
      requires Stands(s) && s.pc == Waiting(error) && s.retry == retry
      modifies this`steeringQueue, this`followUpQueue, this`canceled, this`tick
      ensures s' == Step(env, session.host, s) && Stands(s')
      ensures (s'.last, s'.pending, s'.retry) == (s.last, s.pending, retry')
      ensures Outlives(outcome, s, s')
    {
      var t := Meet(env, s);
      s' := Step(env, session.host, s);
      if t.timerFired {
        return None, retry, s';
      }
      if canceled {
        return Some(Aborted), 0, s';
      }
      return Some(ProviderFailed(error)), 0, s';
    }

    /** The provider's answer: without tool calls the turn is over. */
    method HandleAnswer(m: Message, t: Tick, ghost a: Run)
      returns (outcome: Option<Outcome>, pending: seq<Message>, calls: seq<Block>, ghost s': Run)
      requires Stands(a) && t.reply.Answer? && m == AssistantMessage(t.model, t.reply, t.now)
      requires a.pc.Calling? && a.pending == []
      modifies this`followUpQueue, session
      ensures s' == OnAnswer(session.host, a, t) && Stands(s')
      ensures s'.last == m && s'.retry == 0 && calls == Calls(m.content)
      ensures outcome.Some? ==> s'.pc == Done(outcome.value)
      ensures outcome.None? ==> s'.pending == pending
      ensures outcome.None? && calls == [] ==> s'.pc == Head && s'.turn == a.turn + 1
      ensures outcome.None? && calls != [] ==> s'.pc == Tools(0) && s'.turn == a.turn && pending == []
    {
      s' := OnAnswer(session.host, a, t);
      calls := Calls(m.content);
      var ok;
      ghost var logged;
      ok, logged := AppendMessage(m, t, a.(retry := 0, last := m), FromProvider, Tools(0));
      if !ok {
        return Some(AppendFailed), [], calls, s';
      }
      if |calls| != 0 {
        return None, [], calls, s';
      }
      var followUps := DequeueFollowUp(t.followUpMode);
      if |followUps| > 0 {
        return None, followUps, calls, s';
      }
      return Some(Finished), [], calls, s';
    }
  
    method CompactAtThreshold(env: Env, ghost s: Run) returns (ghost s': Run)
      requires Stands(s) && s.pc == Threshold
      modifies this`steeringQueue, this`followUpQueue, this`canceled, this`tick, session
      ensures s' == Step(env, session.host, s) && Stands(s')
      ensures SameTurn(s, s') && s'.pending == s.pending && s'.pc == Calling
    {
      var t := Meet(env, s);
      if t.autoCompaction && t.overThreshold {
        var _ := CompactContext(session, t.summary, t.tokens, t.timestamp, t.writable);
      }
      s' := Step(env, session.host, s);
    }

    /** The provider call: the context is built from the branch under the leaf. */
    method BuildRequest(env: Env, ghost s: Run) returns (t: Tick, request: Request, ghost a: Run)
      requires Stands(s) && s.pc == Calling
      modifies this`steeringQueue, this`followUpQueue, this`canceled, this`tick
      ensures t == env(s.tick) && Stands(a)
      ensures a == Ask(Arrive(env, s), t) && a.requests == s.requests + [request]
      ensures SameTurn(s, a) && a.pending == s.pending && a.pc == Calling
    {
      t := Meet(env, s);
      a := Ask(Arrive(env, s), t);
      var ctx := session.BuildContext(session.leafId, t.clock);
      request := Request(ctx.messages, t.model);
    }

    /** The provider call and what follows from it. */
    method Complete(env: Env, retry: nat, last: Message, ghost first: Run, ghost s: Run)
      returns (outcome: Option<Outcome>, pending: seq<Message>, retry': nat, last': Message, ghost s': Run)
      requires Stands(s) && Reaches(env, session.host, first, s)
      requires s.pc == Calling && s.pending == [] && s.retry == retry && s.last == last
      modifies this, session
      ensures Stands(s') && Reaches(env, session.host, first, s') && Outlives(outcome, s, s')
      ensures s'.last == last' && (outcome.None? ==> s'.pending == pending && s'.retry == retry')
    {
      StepReaches(env, session.host, first, s);
      s' := Step(env, session.host, s);
      pending, last', retry' := [], last, retry;
      ghost var a;
      var t, request;
      t, request, a := BuildRequest(env, s);
      match t.reply {
        case NoProvider(error) => return Some(ProviderFailed(error)), [], retry, last,
          Stop(Arrive(env, s), ProviderFailed(error));
        case Failure(error, _, _, _) =>
          var waits;
          outcome, retry', waits, s' := HandleError(t, retry, a);
          if outcome.None? && waits {
            StepReaches(env, session.host, first, s');
            outcome, retry', s' := WaitForRetry(env, retry', error, s');
          }
        case Answer(_, _, _) =>
          last' := AssistantMessage(t.model, t.reply, t.now);
          var calls;
          outcome, pending, calls, s' := HandleAnswer(last', t, a);
          retry' := 0;
          if outcome.None? && |calls| > 0 {
            outcome, pending, s' := ExecuteTools(env, calls, first, s');
          }
      }
    }

    /** One pass of the loop body. */
    method RunTurn(env: Env, pending: seq<Message>, retry: nat, last: Message, ghost first: Run, ghost s: Run)
      returns (outcome: Option<Outcome>, pending': seq<Message>, retry': nat, last': Message, ghost s': Run)
      requires Stands(s) && Reaches(env, session.host, first, s)
      requires s.pc == Head && s.turn < MAX_TURNS && s.pending == pending && s.retry == retry && s.last == last
      modifies this, session
      ensures Stands(s') && Reaches(env, session.host, first, s') && Outlives(outcome, s, s')
      ensures s'.last == last' && (outcome.None? ==> s'.pending == pending' && s'.retry == retry')
    {
      pending', retry', last' := pending, retry, last;
      StepReaches(env, session.host, first, s);
      s' := Step(env, session.host, s);
      var t := Meet(env, s);
      if canceled {
        return Some(Aborted), pending, retry, last, s';
      }
      var ok;
      ok, s' := DeliverPending(env, pending, first, s');
      if !ok {
        return Some(AppendFailed), pending, retry, last, s';
      }
      StepReaches(env, session.host, first, s');
      s' := CompactAtThreshold(env, s');
      outcome, pending', retry', last', s' := Complete(env, retry, last, first, s');
    }

    /** The first batch: steering messages, or follow-ups if the conversation ends with an answer. */
    method TakeFirstBatch(env: Env, ghost s: Run) returns (pending: seq<Message>)
      requires Stands(s)
      modifies this`steeringQueue, this`followUpQueue, this`canceled, this`tick
      ensures Stands(FirstBatch(env, s)) && pending == FirstBatch(env, s).pending
    {
      ghost var steered;
      var t := Meet(env, s);
      pending, steered := HoldSteering(t.steeringMode, Arrive(env, s));
      if |pending| == 0 {
        var answered := EndsInAnswer(t.clock);
        assert answered == EndsWithAnswer(s.session, t.clock);
        if answered {
          t := Meet(env, steered);
          pending, steered := HoldFollowUp(t.followUpMode, Arrive(env, steered));
        }
      }
      assert steered == FirstBatch(env, s);
    }

    method EndsInAnswer(clock: Clock) returns (ends: bool)
      requires session.Valid()
      ensures ends == EndsWithAnswer(session.Value(), clock)
    {
      var ctx := session.BuildContext(session.leafId, clock);
      ends := |ctx.messages| > 0 && ctx.messages[|ctx.messages| - 1].role.Assistant?;
    }

    /** The loop does exactly what the machine does: it ends in the state the machine ends in. */
    method RunLoop(env: Env, ghost s: Run) returns (last: Message, outcome: Outcome, ghost end: Run)
      requires Stands(s)
      modifies this, session
      ensures end == RunToEnd(env, session.host, Begin(env, s)) && Stands(end)
      ensures end.pc == Done(outcome) && end.last == last
    {
      var pending := TakeFirstBatch(env, s);
      canceled := false;
      var retry := 0;
      last := NO_MESSAGE;
      ghost var first := Begin(env, s);
      end := first;
      HereIsReached(env, session.host, first);
      for turn := 0 to MAX_TURNS
        invariant Stands(end) && Reaches(env, session.host, first, end)
        invariant end.pc == Head && end.turn == turn && end.pending == pending && end.retry == retry && end.last == last
      {
        var ended;
        ended, pending, retry, last, end := RunTurn(env, pending, retry, last, first, end);
        if ended.Some? {
          EndIsReached(env, session.host, first, end);
          return last, ended.value, end;
        }
      }
      StepReaches(env, session.host, first, end);
      end := Step(env, session.host, end);
      EndIsReached(env, session.host, first, end);
      outcome := TooManyTurns;
    }

    /** `Prompt`. */
    method Prompt(env: Env, text: string, ghost s: Run) returns (last: Message, outcome: Outcome, ghost end: Run)
      requires Stands(s)
      modifies this, session
      ensures end == Prompted(env, session.host, s, text) && Stands(end)
      ensures end.pc == Done(outcome) && end.last == last
    {
      var trimmed := TrimSpace(text);
      if trimmed == "" {
        return NO_MESSAGE, EmptyPrompt, Stop(Fresh(s), EmptyPrompt);
      }
      ghost var asked := Asked(env, session.host, s, text);
      var t := Meet(env, Fresh(s));
      var entry := session.Append(MessageBody(Some(TextMessage(User, trimmed, t.now))), t.timestamp, t.writable);
      if entry.None? {
        return NO_MESSAGE, AppendFailed, Stop(asked, AppendFailed);
      }
      last, outcome, end := RunLoop(env, asked);
    }

    /** `Continue`. */
    method Continue(env: Env, ghost s: Run) returns (last: Message, outcome: Outcome, ghost end: Run)
      requires Stands(s)
      modifies this, session
      ensures end == Continued(env, session.host, s) && Stands(end)
      ensures end.pc == Done(outcome) && end.last == last
    {
      ghost var resumed := Resumed(env, s);
      var t := Meet(env, AgentRun.Fresh(s));
      var canContinue := MayContinue(t.clock, resumed);
      if !canContinue {
        return NO_MESSAGE, NothingToContinue, Stop(resumed, NothingToContinue);
      }
      last, outcome, end := RunLoop(env, resumed);
    }

    method MayContinue(clock: Clock, ghost s: Run) returns (may: bool)
      requires Stands(s)
      ensures may == CanContinue(s, clock)
    {
      var ctx := session.BuildContext(session.leafId, clock);
      ContinueTest(s, clock, ctx.messages);
      if |ctx.messages| == 0 {
        return false;
      }
      var lastRole := ctx.messages[|ctx.messages| - 1].role;
      return lastRole.User? || lastRole.ToolResult? || |steeringQueue| > 0 || |followUpQueue| > 0;
    }
  }

  // ----- One step of the machine at a time -----

  /** `later` is reached from `s` by some steps of the machine. */
  ghost predicate Reaches(env: Env, host: Host, s: Run, later: Run) {
    InBounds(s) && InBounds(later) && exists n: nat :: Steps(env, host, s, n) == later
  }

  lemma HereIsReached(env: Env, host: Host, s: Run)
    requires InBounds(s)
    ensures Reaches(env, host, s, s)
  {
    assert Steps(env, host, s, 0) == s;
  }

  lemma StepReaches(env: Env, host: Host, first: Run, s: Run)
    requires Reaches(env, host, first, s) && !s.pc.Done?
    ensures Reaches(env, host, first, Step(env, host, s))
  {
    var n: nat :| Steps(env, host, first, n) == s;
    StepsSnoc(env, host, first, n);
    StepDescends(env, host, s);
    assert Steps(env, host, first, n + 1) == Step(env, host, s);
  }

  lemma EndIsReached(env: Env, host: Host, first: Run, end: Run)
    requires Reaches(env, host, first, end) && end.pc.Done?
    ensures end == RunToEnd(env, host, first)
  {
    var n: nat :| Steps(env, host, first, n) == end;
    StepsToEnd(env, host, first, n);
  }

  lemma ContinueTest(s: Run, clock: Clock, history: seq<Message>)
    requires history == ContextMessages(Branch(s.session, s.session.leaf), clock)
    ensures CanContinue(s, clock) <==>
      history != [] && (history[|history| - 1].role.User? || history[|history| - 1].role.ToolResult?
        || s.steering != [] || s.follow != [])
  {}

  lemma ToolsEnd(env: Env, host: Host, s: Run)
    requires s.pc == Tools(|Calls(s.last.content)|)
    ensures var n := Step(env, host, s);
      && n.pc == Head && n.turn == s.turn + 1
      && (n.session, n.steering, n.follow, n.canceled, n.tick) == (s.session, s.steering, s.follow, s.canceled, s.tick)
      && (n.retry, n.last, n.pending) == (s.retry, s.last, s.pending)
  {}

  lemma StepSkips(env: Env, host: Host, s: Run, k: nat)
    requires s.pc == Skipping(k) && k < |Calls(s.last.content)| && Calls(s.last.content)[k].ToolCall?
    ensures var call := Calls(s.last.content)[k];
      Step(env, host, s) == Log(host, Arrive(env, s), ToolResultMessage(call.id, call.name, SKIPPED, env(s.tick).now),
        FromSkip, env(s.tick), Skipping(k + 1))
  {}

  lemma StepRuns(env: Env, host: Host, s: Run, k: nat)
    requires s.pc == Tools(k) && k < |Calls(s.last.content)| && Calls(s.last.content)[k].ToolCall?
    ensures var a, t, call := Arrive(env, s), env(s.tick), Calls(s.last.content)[k];
      var output := ToolResultOf(call.name, t);
      Step(env, host, s) ==
        if a.canceled || output.None? then Stop(a, Aborted)
        else OnResult(host, a, k, ToolResultMessage(call.id, call.name, output.value, t.now), t)
  {}

  predicate SameTurn(s: Run, s': Run) {
    (s'.turn, s'.retry, s'.last) == (s.turn, s.retry, s.last)
  }

  /** The turn is over and the next one begins, or the run ended. */
  predicate Outlives(outcome: Option<Outcome>, s: Run, s': Run) {
    match outcome
    case None => s'.pc == Head && s'.turn == s.turn + 1
    case Some(o) => s'.pc == Done(o)
  }
}
