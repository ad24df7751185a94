/** The queues are conserved over every run: what a run appended from a queue, then the batch it holds
    from it, then the queue itself, are the accepted messages in order. */
module RunQueues {
  import opened Types
  import opened Sequences
  import opened Sessions
  import opened AgentRun

  function Delivered(journal: seq<Logged>, source: Source): seq<Message> {
    if journal == [] then []
    else
      var n := |journal| - 1;
      Delivered(journal[..n], source) + if journal[n].source == source then [journal[n].message] else []
  }

  function Held(s: Run, source: Source): seq<Message> {
    if s.pendingFrom == source then s.pending else []
  }

  /** `accepted` is, in order, what was delivered, what is held and what is queued. */
  predicate Conserved(accepted: seq<Message>, delivered: seq<Message>, held: seq<Message>, queue: seq<Message>) {
    delivered + held + queue == accepted
  }

  predicate BothConserved(s: Run) {
    && Conserved(s.steered, Delivered(s.journal, FromSteering), Held(s, FromSteering), s.steering)
    && Conserved(s.followed, Delivered(s.journal, FromFollowUp), Held(s, FromFollowUp), s.follow)
  }

  /** Between the delivery of a batch and the next dequeue nothing is held; a run that finishes holds nothing. */
  predicate QueuesKept(s: Run) {
    && BothConserved(s)
    && (s.pendingFrom.FromSteering? || s.pendingFrom.FromFollowUp?)
    && (s.pc.Threshold? || s.pc.Calling? || s.pc.Waiting? || s.pc.Tools? || s.pc == Done(Finished) ==> s.pending == [])
  }

  // ----- The building blocks -----

  lemma DeliveredSnoc(journal: seq<Logged>, l: Logged, source: Source)
    ensures Delivered(journal + [l], source)
         == Delivered(journal, source) + if l.source == source then [l.message] else []
  {
    assert (journal + [l])[..|journal|] == journal;
  }

  lemma Queue(
    accepted: seq<Message>, delivered: seq<Message>, held: seq<Message>, queue: seq<Message>, more: seq<Message>)
    requires Conserved(accepted, delivered, held, queue)
    ensures Conserved(accepted + more, delivered, held, queue + more)
  {
    Reassociate(delivered + held, queue, more);
  }

  lemma TakeBatch(accepted: seq<Message>, delivered: seq<Message>, queue: seq<Message>, mode: QueueMode)
    requires Conserved(accepted, delivered, [], queue)
    ensures Conserved(accepted, delivered, Batch(queue, mode), Remaining(queue, mode))
    ensures Batch(queue, mode) == [] <==> queue == []
  {
    assert Batch(queue, mode) + Remaining(queue, mode) == queue;
    Reassociate(delivered, Batch(queue, mode), Remaining(queue, mode));
    assert delivered + [] == delivered;
  }

  lemma DeliverOne(accepted: seq<Message>, delivered: seq<Message>, held: seq<Message>, queue: seq<Message>)
    requires held != [] && Conserved(accepted, delivered, held, queue)
    ensures Conserved(accepted, delivered + [held[0]], held[1..], queue)
  {
    Reassociate(delivered, [held[0]], held[1..]);
    assert [held[0]] + held[1..] == held;
  }

  lemma ArriveConserves(env: Env, s: Run)
    requires BothConserved(s)
    ensures BothConserved(Arrive(env, s))
  {
    var t := env(s.tick);
    Queue(s.steered, Delivered(s.journal, FromSteering), Held(s, FromSteering), s.steering, Accepted(t.steer, t.now));
    Queue(s.followed, Delivered(s.journal, FromFollowUp), Held(s, FromFollowUp), s.follow, Accepted(t.follow, t.now));
  }

  /** Appending a message that comes from no queue. */
  lemma LogConserves(host: Host, s: Run, m: Message, source: Source, t: Tick, next: Pc)
    requires BothConserved(s) && !source.FromSteering? && !source.FromFollowUp?
    ensures BothConserved(Log(host, s, m, source, t, next))
  {
    DeliveredSnoc(s.journal, Logged(m, source), FromSteering);
    DeliveredSnoc(s.journal, Logged(m, source), FromFollowUp);
    assert forall d: seq<Message> :: d + [] == d;
  }

  lemma TakeConserves(s: Run, mode: QueueMode)
    requires BothConserved(s) && s.pending == []
    ensures BothConserved(TakeSteering(s, mode)) && BothConserved(TakeFollowUp(s, mode))
  {
    TakeBatch(s.steered, Delivered(s.journal, FromSteering), s.steering, mode);
    TakeBatch(s.followed, Delivered(s.journal, FromFollowUp), s.follow, mode);
  }

  lemma DeliverConserves(env: Env, host: Host, s: Run)
    requires QueuesKept(s) && s.pending != []
    ensures QueuesKept(StepDeliver(env, host, s))
  {
    var a := Arrive(env, s);
    ArriveConserves(env, s);
    var l := Logged(s.pending[0], s.pendingFrom);
    DeliveredSnoc(s.journal, l, FromSteering);
    DeliveredSnoc(s.journal, l, FromFollowUp);
    DeliverOne(if s.pendingFrom.FromSteering? then a.steered else a.followed, Delivered(s.journal, s.pendingFrom),
      s.pending, if s.pendingFrom.FromSteering? then a.steering else a.follow);
    assert forall d: seq<Message> :: d + [] == d;
  }

  // ----- Every step -----

  lemma AnswerConserves(host: Host, a: Run, t: Tick)
    requires QueuesKept(a) && a.pending == [] && t.reply.Answer?
    ensures QueuesKept(OnAnswer(host, a, t))
  {
    var m := AssistantMessage(t.model, t.reply, t.now);
    var s := a.(retry := 0, last := m);
    assert BothConserved(s);
    var logged := Log(host, s, m, FromProvider, t, Tools(0));
    LogConserves(host, s, m, FromProvider, t, Tools(0));
    if !logged.pc.Done? && Calls(m.content) == [] {
      TurnConserves(logged, t.followUpMode);
    }
  }

  /** The end of a turn without tool calls. */
  lemma TurnConserves(s: Run, mode: QueueMode)
    requires BothConserved(s) && s.pending == []
    ensures var closed := TakeFollowUp(s.(turnStart := |s.journal|), mode);
      QueuesKept(NextTurn(closed)) && (closed.pending == [] ==> QueuesKept(Stop(closed, Finished)))
  {
    var marked := s.(turnStart := |s.journal|);
    assert BothConserved(marked);
    TakeConserves(marked, mode);
  }

  lemma FailureConserves(host: Host, a: Run, t: Tick)
    requires QueuesKept(a) && a.pending == [] && t.reply.Failure?
    ensures QueuesKept(OnFailure(host, a, t))
  {
    var r := OnFailure(host, a, t);
    assert (r.journal, r.pending, r.pendingFrom) == (a.journal, a.pending, a.pendingFrom);
    assert (r.steering, r.follow, r.steered, r.followed) == (a.steering, a.follow, a.steered, a.followed);
  }

  lemma CallingConserves(env: Env, host: Host, s: Run)
    requires QueuesKept(s) && s.pc.Calling?
    ensures QueuesKept(StepCalling(env, host, s))
  {
    var a, t := Arrive(env, s), env(s.tick);
    ArriveConserves(env, s);
    var asked := Ask(a, t);
    assert BothConserved(asked);
    match t.reply
    case Answer(_, _, _) => AnswerConserves(host, asked, t);
    case Failure(_, _, _, _) => FailureConserves(host, asked, t);
    case NoProvider(error) => assert QueuesKept(Stop(a, ProviderFailed(error)));
  }

  lemma ResultConserves(host: Host, a: Run, k: nat, m: Message, t: Tick)
    requires QueuesKept(a) && a.pending == []
    ensures QueuesKept(OnResult(host, a, k, m, t))
  {
    LogConserves(host, a, m, FromTool, t, Tools(k + 1));
    TakeConserves(Log(host, a, m, FromTool, t, Tools(k + 1)), t.steeringMode);
  }

  lemma ToolsConserve(env: Env, host: Host, s: Run)
    requires QueuesKept(s) && s.pc.Tools?
    ensures QueuesKept(StepTools(env, host, s))
  {
    ArriveConserves(env, s);
    forall m ensures QueuesKept(OnResult(host, Arrive(env, s), s.pc.k, m, env(s.tick))) {
      ResultConserves(host, Arrive(env, s), s.pc.k, m, env(s.tick));
    }
  }

  lemma SkippingConserves(env: Env, host: Host, s: Run)
    requires QueuesKept(s) && s.pc.Skipping?
    ensures QueuesKept(StepSkipping(env, host, s))
  {
    ArriveConserves(env, s);
    forall m, next ensures BothConserved(Log(host, Arrive(env, s), m, FromSkip, env(s.tick), next)) {
      LogConserves(host, Arrive(env, s), m, FromSkip, env(s.tick), next);
    }
  }

  lemma StepConserves(env: Env, host: Host, s: Run)
    requires QueuesKept(s)
    ensures QueuesKept(Step(env, host, s))
  {
    ArriveConserves(env, s);
    match s.pc
    case Deliver => if s.pending != [] { DeliverConserves(env, host, s); }
    case Calling => CallingConserves(env, host, s);
    case Tools(_) => ToolsConserve(env, host, s);
    case Skipping(_) => SkippingConserves(env, host, s);
    case _ =>
  }

  // ----- Every run -----

  lemma {:induction false} RunConserves(env: Env, host: Host, s: Run)
    requires InBounds(s) && QueuesKept(s)
    ensures QueuesKept(RunToEnd(env, host, s))
    decreases MAX_TURNS - s.turn, Rank(s.pc), Left(s)
  {
    if !s.pc.Done? {
      StepDescends(env, host, s);
      StepConserves(env, host, s);
      RunConserves(env, host, Step(env, host, s));
    }
  }

  lemma FirstBatchConserves(env: Env, s: Run)
    requires BothConserved(s) && s.pending == []
    ensures BothConserved(FirstBatch(env, s))
  {
    var a := Arrive(env, s);
    ArriveConserves(env, s);
    TakeConserves(a, env(s.tick).steeringMode);
    var steered := TakeSteering(a, env(s.tick).steeringMode);
    if steered.pending == [] {
      ArriveConserves(env, steered);
      TakeConserves(Arrive(env, steered), env(steered.tick).followUpMode);
    }
  }

  lemma BeginConserves(env: Env, s: Run)
    requires BothConserved(s) && s.pending == []
    ensures QueuesKept(Begin(env, s))
  {
    FirstBatchConserves(env, s);
    var first, begun := FirstBatch(env, s), Begin(env, s);
    assert (begun.journal, begun.pending, begun.pendingFrom) == (first.journal, first.pending, first.pendingFrom);
  }

  /** What other goroutines put on a queue during steps `from` to `to`. */
  function Given(env: Env, steering: bool, from: nat, to: nat): seq<Message>
    decreases to
  {
    if to <= from then []
    else
      var t := env(to - 1);
      Given(env, steering, from, to - 1) + Accepted(if steering then t.steer else t.follow, t.now)
  }

  /** Since step `from`, when the queues were `steering` and `follow`, exactly what was enqueued was accepted. */
  predicate Fed(env: Env, from: nat, steering: seq<Message>, follow: seq<Message>, s: Run) {
    && from <= s.tick
    && s.steered == steering + Given(env, true, from, s.tick)
    && s.followed == follow + Given(env, false, from, s.tick)
  }

  /** Every step is at most one arrival. */
  predicate ArrivesOnce(env: Env, s: Run, s': Run) {
    || (s'.tick, s'.steered, s'.followed) == (s.tick, s.steered, s.followed)
    || (s'.tick, s'.steered, s'.followed) == (Arrive(env, s).tick, Arrive(env, s).steered, Arrive(env, s).followed)
  }

  lemma StepArrivesOnce(env: Env, host: Host, s: Run)
    ensures ArrivesOnce(env, s, Step(env, host, s))
  {
    match s.pc
    case Head => assert ArrivesOnce(env, s, StepHead(env, s));
    case Deliver => assert ArrivesOnce(env, s, StepDeliver(env, host, s));
    case Threshold => assert ArrivesOnce(env, s, StepThreshold(env, host, s));
    case Calling => assert ArrivesOnce(env, s, StepCalling(env, host, s));
    case Waiting(_) => assert ArrivesOnce(env, s, StepWaiting(env, s));
    case Tools(_) => assert ArrivesOnce(env, s, StepTools(env, host, s));
    case Skipping(_) => assert ArrivesOnce(env, s, StepSkipping(env, host, s));
    case Done(_) =>
  }

  lemma ArrivalFeeds(env: Env, from: nat, steering: seq<Message>, follow: seq<Message>, s: Run, s': Run)
    requires Fed(env, from, steering, follow, s) && ArrivesOnce(env, s, s')
    ensures Fed(env, from, steering, follow, s')
  {
    var t := env(s.tick);
    Reassociate(steering, Given(env, true, from, s.tick), Accepted(t.steer, t.now));
    Reassociate(follow, Given(env, false, from, s.tick), Accepted(t.follow, t.now));
  }

  lemma {:induction false} RunIsFed(
    env: Env, host: Host, from: nat, steering: seq<Message>, follow: seq<Message>, s: Run)
    requires InBounds(s) && Fed(env, from, steering, follow, s)
    ensures Fed(env, from, steering, follow, RunToEnd(env, host, s))
    decreases MAX_TURNS - s.turn, Rank(s.pc), Left(s)
  {
    if !s.pc.Done? {
      StepDescends(env, host, s);
      StepArrivesOnce(env, host, s);
      ArrivalFeeds(env, from, steering, follow, s, Step(env, host, s));
      RunIsFed(env, host, from, steering, follow, Step(env, host, s));
    }
  }

  lemma BeginIsFed(env: Env, from: nat, steering: seq<Message>, follow: seq<Message>, s: Run)
    requires Fed(env, from, steering, follow, s)
    ensures Fed(env, from, steering, follow, Begin(env, s))
  {
    var steered := TakeSteering(Arrive(env, s), env(s.tick).steeringMode);
    ArrivalFeeds(env, from, steering, follow, s, steered);
    ArrivalFeeds(env, from, steering, follow, steered, Arrive(env, steered));
  }

  /** For every environment, whatever other goroutines enqueue and in either queue mode: at the end of a
      prompt, what was on a queue at the start and what it accepted since are, in order, the messages
      appended from it, then the batch held from it, then the queue. A run that finishes holds nothing;
      any other exit loses at most the one held batch. */
  lemma PromptConservesQueues(env: Env, host: Host, s: Run, text: string)
    ensures var end := Prompted(env, host, s, text);
      && end.tick >= s.tick
      && Conserved(s.steering + Given(env, true, s.tick, end.tick),
           Delivered(end.journal, FromSteering), Held(end, FromSteering), end.steering)
      && Conserved(s.follow + Given(env, false, s.tick, end.tick),
           Delivered(end.journal, FromFollowUp), Held(end, FromFollowUp), end.follow)
      && (end.pc == Done(Finished) ==> Held(end, FromSteering) == Held(end, FromFollowUp) == [])
  {
    var clean, asked := Fresh(s), Asked(env, host, s, text);
    assert [] + [] + s.steering == s.steering && [] + [] + s.follow == s.follow;
    assert s.steering + [] == s.steering && s.follow + [] == s.follow;
    ArriveConserves(env, clean);
    ArrivalFeeds(env, s.tick, s.steering, s.follow, clean, asked);
    if TrimSpace(text) != "" && CanAppend(s.session, env(s.tick).writable) {
      BeginConserves(env, asked);
      BeginIsFed(env, s.tick, s.steering, s.follow, asked);
      RunConserves(env, host, Begin(env, asked));
      RunIsFed(env, host, s.tick, s.steering, s.follow, Begin(env, asked));
    }
  }
}
