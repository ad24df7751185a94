/** A whole run, from a new session: the provider asks for two tools, the first is not active, the second is
    cancelled. `Continue` after it sends a request in which a call has no result. */
module AbortedRun {
  import opened Types
  import opened Sequences
  import opened Sessions
  import opened BranchLaws
  import opened SessionContext
  import opened Transform
  import opened TransformLaws
  import ToolCallIds
  import opened AnthropicEncoder
  import opened Forks
  import opened Failures
  import opened ConversationLog
  import opened AgentRun
  import opened AgentRuntime
  import opened RunJournal
  import opened RunSession
  import opened EndToEnd
  import opened Continuation

  const FIRST_CALL := ToolCall("a", "read", "{}", "")
  const SECOND_CALL := ToolCall("b", "bash", "{}", "")
  const CALLS := [FIRST_CALL, SECOND_CALL]
  const ANSWER := Answer(CALLS, OtherStop("toolUse"), "")

  /** Nobody queues or aborts anything; only `bash` is active, and it is cancelled. */
  function Moment(target: Model): Tick {
    Tick([], [], All, All, false, target, {"bash"}, false, false, false, false, ANSWER, ToolCanceled, None, 0, true,
      "", 1, _ => 0)
  }

  function World(target: Model): Env {
    (n: nat) => Moment(target)
  }

  function Said(target: Model): Logged {
    Logged(AssistantMessage(target, ANSWER, 1), FromProvider)
  }

  const INACTIVE := Logged(
    ToolResultMessage("a", "read", ToolOutput([Text("tool is not active: read", "")], true), 1), FromTool)

  function Session0(host: Host): Run {
    Run(Done(Finished), 0, 0, [], FromSteering, NO_MESSAGE, Failures.Fresh(host), [], [], false, 0, [], [], [], 0, [],
      [])
  }

  lemma TwoCalls(target: Model)
    ensures Calls(Said(target).message.content) == CALLS
  {
    assert CALLS[1..] == [SECOND_CALL] && [SECOND_CALL][1..] == [];
    assert Calls([SECOND_CALL]) == [SECOND_CALL] + [];
    assert Calls(CALLS) == [FIRST_CALL] + [SECOND_CALL];
  }

  lemma Quiet(target: Model, s: Run)
    ensures Arrive(World(target), s) == s.(tick := s.tick + 1)
  {
    assert s.steering + [] == s.steering && s.steered + [] == s.steered;
    assert s.follow + [] == s.follow && s.followed + [] == s.followed;
  }

  predicate Idle(s: Run) {
    s.pending == [] && s.steering == [] && s.follow == [] && !s.canceled && s.session.file != ""
  }

  lemma UpToCall(host: Host, s: Run, target: Model)
    requires s.pc.Head? && s.turn == 0 && Idle(s)
    ensures BeforeCall(World(target), host, s) == s.(pc := Calling, tick := s.tick + 2)
    ensures RunToEnd(World(target), host, s) == RunToEnd(World(target), host, s.(pc := Calling, tick := s.tick + 2))
  {
    var env := World(target);
    Quiet(target, s);
    var head := s.(pc := Deliver, tick := s.tick + 1);
    Quiet(target, head);
    Unfold(env, host, s);
    assert Step(env, host, s) == head;
    Unfold(env, host, head);
    Unfold(env, host, head.(pc := Threshold));
    assert Step(env, host, head.(pc := Threshold)) == s.(pc := Calling, tick := s.tick + 2);
  }

  function Say(host: Host, s: Session, l: Logged): Session {
    Append(host, s, MessageBody(Some(l.message)), "", true)
  }

  /** The state after an answer with tool calls. */
  function AfterCalls(host: Host, a: Run, t: Tick): Run
    requires t.reply.Answer?
  {
    var m := AssistantMessage(t.model, t.reply, t.now);
    Ask(a, t).(
      pc := Tools(0), retry := 0, last := m, journal := a.journal + [Logged(m, FromProvider)],
      session := Append(host, a.session, MessageBody(Some(m)), t.timestamp, t.writable))
  }

  lemma RepliesWithCalls(host: Host, a: Run, t: Tick)
    requires t.reply.Answer? && Calls(t.reply.content) != [] && CanAppend(a.session, t.writable)
    ensures OnReply(host, a, t) == AfterCalls(host, a, t)
  {
    OnCalls(host, Ask(a, t), t);
  }

  lemma OnCalls(host: Host, a: Run, t: Tick)
    requires t.reply.Answer? && Calls(t.reply.content) != [] && CanAppend(a.session, t.writable)
    ensures var m := AssistantMessage(t.model, t.reply, t.now);
      OnAnswer(host, a, t) == a.(
        pc := Tools(0), retry := 0, last := m, journal := a.journal + [Logged(m, FromProvider)],
        session := Append(host, a.session, MessageBody(Some(m)), t.timestamp, t.writable))
  {}

  lemma StepIsReply(env: Env, host: Host, s: Run, a: Run, t: Tick)
    requires s.pc.Calling? && t == env(s.tick) && a == Arrive(env, s)
    ensures Step(env, host, s) == OnReply(host, a, t)
  {}

  function Answered(host: Host, s: Run, target: Model): Run {
    AfterCalls(host, s.(tick := s.tick + 1), Moment(target))
  }

  lemma AnswersWithCalls(host: Host, s: Run, target: Model)
    requires s.pc.Calling? && Idle(s)
    ensures Step(World(target), host, s) == Answered(host, s, target)
  {
    var a, t := s.(tick := s.tick + 1), Moment(target);
    Quiet(target, s);
    assert Calls(t.reply.content) != [] by { TwoCalls(target); }
    RepliesWithCalls(host, a, t);
    StepIsReply(World(target), host, s, a, t);
  }

  /** The state after the result of the inactive tool. */
  function Refused(host: Host, s: Run): Run {
    s.(pc := Tools(1), tick := s.tick + 1, session := Say(host, s.session, INACTIVE), journal := s.journal + [INACTIVE])
  }

  lemma RefusesFirst(host: Host, s: Run, target: Model)
    requires s.pc == Tools(0) && Idle(s) && s.last == Said(target).message
    ensures Step(World(target), host, s) == Refused(host, s)
  {
    Quiet(target, s);
    TwoCalls(target);
    StepRuns(World(target), host, s, 0);
    assert "tool is not active: " + "read" == "tool is not active: read";
  }

  lemma CancelsSecond(host: Host, s: Run, target: Model)
    requires s.pc == Tools(1) && Idle(s) && s.last == Said(target).message
    ensures Step(World(target), host, s) == s.(pc := Done(Aborted), tick := s.tick + 1)
  {
    Quiet(target, s);
    TwoCalls(target);
    StepRuns(World(target), host, s, 1);
  }

  lemma RunIsAborted(host: Host, s: Run, target: Model)
    requires s.pc.Head? && s.turn == 0 && Idle(s)
    ensures var end := RunToEnd(World(target), host, s);
      && end.pc == Done(Aborted) && end.journal == s.journal + [Said(target)] + [INACTIVE]
      && end.turnStart == s.turnStart
      && end.session == Say(host, Say(host, s.session, Said(target)), INACTIVE)
      && end.steering == [] && end.follow == [] && |end.requests| == |s.requests| + 1
  {
    var env := World(target);
    var calling := s.(pc := Calling, tick := s.tick + 2);
    UpToCall(host, s, target);
    AnswersWithCalls(host, calling, target);
    Unfold(env, host, calling);
    var answered := Answered(host, calling, target);
    RefusesFirst(host, answered, target);
    Unfold(env, host, answered);
    var refused := Refused(host, answered);
    CancelsSecond(host, refused, target);
    Unfold(env, host, refused);
  }

  // ----- The session it leaves -----

  function Asking(): Body {
    MessageBody(Some(UserMessage("go", 1)))
  }

  /** A question, an answer with two calls, and one result. */
  predicate IsCutShort(s: Session, target: Model) {
    && Grown(s) && Tallied(s) && s.file != ""
    && Bodies(s.entries) == [Asking(), MessageBody(Some(Said(target).message)), MessageBody(Some(INACTIVE.message))]
  }

  lemma SayGrows(host: Host, s: Session, body: Body)
    requires host.draw == Tally && Grown(s) && Tallied(s) && s.file != ""
    ensures var after := Append(host, s, body, "", true);
      Grown(after) && Tallied(after) && after.file != "" && Bodies(after.entries) == Bodies(s.entries) + [body]
  {
    AppendTallies(host, s, body, "");
    GrowOne(host, s, body, "");
  }

  function Questioned(host: Host): Session {
    Append(host, Failures.Fresh(host), Asking(), "", true)
  }

  lemma ThreeBodies(none: seq<Body>, a: Body, b: Body, c: Body)
    requires none == []
    ensures none + [a] + [b] + [c] == [a, b, c]
  {}

  lemma FreshGrows(host: Host)
    ensures var s := Failures.Fresh(host); Grown(s) && Tallied(s) && s.file != "" && Bodies(s.entries) == []
  {}

  lemma SaidTwice(host: Host, s: Session, target: Model)
    requires host.draw == Tally && Grown(s) && Tallied(s) && s.file != "" && Bodies(s.entries) == []
    ensures var asked := Append(host, s, Asking(), "", true);
      asked.file != "" && IsCutShort(Say(host, Say(host, asked, Said(target)), INACTIVE), target)
  {
    var said, refused := MessageBody(Some(Said(target).message)), MessageBody(Some(INACTIVE.message));
    var asked := Append(host, s, Asking(), "", true);
    SayGrows(host, s, Asking());
    SayGrows(host, asked, said);
    SayGrows(host, Append(host, asked, said, "", true), refused);
    ThreeBodies(Bodies(s.entries), Asking(), said, refused);
  }

  function Untimed3(target: Model): seq<Message> {
    [UserMessage("go", 0), Said(target).message.(timestamp := 0), INACTIVE.message.(timestamp := 0)]
  }

  lemma CutShortLog(s: Session, target: Model)
    requires IsCutShort(s, target)
    ensures LogOf(Bodies(s.entries)) == Untimed3(target)
  {
    var a, b, c := Asking(), MessageBody(Some(Said(target).message)), MessageBody(Some(INACTIVE.message));
    LogOne(a);
    LogOne(b);
    LogOne(c);
    LogSplit([a], [b]);
    LogSplit([a] + [b], [c]);
    assert [a] + [b] + [c] == Bodies(s.entries);
  }

  lemma HistoryShape(history: seq<Message>, target: Model)
    requires Untimed(history) == Untimed3(target)
    ensures |history| == 3 && history[2].role.ToolResult?
    ensures UsedIds(history, target, false) == {} && !Closed(history)
  {
    assert forall k :: 0 <= k < |history| ==> Untimed(history)[k] == history[k].(timestamp := 0);
    assert history[0].role.User? && history[2].role.ToolResult?;
    assert SameModel(history[1], target) && history[1].role.Assistant?;
    OpenIgnoresTime(history, {});
    ThreeWait(target);
  }

  lemma ThreeWait(target: Model)
    ensures Open(Untimed3(target), {}) != {}
  {
    var msgs := Untimed3(target);
    assert msgs[1..][1..] == [msgs[2]] && [msgs[2]][1..] == [];
    assert !Dropped(msgs[1]) && OpenAfter(msgs[1], {}) == CallIds(CALLS);
    assert SECOND_CALL in CALLS && "b" in CallIds(CALLS) - {"a"};
    assert Open([msgs[2]], CallIds(CALLS)) == CallIds(CALLS) - {"a"};
    assert Open(msgs, {}) == Open(msgs[1..], {}) == Open([msgs[2]], CallIds(CALLS));
  }

  lemma CutShortContext(s: Session, target: Model, clock: Clock)
    requires IsCutShort(s, target)
    ensures TreeSession(s) && s.leaf != "" && LastCompaction(s.entries) < 0
    ensures BranchOf(s.entries, s.leaf) == s.entries && Branch(s, s.leaf) == s.entries
    ensures Untimed(ContextMessages(s.entries, clock)) == Untimed3(target)
  {
    LeafBranch(s);
    assert forall k :: 0 <= k < |s.entries| ==> !Bodies(s.entries)[k].Compaction?;
    CutShortLog(s, target);
    ContextIsLog(s.entries, clock);
  }

  lemma BeginsIdle(s: Run, target: Model)
    requires s.steering == [] && s.follow == [] && s.session.file != ""
    ensures var begun := Begin(World(target), s);
      && begun.pc.Head? && begun.turn == 0 && Idle(begun)
      && (begun.session, begun.journal, begun.turnStart, begun.requests)
        == (s.session, s.journal, s.turnStart, s.requests)
  {
    Quiet(target, s);
    var steered := TakeSteering(Arrive(World(target), s), All);
    assert steered.pending == [] && steered.steering == [];
    Quiet(target, steered);
  }

  lemma AskedHere(host: Host, target: Model)
    ensures var asked := Asked(World(target), host, Session0(host), "go");
      && asked.session == Questioned(host) && CanAppend(Failures.Fresh(host), true)
      && asked.steering == [] && asked.follow == [] && asked.journal == [] && asked.turnStart == 0
  {
    assert TrimSpace("go") == "go";
    Quiet(target, AgentRun.Fresh(Session0(host)));
  }

  lemma AbortsFrom(host: Host, asked: Run, target: Model)
    requires asked.session.file != "" && asked.steering == [] && asked.follow == []
    requires asked.journal == [] && asked.turnStart == 0
    ensures var end := RunToEnd(World(target), host, Begin(World(target), asked));
      && end.pc == Done(Aborted) && end.journal == [Said(target), INACTIVE] && end.turnStart == 0
      && end.session == Say(host, Say(host, asked.session, Said(target)), INACTIVE)
      && end.steering == [] && end.follow == []
  {
    BeginsIdle(asked, target);
    RunIsAborted(host, Begin(World(target), asked), target);
    assert [] + [Said(target)] + [INACTIVE] == [Said(target), INACTIVE];
  }

  lemma PromptRuns(env: Env, host: Host, s: Run, text: string)
    requires TrimSpace(text) != "" && CanAppend(s.session, env(s.tick).writable)
    ensures Prompted(env, host, s, text) == RunToEnd(env, host, Begin(env, Asked(env, host, s, text)))
  {}

  lemma PromptIsAborted(host: Host, target: Model)
    requires host.draw == Tally
    ensures var end := Prompted(World(target), host, Session0(host), "go");
      && end.pc == Done(Aborted) && end.journal == [Said(target), INACTIVE] && end.turnStart == 0
      && IsCutShort(end.session, target) && end.steering == [] && end.follow == []
  {
    var asked := Asked(World(target), host, Session0(host), "go");
    assert TrimSpace("go") == "go";
    AskedHere(host, target);
    PromptRuns(World(target), host, Session0(host), "go");
    FreshGrows(host);
    SaidTwice(host, Failures.Fresh(host), target);
    AbortsFrom(host, asked, target);
  }

  /** `Continue` asks the provider once, with the conversation as it was left, and is aborted in the same way. */
  lemma ContinueAsks(host: Host, s: Run, target: Model)
    requires host.draw == Tally && s.steering == [] && s.follow == [] && IsCutShort(s.session, target)
    ensures var env, end := World(target), Continued(World(target), host, s);
      var begun := Begin(env, Resumed(env, s));
      && |end.requests| == 1 && !end.session.clash
      && begun.pending == [] && BeforeCall(env, host, begun).session == s.session
      && Untimed(end.requests[0].history) == Untimed3(target)
  {
    var env, resumed := World(target), Resumed(World(target), s);
    var begun := Begin(env, resumed);
    Quiet(target, AgentRun.Fresh(s));
    ContinuesHere(s, resumed, target);
    BeginsIdle(resumed, target);
    RunsOn(host, begun, target);
    NeverClashes(host, s.session, target);
  }

  lemma ContinuesHere(s: Run, resumed: Run, target: Model)
    requires IsCutShort(s.session, target) && resumed.session == s.session
    ensures CanContinue(resumed, Moment(target).clock)
  {
    CutShortContext(s.session, target, Moment(target).clock);
    HistoryShape(ContextMessages(s.session.entries, Moment(target).clock), target);
  }

  lemma RunsOn(host: Host, begun: Run, target: Model)
    requires begun.pc.Head? && begun.turn == 0 && Idle(begun) && begun.requests == []
      && IsCutShort(begun.session, target)
    ensures var env := World(target);
      var end := RunToEnd(env, host, begun);
      && |end.requests| == 1 && end.session == Say(host, Say(host, begun.session, Said(target)), INACTIVE)
      && BeforeCall(env, host, begun).session == begun.session
      && Untimed(end.requests[0].history) == Untimed3(target)
  {
    UpToCall(host, begun, target);
    RunIsAborted(host, begun, target);
    FirstRequest(World(target), host, begun);
    CutShortContext(begun.session, target, Moment(target).clock);
  }

  lemma NeverClashes(host: Host, s: Session, target: Model)
    requires host.draw == Tally && Grown(s) && Tallied(s) && s.file != ""
    ensures !Say(host, Say(host, s, Said(target)), INACTIVE).clash
  {
    SayGrows(host, s, MessageBody(Some(Said(target).message)));
    SayGrows(host, Say(host, s, Said(target)), MessageBody(Some(INACTIVE.message)));
  }

  lemma GivesIds(target: Model)
    ensures ProviderGivesIds(World(target))
    ensures CallsHaveIds(Untimed3(target)) && NoOtherRoles(Untimed3(target))
  {
    assert forall b :: b in CALLS ==> b == FIRST_CALL || b == SECOND_CALL;
  }

  lemma ContinueIsUnpaired(host: Host, s: Run, target: Model, clock: Clock, random: RandomIds)
    requires host.draw == Tally && s.steering == [] && s.follow == [] && IsCutShort(s.session, target)
    ensures var requests := Continued(World(target), host, s).requests;
      |requests| == 1 && !Paired(AnthropicRequest(requests[0].history, target, clock, random))
  {
    var env := World(target);
    ContinueAsks(host, s, target);
    GivesIds(target);
    CutShortContext(s.session, target, env(s.tick).clock);
    CutShortLog(s.session, target);
    HistoryShape(ContextMessages(s.session.entries, env(s.tick).clock), target);
    HistoryShape(Continued(env, host, s).requests[0].history, target);
    ContinueFirstRequestIff(env, host, s, target, clock, random);
  }

  /** A prompt aborted between two results, and `Continue` after it with nothing queued: the request of `Continue`
      holds a call without a result. */
  lemma ContinueAfterAbortIsUnpaired(host: Host, target: Model, clock: Clock, random: RandomIds)
    requires host.draw == Tally
    ensures var end := Prompted(World(target), host, Session0(host), "go");
      var requests := Continued(World(target), host, end).requests;
      && end.pc == Done(Aborted)
      && |requests| == 1 && !Paired(AnthropicRequest(requests[0].history, target, clock, random))
  {
    PromptIsAborted(host, target);
    ContinueIsUnpaired(host, Prompted(World(target), host, Session0(host), "go"), target, clock, random);
  }
}
