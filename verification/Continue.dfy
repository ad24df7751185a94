/** `Continue` (internal/agent/runtime.go): the loop without a new user message, after any earlier runs. */
module Continuation {
  import opened Types
  import opened Sequences
  import opened Sessions
  import opened SessionContext
  import opened Transform
  import opened TransformLaws
  import ToolCallIds
  import opened AnthropicEncoder
  import opened ConversationLog
  import opened AgentRun
  import opened RunJournal
  import opened RunSession
  import opened Compactions
  import opened TurnShown
  import opened EndToEnd

  predicate JournalGrows(s: Run, s': Run) {
    s.journal <= s'.journal && s.requests <= s'.requests && (s.session.clash ==> s'.session.clash)
  }

  /** A run whose first batch is held or was delivered: it says something before it asks. */
  predicate Lead(s: Run) {
    if s.journal == [] then s.pending != [] && s.requests == [] && (s.pc.Head? || s.pc.Deliver? || s.pc.Done?)
    else IsQueued(s.journal[0])
  }

  lemma AnswerGrows(host: Host, a: Run, t: Tick)
    requires t.reply.Answer?
    ensures JournalGrows(a, OnAnswer(host, a, t))
  {}

  lemma FailureGrows(host: Host, a: Run, t: Tick)
    requires t.reply.Failure?
    ensures JournalGrows(a, OnFailure(host, a, t))
  {
    FailureLogsNothing(host, a, t);
  }

  lemma CallingGrows(env: Env, host: Host, s: Run)
    ensures JournalGrows(s, StepCalling(env, host, s))
  {
    var t := env(s.tick);
    var a := Ask(Arrive(env, s), t);
    assert JournalGrows(s, a);
    match t.reply
    case Answer(_, _, _) => AnswerGrows(host, a, t);
    case Failure(_, _, _, _) => FailureGrows(host, a, t);
    case NoProvider(_) =>
  }

  lemma ToolsGrow(env: Env, host: Host, s: Run)
    ensures s.pc.Tools? ==> JournalGrows(s, StepTools(env, host, s))
    ensures s.pc.Skipping? ==> JournalGrows(s, StepSkipping(env, host, s))
  {}

  lemma StepGrows(env: Env, host: Host, s: Run)
    ensures JournalGrows(s, Step(env, host, s))
  {
    match s.pc
    case Calling => CallingGrows(env, host, s);
    case Tools(_) => ToolsGrow(env, host, s);
    case Skipping(_) => ToolsGrow(env, host, s);
    case Deliver => assert JournalGrows(s, StepDeliver(env, host, s));
    case _ =>
  }

  lemma StepKeepsLead(env: Env, host: Host, s: Run)
    requires JournalKept(s) && Lead(s)
    ensures Lead(Step(env, host, s))
  {
    StepGrows(env, host, s);
    if s.journal == [] {
      match s.pc
      case Head => assert Lead(StepHead(env, s));
      case Deliver =>
        assert s.pending[0] in s.pending;
        assert Lead(StepDeliver(env, host, s));
      case Done(_) =>
    }
  }

  lemma {:induction false} RunKeepsLead(env: Env, host: Host, s: Run)
    requires InBounds(s) && JournalKept(s) && Lead(s)
    ensures Lead(RunToEnd(env, host, s))
    decreases MAX_TURNS - s.turn, Rank(s.pc), Left(s)
  {
    if !s.pc.Done? {
      StepDescends(env, host, s);
      StepKeepsJournal(env, host, s);
      StepKeepsLead(env, host, s);
      RunKeepsLead(env, host, Step(env, host, s));
    }
  }

  /** `Continue`, on any session: if the conversation ends with no call waiting, or if something queued is delivered
      first, every request of its run is sent paired. */
  lemma ContinueIsPaired(
    env: Env, host: Host, s: Run, r: Request, target: Model, clock: Clock, random: RandomIds)
    requires AllUsers(s.steering) && AllUsers(s.follow) && ProviderGivesIds(env)
    requires LeafSet(s.session)
    requires CallsHaveIds(SessionLog(s.session)) && NoOtherRoles(SessionLog(s.session))
    requires r in Continued(env, host, s).requests && !Continued(env, host, s).session.clash
    requires NoSharedIds(r.history, target)
    requires Closed(SessionLog(s.session)) || Begin(env, Resumed(env, s)).pending != []
    ensures Paired(AnthropicRequest(r.history, target, clock, random))
  {
    var base, end, begun := SessionLog(s.session), Continued(env, host, s), Begin(env, Resumed(env, s));
    ContinueKeepsSession(env, host, s);
    assert Inherits(base, r.history);
    if begun.pending != [] {
      ArriveHoldsUsers(env, Fresh(s));
      BeginKeepsJournal(env, Resumed(env, s));
      RunKeepsLead(env, host, begun);
      assert end.journal != [] && LeadsWithUser(end.journal);
    }
    assert Closed(r.history);
    SettledHistoryIsPaired(r.history, target, clock, random);
  }

  lemma {:induction false} RunGrows(env: Env, host: Host, s: Run)
    requires InBounds(s)
    ensures JournalGrows(s, RunToEnd(env, host, s))
    decreases MAX_TURNS - s.turn, Rank(s.pc), Left(s)
  {
    if !s.pc.Done? {
      StepDescends(env, host, s);
      StepGrows(env, host, s);
      RunGrows(env, host, Step(env, host, s));
    }
  }

  /** Where a run stands before its first request, if it holds no batch: after the loop test, and after the
      threshold compaction, which may hide a part of the conversation. */
  function BeforeCall(env: Env, host: Host, begun: Run): Run {
    StepThreshold(env, host, StepHead(env, begun).(pc := Threshold))
  }

  lemma Unfold(env: Env, host: Host, s: Run)
    requires InBounds(s) && !s.pc.Done?
    ensures InBounds(Step(env, host, s)) && RunToEnd(env, host, s) == RunToEnd(env, host, Step(env, host, s))
  {
    StepDescends(env, host, s);
  }

  lemma StepsToCall(env: Env, host: Host, begun: Run)
    requires begun.pc.Head? && begun.turn == 0 && begun.pending == [] && begun.requests == []
    ensures var head := Step(env, host, begun);
      if head.pc.Done? then head.requests == []
      else
        var before := Step(env, host, Step(env, host, head));
        && head.pc.Deliver? && head.pending == [] && Step(env, host, head).pc.Threshold?
        && before == BeforeCall(env, host, begun) && before.pc.Calling? && before.requests == []
  {}

  lemma FirstAsked(env: Env, host: Host, asked: Run)
    requires InBounds(asked) && (asked.requests == [] ==> asked.pc.Done?)
    requires RunToEnd(env, host, asked).requests != []
    ensures asked.requests != [] && RunToEnd(env, host, asked).requests[0] == asked.requests[0]
  {
    RunGrows(env, host, asked);
  }

  /** A run that gets to ask, with no batch held, comes to its first call. */
  lemma RunFromCall(env: Env, host: Host, begun: Run)
    requires begun.pc.Head? && begun.turn == 0 && begun.pending == [] && begun.requests == []
    requires RunToEnd(env, host, begun).requests != []
    ensures var before := BeforeCall(env, host, begun);
      && InBounds(before) && before.pc.Calling? && before.requests == []
      && RunToEnd(env, host, begun) == RunToEnd(env, host, before)
  {
    var head := Step(env, host, begun);
    StepsToCall(env, host, begun);
    Unfold(env, host, begun);
    if head.pc.Done? {
      FirstAsked(env, host, head);
    } else {
      Unfold(env, host, head);
      Unfold(env, host, Step(env, host, head));
    }
  }

  /** With no batch held the first request shows the context the session has then. */
  lemma FirstRequest(env: Env, host: Host, begun: Run)
    requires begun.pc.Head? && begun.turn == 0 && begun.pending == [] && begun.requests == []
    requires RunToEnd(env, host, begun).requests != []
    ensures var before := BeforeCall(env, host, begun);
      RunToEnd(env, host, begun).requests[0].history
      == ContextMessages(Branch(before.session, before.session.leaf), env(before.tick).clock)
  {
    var before := BeforeCall(env, host, begun);
    RunFromCall(env, host, begun);
    Unfold(env, host, before);
    AsksOnce(env, host, before);
    FirstAsked(env, host, Step(env, host, before));
  }

  lemma ClashBefore(env: Env, host: Host, begun: Run)
    requires begun.pc.Head? && begun.turn == 0 && begun.pending == [] && begun.requests == []
    requires RunToEnd(env, host, begun).requests != [] && !RunToEnd(env, host, begun).session.clash
    ensures !BeforeCall(env, host, begun).session.clash
  {
    RunFromCall(env, host, begun);
    RunGrows(env, host, BeforeCall(env, host, begun));
  }

  lemma SessionBefore(env: Env, host: Host, begun: Run) returns (t: Tick)
    requires begun.turn == 0
    ensures var before := BeforeCall(env, host, begun).session;
      || before == begun.session
      || before == Compacted(host, begun.session, t.summary, t.tokens, t.timestamp, t.writable)
  {
    var head := StepHead(env, begun).(pc := Threshold);
    HeadSession(env, begun);
    ThresholdSession(env, host, head);
    t := env(head.tick);
  }

  lemma HeadSession(env: Env, s: Run)
    ensures StepHead(env, s).session == s.session
  {}

  lemma ThresholdSession(env: Env, host: Host, s: Run)
    ensures var after, t := StepThreshold(env, host, s).session, env(s.tick);
      || after == s.session
      || after == Compacted(host, s.session, t.summary, t.tokens, t.timestamp, t.writable)
  {}

  lemma BeginsHere(env: Env, s: Run)
    ensures var begun := Begin(env, Resumed(env, s));
      && begun.session == s.session && begun.pc.Head? && begun.turn == 0 && begun.requests == []
  {}

  lemma AsksOnce(env: Env, host: Host, before: Run)
    requires before.pc.Calling? && before.requests == []
    ensures var asked, t := StepCalling(env, host, before), env(before.tick);
      if t.reply.NoProvider? then asked.requests == [] && asked.pc.Done?
      else asked.requests == [Request(ContextMessages(Branch(before.session, before.session.leaf), t.clock), t.model)]
  {}

  /** Two readings of one branch wait for the same calls. */
  lemma SameWaiting(branch: seq<Entry>, clock: Clock, clock': Clock)
    ensures Closed(ContextMessages(branch, clock)) <==> Closed(ContextMessages(branch, clock'))
  {
    ContextUntimed(branch, clock, clock');
    OpenIgnoresTime(ContextMessages(branch, clock), {});
    OpenIgnoresTime(ContextMessages(branch, clock'), {});
  }

  /** `Continue` otherwise, with nothing to deliver: its first request is sent paired exactly when no call waits at
      the end of the context before it. Unless the threshold compaction hides a part of it on the way, that is the
      context that `Continue` itself looks at. */
  lemma ContinueFirstRequestIff(
    env: Env, host: Host, s: Run, target: Model, clock: Clock, random: RandomIds)
    requires AllUsers(s.steering) && AllUsers(s.follow) && ProviderGivesIds(env)
    requires LeafSet(s.session)
    requires CallsHaveIds(SessionLog(s.session)) && NoOtherRoles(SessionLog(s.session))
    requires Continued(env, host, s).requests != [] && !Continued(env, host, s).session.clash
    requires Begin(env, Resumed(env, s)).pending == []
    requires var history := Continued(env, host, s).requests[0].history;
      NoSharedIds(history, target) && FreshNames(history, target, ToolCallIds.AnthropicNormalizer())
    ensures Paired(AnthropicRequest(Continued(env, host, s).requests[0].history, target, clock, random))
       <==> var before := BeforeCall(env, host, Begin(env, Resumed(env, s))).session;
            Closed(ContextMessages(Branch(before, before.leaf), env(s.tick).clock))
  {
    var sent := FirstHistory(env, host, s);
    var before := BeforeCall(env, host, Begin(env, Resumed(env, s))).session;
    ReadingIsPairedIff(Branch(before, before.leaf), env(s.tick).clock, sent,
      Continued(env, host, s).requests[0].history, target, clock, random);
  }

  lemma ContinueShape(env: Env, host: Host, s: Run, r: Request)
    requires AllUsers(s.steering) && AllUsers(s.follow) && ProviderGivesIds(env)
    requires LeafSet(s.session)
    requires CallsHaveIds(SessionLog(s.session)) && NoOtherRoles(SessionLog(s.session))
    requires r in Continued(env, host, s).requests && !Continued(env, host, s).session.clash
    ensures CallsHaveIds(r.history) && NoOtherRoles(r.history)
  {
    ContinueKeepsSession(env, host, s);
    assert Inherits(SessionLog(s.session), r.history);
  }

  lemma FirstHistory(env: Env, host: Host, s: Run) returns (sent: Clock)
    requires AllUsers(s.steering) && AllUsers(s.follow) && ProviderGivesIds(env)
    requires LeafSet(s.session)
    requires CallsHaveIds(SessionLog(s.session)) && NoOtherRoles(SessionLog(s.session))
    requires Continued(env, host, s).requests != [] && !Continued(env, host, s).session.clash
    requires Begin(env, Resumed(env, s)).pending == []
    ensures var history := Continued(env, host, s).requests[0].history;
      var before := BeforeCall(env, host, Begin(env, Resumed(env, s))).session;
      history == ContextMessages(Branch(before, before.leaf), sent) && CallsHaveIds(history) && NoOtherRoles(history)
  {
    var begun := Begin(env, Resumed(env, s));
    ContinueShape(env, host, s, Continued(env, host, s).requests[0]);
    FirstRequest(env, host, begun);
    sent := env(BeforeCall(env, host, begun).tick).clock;
  }

  lemma ReadingIsPairedIff(
    branch: seq<Entry>, seen: Clock, sent: Clock, history: seq<Message>, target: Model, clock: Clock, random: RandomIds)
    requires history == ContextMessages(branch, sent) && CallsHaveIds(history) && NoOtherRoles(history)
    requires NoSharedIds(history, target) && FreshNames(history, target, ToolCallIds.AnthropicNormalizer())
    ensures Paired(AnthropicRequest(history, target, clock, random)) <==> Closed(ContextMessages(branch, seen))
  {
    SameWaiting(branch, seen, sent);
    HistoryIsPairedIff(history, target, clock, random);
  }

  // ----- Continue after an abort in the middle of the tools -----

  /** The calls of the turn in which a run ended that have no result. */
  function LeftWaiting(end: Run): set<Id>
    requires end.turnStart < |end.journal|
  {
    Waits(end.journal[end.turnStart..])
  }

  /** A run that ended inside a turn, whose answer is kept on replay, leaves exactly the calls without a result
      waiting at the end of the conversation. */
  lemma CutShortLeavesWaiting(env: Env, host: Host, s: Run, text: string)
    requires AllUsers(s.steering) && AllUsers(s.follow) && ProviderGivesIds(env)
    requires !Prompted(env, host, s, text).session.clash
    requires var end := Prompted(env, host, s, text);
      end.turnStart < |end.journal| && !Dropped(end.journal[end.turnStart].message)
    ensures var end := Prompted(env, host, s, text);
      Open(SessionLog(end.session), {}) == LeftWaiting(end)
  {
    PromptKeepsSession(env, host, s, text);
    PromptKeepsJournal(env, host, s, text);
    LogLeaves(Base(s.session, text), Prompted(env, host, s, text).journal, Prompted(env, host, s, text).turnStart);
  }

  lemma LogLeaves(base: seq<Message>, journal: seq<Logged>, start: nat)
    requires start < |journal| && TurnPrefix(journal[start..]) && !Dropped(journal[start].message)
    ensures Open(base + Untimed(Messages(journal)), {}) == Waits(journal[start..])
  {
    var turns, current := journal[..start], journal[start..];
    SplitAt(journal, start);
    MessagesSplit(turns, current);
    OpenSplit(base, Untimed(Messages(journal)), {});
    OpenIgnoresTime(Messages(journal), Open(base, {}));
    OpenSplit(Messages(turns), Messages(current), Open(base, {}));
    TurnLeaves(current, Open(Messages(turns), Open(base, {})));
  }

  /** The threshold compaction that comes before the first request hid a part of the turn: it keeps eight messages. */
  predicate HidesTurn(before: Session, end: Run)
    requires end.turnStart < |end.journal|
  {
    |before.entries| > |end.session.entries| && |end.journal| - end.turnStart > KEEP
  }

  lemma BeforeKeepsClash(env: Env, host: Host, end: Run)
    ensures end.session.clash ==> BeforeCall(env, host, Begin(env, Resumed(env, end))).session.clash
  {
    BeginsHere(env, end);
    var _ := SessionBefore(env, host, Begin(env, Resumed(env, end)));
  }

  /** After a run that ended inside a turn, what the context before the first request waits for. */
  lemma WaitingBefore(env: Env, host: Host, end: Run, clock: Clock)
    requires end.turnStart < |end.journal| && TurnPrefix(end.journal[end.turnStart..])
    requires !Dropped(end.journal[end.turnStart].message) && Shown(end) && end.session.leaf != ""
    requires !BeforeCall(env, host, Begin(env, Resumed(env, end))).session.clash
    ensures var before := BeforeCall(env, host, Begin(env, Resumed(env, end))).session;
      Open(ContextMessages(Branch(before, before.leaf), clock), {})
      == if HidesTurn(before, end) then {} else LeftWaiting(end)
  {
    var begun := Begin(env, Resumed(env, end));
    BeginsHere(env, end);
    var t := SessionBefore(env, host, begun);
    SessionWaits(host, end.session, end.journal[end.turnStart..], t.summary, t.tokens, t.timestamp, t.writable, clock);
  }

  /** So `Continue` after it, with nothing to deliver, sends its first request paired exactly when every call of the
      turn has its result, or the threshold compaction has just hidden their answer. Earlier compactions do not
      matter. */
  lemma ContinueAfterAbortIff(
    env: Env, host: Host, s: Run, text: string, env': Env, target: Model, clock: Clock, random: RandomIds)
    requires AllUsers(s.steering) && AllUsers(s.follow) && ProviderGivesIds(env) && ProviderGivesIds(env')
    requires CallsHaveIds(SessionLog(s.session)) && NoOtherRoles(SessionLog(s.session))
    requires var end := Prompted(env, host, s, text);
      end.turnStart < |end.journal| && !Dropped(end.journal[end.turnStart].message)
    requires var end := Prompted(env, host, s, text);
      && Continued(env', host, end).requests != [] && !Continued(env', host, end).session.clash
      && Begin(env', Resumed(env', end)).pending == []
    requires var history := Continued(env', host, Prompted(env, host, s, text)).requests[0].history;
      NoSharedIds(history, target) && FreshNames(history, target, ToolCallIds.AnthropicNormalizer())
    ensures var end := Prompted(env, host, s, text);
      var before := BeforeCall(env', host, Begin(env', Resumed(env', end))).session;
      Paired(AnthropicRequest(Continued(env', host, end).requests[0].history, target, clock, random))
      <==> LeftWaiting(end) == {} || HidesTurn(before, end)
  {
    var end := Prompted(env, host, s, text);
    BeginsHere(env', end);
    ClashBefore(env', host, Begin(env', Resumed(env', end)));
    BeforeKeepsClash(env', host, end);
    PromptIsUsable(env, host, s, text);
    PromptKeepsJournal(env, host, s, text);
    PromptShowsTurn(env, host, s, text);
    WaitingBefore(env', host, end, env'(end.tick).clock);
    ContinueFirstRequestIff(env', host, end, target, clock, random);
  }

  /** What a prompt that got to append leaves to the next one. */
  lemma PromptIsUsable(env: Env, host: Host, s: Run, text: string)
    requires AllUsers(s.steering) && AllUsers(s.follow) && ProviderGivesIds(env)
    requires CallsHaveIds(SessionLog(s.session)) && NoOtherRoles(SessionLog(s.session))
    requires Prompted(env, host, s, text).journal != [] && !Prompted(env, host, s, text).session.clash
    ensures var end := Prompted(env, host, s, text);
      && AllUsers(end.steering) && AllUsers(end.follow)
      && end.session.leaf != ""
      && CallsHaveIds(SessionLog(end.session)) && NoOtherRoles(SessionLog(end.session))
  {
    var end, base := Prompted(env, host, s, text), Base(s.session, text);
    PromptKeepsSession(env, host, s, text);
    PromptKeepsJournal(env, host, s, text);
    BaseIsClosed(SessionLog(s.session), text);
    JournalShape(end);
    AddedShape(base, end.journal);
  }

  lemma JournalShape(end: Run)
    requires JournalKept(end) && end.pc.Done?
    ensures forall l :: l in end.journal ==>
      !l.message.role.OtherRole? && (l.message.role.Assistant? ==> l.source.FromProvider?)
  {
    var turns, current := end.journal[..end.turnStart], end.journal[end.turnStart..];
    SplitAt(end.journal, end.turnStart);
    TurnsShape(turns);
    forall k | 0 <= k < |current|
      ensures !current[k].message.role.OtherRole?
        && (current[k].message.role.Assistant? ==> current[k].source.FromProvider?)
    {
      if k > 0 {
        assert current[1..][k - 1] == current[k];
        assert IsResultOf(Calls(current[0].message.content)[k - 1], current[1..][k - 1]);
      }
    }
    forall l | l in end.journal ensures l in turns || l in current {}
  }

  lemma AddedShape(base: seq<Message>, journal: seq<Logged>)
    requires HasIds(journal) && CallsHaveIds(base) && NoOtherRoles(base)
    requires forall l :: l in journal ==>
      !l.message.role.OtherRole? && (l.message.role.Assistant? ==> l.source.FromProvider?)
    ensures CallsHaveIds(base + Untimed(Messages(journal))) && NoOtherRoles(base + Untimed(Messages(journal)))
  {
    var added := Untimed(Messages(journal));
    forall m | m in added ensures !m.role.OtherRole? && (m.role.Assistant? ==> "" !in CallIds(m.content)) {
      var k :| 0 <= k < |added| && added[k] == m;
      assert journal[k] in journal && m == journal[k].message.(timestamp := 0);
    }
  }
}
