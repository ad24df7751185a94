/** From a prompt to the wire: every provider call of every run gets a request in which each tool use is
    answered at once, and histories of runs that were not cut short need no repair at all. */
module EndToEnd {
  import opened Types
  import opened Sequences
  import opened Sessions
  import opened Transform
  import opened TransformLaws
  import opened AnthropicEncoder
  import opened Orphans
  import ToolCallIds
  import opened ConversationLog
  import opened AgentRun
  import opened RunJournal
  import opened RunQueues
  import opened RunSession

  // ----- Every state of every run -----

  lemma {:induction false} StepsKeep(env: Env, host: Host, s: Run, n: nat)
    requires QueuesKept(s) && JournalKept(s) && SkipsKept(s)
    ensures var now := Steps(env, host, s, n); QueuesKept(now) && JournalKept(now) && SkipsKept(now)
    decreases n
  {
    if n > 0 {
      StepConserves(env, host, s);
      StepKeepsJournal(env, host, s);
      StepKeepsSkips(env, host, s);
      StepsKeep(env, host, Step(env, host, s), n - 1);
    }
  }

  /** At every moment of every run of `Prompt`, in every interleaving, both queues are conserved and the journal is
      whole turns and the turn under way; at every loop head there is no turn under way, so each assistant message
      appended so far is followed directly by the results of all its calls. */
  lemma EveryStateIsKept(env: Env, host: Host, s: Run, text: string, n: nat)
    requires AllUsers(s.steering) && AllUsers(s.follow)
    ensures var now := Steps(env, host, Begin(env, Asked(env, host, s, text)), n);
      && Conserved(now.steered, Delivered(now.journal, FromSteering), Held(now, FromSteering), now.steering)
      && Conserved(now.followed, Delivered(now.journal, FromFollowUp), Held(now, FromFollowUp), now.follow)
      && now.turnStart <= |now.journal| && Turns(now.journal[..now.turnStart])
      && TurnPrefix(now.journal[now.turnStart..])
      && SkipsInOrder(now.journal)
      && (now.pc.Head? || now.pc == Done(Finished) ==> Turns(now.journal))
  {
    var asked := Asked(env, host, s, text);
    assert [] + [] + s.steering == s.steering && [] + [] + s.follow == s.follow;
    ArriveConserves(env, Fresh(s));
    ArriveHoldsUsers(env, Fresh(s));
    assert BothConserved(asked);
    BeginConserves(env, asked);
    BeginKeepsJournal(env, asked);
    StepsKeep(env, host, Begin(env, asked), n);
    var now := Steps(env, host, Begin(env, asked), n);
    SplitAt(now.journal, now.turnStart);
    assert now.journal[..now.turnStart] + [] == now.journal[..now.turnStart];
  }

  // ----- Requests -----

  lemma BaseIsClosed(log: seq<Message>, text: string)
    ensures var base := log + [UserMessage(text, 0)];
      && Closed(base)
      && (Clean(log) ==> Clean(base))
      && (NoOtherRoles(log) ==> NoOtherRoles(base))
      && (CallsHaveIds(log) ==> CallsHaveIds(base))
  {
    OpenSplit(log, [UserMessage(text, 0)], {});
  }

  /** A prompt on any session tree, whose last runs may have been aborted in the middle of their tools, with
      any provider, tools, disk, queues, aborts and compactions: every request sent is paired in the Anthropic
      encoding, for every target model that shares no tool-call id with another one. */
  lemma EveryRequestIsPaired(
    env: Env, host: Host, s: Run, text: string, r: Request, target: Model, clock: Clock, random: RandomIds)
    requires AllUsers(s.steering) && AllUsers(s.follow) && ProviderGivesIds(env)
    requires CallsHaveIds(SessionLog(s.session)) && NoOtherRoles(SessionLog(s.session))
    requires r in Prompted(env, host, s, text).requests && !Prompted(env, host, s, text).session.clash
    requires NoSharedIds(r.history, target)
    ensures Paired(AnthropicRequest(r.history, target, clock, random))
  {
    PromptKeepsSession(env, host, s, text);
    BaseIsClosed(SessionLog(s.session), text);
    assert Inherits(Base(s.session, text), r.history);
    SettledHistoryIsPaired(r.history, target, clock, random);
  }

  /** The other half: if the conversation before it held no orphaned result, and no failed or aborted answer asked
      for tools, a request of the run holds one exactly when its history has a result before the first kept answer,
      as a compaction can leave it (KeptResults.dfy). */
  lemma EveryRequestHoldsNoOrphansIff(
    env: Env, host: Host, s: Run, text: string, r: Request, target: Model, clock: Clock, random: RandomIds)
    requires AllUsers(s.steering) && AllUsers(s.follow) && ProviderGivesIds(env)
    requires CallsHaveIds(SessionLog(s.session)) && NoOtherRoles(SessionLog(s.session))
    requires NoOrphans(SessionLog(s.session), {}) && AnswersKept(Prompted(env, host, s, text).journal)
    requires r in Prompted(env, host, s, text).requests && !Prompted(env, host, s, text).session.clash
    requires NoSharedIds(r.history, target) && FreshNames(r.history, target, ToolCallIds.AnthropicNormalizer())
    ensures HoldsNoOrphans(AnthropicRequest(r.history, target, clock, random), {}) <==> !Unled(r.history)
  {
    PromptKeepsSession(env, host, s, text);
    BaseIsClosed(SessionLog(s.session), text);
    OrphansSplit(SessionLog(s.session), [UserMessage(text, 0)], {});
    KeptRequestHoldsNoOrphansIff(Base(s.session, text), Prompted(env, host, s, text), r, target, clock, random);
  }

  lemma KeptRequestHoldsNoOrphansIff(
    base: seq<Message>, end: Run, r: Request, target: Model, clock: Clock, random: RandomIds)
    requires RunKept(base, end) && !end.session.clash && r in end.requests
    requires NoOrphans(base, {}) && AnswersKept(end.journal) && CallsHaveIds(base) && NoOtherRoles(base)
    requires NoSharedIds(r.history, target) && FreshNames(r.history, target, ToolCallIds.AnthropicNormalizer())
    ensures HoldsNoOrphans(AnthropicRequest(r.history, target, clock, random), {}) <==> !Unled(r.history)
  {
    assert Fits(base, end.journal, r.history);
    RequestOrphansIff(r.history, target, clock, random);
  }

  /** The run ended between two turns. */
  predicate NotCutShort(s: Run) {
    s.pc.Done? && !s.pc.outcome.Aborted? && !s.pc.outcome.AppendFailed?
  }

  /** Such a run leaves a clean conversation clean. */
  lemma PromptKeepsClean(env: Env, host: Host, s: Run, text: string)
    requires AllUsers(s.steering) && AllUsers(s.follow) && ProviderGivesIds(env)
    requires Clean(SessionLog(s.session))
    requires NotCutShort(Prompted(env, host, s, text)) && !Prompted(env, host, s, text).session.clash
    ensures var end := Prompted(env, host, s, text);
      Clean(SessionLog(end.session)) && AllUsers(end.steering) && AllUsers(end.follow)
    ensures forall r :: r in Prompted(env, host, s, text).requests ==> Clean(r.history)
  {
    if TrimSpace(text) != "" {
      var end, base := Prompted(env, host, s, text), Base(s.session, text);
      PromptKeepsSession(env, host, s, text);
      PromptKeepsJournal(env, host, s, text);
      BaseIsClosed(SessionLog(s.session), text);
      TurnsInherit(base, end.journal);
    }
  }

  /** One prompt after another, each with the queues and the session that the one before left. */
  function PromptAll(env: Env, host: Host, s: Run, texts: seq<string>): (runs: seq<Run>)
    ensures |runs| == |texts|
    decreases |texts|
  {
    if texts == [] then []
    else
      var end := Prompted(env, host, s, texts[0]);
      [end] + PromptAll(env, host, end, texts[1..])
  }

  /** As long as no earlier run was cut short, history repair has nothing to repair: for every request of the next
      run, whatever was compacted, whatever the normaliser, the second pass inserts nothing. */
  lemma {:induction false} CleanRunsNeedNoRepair(
    env: Env, host: Host, s: Run, texts: seq<string>, i: nat, r: Request, target: Model, norm: Normalizer, clock: Clock)
    requires AllUsers(s.steering) && AllUsers(s.follow) && ProviderGivesIds(env)
    requires Clean(SessionLog(s.session))
    requires i < |texts|
    requires forall k :: 0 <= k < i ==> NotCutShort(PromptAll(env, host, s, texts)[k])
    requires forall k :: 0 <= k <= i ==> !PromptAll(env, host, s, texts)[k].session.clash
    requires r in PromptAll(env, host, s, texts)[i].requests && NoSharedIds(r.history, target)
    ensures Transformed(r.history, target, norm, clock) == FirstPass(r.history, target, norm, map[])
    decreases |texts|
  {
    var end := Prompted(env, host, s, texts[0]);
    var runs, rest := PromptAll(env, host, s, texts), PromptAll(env, host, end, texts[1..]);
    assert runs == [end] + rest;
    if i == 0 {
      FirstRunNeedsNoRepair(env, host, s, texts[0], r, target, norm, clock);
    } else {
      assert runs[0] == end && forall k :: 0 <= k < i ==> rest[k] == runs[k + 1];
      PromptKeepsClean(env, host, s, texts[0]);
      CleanRunsNeedNoRepair(env, host, end, texts[1..], i - 1, r, target, norm, clock);
    }
  }

  lemma FirstRunNeedsNoRepair(
    env: Env, host: Host, s: Run, text: string, r: Request, target: Model, norm: Normalizer, clock: Clock)
    requires AllUsers(s.steering) && AllUsers(s.follow) && ProviderGivesIds(env)
    requires Clean(SessionLog(s.session))
    requires r in Prompted(env, host, s, text).requests && !Prompted(env, host, s, text).session.clash
    requires NoSharedIds(r.history, target)
    ensures Transformed(r.history, target, norm, clock) == FirstPass(r.history, target, norm, map[])
  {
    PromptKeepsSession(env, host, s, text);
    BaseIsClosed(SessionLog(s.session), text);
    assert Inherits(Base(s.session, text), r.history);
    CleanHistoryNeedsNoRepair(r.history, target, norm, clock);
  }
}
