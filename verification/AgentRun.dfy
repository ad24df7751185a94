/** The agent run loop as a machine of atomic steps (`Runtime.runLoop` in internal/agent/runtime.go,
    with no sidecar). What other goroutines, the provider, the tools and the disk do is an environment:
    one `Tick` for every step, any function of the step number. The loop itself, in Runtime.dfy, is proved
    to run exactly this machine; its laws are in RunQueues.dfy, RunJournal.dfy and RunSession.dfy. */
module AgentRun {
  import opened Types
  import opened Sequences
  import opened Sessions
  import opened SessionContext
  import opened Compactions

  const MAX_TURNS := 128
  const MAX_RETRIES := 3

  // ----- The environment -----

  datatype QueueMode = All | OneAtATime

  datatype Reply =
    | NoProvider(error: string)
    | Failure(error: string, canceled: bool, overflow: bool, transient: bool)
    | Answer(content: seq<Block>, stopReason: StopReason, payload: Json)

  datatype ToolOutcome =
    | ToolCanceled
    | ToolFailed(error: string, output: ToolOutput)
    | ToolDone(output: ToolOutput)

  datatype Tick = Tick(
    steer: seq<Message>,        // handed to SteerMessage since the last step
    follow: seq<Message>,       // handed to FollowUpMessage since the last step
    steeringMode: QueueMode,
    followUpMode: QueueMode,
    cancel: bool,               // Abort was called
    model: Model,
    activeTools: set<string>,
    autoCompaction: bool,
    autoRetry: bool,
    overThreshold: bool,        // the context fills 85 percent of the window or more
    timerFired: bool,           // the retry delay ran out before it was cancelled
    reply: Reply,
    tool: ToolOutcome,
    summary: SummaryReply,
    tokens: int,
    writable: bool,             // the session file can be written
    timestamp: string,
    now: int,
    clock: Clock)

  type Env = nat -> Tick

  // ----- The two queues -----

  predicate HasContent(content: seq<Block>) {
    exists b :: b in content && (b.Text? ==> TrimSpace(b.text) != "")
  }

  /** What `SteerMessage` and `FollowUpMessage` put on their queue, if they accept the message. */
  function Accept(m: Message, now: int): Option<Message> {
    var role := if m.role == OtherRole("") then User else m.role;
    if role != User || !HasContent(m.content) then None
    else Some(m.(role := User, timestamp := if m.timestamp == 0 then now else m.timestamp))
  }

  function AcceptOne(m: Message, now: int): seq<Message> {
    match Accept(m, now) case Some(x) => [x] case None => []
  }

  function Accepted(msgs: seq<Message>, now: int): seq<Message> {
    if msgs == [] then [] else AcceptOne(msgs[0], now) + Accepted(msgs[1..], now)
  }

  function Batch(queue: seq<Message>, mode: QueueMode): seq<Message> {
    if queue == [] || mode.All? then queue else queue[..1]
  }

  function Remaining(queue: seq<Message>, mode: QueueMode): seq<Message> {
    if queue == [] || mode.All? then [] else queue[1..]
  }

  // ----- The state -----

  datatype Outcome =
    | EmptyPrompt
    | NothingToContinue
    | Finished
    | Aborted
    | AppendFailed
    | ProviderFailed(error: string)
    | TooManyTurns

  datatype Pc =
    | Head                      // the loop test
    | Deliver                   // appending the held batch
    | Threshold                 // the threshold compaction
    | Calling                   // the provider call
    | Waiting(error: string)    // the retry delay
    | Tools(k: nat)             // tool call number k
    | Skipping(k: nat)          // the skipped result of call number k
    | Done(outcome: Outcome)

  datatype Source = FromSteering | FromFollowUp | FromProvider | FromTool | FromSkip

  datatype Logged = Logged(message: Message, source: Source)

  datatype Request = Request(history: seq<Message>, model: Model)

  datatype Run = Run(
    pc: Pc,
    turn: nat,
    retry: nat,
    pending: seq<Message>,      // the held batch
    pendingFrom: Source,
    last: Message,              // the last assistant message
    session: Session,
    steering: seq<Message>,
    follow: seq<Message>,
    canceled: bool,
    tick: nat,
    // history
    steered: seq<Message>,      // what the steering queue held at the start, and was given since
    followed: seq<Message>,
    journal: seq<Logged>,       // the messages the run appended
    turnStart: nat,             // where in the journal the turn under way starts
    requests: seq<Request>,     // what the provider was sent
    sources: seq<string>)       // what the provider was asked to summarise

  const NO_MESSAGE := PlainMessage(OtherRole(""), [], 0)

  /** The other goroutines' doings up to this step. */
  function Arrive(env: Env, s: Run): Run {
    var t := env(s.tick);
    var steer, follow := Accepted(t.steer, t.now), Accepted(t.follow, t.now);
    s.(steering := s.steering + steer, steered := s.steered + steer,
       follow := s.follow + follow, followed := s.followed + follow,
       canceled := s.canceled || t.cancel, tick := s.tick + 1)
  }

  function Stop(s: Run, outcome: Outcome): Run {
    s.(pc := Done(outcome))
  }

  function NextTurn(s: Run): Run {
    s.(pc := Head, turn := s.turn + 1)
  }

  /** Appends a message to the session and to the journal, or stops. */
  function Log(host: Host, s: Run, m: Message, source: Source, t: Tick, next: Pc): Run {
    var logged := s.(session := Append(host, s.session, MessageBody(Some(m)), t.timestamp, t.writable));
    if CanAppend(s.session, t.writable) then logged.(journal := s.journal + [Logged(m, source)], pc := next)
    else Stop(logged, AppendFailed)
  }

  function TakeSteering(s: Run, mode: QueueMode): Run {
    s.(pending := Batch(s.steering, mode), pendingFrom := FromSteering, steering := Remaining(s.steering, mode))
  }

  function TakeFollowUp(s: Run, mode: QueueMode): Run {
    s.(pending := Batch(s.follow, mode), pendingFrom := FromFollowUp, follow := Remaining(s.follow, mode))
  }

  // ----- The steps -----

  function StepHead(env: Env, s: Run): Run {
    if s.turn >= MAX_TURNS then Stop(s, TooManyTurns)
    else
      var a := Arrive(env, s);
      if a.canceled then Stop(a, Aborted) else a.(pc := Deliver)
  }

  function StepDeliver(env: Env, host: Host, s: Run): Run {
    if s.pending == [] then s.(pc := Threshold)
    else
      var logged := Log(host, Arrive(env, s), s.pending[0], s.pendingFrom, env(s.tick), Deliver);
      if logged.pc.Done? then logged
      else logged.(pending := s.pending[1..], turnStart := |logged.journal|)
  }

  function TryCompact(host: Host, s: Run, t: Tick): Run {
    s.(session := Compacted(host, s.session, t.summary, t.tokens, t.timestamp, t.writable),
       sources := s.sources + SummaryAsked(s.session))
  }

  function StepThreshold(env: Env, host: Host, s: Run): Run {
    var a, t := Arrive(env, s), env(s.tick);
    (if t.autoCompaction && t.overThreshold then TryCompact(host, a, t) else a).(pc := Calling)
  }

  /** A failed provider call: recovery by compaction, a bounded retry, or the end. */
  function OnFailure(host: Host, a: Run, t: Tick): (r: Run)
    requires t.reply.Failure?
    ensures (r.turn == a.turn && (r.pc.Done? || r.pc.Waiting?)) || (r.turn == a.turn + 1 && r.pc.Head?)
    ensures (r.tick, r.steered, r.followed, r.requests) == (a.tick, a.steered, a.followed, a.requests)
    ensures |r.sources| <= |a.sources| + 1 && (a.retry <= MAX_RETRIES ==> r.retry <= MAX_RETRIES)
  {
    var r := t.reply;
    if r.canceled || a.canceled then Stop(a, Aborted)
    else
      var overflow := t.autoCompaction && r.overflow;
      var c := if overflow then TryCompact(host, a, t) else a;
      if overflow && CanCompact(a.session, t.summary, t.writable) then NextTurn(c.(retry := 0))
      else if t.autoRetry && !r.overflow && r.transient then
        if c.retry + 1 > MAX_RETRIES then Stop(c.(retry := 0), ProviderFailed(r.error))
        else c.(retry := c.retry + 1, pc := Waiting(r.error))
      else Stop(c.(retry := 0), ProviderFailed(r.error))
  }

  function AssistantMessage(model: Model, reply: Reply, now: int): Message
    requires reply.Answer?
  {
    PlainMessage(Assistant, reply.content, now)
      .(api := model.api, provider := model.provider, model := model.id, stopReason := reply.stopReason,
        payload := reply.payload)
  }

  function OnAnswer(host: Host, a: Run, t: Tick): (r: Run)
    requires t.reply.Answer?
    ensures (r.turn == a.turn && (r.pc.Done? || r.pc == Tools(0))) || (r.turn == a.turn + 1 && r.pc.Head?)
    ensures (r.tick, r.steered, r.followed, r.requests) == (a.tick, a.steered, a.followed, a.requests)
    ensures |r.sources| <= |a.sources| + 1 && (a.retry <= MAX_RETRIES ==> r.retry <= MAX_RETRIES)
  {
    var m := AssistantMessage(t.model, t.reply, t.now);
    var logged := Log(host, a.(retry := 0, last := m), m, FromProvider, t, Tools(0));
    if logged.pc.Done? || Calls(m.content) != [] then logged
    else
      var closed := TakeFollowUp(logged.(turnStart := |logged.journal|), t.followUpMode);
      if closed.pending != [] then NextTurn(closed) else Stop(closed, Finished)
  }

  function Ask(a: Run, t: Tick): Run {
    a.(requests := a.requests + [Request(ContextMessages(Branch(a.session, a.session.leaf), t.clock), t.model)])
  }

  /** The provider call, once the context is built. */
  function OnReply(host: Host, a: Run, t: Tick): (r: Run)
    ensures (r.turn == a.turn && (r.pc.Done? || r.pc.Waiting? || r.pc == Tools(0)))
      || (r.turn == a.turn + 1 && r.pc.Head?)
    ensures |r.requests| <= |a.requests| + 1 && |r.sources| <= |a.sources| + 1
      && (a.retry <= MAX_RETRIES ==> r.retry <= MAX_RETRIES)
    ensures (r.tick, r.steered, r.followed) == (a.tick, a.steered, a.followed)
  {
    match t.reply
    case NoProvider(error) => Stop(a, ProviderFailed(error))
    case Failure(_, _, _, _) => OnFailure(host, Ask(a, t), t)
    case Answer(_, _, _) => OnAnswer(host, Ask(a, t), t)
  }

  function StepCalling(env: Env, host: Host, s: Run): Run {
    OnReply(host, Arrive(env, s), env(s.tick))
  }

  function StepWaiting(env: Env, s: Run): Run
    requires s.pc.Waiting?
  {
    var a := Arrive(env, s);
    if env(s.tick).timerFired then NextTurn(a)
    else if a.canceled then Stop(a.(retry := 0), Aborted)
    else Stop(a.(retry := 0), ProviderFailed(s.pc.error))
  }

  /** What running a tool yields; `None` when it was cancelled. */
  function ToolResultOf(name: string, t: Tick): Option<ToolOutput> {
    if name !in t.activeTools then Some(ToolOutput([Text("tool is not active: " + name, "")], true))
    else
      match t.tool
      case ToolCanceled => None
      case ToolFailed(error, output) =>
        Some(ToolOutput(if output.content == [] then [Text(error, "")] else output.content, true))
      case ToolDone(output) => Some(output)
  }

  const SKIPPED := ToolOutput([Text("Skipped due to queued user message.", "")], true)

  /** The result of call number `k`; a queued steering message interrupts the turn. */
  function OnResult(host: Host, a: Run, k: nat, m: Message, t: Tick): Run {
    var logged := Log(host, a, m, FromTool, t, Tools(k + 1));
    if logged.pc.Done? || logged.steering == [] then logged
    else TakeSteering(logged, t.steeringMode).(pc := Skipping(k + 1))
  }

  function StepTools(env: Env, host: Host, s: Run): Run
    requires s.pc.Tools?
  {
    var calls, k := Calls(s.last.content), s.pc.k;
    if k >= |calls| then NextTurn(s.(turnStart := |s.journal|))
    else
      var a, t := Arrive(env, s), env(s.tick);
      if a.canceled then Stop(a, Aborted)
      else
        CallsAreToolCalls(s.last.content);
        var call := calls[k];
        assert call in calls;
        match ToolResultOf(call.name, t)
        case None => Stop(a, Aborted)
        case Some(output) => OnResult(host, a, k, ToolResultMessage(call.id, call.name, output, t.now), t)
  }

  function StepSkipping(env: Env, host: Host, s: Run): Run
    requires s.pc.Skipping?
  {
    var calls, k := Calls(s.last.content), s.pc.k;
    if k >= |calls| then NextTurn(s.(turnStart := |s.journal|))
    else
      CallsAreToolCalls(s.last.content);
      var call := calls[k];
      assert call in calls;
      Log(host, Arrive(env, s), ToolResultMessage(call.id, call.name, SKIPPED, env(s.tick).now), FromSkip, env(s.tick),
        Skipping(k + 1))
  }

  function Step(env: Env, host: Host, s: Run): Run {
    match s.pc
    case Head => StepHead(env, s)
    case Deliver => StepDeliver(env, host, s)
    case Threshold => StepThreshold(env, host, s)
    case Calling => StepCalling(env, host, s)
    case Waiting(_) => StepWaiting(env, s)
    case Tools(_) => StepTools(env, host, s)
    case Skipping(_) => StepSkipping(env, host, s)
    case Done(_) => s
  }

  // ----- Whole runs -----

  /** Only the loop test sees the turn limit. */
  predicate InBounds(s: Run) {
    s.turn <= MAX_TURNS && (s.pc.Head? || s.pc.Done? || s.turn < MAX_TURNS)
  }

  function Rank(pc: Pc): nat {
    match pc
    case Head => 6
    case Deliver => 5
    case Threshold => 4
    case Calling => 3
    case Waiting(_) => 2
    case Tools(_) => 2
    case Skipping(_) => 1
    case Done(_) => 0
  }

  /** How much is left of the inner loop under way. */
  function Left(s: Run): nat {
    match s.pc
    case Deliver => |s.pending|
    case Tools(k) => if k <= |Calls(s.last.content)| then |Calls(s.last.content)| - k else 0
    case Skipping(k) => if k <= |Calls(s.last.content)| then |Calls(s.last.content)| - k else 0
    case _ => 0
  }

  predicate Below(s': Run, s: Run) {
    && InBounds(s')
    && (s'.turn > s.turn
        || (s'.turn == s.turn && (Rank(s'.pc) < Rank(s.pc) || (Rank(s'.pc) == Rank(s.pc) && Left(s') < Left(s)))))
  }

  lemma CallingDescends(s': Run, s: Run)
    requires InBounds(s) && s.pc.Calling?
    requires (s'.turn == s.turn && (s'.pc.Done? || s'.pc.Waiting? || s'.pc == Tools(0)))
      || (s'.turn == s.turn + 1 && s'.pc.Head?)
    ensures Below(s', s)
  {}

  lemma ToolsDescend(env: Env, host: Host, s: Run)
    requires InBounds(s) && s.pc.Tools?
    ensures Below(StepTools(env, host, s), s)
  {
    var a, t := Arrive(env, s), env(s.tick);
    forall m | s.pc.k < |Calls(s.last.content)| ensures Below(OnResult(host, a, s.pc.k, m, t), s) {
      ResultDescends(host, a, s.pc.k, m, t);
    }
  }

  lemma ResultDescends(host: Host, a: Run, k: nat, m: Message, t: Tick)
    requires InBounds(a) && a.pc == Tools(k) && k < |Calls(a.last.content)|
    ensures Below(OnResult(host, a, k, m, t), a)
  {}

  lemma SkippingDescends(env: Env, host: Host, s: Run)
    requires InBounds(s) && s.pc.Skipping?
    ensures Below(StepSkipping(env, host, s), s)
  {}

  lemma StepDescends(env: Env, host: Host, s: Run)
    requires InBounds(s) && !s.pc.Done?
    ensures Below(Step(env, host, s), s)
  {
    match s.pc
    case Calling => CallingDescends(StepCalling(env, host, s), s);
    case Tools(_) => ToolsDescend(env, host, s);
    case Skipping(_) => SkippingDescends(env, host, s);
    case Head => assert Below(StepHead(env, s), s);
    case Deliver => assert Below(StepDeliver(env, host, s), s);
    case Threshold => assert Below(StepThreshold(env, host, s), s);
    case Waiting(_) => assert Below(StepWaiting(env, s), s);
  }

  /** Every run ends, whatever the environment does. */
  function RunToEnd(env: Env, host: Host, s: Run): (end: Run)
    requires InBounds(s)
    ensures end.pc.Done?
    decreases MAX_TURNS - s.turn, Rank(s.pc), Left(s)
  {
    if s.pc.Done? then s
    else
      StepDescends(env, host, s);
      RunToEnd(env, host, Step(env, host, s))
  }

  function Stepper(env: Env, host: Host): Run -> Run {
    (s: Run) => Step(env, host, s)
  }

  /** The state after so many steps. */
  function Steps(env: Env, host: Host, s: Run, n: nat): Run {
    Iterate(Stepper(env, host), s, n)
  }

  lemma StepsSnoc(env: Env, host: Host, s: Run, n: nat)
    ensures Steps(env, host, s, n + 1) == Step(env, host, Steps(env, host, s, n))
  {
    IterateSnoc(Stepper(env, host), s, n);
  }

  lemma {:induction false} StepsToEnd(env: Env, host: Host, s: Run, n: nat)
    requires InBounds(s) && Steps(env, host, s, n).pc.Done?
    ensures RunToEnd(env, host, s) == Steps(env, host, s, n)
    decreases n
  {
    if n > 0 {
      if !s.pc.Done? {
        StepDescends(env, host, s);
      }
      StepsToEnd(env, host, Step(env, host, s), n - 1);
    }
  }

  /** A steering batch, or a follow-up batch if there is none and the context ends with an answer. */
  function FirstBatch(env: Env, s: Run): Run {
    var steered := TakeSteering(Arrive(env, s), env(s.tick).steeringMode);
    if steered.pending != [] || !EndsWithAnswer(s.session, env(s.tick).clock) then steered
    else TakeFollowUp(Arrive(env, steered), env(steered.tick).followUpMode)
  }

  /** The start of `runLoop`. A new context is made, so an earlier `Abort` is forgotten. */
  function Begin(env: Env, s: Run): Run {
    FirstBatch(env, s).(pc := Head, turn := 0, retry := 0, last := NO_MESSAGE, canceled := false)
  }

  predicate EndsWithAnswer(session: Session, clock: Clock) {
    var history := ContextMessages(Branch(session, session.leaf), clock);
    history != [] && history[|history| - 1].role.Assistant?
  }

  /** The counters of history start afresh with every run; nothing is held between runs. */
  function Fresh(s: Run): Run {
    s.(pending := [], pendingFrom := FromSteering, last := NO_MESSAGE,
       steered := s.steering, followed := s.follow, journal := [], turnStart := 0, requests := [], sources := [])
  }

  function UserMessage(text: string, now: int): Message {
    TextMessage(User, TrimSpace(text), now)
  }

  function Asked(env: Env, host: Host, s: Run, text: string): Run {
    var a, t := Arrive(env, Fresh(s)), env(s.tick);
    a.(session := Append(host, s.session, MessageBody(Some(UserMessage(text, t.now))), t.timestamp, t.writable))
  }

  /** `Prompt`: the user message is appended, then the loop runs. */
  function Prompted(env: Env, host: Host, s: Run, text: string): (end: Run)
    ensures end.pc.Done?
  {
    if TrimSpace(text) == "" then Stop(Fresh(s), EmptyPrompt)
    else if CanAppend(s.session, env(s.tick).writable) then RunToEnd(env, host, Begin(env, Asked(env, host, s, text)))
    else Stop(Asked(env, host, s, text), AppendFailed)
  }

  /** The test of `Continue`: the conversation ends with a user message or a tool result, or something is queued. */
  predicate CanContinue(s: Run, clock: Clock) {
    var history := ContextMessages(Branch(s.session, s.session.leaf), clock);
    && history != []
    && (history[|history| - 1].role.User? || history[|history| - 1].role.ToolResult? || s.steering != []
      || s.follow != [])
  }

  function Resumed(env: Env, s: Run): Run {
    Arrive(env, Fresh(s))
  }

  /** `Continue`: nothing is appended before the loop runs. */
  function Continued(env: Env, host: Host, s: Run): (end: Run)
    ensures end.pc.Done?
  {
    if CanContinue(Resumed(env, s), env(s.tick).clock) then RunToEnd(env, host, Begin(env, Resumed(env, s)))
    else Stop(Resumed(env, s), NothingToContinue)
  }

  // ----- Bounds -----

  /** At most three retries in a row; each turn asks the provider for at most one answer and two summaries, the
      first when the context fills the window, the second to recover from an overflow. */
  predicate Bounded(s: Run) {
    && s.retry <= MAX_RETRIES
    && |s.requests| <= s.turn + (if Rank(s.pc) <= 2 && s.turn < MAX_TURNS then 1 else 0)
    && |s.sources| <= 2 * s.turn + (if s.turn >= MAX_TURNS || Rank(s.pc) > 3 then 0 else if s.pc.Calling? then 1 else 2)
  }

  lemma CallingIsBounded(s': Run, s: Run)
    requires InBounds(s) && Bounded(s) && s.pc.Calling?
    requires (s'.turn == s.turn && (s'.pc.Done? || s'.pc.Waiting? || s'.pc == Tools(0)))
      || (s'.turn == s.turn + 1 && s'.pc.Head?)
    requires |s'.requests| <= |s.requests| + 1 && |s'.sources| <= |s.sources| + 1 && s'.retry <= MAX_RETRIES
    ensures Bounded(s')
  {}

  lemma ToolsAreBounded(env: Env, host: Host, s: Run)
    requires InBounds(s) && Bounded(s) && s.pc.Tools?
    ensures Bounded(StepTools(env, host, s))
  {}

  lemma DeliverIsBounded(env: Env, host: Host, s: Run)
    requires InBounds(s) && Bounded(s) && s.pc.Deliver?
    ensures Bounded(StepDeliver(env, host, s))
  {}

  lemma ThresholdIsBounded(env: Env, host: Host, s: Run)
    requires InBounds(s) && Bounded(s) && s.pc.Threshold?
    ensures Bounded(StepThreshold(env, host, s))
  {
    TryCompactAsksOnce(host, Arrive(env, s), env(s.tick));
  }

  lemma TryCompactAsksOnce(host: Host, s: Run, t: Tick)
    ensures |TryCompact(host, s, t).sources| <= |s.sources| + 1
  {}

  lemma StepIsBounded(env: Env, host: Host, s: Run)
    requires InBounds(s) && Bounded(s)
    ensures Bounded(Step(env, host, s))
  {
    match s.pc
    case Calling => CallingIsBounded(StepCalling(env, host, s), s);
    case Tools(_) => ToolsAreBounded(env, host, s);
    case Deliver => DeliverIsBounded(env, host, s);
    case Threshold => ThresholdIsBounded(env, host, s);
    case _ =>
  }

  lemma {:induction false} RunIsBounded(env: Env, host: Host, s: Run)
    requires InBounds(s) && Bounded(s)
    ensures Bounded(RunToEnd(env, host, s)) && InBounds(RunToEnd(env, host, s))
    decreases MAX_TURNS - s.turn, Rank(s.pc), Left(s)
  {
    if !s.pc.Done? {
      StepDescends(env, host, s);
      StepIsBounded(env, host, s);
      RunIsBounded(env, host, Step(env, host, s));
    }
  }

  /** Whatever fails, a prompt asks the provider for at most 128 answers, retries included, and for at most 256
      summaries, failed ones included: 384 calls in all. */
  lemma PromptIsBounded(env: Env, host: Host, s: Run, text: string)
    ensures var end := Prompted(env, host, s, text);
      |end.requests| <= MAX_TURNS && |end.sources| <= 2 * MAX_TURNS
  {
    if TrimSpace(text) != "" && CanAppend(s.session, env(s.tick).writable) {
      RunIsBounded(env, host, Begin(env, Asked(env, host, s, text)));
    }
  }
}
