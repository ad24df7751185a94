/** The sidecar RPC client (`Client` in internal/extensionsidecar/client.go): callers, one reader and one
    finisher that share a pending map, a lock, one-slot reply channels and a `done` channel, as a system of
    atomic steps in any interleaving. A critical section is one step, but for the one of `finish`, which sends
    on channels and so holds the lock over many. */
module SidecarClient {
  type CallId = nat     // the decimal id of a request is told apart by its number

  datatype Response = Answer(id: CallId, body: string) | SidecarClosed(id: CallId)

  datatype Failure = CouldNotSend | Canceled | ClientClosed

  datatype Result = Got(response: Response) | Failed(failure: Failure)

  datatype Pc =
    | Allocated                 // has an id and a channel
    | Registered                // is in the pending map
    | Waiting                   // in the select
    | Removing(failure: Failure)
    | Returned(result: Result)

  datatype Call = Call(pc: Pc, channel: nat)

  /** A reply channel: its one slot, and how many sends it ever got. */
  datatype Channel = Channel(slot: seq<Response>, sends: nat)

  datatype Reader = Reading | Holding(response: Response, channel: nat) | Ended

  datatype Finisher = Open | Draining | Sending(id: CallId, channel: nat) | Drained | Closed

  datatype Client = Client(
    lastId: CallId,
    calls: map<CallId, Call>,
    pending: map<CallId, nat>,
    channels: seq<Channel>,
    reader: Reader,
    finisher: Finisher)

  datatype Event =
    | Start
    | Register(id: CallId)
    | Write(id: CallId, ok: bool)
    | Receive(id: CallId)
    | Cancel(id: CallId)
    | SeeDone(id: CallId)
    | Remove(id: CallId)
    | Read(response: Response)  // any line the sidecar may write
    | Deliver
    | ReadEnd
    | Finish
    | Pick(id: CallId)
    | Send
    | Unlock
    | Close

  const INITIAL := Client(0, map[], map[], [], Reading, Open)

  predicate LockFree(c: Client) {
    !c.finisher.Draining? && !c.finisher.Sending?
  }

  predicate At(c: Client, id: CallId, pc: Pc) {
    id in c.calls && c.calls[id].pc == pc && c.calls[id].channel < |c.channels|
  }

  predicate HasRoom(c: Client, channel: nat) {
    channel < |c.channels| && c.channels[channel].slot == []
  }

  /** A step that has to wait for a lock, a full slot, an empty slot or `done` is not enabled. */
  predicate Enabled(c: Client, e: Event) {
    match e
    case Start => true
    case Register(id) => At(c, id, Allocated) && LockFree(c)
    case Write(id, _) => At(c, id, Registered)
    case Receive(id) => At(c, id, Waiting) && c.channels[c.calls[id].channel].slot != []
    case Cancel(id) => At(c, id, Waiting)
    case SeeDone(id) => At(c, id, Waiting) && c.finisher.Closed?
    case Remove(id) => id in c.calls && c.calls[id].pc.Removing? && LockFree(c)
    case Read(response) => c.reader.Reading? && LockFree(c) && response.Answer?
    case Deliver => c.reader.Holding? && HasRoom(c, c.reader.channel)
    case ReadEnd => c.reader.Reading?
    case Finish => c.finisher.Open?
    case Pick(id) => c.finisher.Draining? && id in c.pending
    case Send => c.finisher.Sending? && HasRoom(c, c.finisher.channel)
    case Unlock => c.finisher.Draining? && c.pending == map[]
    case Close => c.finisher.Drained?
  }

  function Goto(c: Client, id: CallId, pc: Pc): Client
    requires id in c.calls
  {
    c.(calls := c.calls[id := c.calls[id].(pc := pc)])
  }

  function SendOn(c: Client, channel: nat, response: Response): Client
    requires HasRoom(c, channel)
  {
    c.(channels := c.channels[channel := Channel([response], c.channels[channel].sends + 1)])
  }

  function Next(c: Client, e: Event): Client
    requires Enabled(c, e)
  {
    match e
    case Start =>
      c.(lastId := c.lastId + 1, calls := c.calls[c.lastId + 1 := Call(Allocated, |c.channels|)],
         channels := c.channels + [Channel([], 0)])
    case Register(id) =>
      if c.finisher.Closed? then Goto(c, id, Returned(Failed(ClientClosed)))
      else Goto(c, id, Registered).(pending := c.pending[id := c.calls[id].channel])
    case Write(id, ok) => Goto(c, id, if ok then Waiting else Removing(CouldNotSend))
    case Receive(id) =>
      var channel := c.channels[c.calls[id].channel];
      Goto(c, id, Returned(Got(channel.slot[0])))
        .(channels := c.channels[c.calls[id].channel := channel.(slot := channel.slot[1..])])
    case Cancel(id) => Goto(c, id, Removing(Canceled))
    case SeeDone(id) => Goto(c, id, Removing(ClientClosed))
    case Remove(id) => Goto(c, id, Returned(Failed(c.calls[id].pc.failure))).(pending := c.pending - {id})
    case Read(response) =>
      if response.id in c.pending then
        c.(pending := c.pending - {response.id}, reader := Holding(response, c.pending[response.id]))
      else c
    case Deliver => SendOn(c, c.reader.channel, c.reader.response).(reader := Reading)
    case ReadEnd => c.(reader := Ended)
    case Finish => c.(finisher := Draining)
    case Pick(id) => c.(pending := c.pending - {id}, finisher := Sending(id, c.pending[id]))
    case Send => SendOn(c, c.finisher.channel, SidecarClosed(c.finisher.id)).(finisher := Draining)
    case Unlock => c.(finisher := Drained)
    case Close => c.(finisher := Closed)
  }

  // ----- The invariant -----

  /** The reader or the finisher has taken the call's channel out of the map and not yet sent on it. */
  predicate Taken(c: Client, id: CallId) {
    (c.reader.Holding? && c.reader.response.id == id) || (c.finisher.Sending? && c.finisher.id == id)
  }

  predicate TakenTwice(c: Client) {
    c.reader.Holding? && c.finisher.Sending? && c.reader.response.id == c.finisher.id
  }

  predicate CallKept(c: Client, id: CallId)
    requires id in c.calls
  {
    var call := c.calls[id];
    && id <= c.lastId && call.channel < |c.channels|
    && var channel := c.channels[call.channel];
    // a channel is in the map, or taken, or has got its one send
    && channel.sends + (if id in c.pending then 1 else 0) + (if Taken(c, id) then 1 else 0) <= 1
    && |channel.slot| <= channel.sends
    && (forall r :: r in channel.slot ==> r.id == id)
    && (id in c.pending ==> c.pending[id] == call.channel)
    && match call.pc
       case Allocated => channel.sends == 0 && id !in c.pending && !Taken(c, id)
       case Returned(result) => id !in c.pending
         && (result.Got? ==> result.response.id == id && channel.sends == 1 && channel.slot == [])
       case _ => channel.slot == [] ==> channel.sends == 0
  }

  predicate Holds(c: Client, id: CallId, channel: nat) {
    id in c.calls && c.calls[id].channel == channel
  }

  predicate ClientKept(c: Client) {
    && (forall id :: id in c.calls ==> CallKept(c, id))
    && (forall i, j :: i in c.calls && j in c.calls && i != j ==> c.calls[i].channel != c.calls[j].channel)
    && (forall id :: id in c.pending ==> id in c.calls)
    && (c.reader.Holding? ==> Holds(c, c.reader.response.id, c.reader.channel))
    && (c.finisher.Sending? ==> Holds(c, c.finisher.id, c.finisher.channel))
    && !TakenTwice(c)
  }

  lemma StartKeeps(c: Client)
    requires ClientKept(c)
    ensures ClientKept(Next(c, Start))
  {
    var after := Next(c, Start);
    forall id | id in after.calls ensures CallKept(after, id) {
      if id != c.lastId + 1 { assert CallKept(c, id); }
    }
  }

  lemma RegisterKeeps(c: Client, id: CallId)
    requires ClientKept(c) && Enabled(c, Register(id))
    ensures ClientKept(Next(c, Register(id)))
  {
    var after := Next(c, Register(id));
    assert CallKept(c, id);
    forall i | i in after.calls ensures CallKept(after, i) { RegisterKeepsCall(c, id, i); }
    CallsKept(c, after);
  }

  /** A step that moves no channel, and leaves the reader and the finisher alone. */
  lemma CallsKept(c: Client, after: Client)
    requires ClientKept(c) && forall i :: i in after.calls ==> CallKept(after, i)
    requires after.calls.Keys == c.calls.Keys
    requires forall i :: i in c.calls ==> after.calls[i].channel == c.calls[i].channel
    requires forall i :: i in after.pending ==> i in c.calls
    requires after.reader == c.reader && after.finisher == c.finisher
    ensures ClientKept(after)
  {}

  lemma RegisterKeepsCall(c: Client, id: CallId, i: CallId)
    requires ClientKept(c) && Enabled(c, Register(id)) && i in c.calls
    ensures CallKept(Next(c, Register(id)), i)
  {
    assert CallKept(c, i);
  }

  /** A caller's own moves that touch neither the map nor a channel. */
  lemma MoveKeeps(c: Client, id: CallId, pc: Pc)
    requires ClientKept(c) && id in c.calls && (c.calls[id].pc.Registered? || c.calls[id].pc.Waiting?)
    requires pc.Waiting? || pc.Removing?
    ensures ClientKept(Goto(c, id, pc))
  {
    var after := Goto(c, id, pc);
    forall i | i in after.calls ensures CallKept(after, i) { assert CallKept(c, i); }
  }

  lemma ReceiveKeeps(c: Client, id: CallId)
    requires ClientKept(c) && Enabled(c, Receive(id))
    ensures ClientKept(Next(c, Receive(id)))
  {
    var after := Next(c, Receive(id));
    assert CallKept(c, id);
    forall i | i in after.calls ensures CallKept(after, i) { assert CallKept(c, i); }
  }

  lemma RemoveKeeps(c: Client, id: CallId)
    requires ClientKept(c) && Enabled(c, Remove(id))
    ensures ClientKept(Next(c, Remove(id)))
  {
    var after := Next(c, Remove(id));
    forall i | i in after.calls ensures CallKept(after, i) { assert CallKept(c, i); }
  }

  lemma TakeKeeps(c: Client, e: Event)
    requires ClientKept(c) && Enabled(c, e) && (e.Read? || e.Pick?)
    ensures ClientKept(Next(c, e))
  {
    var after := Next(c, e);
    forall i | i in after.calls ensures CallKept(after, i) { assert CallKept(c, i); }
  }

  lemma SendKeeps(c: Client, e: Event)
    requires ClientKept(c) && Enabled(c, e) && (e.Deliver? || e.Send?)
    ensures ClientKept(Next(c, e))
  {
    var after := Next(c, e);
    forall i | i in after.calls ensures CallKept(after, i) { assert CallKept(c, i); }
  }

  lemma StageKeeps(c: Client, e: Event)
    requires ClientKept(c) && Enabled(c, e) && (e.ReadEnd? || e.Finish? || e.Unlock? || e.Close?)
    ensures ClientKept(Next(c, e))
  {
    var after := Next(c, e);
    forall i | i in after.calls ensures CallKept(after, i) { assert CallKept(c, i); }
  }

  lemma NextKeeps(c: Client, e: Event)
    requires ClientKept(c) && Enabled(c, e)
    ensures ClientKept(Next(c, e))
  {
    match e
    case Start => StartKeeps(c);
    case Register(id) => RegisterKeeps(c, id);
    case Write(id, ok) => MoveKeeps(c, id, if ok then Waiting else Removing(CouldNotSend));
    case Receive(id) => ReceiveKeeps(c, id);
    case Cancel(id) => MoveKeeps(c, id, Removing(Canceled));
    case SeeDone(id) => MoveKeeps(c, id, Removing(ClientClosed));
    case Remove(id) => RemoveKeeps(c, id);
    case Read(_) => TakeKeeps(c, e);
    case Pick(_) => TakeKeeps(c, e);
    case Deliver => SendKeeps(c, e);
    case Send => SendKeeps(c, e);
    case _ => StageKeeps(c, e);
  }

  // ----- Every interleaving -----

  /** The state after some steps, if each was enabled in its turn. */
  predicate Runs(c: Client, events: seq<Event>, later: Client)
    decreases |events|
  {
    if events == [] then later == c else Enabled(c, events[0]) && Runs(Next(c, events[0]), events[1..], later)
  }

  lemma {:induction false} RunsKeep(c: Client, events: seq<Event>, later: Client)
    requires ClientKept(c) && Runs(c, events, later)
    ensures ClientKept(later)
    decreases |events|
  {
    if events != [] {
      NextKeeps(c, events[0]);
      RunsKeep(Next(c, events[0]), events[1..], later);
    }
  }

  /** In every interleaving of callers, reader, cancellation and shutdown: a reply channel gets at most one send,
      and the reader and `finish` never find its slot full; a caller gets only a response with its own id; a call
      that returned is no longer pending. */
  lemma ClientIsSafe(events: seq<Event>, c: Client)
    requires Runs(INITIAL, events, c)
    ensures forall id :: id in c.calls ==>
      c.calls[id].channel < |c.channels| && c.channels[c.calls[id].channel].sends <= 1
    ensures c.reader.Holding? ==> Enabled(c, Deliver)
    ensures c.finisher.Sending? ==> Enabled(c, Send)
    ensures forall id :: id in c.calls && c.calls[id].pc.Returned? ==>
      id !in c.pending && (c.calls[id].pc.result.Got? ==> c.calls[id].pc.result.response.id == id)
    ensures (forall id :: id in c.calls ==> c.calls[id].pc.Returned?) ==> c.pending == map[]
  {
    RunsKeep(INITIAL, events, c);
    forall id | id in c.calls
      ensures c.channels[c.calls[id].channel].sends <= 1
      ensures c.calls[id].pc.Returned? ==>
        id !in c.pending && (c.calls[id].pc.result.Got? ==> c.calls[id].pc.result.response.id == id)
    {
      assert CallKept(c, id);
    }
    if c.reader.Holding? {
      assert CallKept(c, c.reader.response.id);
    }
    if c.finisher.Sending? {
      assert CallKept(c, c.finisher.id);
    }
  }

  /** No reply is lost: while a caller still waits and nothing was delivered to it, no reply was sent either. */
  lemma RepliesAreNotLost(events: seq<Event>, c: Client, id: CallId)
    requires Runs(INITIAL, events, c) && id in c.calls
    ensures c.calls[id].channel < |c.channels|
    ensures c.calls[id].pc.Waiting? ==>
      var channel := c.channels[c.calls[id].channel];
      channel.sends == |channel.slot| && (channel.sends == 1 ==> Enabled(c, Receive(id)))
  {
    RunsKeep(INITIAL, events, c);
    assert CallKept(c, id);
  }

  // ----- What is delivered was written by the sidecar, or the client was shut down -----

  predicate Sourced(r: Response, events: seq<Event>) {
    if r.Answer? then Read(r) in events else Finish in events
  }

  predicate AllSourced(c: Client, events: seq<Event>) {
    && (forall k, r :: 0 <= k < |c.channels| && r in c.channels[k].slot ==> Sourced(r, events))
    && (c.reader.Holding? ==> Sourced(c.reader.response, events))
    && (!c.finisher.Open? ==> Finish in events)
    && (forall id :: id in c.calls && c.calls[id].pc.Returned? && c.calls[id].pc.result.Got? ==>
          Sourced(c.calls[id].pc.result.response, events))
  }

  lemma SourcedLater(r: Response, events: seq<Event>, e: Event)
    requires Sourced(r, events)
    ensures Sourced(r, events + [e])
  {}

  lemma SlotsAreSourced(c: Client, e: Event, events: seq<Event>, k: nat, r: Response)
    requires AllSourced(c, events) && Enabled(c, e)
    requires k < |Next(c, e).channels| && r in Next(c, e).channels[k].slot
    ensures Sourced(r, events + [e])
  {
    if k < |c.channels| && r in c.channels[k].slot {
      SourcedLater(r, events, e);
    } else if e.Deliver? {
      assert r == c.reader.response;
      SourcedLater(r, events, e);
    } else if e.Send? {
      assert r == SidecarClosed(c.finisher.id);
      SourcedLater(r, events, e);
    }
  }

  lemma NextIsSourced(c: Client, e: Event, events: seq<Event>)
    requires AllSourced(c, events) && Enabled(c, e)
    ensures AllSourced(Next(c, e), events + [e])
  {
    var all, next := events + [e], Next(c, e);
    forall k, r | 0 <= k < |next.channels| && r in next.channels[k].slot ensures Sourced(r, all) {
      SlotsAreSourced(c, e, events, k, r);
    }
    assert forall x :: x in events ==> x in all;
    assert e in all;
    forall id | id in next.calls && next.calls[id].pc.Returned? && next.calls[id].pc.result.Got?
      ensures Sourced(next.calls[id].pc.result.response, all)
    {
      if e == Receive(id) {
        assert next.calls[id].pc.result.response in c.channels[c.calls[id].channel].slot;
      } else {
        assert next.calls[id].pc == c.calls[id].pc;
      }
      SourcedLater(next.calls[id].pc.result.response, events, e);
    }
  }

  lemma {:induction false} RunsAreSourced(c: Client, before: seq<Event>, events: seq<Event>, later: Client)
    requires AllSourced(c, before) && Runs(c, events, later)
    ensures AllSourced(later, before + events)
    decreases |events|
  {
    if events == [] {
      assert before + events == before;
    } else {
      NextIsSourced(c, events[0], before);
      RunsAreSourced(Next(c, events[0]), before + [events[0]], events[1..], later);
      assert before + [events[0]] + events[1..] == before + events;
    }
  }

  lemma RepliesAreReal(events: seq<Event>, c: Client, id: CallId)
    requires Runs(INITIAL, events, c)
    requires id in c.calls && c.calls[id].pc.Returned? && c.calls[id].pc.result.Got?
    ensures Sourced(c.calls[id].pc.result.response, events)
  {
    RunsAreSourced(INITIAL, [], events, c);
    assert [] + events == events;
  }

  // ----- Progress -----

  predicate IsFinisherStep(e: Event) {
    e.Finish? || e.Pick? || e.Send? || e.Unlock? || e.Close?
  }

  /** Shutdown never gets stuck: from every reachable state `finish` reaches its end by its own steps alone. */
  lemma {:induction false} ShutdownCompletes(c: Client) returns (events: seq<Event>, later: Client)
    requires ClientKept(c)
    ensures Runs(c, events, later) && later.finisher.Closed?
    ensures forall e :: e in events ==> IsFinisherStep(e)
    decreases |c.pending|, 4 - FinisherRank(c.finisher)
  {
    if c.finisher.Closed? {
      events, later := [], c;
    } else {
      var e := FinisherStep(c);
      NextKeeps(c, e);
      events, later := ShutdownCompletes(Next(c, e));
      assert ([e] + events)[1..] == events;
      events := [e] + events;
    }
  }

  function FinisherRank(f: Finisher): nat {
    match f
    case Open => 0
    case Sending(_, _) => 1
    case Draining => 2
    case Drained => 3
    case Closed => 4
  }

  lemma RemovalShrinks<K, V>(m: map<K, V>, k: K)
    requires k in m
    ensures |m - {k}| < |m|
  {
    assert (m - {k}).Keys == m.Keys - {k};
    assert |m.Keys - {k}| < |m.Keys|;
  }

  lemma NextPick(c: Client) returns (e: Event)
    requires ClientKept(c) && c.finisher.Draining? && c.pending != map[]
    ensures e.Pick? && Enabled(c, e) && |Next(c, e).pending| < |c.pending|
  {
    var id :| id in c.pending;
    e := Pick(id);
    RemovalShrinks(c.pending, id);
  }

  lemma FinisherStep(c: Client) returns (e: Event)
    requires ClientKept(c) && !c.finisher.Closed?
    ensures IsFinisherStep(e) && Enabled(c, e)
    ensures var next := Next(c, e);
      |next.pending| < |c.pending|
      || (|next.pending| == |c.pending| && FinisherRank(next.finisher) > FinisherRank(c.finisher))
  {
    match c.finisher
    case Open => e := Finish;
    case Sending(id, _) =>
      assert CallKept(c, id);
      e := Send;
    case Drained => e := Close;
    case Draining =>
      if c.pending == map[] {
        e := Unlock;
      } else {
        e := NextPick(c);
      }
  }

  /** The steps of one caller. */
  predicate IsStepOf(id: CallId, e: Event) {
    e == Register(id) || e == Write(id, true) || e == SeeDone(id) || e == Remove(id)
  }

  function StepsLeft(pc: Pc): nat {
    match pc
    case Allocated => 1
    case Registered => 3
    case Waiting => 2
    case Removing(_) => 1
    case Returned(_) => 0
  }

  /** Once `done` is closed, every call can return by at most three steps of its own. A caller that is still writing
      is taken to finish its write: a write blocked on a full pipe, or on the write lock that another such writer
      holds, is not modelled, and `done` does not wake it. */
  lemma {:induction false} EveryCallCanReturn(c: Client, id: CallId) returns (events: seq<Event>, later: Client)
    requires ClientKept(c) && c.finisher.Closed? && id in c.calls
    ensures Runs(c, events, later) && id in later.calls && later.calls[id].pc.Returned?
    ensures |events| <= StepsLeft(c.calls[id].pc) && forall e :: e in events ==> IsStepOf(id, e)
    decreases StepsLeft(c.calls[id].pc)
  {
    if c.calls[id].pc.Returned? {
      events, later := [], c;
    } else {
      assert CallKept(c, id);
      var e := match c.calls[id].pc
        case Allocated => Register(id)
        case Registered => Write(id, true)
        case Waiting => SeeDone(id)
        case _ => Remove(id);
      NextKeeps(c, e);
      events, later := EveryCallCanReturn(Next(c, e), id);
      assert ([e] + events)[1..] == events;
      events := [e] + events;
    }
  }
}
