/** The two sender loops as they run: the vehicle's Agent and the backend's TdmClient. Each turn
    of a loop, run without interference, is proved to be a run of the sender protocol. */
module SenderLoop {
  import opened Prelude
  import opened GoStrings
  import opened QueueTable
  import opened SenderProtocol
  import opened SenderRuns
  import opened TopicPath

  const QUEUE := "data"
  const AGENT_WTD := 120

  datatype Message = Message(topic: string, payload: string)

  /** The protocol events of sender `a` from DequeueData on. */
  function ServeEvents(s: State, a: nat, ok: bool): (es: seq<Event>) {
    if WithStatus(s.table, READY) == {} then [Take(a), Acknowledge(a)]
    else if ok then [Take(a), Publish(a, true), Acknowledge(a)]
    else [Take(a), Publish(a, false)]
  }

  /** The protocol events of one turn of the loop by sender `a`. */
  function TurnEvents(s: State, a: nat, connected: bool, now: nat, ok: bool): (es: seq<Event>)
    requires a < |s.agents|
  {
    [Poll(a, connected, now)]
    + (if s.agents[a].running && connected && WithStatus(s.table, READY) != {} then ServeEvents(s, a, ok) else [])
  }

  predicate AtLoop(s: State, a: nat) {
    AtTop(s, a) && s.agents[a].running
  }

  /** At the test of the loop, killed or not. */
  predicate AtTop(s: State, a: nat) {
    At(s, a) && s.agents[a].pc == Loop
  }

  predicate AtSized(s: State, a: nat) {
    At(s, a) && s.agents[a].pc == Sized
  }

  /** What serving does: one Publish of the least ready row, then acked, or left claimed with the
      sender stuck; and nothing when another sender has emptied the queue since Size. */
  predicate Served(s: State, n: State, a: nat, ok: bool) {
    && a < |s.agents| == |n.agents| && n.agents[a].kicked == s.agents[a].kicked
    && if WithStatus(s.table, READY) == {} then
         n.table == s.table && n.attempts == s.attempts && n.agents[a] == s.agents[a].(pc := Loop)
       else
         var claim := Dequeue(s.table);
         && n.attempts == s.attempts + [Attempt(a, claim.id, claim.data.value, ok)]
         && n.agents[a] == s.agents[a].(pc := if ok then Loop else Stuck(claim.id))
         && n.table == (if ok then SetStatus(claim.table, claim.id, ACKED) else claim.table)
  }

  lemma {:induction false} ServeRuns(s: State, a: nat, ok: bool)
    requires AtSized(s, a) && Valid(s.table)
    ensures CanRun(s, ServeEvents(s, a, ok)) && Served(s, After(s, ServeEvents(s, a, ok)), a, ok)
    ensures After(s, ServeEvents(s, a, ok)).agents[a].alive
  {
    var taken := Step(s, Take(a));
    if WithStatus(s.table, READY) == {} {
      RunOn(taken, Acknowledge(a), []);
      RunOn(s, Take(a), [Acknowledge(a)]);
      assert [Take(a)] + [Acknowledge(a)] == ServeEvents(s, a, ok);
    } else if ok {
      var published := Step(taken, Publish(a, true));
      RunOn(published, Acknowledge(a), []);
      RunOn(taken, Publish(a, true), [Acknowledge(a)]);
      RunOn(s, Take(a), [Publish(a, true)] + [Acknowledge(a)]);
      assert [Take(a)] + ([Publish(a, true)] + [Acknowledge(a)]) == ServeEvents(s, a, ok);
    } else {
      RunOn(taken, Publish(a, false), []);
      RunOn(s, Take(a), [Publish(a, false)]);
      assert [Take(a)] + [Publish(a, false)] == ServeEvents(s, a, ok);
    }
  }

  /** A turn of the loop that no other sender interrupts. */
  lemma {:induction false} TurnRuns(s: State, a: nat, connected: bool, now: nat, ok: bool)
    requires AtTop(s, a) && Valid(s.table)
    ensures
      var es := TurnEvents(s, a, connected, now, ok);
      && CanRun(s, es) && a < |After(s, es).agents|
      && After(s, es).agents[a].kicked == (if s.agents[a].running then now else s.agents[a].kicked)
      && (if !s.agents[a].running then
            After(s, es).table == s.table && After(s, es).agents[a].pc == Exited && After(s, es).attempts == s.attempts
          else if !connected || WithStatus(s.table, READY) == {} then
            After(s, es).table == s.table && AtLoop(After(s, es), a) && After(s, es).attempts == s.attempts
          else
            var claim := Dequeue(s.table);
            && After(s, es).attempts == s.attempts + [Attempt(a, claim.id, claim.data.value, ok)]
            && (if ok then AtLoop(After(s, es), a) && After(s, es).table == SetStatus(claim.table, claim.id, ACKED)
                else After(s, es).agents[a].pc == Stuck(claim.id) && After(s, es).table == claim.table))
  {
    var e := Poll(a, connected, now);
    var s1 := Step(s, e);
    if s.agents[a].running && connected && WithStatus(s.table, READY) != {} {
      assert AtSized(s1, a) && s1.table == s.table && s1.attempts == s.attempts;
      ServeRuns(s1, a, ok);
      RunOn(s, e, ServeEvents(s, a, ok));
    } else {
      RunOn(s, e, []);
    }
  }

  /** tracky/src/trackeroo/agent.go. */
  class Agent {
    const clientId: string
    const store: Store
    var running: bool
    var kicked: nat
    var stuck: bool
    var sent: seq<Message>

    constructor (clientId: string, store: Store, now: nat)
      ensures this.clientId == clientId && this.store == store
      ensures running && !stuck && kicked == now && sent == []
    {
      this.clientId, this.store := clientId, store;
      running, kicked, stuck, sent := true, now, false, [];
    }

    /** One turn of the loop; `s` and `a` are the protocol's view of it. A failed Publish leaves
        the sender inside the retry loop, whose condition is never evaluated on a new error. */
    method Turn(connected: bool, ok: bool, now: nat, ghost s: State, ghost a: nat) returns (again: bool)
      requires store.Consistent() && QUEUE in store.queues && s.table == store.files[QUEUE]
      requires !stuck && AtTop(s, a) && s.agents[a].running == running && s.agents[a].kicked == kicked
      modifies this`kicked, this`stuck, this`sent, store`files
      ensures store.Consistent()
      ensures
        var es := TurnEvents(s, a, connected, now, ok);
        && CanRun(s, es) && a < |After(s, es).agents|
        && store.files == old(store.files)[QUEUE := After(s, es).table]
        && kicked == After(s, es).agents[a].kicked
        && stuck == After(s, es).agents[a].pc.Stuck?
        && again == running == !After(s, es).agents[a].pc.Exited?
      ensures
        var t := After(s, TurnEvents(s, a, connected, now, ok)).attempts;
        sent == old(sent) +
          if |t| > |s.attempts| && ok then
            [Message(AgentTopic(clientId, Cut(t[|s.attempts|].data, '/').0), Cut(t[|s.attempts|].data, '/').1)]
          else []
    {
      TurnRuns(s, a, connected, now, ok);
      again := running;
      if !running {
        return;
      }
      kicked := now;
      ghost var polled := Step(s, Poll(a, connected, now));
      if !connected {
        return;
      }
      var size, _ := store.Size(QUEUE);
      if size > 0 {
        ServeRuns(polled, a, ok);
        RunOn(s, Poll(a, connected, now), ServeEvents(polled, a, ok));
        Serve(ok, polled, a);
      }
    }

    /** The turn from DequeueData on. Other senders may have come between Size and here, so the
        queue may be empty: then -1 is acked. */
    method Serve(ok: bool, ghost s: State, ghost a: nat)
      requires store.Consistent() && QUEUE in store.queues && s.table == store.files[QUEUE]
      requires !stuck && AtSized(s, a)
      modifies this`stuck, this`sent, store`files
      ensures store.Consistent()
      ensures
        var es := ServeEvents(s, a, ok);
        && CanRun(s, es) && a < |After(s, es).agents|
        && store.files == old(store.files)[QUEUE := After(s, es).table]
        && stuck == After(s, es).agents[a].pc.Stuck?
      ensures
        var t := After(s, ServeEvents(s, a, ok)).attempts;
        sent == old(sent) +
          if |t| > |s.attempts| && ok then
            [Message(AgentTopic(clientId, Cut(t[|s.attempts|].data, '/').0), Cut(t[|s.attempts|].data, '/').1)]
          else []
    {
      ServeRuns(s, a, ok);
      var id, data, _ := store.DequeueData(QUEUE);
      match data
      case Some(str) =>
        var (tag, payload, _) := Cut(str, '/');
        if !ok {
          stuck := true;
          return;
        }
        sent := sent + [Message(AgentTopic(clientId, tag), payload)];
        var _ := store.Ack(QUEUE, id);
      case None =>
        var _ := store.Ack(QUEUE, id);
    }

    /** A turn of the retry loop: nothing but a kick. */
    method Retry(now: nat, ghost s: State, ghost a: nat)
      requires stuck && At(s, a) && s.agents[a].pc.Stuck?
      modifies this`kicked
      ensures kicked == Step(s, Spin(a, now)).agents[a].kicked
      ensures Step(s, Spin(a, now)).table == s.table && Step(s, Spin(a, now)).agents[a].pc == s.agents[a].pc
    {
      kicked := now;
    }
  }

  /** trackeroo-backend/src/internal/service/mqtt.go. The loop turns only once connected, and
      does not kick: the turn's `now` has no counterpart there. */
  class TdmClient {
    const store: Store
    var running: bool
    var stuck: bool
    var sent: seq<Message>

    constructor (store: Store)
      ensures this.store == store && running && !stuck && sent == []
    {
      this.store := store;
      running, stuck, sent := true, false, [];
    }

    method Turn(ok: bool, ghost s: State, ghost a: nat, ghost now: nat) returns (again: bool)
      requires store.Consistent() && QUEUE in store.queues && s.table == store.files[QUEUE]
      requires !stuck && AtTop(s, a) && s.agents[a].running == running
      modifies this`stuck, this`sent, store`files
      ensures store.Consistent()
      ensures
        var es := TurnEvents(s, a, true, now, ok);
        && CanRun(s, es) && a < |After(s, es).agents|
        && store.files == old(store.files)[QUEUE := After(s, es).table]
        && stuck == After(s, es).agents[a].pc.Stuck?
        && again == running == !After(s, es).agents[a].pc.Exited?
      ensures
        var t := After(s, TurnEvents(s, a, true, now, ok)).attempts;
        sent == old(sent) +
          if |t| > |s.attempts| && ok then
            var p := BackendDecode(t[|s.attempts|].data);
            [Message(BackendTopic(p.devID, p.tag), p.payload)]
          else []
    {
      TurnRuns(s, a, true, now, ok);
      again := running;
      if !running {
        return;
      }
      ghost var polled := Step(s, Poll(a, true, now));
      var size, _ := store.Size(QUEUE);
      if size > 0 {
        ServeRuns(polled, a, ok);
        RunOn(s, Poll(a, true, now), ServeEvents(polled, a, ok));
        Serve(ok, polled, a);
      }
    }

    /** The turn from DequeueData on, as for the agent. */
    method Serve(ok: bool, ghost s: State, ghost a: nat)
      requires store.Consistent() && QUEUE in store.queues && s.table == store.files[QUEUE]
      requires !stuck && AtSized(s, a)
      modifies this`stuck, this`sent, store`files
      ensures store.Consistent()
      ensures
        var es := ServeEvents(s, a, ok);
        && CanRun(s, es) && a < |After(s, es).agents|
        && store.files == old(store.files)[QUEUE := After(s, es).table]
        && stuck == After(s, es).agents[a].pc.Stuck?
      ensures
        var t := After(s, ServeEvents(s, a, ok)).attempts;
        sent == old(sent) +
          if |t| > |s.attempts| && ok then
            var p := BackendDecode(t[|s.attempts|].data);
            [Message(BackendTopic(p.devID, p.tag), p.payload)]
          else []
    {
      ServeRuns(s, a, ok);
      var id, data, _ := store.DequeueData(QUEUE);
      match data
      case Some(str) =>
        var (devID, tagPayload, _) := Cut(str, '/');
        var (tag, payload, _) := Cut(tagPayload, '/');
        if !ok {
          stuck := true;
          return;
        }
        sent := sent + [Message(BackendTopic(devID, tag), payload)];
        var _ := store.Ack(QUEUE, id);
      case None =>
        var _ := store.Ack(QUEUE, id);
    }
  }

  /** The arguments of the backend's EnqueueData. */
  datatype Call = Call(devID: string, tag: string, payload: string)

  /** The rows a run enqueues, in order. */
  function Enqueued(es: seq<Event>): (out: seq<string>)
    decreases |es|
  {
    if es == [] then [] else
      (if es[0].Enqueue? then [es[0].data] else []) + Enqueued(es[1..])
  }

  function Encoded(calls: seq<Call>): (out: seq<string>)
    ensures |out| == |calls|
    ensures forall k | 0 <= k < |calls| ::
      && out[k] == BackendEncode(calls[k].devID, calls[k].tag, calls[k].payload)
      && out[k] == calls[k].devID + "/" + calls[k].tag + "/" + calls[k].payload
  {
    if calls == [] then [] else
      [BackendEncode(calls[0].devID, calls[0].tag, calls[0].payload)] + Encoded(calls[1..])
  }

  lemma {:induction false} EnqueuedExactly(s: State, es: seq<Event>)
    requires CanRun(s, es)
    ensures After(s, es).enqueued == s.enqueued + Enqueued(es)
    decreases |es|
  {
    if es != [] { EnqueuedExactly(Step(s, es[0]), es[1..]); }
  }

  lemma {:induction false} AttemptIsOfCall(es: seq<Event>, calls: seq<Call>, i: nat)
    requires CanRun(INITIAL, es) && Enqueued(es) == Encoded(calls) && i < |After(INITIAL, es).attempts|
    ensures
      var t := After(INITIAL, es).attempts[i];
      && 1 <= t.id <= |calls|
      && t.data == BackendEncode(calls[t.id - 1].devID, calls[t.id - 1].tag, calls[t.id - 1].payload)
      && forall j | 0 <= j < i :: After(INITIAL, es).attempts[j].id != t.id
  {
    EveryRun(es);
    EnqueuedExactly(INITIAL, es);
  }

  /** End to end, over every run whose rows come from these calls of the backend's EnqueueData:
      each call of Publish is for the row of one of them, no two for the same, and it and then
      brokeroo read that call's own device, tag and payload from it if and only if neither name
      contains a slash. */
  lemma {:induction false} PublishedAsEnqueued(es: seq<Event>, calls: seq<Call>, i: nat)
    requires CanRun(INITIAL, es) && Enqueued(es) == Encoded(calls) && i < |After(INITIAL, es).attempts|
    ensures
      var t := After(INITIAL, es).attempts[i];
      var p := BackendDecode(t.data);
      && 1 <= t.id <= |calls|
      && (forall j | 0 <= j < i :: After(INITIAL, es).attempts[j].id != t.id)
      && (var c := calls[t.id - 1];
          (p == Parts(c.devID, c.tag, c.payload)
           && ParseTopic(BackendTopic(p.devID, p.tag)) == Some(Source(c.devID, c.tag)))
          <==> Free(c.devID, '/') && Free(c.tag, '/'))
  {
    AttemptIsOfCall(es, calls, i);
    var c := calls[After(INITIAL, es).attempts[i].id - 1];
    BackendRoundTrip(c.devID, c.tag, c.payload);
  }
}
