/** brokeroo's handlers running concurrently against an MQTT broker that keeps, per section 4.3.2
    and section 4.4 of MQTT Version 3.1.1, every QoS 1 message until it is acknowledged, and may
    deliver it again. One event is one call to a store, so handlers interleave at every call. */
module AckProtocol {
  import opened Prelude
  import opened TopicPath
  import opened FirstWrite
  import opened Brokeroo

  datatype Phase =
    | Received
    | Inserting(now: int)
    | LookingUp(now: int)
    | Creating(now: int)
    | Marking(now: int)
    | Writing(now: int)
    | Acking
    | Done

  /** One delivery of message number `msg`. */
  datatype Handler = Handler(msg: nat, phase: Phase)

  /** An insertion that took effect, and the message it was made for. */
  datatype Logged = Logged(msg: nat, row: Insertion)

  function Rows(log: seq<Logged>): (xs: seq<Insertion>)
    ensures |xs| == |log| && forall j | 0 <= j < |log| :: xs[j] == log[j].row
  {
    if log == [] then [] else Rows(log[..|log| - 1]) + [log[|log| - 1].row]
  }

  /** What the stores take, the broker's side (`sent`, `owed`, `acked`), the durable stores, the
      log of insertions that took effect, the writer's log, the in-memory cache of topics, and
      every handler ever started. */
  datatype State = State(
    rules: Rules, sent: seq<Message>, owed: set<nat>, acked: set<nat>,
    data: Data, log: seq<Logged>, topics: set<string>, forwarded: seq<Forward>,
    known: set<string>, handlers: seq<Handler>)

  datatype Event =
    | Send(m: Message)
    | Deliver(msg: nat)
    | Parse(h: nat, now: int)
    | DoInsert(h: nat, o: Outcome)
    | LookUp(h: nat)
    | Create(h: nat, c: Creation)
    | Mark(h: nat)
    | Write(h: nat, o: Outcome)
    | Ack(h: nat)
    | Crash

  function Initial(rules: Rules): State {
    State(rules, [], {}, {}, map[], [], {}, [], {}, [])
  }

  predicate HandlersWell(s: State) {
    forall h | 0 <= h < |s.handlers| :: s.handlers[h].msg < |s.sent|
  }

  function Msg(s: State, h: nat): Message
    requires HandlersWell(s) && h < |s.handlers|
  {
    s.sent[s.handlers[h].msg]
  }

  predicate Beyond(p: Phase) {
    p.LookingUp? || p.Creating? || p.Marking? || p.Writing?
  }

  predicate Enabled(s: State, e: Event)
    requires HandlersWell(s)
  {
    match e
    case Send(_) => true
    case Deliver(i) => i in s.owed && i < |s.sent|
    case Parse(h, _) => h < |s.handlers| && s.handlers[h].phase.Received?
    case DoInsert(h, o) =>
      h < |s.handlers| && s.handlers[h].phase.Inserting? && WellFormed(Msg(s, h)) && Possible(o)
      && (o.applied ==> s.rules.storable(Msg(s, h).payload))
    case LookUp(h) => h < |s.handlers| && s.handlers[h].phase.LookingUp?
    case Create(h, c) =>
      h < |s.handlers| && s.handlers[h].phase.Creating?
      && (c.AlreadyExists? ==> SanitizeTopic(Msg(s, h).topic) in s.topics)
      && (Creates(c) ==> s.rules.nameable(SanitizeTopic(Msg(s, h).topic)))
    case Mark(h) => h < |s.handlers| && s.handlers[h].phase.Marking?
    case Write(h, o) =>
      h < |s.handlers| && s.handlers[h].phase.Writing? && WellFormed(Msg(s, h)) && Possible(o)
      && (o.applied ==> s.rules.writable(ForwardOf(Msg(s, h), s.handlers[h].phase.now)))
    case Ack(h) => h < |s.handlers| && s.handlers[h].phase.Acking?
    case Crash => true
  }

  function Goto(s: State, h: nat, p: Phase): State
    requires h < |s.handlers|
  {
    s.(handlers := s.handlers[h := s.handlers[h].(phase := p)])
  }

  function Step(s: State, e: Event): State
    requires HandlersWell(s) && Enabled(s, e)
  {
    match e
    case Send(m) => s.(sent := s.sent + [m], owed := s.owed + {|s.sent|})
    case Deliver(i) => s.(handlers := s.handlers + [Handler(i, Received)])
    case Parse(h, now) => Goto(s, h, if WellFormed(Msg(s, h)) then Inserting(now) else Acking)
    case DoInsert(h, o) =>
      var now := s.handlers[h].phase.now;
      var row := RowOf(Msg(s, h), now);
      var next := Goto(s, h, if o.ok then LookingUp(now) else Done);
      if o.applied then next.(data := FirstWrite.Insert(s.data, row), log := s.log + [Logged(s.handlers[h].msg, row)]) else next
    case LookUp(h) =>
      var now := s.handlers[h].phase.now;
      Goto(s, h, if SanitizeTopic(Msg(s, h).topic) in s.known then Writing(now) else Creating(now))
    case Create(h, c) =>
      var topic := SanitizeTopic(Msg(s, h).topic);
      var now := s.handlers[h].phase.now;
      Goto(s, h, if c.Failed? then Done else Marking(now)).(
        topics := if Creates(c) then s.topics + {topic} else s.topics)
    case Mark(h) =>
      Goto(s, h, Writing(s.handlers[h].phase.now)).(known := s.known + {SanitizeTopic(Msg(s, h).topic)})
    case Write(h, o) =>
      var f := ForwardOf(Msg(s, h), s.handlers[h].phase.now);
      Goto(s, h, if o.ok then Acking else Done).(
        forwarded := if o.applied then s.forwarded + [f] else s.forwarded)
    case Ack(h) =>
      var i := s.handlers[h].msg;
      Goto(s, h, Done).(owed := s.owed - {i}, acked := s.acked + {i})
    case Crash =>
      s.(known := {}, handlers := seq(|s.handlers|, i requires 0 <= i < |s.handlers| => s.handlers[i].(phase := Done)))
  }

  /** The event is a call by handler `h`. */
  predicate By(e: Event, h: nat) {
    match e
    case Parse(g, _) => g == h
    case DoInsert(g, _) => g == h
    case LookUp(g) => g == h
    case Create(g, _) => g == h
    case Mark(g) => g == h
    case Write(g, _) => g == h
    case Ack(g) => g == h
    case _ => false
  }

  // ----- The invariant -----

  ghost predicate BrokerWell(s: State) {
    && HandlersWell(s)
    && (forall i: nat :: i in s.owed || i in s.acked <==> i < |s.sent|)
    && (forall i | i in s.owed :: i !in s.acked)
  }

  /** Message `i` was inserted for, its Kafka topic exists, and the writer has its envelope, with
      the second of that insertion. */
  predicate ForwardedAs(s: State, i: nat, m: Message, f: Forward)
    requires WellFormed(m)
  {
    && f == ForwardOf(m, f.envelope.tsUnix)
    && Logged(i, RowOf(m, f.envelope.tsUnix)) in s.log
    && f.topic in s.topics
  }

  ghost predicate Settled(s: State, i: nat, m: Message) {
    WellFormed(m) ==>
      exists j :: 0 <= j < |s.forwarded| && ForwardedAs(s, i, m, s.forwarded[j])
  }

  /** What a handler has achieved when it is in phase `p` of message `i`. */
  predicate PhaseWell(s: State, i: nat, m: Message, p: Phase) {
    && (p.Inserting? ==> WellFormed(m))
    && (Beyond(p) ==> WellFormed(m) && Logged(i, RowOf(m, p.now)) in s.log)
    && (p.Marking? || p.Writing? ==> SanitizeTopic(m.topic) in s.topics)
  }

  ghost predicate ProgressWell(s: State)
    requires HandlersWell(s)
  {
    forall h | 0 <= h < |s.handlers| :: PhaseWell(s, s.handlers[h].msg, Msg(s, h), s.handlers[h].phase)
  }

  ghost predicate AcksWell(s: State)
    requires HandlersWell(s)
  {
    && (forall h | 0 <= h < |s.handlers| && s.handlers[h].phase.Acking? :: Settled(s, s.handlers[h].msg, Msg(s, h)))
    && (forall i | i in s.acked && i < |s.sent| :: Settled(s, i, s.sent[i]))
  }

  ghost predicate StoresWell(s: State) {
    && s.known <= s.topics
    && s.data == InsertAll(map[], Rows(s.log))
  }

  /** The stores hold only what the rules let in. */
  ghost predicate RulesWell(s: State) {
    && (forall j | 0 <= j < |s.log| :: LoggedWell(s, s.log[j]))
    && (forall t | t in s.topics :: s.rules.nameable(t))
    && (forall j | 0 <= j < |s.forwarded| :: s.rules.writable(s.forwarded[j]))
  }

  predicate LoggedWell(s: State, x: Logged) {
    && x.msg < |s.sent| && WellFormed(s.sent[x.msg])
    && x.row == RowOf(s.sent[x.msg], x.row.key.ts)
    && s.rules.storable(s.sent[x.msg].payload)
  }

  ghost predicate Inv(s: State) {
    BrokerWell(s) && ProgressWell(s) && StoresWell(s) && RulesWell(s) && AcksWell(s)
  }

  lemma {:induction false} StepKeepsBroker(s: State, e: Event)
    requires BrokerWell(s) && Enabled(s, e)
    ensures BrokerWell(Step(s, e))
  {
  }

  lemma {:induction false} RowsAppend(log: seq<Logged>, x: Logged)
    ensures Rows(log + [x]) == Rows(log) + [x.row]
  {
    assert (log + [x])[..|log|] == log;
  }

  lemma {:induction false} InsertKeepsStores(s: State, h: nat, o: Outcome)
    requires BrokerWell(s) && StoresWell(s) && Enabled(s, DoInsert(h, o))
    ensures StoresWell(Step(s, DoInsert(h, o)))
  {
    if o.applied {
      var x := Logged(s.handlers[h].msg, RowOf(Msg(s, h), s.handlers[h].phase.now));
      RowsAppend(s.log, x);
      assert (Rows(s.log) + [x.row])[..|s.log|] == Rows(s.log);
    }
  }

  lemma {:induction false} StepKeepsStores(s: State, e: Event)
    requires BrokerWell(s) && ProgressWell(s) && StoresWell(s) && Enabled(s, e)
    ensures StoresWell(Step(s, e))
  {
    if e.DoInsert? {
      InsertKeepsStores(s, e.h, e.o);
    } else {
      var n := Step(s, e);
      assert n.data == s.data && n.log == s.log;
      assert n.known <= n.topics by {
        if e.Mark? { assert PhaseWell(s, s.handlers[e.h].msg, Msg(s, e.h), s.handlers[e.h].phase); }
      }
    }
  }

  lemma {:induction false} InsertKeepsRules(s: State, h: nat, o: Outcome)
    requires BrokerWell(s) && RulesWell(s) && Enabled(s, DoInsert(h, o))
    ensures RulesWell(Step(s, DoInsert(h, o)))
  {
    KeyedByReceiveSecond(Msg(s, h), s.handlers[h].phase.now);
    var n := Step(s, DoInsert(h, o));
    forall j | 0 <= j < |n.log| ensures LoggedWell(n, n.log[j]) {
      if j < |s.log| { assert LoggedWell(s, s.log[j]); }
    }
  }

  lemma {:induction false} StepKeepsRules(s: State, e: Event)
    requires BrokerWell(s) && RulesWell(s) && Enabled(s, e)
    ensures RulesWell(Step(s, e))
  {
    if e.DoInsert? {
      InsertKeepsRules(s, e.h, e.o);
    } else {
      var n := Step(s, e);
      assert n.log == s.log && s.sent <= n.sent && n.rules == s.rules;
      assert forall j | 0 <= j < |n.log| :: LoggedWell(s, s.log[j]) && LoggedWell(n, n.log[j]);
    }
  }

  lemma {:induction false} StepGrows(s: State, e: Event)
    requires BrokerWell(s) && Enabled(s, e)
    ensures s.log <= Step(s, e).log
    ensures s.topics <= Step(s, e).topics
    ensures s.forwarded <= Step(s, e).forwarded
    ensures s.sent <= Step(s, e).sent
    ensures s.acked <= Step(s, e).acked
    ensures Step(s, e).rules == s.rules
  {
  }

  lemma {:induction false} PhaseStaysWell(s: State, n: State, i: nat, m: Message, p: Phase)
    requires PhaseWell(s, i, m, p) && s.log <= n.log && s.topics <= n.topics
    ensures PhaseWell(n, i, m, p)
  {
  }

  /** The handler that moves gets its new phase's facts from what its call just did. */
  lemma {:induction false} MoverIsWell(s: State, e: Event, h: nat)
    requires BrokerWell(s) && ProgressWell(s) && s.known <= s.topics && Enabled(s, e)
    requires h < |s.handlers| && By(e, h)
    ensures PhaseWell(Step(s, e), s.handlers[h].msg, Msg(s, h), Step(s, e).handlers[h].phase)
  {
    assert PhaseWell(s, s.handlers[h].msg, Msg(s, h), s.handlers[h].phase);
  }

  lemma {:induction false} OthersStand(s: State, e: Event, h: nat)
    requires HandlersWell(s) && Enabled(s, e) && h < |s.handlers| && !By(e, h)
    ensures h < |Step(s, e).handlers| && Step(s, e).handlers[h].msg == s.handlers[h].msg
    ensures Step(s, e).handlers[h].phase == if e.Crash? then Done else s.handlers[h].phase
  {
  }

  lemma {:induction false} OneStaysWell(s: State, e: Event, h: nat)
    requires BrokerWell(s) && ProgressWell(s) && s.known <= s.topics && Enabled(s, e) && HandlersWell(Step(s, e))
    requires h < |s.handlers|
    ensures h < |Step(s, e).handlers|
    ensures PhaseWell(Step(s, e), Step(s, e).handlers[h].msg, Msg(Step(s, e), h), Step(s, e).handlers[h].phase)
  {
    StepGrows(s, e);
    if By(e, h) {
      MoverIsWell(s, e, h);
    } else {
      OthersStand(s, e, h);
      PhaseStaysWell(s, Step(s, e), s.handlers[h].msg, Msg(s, h), s.handlers[h].phase);
    }
  }

  lemma {:induction false} StepKeepsProgress(s: State, e: Event)
    requires BrokerWell(s) && ProgressWell(s) && s.known <= s.topics && Enabled(s, e)
    ensures HandlersWell(Step(s, e)) && ProgressWell(Step(s, e))
  {
    StepKeepsBroker(s, e);
    var n := Step(s, e);
    forall h | 0 <= h < |n.handlers| ensures PhaseWell(n, n.handlers[h].msg, Msg(n, h), n.handlers[h].phase) {
      if h < |s.handlers| { OneStaysWell(s, e, h); }
    }
  }

  lemma {:induction false} SettledStays(s: State, n: State, i: nat, m: Message)
    requires Settled(s, i, m) && s.forwarded <= n.forwarded && s.log <= n.log && s.topics <= n.topics
    ensures Settled(n, i, m)
  {
    if WellFormed(m) {
      var j :| 0 <= j < |s.forwarded| && ForwardedAs(s, i, m, s.forwarded[j]);
      assert ForwardedAs(n, i, m, n.forwarded[j]);
    }
  }

  /** A handler that turns to its ack has just settled its message, or found it malformed. */
  lemma {:induction false} MoverSettles(s: State, e: Event, h: nat)
    requires BrokerWell(s) && ProgressWell(s) && Enabled(s, e) && h < |s.handlers| && By(e, h)
    requires Step(s, e).handlers[h].phase.Acking?
    ensures Settled(Step(s, e), s.handlers[h].msg, Msg(s, h))
  {
    if e.Write? {
      var m := Msg(s, h);
      var n := Step(s, e);
      assert PhaseWell(s, s.handlers[h].msg, m, s.handlers[h].phase);
      KeyedByReceiveSecond(m, s.handlers[h].phase.now);
      assert ForwardedAs(n, s.handlers[h].msg, m, n.forwarded[|s.forwarded|]);
    }
  }

  lemma {:induction false} StepKeepsAcks(s: State, e: Event)
    requires BrokerWell(s) && ProgressWell(s) && AcksWell(s) && Enabled(s, e)
    ensures HandlersWell(Step(s, e)) && AcksWell(Step(s, e))
  {
    var n := Step(s, e);
    StepGrows(s, e);
    StepKeepsBroker(s, e);
    forall h | 0 <= h < |n.handlers| && n.handlers[h].phase.Acking? ensures Settled(n, n.handlers[h].msg, Msg(n, h)) {
      if By(e, h) {
        MoverSettles(s, e, h);
      } else {
        assert h < |s.handlers|;
        OthersStand(s, e, h);
        SettledStays(s, n, s.handlers[h].msg, Msg(s, h));
      }
    }
    forall i | i in n.acked && i < |n.sent| ensures Settled(n, i, n.sent[i]) {
      AckedStaysSettled(s, e, i);
    }
  }

  lemma {:induction false} AckedStaysSettled(s: State, e: Event, i: nat)
    requires BrokerWell(s) && AcksWell(s) && Enabled(s, e) && i in Step(s, e).acked && i < |Step(s, e).sent|
    ensures i < |s.sent| && Settled(Step(s, e), i, s.sent[i])
  {
    StepGrows(s, e);
    if i !in s.acked {
      assert e.Ack? && i == s.handlers[e.h].msg;
    }
    SettledStays(s, Step(s, e), i, s.sent[i]);
  }

  lemma {:induction false} StepKeepsInv(s: State, e: Event)
    requires Inv(s) && Enabled(s, e)
    ensures Inv(Step(s, e))
  {
    StepKeepsBroker(s, e);
    StepKeepsProgress(s, e);
    StepKeepsStores(s, e);
    StepKeepsRules(s, e);
    StepKeepsAcks(s, e);
  }

  // ----- Runs -----

  ghost predicate CanRun(s: State, es: seq<Event>)
    decreases |es|
  {
    es == [] || (HandlersWell(s) && Enabled(s, es[0]) && CanRun(Step(s, es[0]), es[1..]))
  }

  ghost function After(s: State, es: seq<Event>): State
    requires CanRun(s, es)
    decreases |es|
  {
    if es == [] then s else After(Step(s, es[0]), es[1..])
  }

  lemma {:induction false} RunKeepsInv(s: State, es: seq<Event>)
    requires Inv(s) && CanRun(s, es)
    ensures Inv(After(s, es))
    decreases |es|
  {
    if es != [] {
      StepKeepsInv(s, es[0]);
      RunKeepsInv(Step(s, es[0]), es[1..]);
    }
  }

  lemma {:induction false} LoggedHasRow(s: State, x: Logged)
    requires StoresWell(s) && x in s.log
    ensures x.row.key in s.data
  {
    var j :| 0 <= j < |s.log| && s.log[j] == x;
    KeysGrow(map[], Rows(s.log));
    assert Rows(s.log)[j].key in KeysOf(Rows(s.log));
  }

  /** Over every interleaving of handlers, store failures, crashes and redeliveries: each message
      sent is acked or still owed by the broker, never both; each acked well-formed message was
      inserted for, handed to the Kafka writer, and has a row under its envelope's key; the topic
      cache lists only topics that exist; and the table holds the first payload inserted under
      each key. */
  lemma {:induction false} EveryRun(rules: Rules, es: seq<Event>)
    requires CanRun(Initial(rules), es)
    ensures
      var s := After(Initial(rules), es);
      && (forall i: nat :: i in s.owed || i in s.acked <==> i < |s.sent|)
      && (forall i | i in s.owed :: i !in s.acked)
      && (forall i | i in s.acked && i < |s.sent| && WellFormed(s.sent[i]) ::
            exists j :: 0 <= j < |s.forwarded| && ForwardedAs(s, i, s.sent[i], s.forwarded[j]))
      && (forall x | x in s.log :: x.row.key in s.data)
      && s.known <= s.topics
      && s.data.Keys == KeysOf(Rows(s.log))
      && (forall k | k in s.data ::
            First(Rows(s.log), k) < |s.log| && s.data[k] == s.log[First(Rows(s.log), k)].row.entry)
  {
    RunKeepsInv(Initial(rules), es);
    var s := After(Initial(rules), es);
    FirstPayloadWins(Rows(s.log));
    forall i | i in s.acked && i < |s.sent| && WellFormed(s.sent[i])
      ensures exists j :: 0 <= j < |s.forwarded| && ForwardedAs(s, i, s.sent[i], s.forwarded[j])
    {
      assert Settled(s, i, s.sent[i]);
    }
    forall x | x in s.log ensures x.row.key in s.data { LoggedHasRow(s, x); }
  }

  /** Whatever a handler of a malformed message does, no store changes; and the only thing it
      does after parsing is ack. */
  lemma {:induction false} MalformedHasNoEffect(s: State, e: Event, h: nat)
    requires Inv(s) && Enabled(s, e) && h < |s.handlers| && By(e, h) && !WellFormed(Msg(s, h))
    ensures
      var n := Step(s, e);
      && n.data == s.data && n.log == s.log && n.topics == s.topics && n.known == s.known
      && n.forwarded == s.forwarded
      && (e.Parse? || (e.Ack? && s.handlers[h].msg in n.acked))
  {
  }

  /** A message can be delivered exactly while it is sent and not acked. */
  lemma {:induction false} DeliverableExactly(s: State, i: nat)
    requires Inv(s)
    ensures Enabled(s, Deliver(i)) <==> i < |s.sent| && i !in s.acked
  {
  }

  /** What is owed can be delivered again after any step, a crash too. */
  lemma {:induction false} OwedIsDeliverable(s: State, e: Event, i: nat)
    requires Inv(s) && Enabled(s, e) && i in Step(s, e).owed
    ensures HandlersWell(Step(s, e)) && Enabled(Step(s, e), Deliver(i))
  {
    StepKeepsBroker(s, e);
  }

  /** No handler can make the broker forget: a message leaves `owed` only by its own ack, and a
      crash owes everything it owed before. */
  lemma {:induction false} OwedUntilAcked(s: State, e: Event, i: nat)
    requires Inv(s) && Enabled(s, e) && i in s.owed
    ensures i in Step(s, e).owed || (e.Ack? && s.handlers[e.h].msg == i && Settled(s, i, s.sent[i]))
  {
  }

  // ----- One handler, run alone, is MessageHandler -----

  function StoresOf(s: State): Stores {
    Stores(s.data, s.topics, s.known, s.forwarded)
  }

  /** Handler `h` has ended; the ack it may have sent is all that the broker has seen of it. */
  ghost predicate Ended(s: State, n: State, h: nat, acked: bool) {
    && h < |s.handlers| == |n.handlers| && n.handlers[h].phase.Done?
    && n.acked == s.acked + (if acked then {s.handlers[h].msg} else {})
    && n.sent == s.sent && n.rules == s.rules
  }

  /** Handler `h` of a message is at phase `p`. */
  predicate In(s: State, h: nat, m: Message, p: Phase) {
    HandlersWell(s) && h < |s.handlers| && Msg(s, h) == m && s.handlers[h].phase == p
  }

  ghost predicate Runs(s: State, es: seq<Event>, n: State) {
    CanRun(s, es) && After(s, es) == n
  }

  lemma {:induction false} RunsOn(s: State, e: Event, es: seq<Event>, n: State)
    requires HandlersWell(s) && Enabled(s, e) && Runs(Step(s, e), es, n)
    ensures Runs(s, [e] + es, n)
  {
    assert ([e] + es)[1..] == es;
  }

  /** The handler's calls can go as `c` says. */
  predicate Allowed(s: State, m: Message, c: Calls) {
    PossibleCalls(c, m, s.topics) && Permitted(s.rules, m, c)
  }

  lemma {:induction false} EndAlone(s: State, h: nat, m: Message) returns (es: seq<Event>, n: State)
    requires In(s, h, m, Acking)
    ensures Runs(s, es, n) && Ended(s, n, h, true) && StoresOf(n) == StoresOf(s)
  {
    n := Step(s, Ack(h));
    RunsOn(s, Ack(h), [], n);
    es := [Ack(h)] + [];
  }

  lemma {:induction false} WriteAlone(s: State, h: nat, m: Message, c: Calls) returns (es: seq<Event>, n: State)
    requires In(s, h, m, Writing(c.now)) && WellFormed(m) && Possible(c.write) && Permitted(s.rules, m, c)
    ensures Runs(s, es, n) && Ended(s, n, h, c.write.ok)
    ensures StoresOf(n) == StoresOf(s).(
      forwarded := if c.write.applied then s.forwarded + [ForwardOf(m, c.now)] else s.forwarded)
  {
    var e := Write(h, c.write);
    n := Step(s, e);
    es := [];
    if c.write.ok { es, n := EndAlone(n, h, m); }
    RunsOn(s, e, es, n);
    es := [e] + es;
  }

  /** What is left to do once the insertion is done. */
  function AfterInsert(c: Calls): Calls {
    c.(insert := Outcome(true, false))
  }

  lemma {:induction false} CreateAlone(s: State, h: nat, m: Message, c: Calls)
      returns (es: seq<Event>, n: State, acked: bool)
    requires In(s, h, m, Creating(c.now)) && WellFormed(m) && Allowed(s, m, c)
    requires SanitizeTopic(m.topic) !in s.known
    ensures Runs(s, es, n) && Ended(s, n, h, acked)
    ensures Handled(StoresOf(s), StoresOf(n), m, AfterInsert(c), acked)
  {
    var e := Create(h, c.create);
    n, es, acked := Step(s, e), [], false;
    if !c.create.Failed? {
      var k := Step(n, Mark(h));
      es, n := WriteAlone(k, h, m, c);
      RunsOn(Step(s, e), Mark(h), es, n);
      es, acked := [Mark(h)] + es, c.write.ok;
    }
    RunsOn(s, e, es, n);
    es := [e] + es;
  }

  lemma {:induction false} LookUpAlone(s: State, h: nat, m: Message, c: Calls)
      returns (es: seq<Event>, n: State, acked: bool)
    requires In(s, h, m, LookingUp(c.now)) && WellFormed(m) && Allowed(s, m, c)
    ensures Runs(s, es, n) && Ended(s, n, h, acked)
    ensures Handled(StoresOf(s), StoresOf(n), m, AfterInsert(c), acked)
  {
    var k := Step(s, LookUp(h));
    if SanitizeTopic(m.topic) in s.known {
      es, n := WriteAlone(k, h, m, c);
      acked := c.write.ok;
    } else {
      es, n, acked := CreateAlone(k, h, m, c);
    }
    RunsOn(s, LookUp(h), es, n);
    es := [LookUp(h)] + es;
  }

  lemma {:induction false} InsertAlone(s: State, h: nat, m: Message, c: Calls)
      returns (es: seq<Event>, n: State, acked: bool)
    requires In(s, h, m, Inserting(c.now)) && WellFormed(m) && Allowed(s, m, c)
    ensures Runs(s, es, n) && Ended(s, n, h, acked)
    ensures Handled(StoresOf(s), StoresOf(n), m, c, acked)
  {
    var e := DoInsert(h, c.insert);
    n, es, acked := Step(s, e), [], false;
    if c.insert.ok {
      es, n, acked := LookUpAlone(n, h, m, c);
    }
    RunsOn(s, e, es, n);
    es := [e] + es;
  }

  /** A handler whose calls no other handler interrupts is a run of the protocol, and does to the
      stores exactly what MessageHandler is proved to do. */
  lemma {:induction false} HandlerAlone(s: State, h: nat, m: Message, c: Calls)
      returns (es: seq<Event>, n: State, acked: bool)
    requires In(s, h, m, Received) && Allowed(s, m, c)
    ensures CanRun(s, es) && After(s, es) == n && Ended(s, n, h, acked)
    ensures Handled(StoresOf(s), StoresOf(n), m, c, acked)
  {
    var e := Parse(h, c.now);
    n := Step(s, e);
    if WellFormed(m) {
      es, n, acked := InsertAlone(n, h, m, c);
    } else {
      es, n := EndAlone(n, h, m);
      acked := true;
    }
    RunsOn(s, e, es, n);
    es := [e] + es;
  }
}
