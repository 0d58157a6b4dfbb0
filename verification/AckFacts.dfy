/** Which messages brokeroo can acknowledge, and what an acknowledged message leaves in the
    table. */
module AckFacts {
  import opened Prelude
  import opened GoStrings
  import opened TopicPath
  import opened FirstWrite
  import opened Brokeroo
  import opened AckProtocol

  // ----- Which messages can be acked -----

  lemma {:induction false} RunGrows(s: State, es: seq<Event>)
    requires Inv(s) && CanRun(s, es)
    ensures Inv(After(s, es))
    ensures s.sent <= After(s, es).sent && s.acked <= After(s, es).acked && After(s, es).rules == s.rules
    decreases |es|
  {
    if es != [] {
      StepGrows(s, es[0]);
      StepKeepsInv(s, es[0]);
      RunGrows(Step(s, es[0]), es[1..]);
    }
  }

  lemma {:induction false} RunsThen(s: State, es: seq<Event>, m: State, fs: seq<Event>, n: State)
    requires Runs(s, es, m) && Runs(m, fs, n)
    ensures Runs(s, es + fs, n)
    decreases |es|
  {
    if es == [] {
      assert es + fs == fs;
    } else {
      RunsThen(Step(s, es[0]), es[1..], m, fs, n);
      assert (es + fs)[1..] == es[1..] + fs;
    }
  }

  /** What was acked got through every store. */
  lemma {:induction false} SettledWasAccepted(s: State, i: nat, m: Message)
    requires RulesWell(s) && Settled(s, i, m) && WellFormed(m) && i < |s.sent| && s.sent[i] == m
    ensures Acceptable(s.rules, m)
  {
    var j :| 0 <= j < |s.forwarded| && ForwardedAs(s, i, m, s.forwarded[j]);
    var now := s.forwarded[j].envelope.tsUnix;
    var k :| 0 <= k < |s.log| && s.log[k] == Logged(i, RowOf(m, now));
    assert LoggedWell(s, s.log[k]);
    assert AcceptedAt(s.rules, m, now);
  }

  /** Calls that all succeed. */
  function AllWell(now: int): Calls {
    Calls(now, Outcome(true, true), Created, Outcome(true, true))
  }

  /** One delivery of a message that the broker owes, with its calls going as `c` says. */
  lemma {:induction false} Delivery(s: State, i: nat, c: Calls)
      returns (es: seq<Event>, n: State, acked: bool)
    requires Inv(s) && i in s.owed && i < |s.sent| && Allowed(s, s.sent[i], c)
    ensures Runs(s, es, n) && Inv(n) && n.sent == s.sent && n.rules == s.rules
    ensures n.acked == s.acked + (if acked then {i} else {})
    ensures Handled(StoresOf(s), StoresOf(n), s.sent[i], c, acked)
  {
    var m := Step(s, Deliver(i));
    StepKeepsInv(s, Deliver(i));
    es, n, acked := HandlerAlone(m, |s.handlers|, s.sent[i], c);
    RunGrows(m, es);
    RunsOn(s, Deliver(i), es, n);
    es := [Deliver(i)] + es;
  }

  lemma {:induction false} AcceptableIsAcked(s: State, i: nat) returns (es: seq<Event>)
    requires Inv(s) && i in s.owed && i < |s.sent|
    requires WellFormed(s.sent[i]) ==> Acceptable(s.rules, s.sent[i])
    ensures CanRun(s, es) && i in After(s, es).acked
  {
    var now := 0;
    if WellFormed(s.sent[i]) { now :| AcceptedAt(s.rules, s.sent[i], now); }
    var n, acked;
    es, n, acked := Delivery(s, i, AllWell(now));
  }

  /** In every state a run can reach, a message the broker owes can still be acked if and only if
      it is malformed or the stores take it: failures and crashes put none out of reach, but one
      that a store refuses is owed forever. */
  lemma {:induction false} OwedCanBeAcked(rules: Rules, past: seq<Event>, i: nat)
    requires CanRun(Initial(rules), past) && i in After(Initial(rules), past).owed
    ensures
      var s := After(Initial(rules), past);
      i < |s.sent| &&
      ((exists es :: CanRun(s, es) && i in After(s, es).acked)
       <==> (WellFormed(s.sent[i]) ==> Acceptable(rules, s.sent[i])))
  {
    var s := After(Initial(rules), past);
    RunGrows(Initial(rules), past);
    if es :| CanRun(s, es) && i in After(s, es).acked {
      RunGrows(s, es);
      if WellFormed(s.sent[i]) { SettledWasAccepted(After(s, es), i, s.sent[i]); }
    }
    if WellFormed(s.sent[i]) ==> Acceptable(rules, s.sent[i]) {
      var es := AcceptableIsAcked(s, i);
    }
  }

  /** A message that the stores refuse is owed after every run in which it is sent. */
  lemma {:induction false} RefusedIsOwed(rules: Rules, es: seq<Event>, i: nat)
    requires CanRun(Initial(rules), es) && i < |After(Initial(rules), es).sent|
    requires
      var m := After(Initial(rules), es).sent[i];
      WellFormed(m) && !Acceptable(rules, m)
    ensures i in After(Initial(rules), es).owed
  {
    RunGrows(Initial(rules), es);
    var s := After(Initial(rules), es);
    if i in s.acked { SettledWasAccepted(s, i, s.sent[i]); }
  }

  /** {"x":"\u0000"} is valid JSON, but no JSONB value: PostgreSQL has no character zero. */
  const NULL_ESCAPE := "{\"x\":\"\\u0000\"}"

  /** So no device can have a message with it acked, wherever JSONB refuses it. */
  lemma {:induction false} NullEscapeNeverAcked(rules: Rules, devID: string, tag: string, body: map<string, Json>)
    requires Free(devID, '/') && Free(tag, '/') && !rules.storable(NULL_ESCAPE)
    ensures
      var m := Message(BackendTopic(devID, tag), NULL_ESCAPE, Some(body));
      WellFormed(m) && !Acceptable(rules, m)
  {
    TopicOf(devID, tag);
  }

  lemma {:induction false} TopicOf(devID: string, tag: string)
    requires Free(devID, '/') && Free(tag, '/')
    ensures ParseTopic(BackendTopic(devID, tag)).Some?
    ensures SanitizeTopic(BackendTopic(devID, tag)) == "j-data-" + Dashed(Source(devID, tag))
  {
    ParseInvertsTopic(BackendTopic(devID, tag), devID, tag);
    SanitizedForm(BackendTopic(devID, tag));
  }

  /** Nor one under a tag with a space, whatever its payload, wherever Kafka refuses the name. */
  lemma {:induction false} SpaceInTagNeverAcked(rules: Rules, devID: string, payload: string, body: map<string, Json>)
    requires Free(devID, '/') && !rules.nameable("j-data-" + Dashed(Source(devID, "a b")))
    ensures
      var m := Message(BackendTopic(devID, "a b"), payload, Some(body));
      WellFormed(m) && !Acceptable(rules, m)
  {
    TopicOf(devID, "a b");
  }

  /** What it takes for a handler at this phase to reach its own ack. */
  ghost predicate CanFinish(s: State, h: nat)
    requires HandlersWell(s) && h < |s.handlers|
  {
    var m := Msg(s, h);
    match s.handlers[h].phase
    case Received => WellFormed(m) ==> Acceptable(s.rules, m)
    case Acking => true
    case Done => false
    case p => WellFormed(m) && AcceptedAt(s.rules, m, p.now)
  }

  /** Only a handler that could reach its ack does. */
  lemma {:induction false} CouldBefore(s: State, e: Event, h: nat)
    requires Inv(s) && Enabled(s, e) && h < |s.handlers|
    requires h < |Step(s, e).handlers| && HandlersWell(Step(s, e)) && CanFinish(Step(s, e), h)
    ensures CanFinish(s, h)
  {
    StepGrows(s, e);
    if By(e, h) {
      MoverCouldBefore(s, e, h);
    } else {
      OthersStand(s, e, h);
    }
  }

  lemma {:induction false} MoverCouldBefore(s: State, e: Event, h: nat)
    requires Inv(s) && Enabled(s, e) && h < |s.handlers| && By(e, h)
    requires h < |Step(s, e).handlers| && HandlersWell(Step(s, e)) && CanFinish(Step(s, e), h)
    ensures CanFinish(s, h)
  {
    if e.Write? { WriterCouldBefore(s, h, e.o); }
  }

  /** A writer's message is in the table and its topic exists, so the rules let both in. */
  lemma {:induction false} WriterCouldBefore(s: State, h: nat, o: Outcome)
    requires Inv(s) && Enabled(s, Write(h, o)) && o.ok
    ensures CanFinish(s, h)
  {
    var m, i, now := Msg(s, h), s.handlers[h].msg, s.handlers[h].phase.now;
    assert PhaseWell(s, i, m, s.handlers[h].phase);
    var k :| 0 <= k < |s.log| && s.log[k] == Logged(i, RowOf(m, now));
    assert LoggedWell(s, s.log[k]);
  }

  lemma {:induction false} AckedCould(s: State, es: seq<Event>, h: nat, j: nat)
    requires Inv(s) && CanRun(s, es) && h < |s.handlers| && j < |es| && es[j] == Ack(h)
    ensures CanFinish(s, h)
    decreases j
  {
    if j > 0 {
      var n := Step(s, es[0]);
      StepKeepsInv(s, es[0]);
      HandlersStay(s, es[0]);
      AckedCould(n, es[1..], h, j - 1);
      CouldBefore(s, es[0], h);
    }
  }

  lemma {:induction false} HandlersStay(s: State, e: Event)
    requires HandlersWell(s) && Enabled(s, e)
    ensures |s.handlers| <= |Step(s, e).handlers|
  {
  }

  function Rank(p: Phase): nat {
    match p
    case Received => 7
    case Inserting(_) => 6
    case LookingUp(_) => 5
    case Creating(_) => 4
    case Marking(_) => 3
    case Writing(_) => 2
    case Acking => 1
    case Done => 0
  }

  /** The handler's next call, if it succeeds. */
  function NextCall(p: Phase, h: nat, now: int): Event
    requires !p.Done?
  {
    match p
    case Received => Parse(h, now)
    case Inserting(_) => DoInsert(h, Outcome(true, true))
    case LookingUp(_) => LookUp(h)
    case Creating(_) => Create(h, Created)
    case Marking(_) => Mark(h)
    case Writing(_) => Write(h, Outcome(true, true))
    case Acking => Ack(h)
  }

  lemma {:induction false} NextCallEnabled(s: State, h: nat, now: int)
    requires BrokerWell(s) && ProgressWell(s) && h < |s.handlers| && CanFinish(s, h)
    ensures Enabled(s, NextCall(s.handlers[h].phase, h, now))
  {
    assert PhaseWell(s, s.handlers[h].msg, Msg(s, h), s.handlers[h].phase);
  }

  /** Handler `h` got nearer to its end, which it reaches only by acking. */
  predicate Advances(s: State, n: State, h: nat, acks: bool) {
    && h < |s.handlers| == |n.handlers|
    && n.handlers[h].msg == s.handlers[h].msg
    && Rank(n.handlers[h].phase) < Rank(s.handlers[h].phase)
    && (acks <==> n.handlers[h].phase.Done?)
    && (acks ==> s.handlers[h].msg in n.acked)
  }

  function NextPhase(s: State, h: nat, now: int): Phase
    requires HandlersWell(s) && h < |s.handlers| && !s.handlers[h].phase.Done?
  {
    match s.handlers[h].phase
    case Received => if WellFormed(Msg(s, h)) then Inserting(now) else Acking
    case Inserting(t) => LookingUp(t)
    case LookingUp(t) => if SanitizeTopic(Msg(s, h).topic) in s.known then Writing(t) else Creating(t)
    case Creating(t) => Marking(t)
    case Marking(t) => Writing(t)
    case Writing(_) => Acking
    case Acking => Done
  }

  lemma {:induction false} NextCallMoves(s: State, h: nat, now: int)
    requires HandlersWell(s) && h < |s.handlers| && !s.handlers[h].phase.Done?
    requires Enabled(s, NextCall(s.handlers[h].phase, h, now))
    ensures
      var e := NextCall(s.handlers[h].phase, h, now);
      && Step(s, e).handlers == Goto(s, h, NextPhase(s, h, now)).handlers
      && (e.Ack? ==> s.handlers[h].msg in Step(s, e).acked)
  {
  }

  lemma {:induction false} GotoAdvances(s: State, h: nat, now: int, n: State)
    requires HandlersWell(s) && h < |s.handlers| && !s.handlers[h].phase.Done?
    requires n.handlers == Goto(s, h, NextPhase(s, h, now)).handlers
    requires NextPhase(s, h, now).Done? ==> s.handlers[h].msg in n.acked
    ensures Advances(s, n, h, s.handlers[h].phase.Acking?)
  {
  }

  lemma {:induction false} NextCallAdvances(s: State, h: nat, now: int)
    requires HandlersWell(s) && h < |s.handlers| && !s.handlers[h].phase.Done?
    requires Enabled(s, NextCall(s.handlers[h].phase, h, now))
    ensures Advances(s, Step(s, NextCall(s.handlers[h].phase, h, now)), h, s.handlers[h].phase.Acking?)
  {
    NextCallMoves(s, h, now);
    GotoAdvances(s, h, now, Step(s, NextCall(s.handlers[h].phase, h, now)));
  }

  lemma {:induction false} NextCallKeepsGoing(s: State, h: nat, now: int)
    requires Inv(s) && h < |s.handlers| && CanFinish(s, h) && !s.handlers[h].phase.Acking?
    requires s.handlers[h].phase.Received? && WellFormed(Msg(s, h)) ==> AcceptedAt(s.rules, Msg(s, h), now)
    requires Enabled(s, NextCall(s.handlers[h].phase, h, now))
    ensures
      var n := Step(s, NextCall(s.handlers[h].phase, h, now));
      HandlersWell(n) && h < |n.handlers| && CanFinish(n, h)
  {
    var n := Step(s, NextCall(s.handlers[h].phase, h, now));
    StepGrows(s, NextCall(s.handlers[h].phase, h, now));
    StepKeepsBroker(s, NextCall(s.handlers[h].phase, h, now));
    NextCallMoves(s, h, now);
    assert n.handlers[h] == Handler(s.handlers[h].msg, NextPhase(s, h, now));
  }

  lemma {:induction false} GoOn(s: State, h: nat) returns (es: seq<Event>)
    requires Inv(s) && h < |s.handlers| && CanFinish(s, h)
    ensures CanRun(s, es) && Ack(h) in es
    decreases Rank(s.handlers[h].phase)
  {
    var now := 0;
    if s.handlers[h].phase.Received? && WellFormed(Msg(s, h)) {
      now :| AcceptedAt(s.rules, Msg(s, h), now);
    }
    var e := NextCall(s.handlers[h].phase, h, now);
    NextCallEnabled(s, h, now);
    NextCallAdvances(s, h, now);
    StepKeepsInv(s, e);
    var rest := [];
    if !e.Ack? {
      NextCallKeepsGoing(s, h, now);
      rest := GoOn(Step(s, e), h);
    }
    es := [e] + rest;
    assert es[0] == e && es[1..] == rest;
  }

  /** In every reachable state a handler can still end in its own ack if and only if it has not
      ended and the stores take what it has left to hand them. */
  lemma {:induction false} Finish(rules: Rules, past: seq<Event>, h: nat)
    requires CanRun(Initial(rules), past) && h < |After(Initial(rules), past).handlers|
    ensures
      var s := After(Initial(rules), past);
      HandlersWell(s) && ((exists es :: CanRun(s, es) && Ack(h) in es) <==> CanFinish(s, h))
  {
    RunKeepsInv(Initial(rules), past);
    var s := After(Initial(rules), past);
    if es :| CanRun(s, es) && Ack(h) in es {
      var j :| 0 <= j < |es| && es[j] == Ack(h);
      AckedCould(s, es, h, j);
    }
    if CanFinish(s, h) {
      var es := GoOn(s, h);
    }
  }

  // ----- What an acked message leaves in the table -----

  /** The message whose insertion wrote the row under `k`. */
  function Winner(s: State, k: Key): nat
    requires First(Rows(s.log), k) < |s.log|
  {
    s.log[First(Rows(s.log), k)].msg
  }

  /** Entry `j` of the log was the first under its key, so it wrote a row. */
  predicate Won(s: State, j: nat) {
    j < |s.log| && First(Rows(s.log), s.log[j].row.key) == j
  }

  /** The rows that message `i` wrote. */
  ghost function RowsOf(s: State, i: nat): set<Key> {
    set k | k in s.data && First(Rows(s.log), k) < |s.log| && Winner(s, k) == i
  }

  /** The seconds of receipt in which it was the first of its device to be inserted. */
  function SecondsWon(s: State, i: nat): set<int> {
    set j | 0 <= j < |s.log| && s.log[j].msg == i && Won(s, j) :: s.log[j].row.key.ts
  }

  /** What each acked well-formed message was inserted as: there is a second at which it is in the
      log and in an envelope handed to Kafka, and its own payload is the one stored under that
      second if and only if the first insertion of its device in that second carried the same. */
  lemma {:induction false} AckedStoredExactly(rules: Rules, es: seq<Event>, i: nat) returns (now: int)
    requires CanRun(Initial(rules), es) && i in After(Initial(rules), es).acked
    requires i < |After(Initial(rules), es).sent| && WellFormed(After(Initial(rules), es).sent[i])
    ensures
      var s := After(Initial(rules), es);
      var x := RowOf(s.sent[i], now);
      && x.key == Key(now, ParseTopic(s.sent[i].topic).value.devID)
      && Logged(i, x) in s.log && ForwardOf(s.sent[i], now) in s.forwarded
      && x.key in s.data && First(Rows(s.log), x.key) < |s.log|
      && (s.data[x.key] == x.entry <==> s.log[First(Rows(s.log), x.key)].row.entry == x.entry)
  {
    EveryRun(rules, es);
    var s := After(Initial(rules), es);
    var j :| 0 <= j < |s.forwarded| && ForwardedAs(s, i, s.sent[i], s.forwarded[j]);
    now := s.forwarded[j].envelope.tsUnix;
    KeyedByReceiveSecond(s.sent[i], now);
  }

  /** Over every run: an acked message on j/data/DEVID/TAG is in the log, and in an envelope handed
      to Kafka, with that device, that tag and its own payload, under one second of receipt. */
  lemma {:induction false} AckedInPlace(rules: Rules, es: seq<Event>, i: nat, devID: string, tag: string)
      returns (now: int)
    requires CanRun(Initial(rules), es) && i in After(Initial(rules), es).acked
    requires
      var s := After(Initial(rules), es);
      i < |s.sent| && Addressed(s.sent[i].topic, devID, tag) && s.sent[i].body.Some?
    ensures
      var s := After(Initial(rules), es);
      var payload := s.sent[i].payload;
      && Forward("j-data-" + devID + "-" + tag, Envelope(now, devID, tag, payload)) in s.forwarded
      && Logged(i, Insertion(Key(now, devID), Entry(tag, payload))) in s.log
      && Key(now, devID) in s.data
  {
    var m := After(Initial(rules), es).sent[i];
    FieldsInPlace(m, 0, devID, tag);
    now := AckedStoredExactly(rules, es, i);
    FieldsInPlace(m, now, devID, tag);
  }

  /** A crash ends every handler there is, forgets the topics and keeps the stores; no continuation
      has a call by any of those handlers. */
  lemma {:induction false} CrashEndsHandlers(s: State, es: seq<Event>, h: nat)
    requires HandlersWell(s) && h < |s.handlers| && CanRun(Step(s, Crash), es)
    ensures
      var n := Step(s, Crash);
      n.known == {} && StoresOf(n).(known := s.known) == StoresOf(s) && n.owed == s.owed && n.acked == s.acked
    ensures forall j | 0 <= j < |es| :: !By(es[j], h)
  {
    DoneStays(Step(s, Crash), es, h);
  }

  lemma {:induction false} DoneStays(s: State, es: seq<Event>, h: nat)
    requires HandlersWell(s) && CanRun(s, es) && h < |s.handlers| && s.handlers[h].phase.Done?
    ensures forall j | 0 <= j < |es| :: !By(es[j], h)
    decreases |es|
  {
    if es != [] {
      var e, rest := es[0], es[1..];
      assert !By(e, h);
      OthersStand(s, e, h);
      if rest != [] {
        DoneStays(Step(s, e), rest, h);
        assert forall j | 1 <= j < |es| :: es[j] == rest[j - 1];
      }
    }
  }

  /** The keys of one device at these seconds. */
  ghost function KeysAt(devID: string, ts: set<int>): (ks: set<Key>)
    ensures forall k :: k in ks <==> k.devID == devID && k.ts in ts
    ensures |ks| == |ts|
  {
    if ts == {} then {} else
      var t := Pick(ts);
      var rest := KeysAt(devID, ts - {t});
      assert Key(t, devID) !in rest;
      rest + {Key(t, devID)}
  }

  /** Over every run: a message leaves exactly one row for each second that it won, holding its
      own tag and payload, and every row of the table was left so by one message sent. Delivered
      again in another second, then, it leaves another row. */
  lemma {:induction false} RowsPerMessage(rules: Rules, es: seq<Event>, i: nat)
    requires CanRun(Initial(rules), es)
    ensures
      var s := After(Initial(rules), es);
      && |RowsOf(s, i)| == |SecondsWon(s, i)|
      && (RowsOf(s, i) != {} ==> i < |s.sent| && WellFormed(s.sent[i]))
      && (forall k | k in RowsOf(s, i) ::
            k.devID == ParseTopic(s.sent[i].topic).value.devID && s.data[k] == RowOf(s.sent[i], k.ts).entry)
      && (forall k | k in s.data :: First(Rows(s.log), k) < |s.log| && k in RowsOf(s, Winner(s, k)))
  {
    RunKeepsInv(Initial(rules), es);
    var s := After(Initial(rules), es);
    FirstsAreStored(s);
    RowsAreOwn(s, i);
    RowsAreSeconds(s, i);
    RowsHaveWinners(s);
  }

  lemma {:induction false} FirstsAreStored(s: State)
    requires StoresWell(s)
    ensures FirstsStored(s)
  {
    FirstPayloadWins(Rows(s.log));
  }

  lemma {:induction false} RowsHaveWinners(s: State)
    requires FirstsStored(s)
    ensures forall k | k in s.data :: First(Rows(s.log), k) < |s.log| && k in RowsOf(s, Winner(s, k))
  {
  }

  /** Each row holds what was logged first under its key. */
  ghost predicate FirstsStored(s: State) {
    forall k | k in s.data :: First(Rows(s.log), k) < |s.log| && s.data[k] == s.log[First(Rows(s.log), k)].row.entry
  }

  lemma {:induction false} RowsAreOwn(s: State, i: nat)
    requires Inv(s) && FirstsStored(s)
    ensures RowsOf(s, i) != {} ==> i < |s.sent| && WellFormed(s.sent[i])
    ensures forall k | k in RowsOf(s, i) ::
      k.devID == ParseTopic(s.sent[i].topic).value.devID && s.data[k] == RowOf(s.sent[i], k.ts).entry
  {
    forall k | k in RowsOf(s, i)
      ensures i < |s.sent| && WellFormed(s.sent[i])
      ensures k.devID == ParseTopic(s.sent[i].topic).value.devID && s.data[k] == RowOf(s.sent[i], k.ts).entry
    {
      RowIsOwn(s, i, k);
    }
  }

  lemma {:induction false} RowsAreSeconds(s: State, i: nat)
    requires Inv(s) && FirstsStored(s)
    ensures |RowsOf(s, i)| == |SecondsWon(s, i)|
  {
    if i < |s.sent| && WellFormed(s.sent[i]) {
      RowsAreKeys(s, i, ParseTopic(s.sent[i].topic).value.devID);
    } else {
      RowsAreOwn(s, i);
      forall j | 0 <= j < |s.log| ensures s.log[j].msg != i { assert LoggedWell(s, s.log[j]); }
      assert SecondsWon(s, i) == {};
    }
  }

  lemma {:induction false} RowsAreKeys(s: State, i: nat, devID: string)
    requires Inv(s) && FirstsStored(s) && i < |s.sent| && WellFormed(s.sent[i])
    requires devID == ParseTopic(s.sent[i].topic).value.devID
    ensures RowsOf(s, i) == KeysAt(devID, SecondsWon(s, i))
  {
    var rows, seconds := RowsOf(s, i), SecondsWon(s, i);
    forall k ensures k in rows <==> k.devID == devID && k.ts in seconds {
      RowOrSecond(s, i, devID, k);
    }
  }

  lemma {:induction false} RowOrSecond(s: State, i: nat, devID: string, k: Key)
    requires Inv(s) && FirstsStored(s) && i < |s.sent| && WellFormed(s.sent[i])
    requires devID == ParseTopic(s.sent[i].topic).value.devID
    ensures k in RowsOf(s, i) <==> k.devID == devID && k.ts in SecondsWon(s, i)
  {
    if k in RowsOf(s, i) { RowIsOwn(s, i, k); }
    if k.ts in SecondsWon(s, i) { SecondGivesRow(s, i, k.ts); }
  }

  lemma {:induction false} RowIsOwn(s: State, i: nat, k: Key)
    requires Inv(s) && k in RowsOf(s, i) && s.data[k] == s.log[First(Rows(s.log), k)].row.entry
    ensures i < |s.sent| && WellFormed(s.sent[i]) && k.ts in SecondsWon(s, i)
    ensures k.devID == ParseTopic(s.sent[i].topic).value.devID && s.data[k] == RowOf(s.sent[i], k.ts).entry
  {
    var j := First(Rows(s.log), k);
    assert LoggedWell(s, s.log[j]);
    assert Rows(s.log)[j].key == k;
    assert Won(s, j);
    KeyedByReceiveSecond(s.sent[i], k.ts);
  }

  lemma {:induction false} SecondGivesRow(s: State, i: nat, t: int)
    requires Inv(s) && t in SecondsWon(s, i) && i < |s.sent| && WellFormed(s.sent[i])
    ensures Key(t, ParseTopic(s.sent[i].topic).value.devID) in RowsOf(s, i)
  {
    var j :| 0 <= j < |s.log| && s.log[j].msg == i && Won(s, j) && s.log[j].row.key.ts == t;
    assert LoggedWell(s, s.log[j]);
    KeyedByReceiveSecond(s.sent[i], t);
    LoggedHasRow(s, s.log[j]);
  }

  // ----- Two runs -----

  lemma {:induction false} StillOwed(s: State, i: nat)
    requires Inv(s) && i < |s.sent| && i !in s.acked
    ensures i in s.owed
  {
  }

  /** `es` is a run from the start to `s`. */
  ghost predicate Reached(rules: Rules, es: seq<Event>, s: State) {
    Runs(Initial(rules), es, s) && Inv(s)
  }

  lemma {:induction false} ReachedOn(rules: Rules, es: seq<Event>, s: State, fs: seq<Event>, n: State)
    requires Reached(rules, es, s) && Runs(s, fs, n) && Inv(n)
    ensures Reached(rules, es + fs, n)
  {
    RunsThen(Initial(rules), es, s, fs, n);
  }

  /** One message sent at the start. */
  lemma {:induction false} SendFirst(rules: Rules, m: Message) returns (es: seq<Event>, n: State)
    ensures Reached(rules, es, n) && n.rules == rules
    ensures n.sent == [m] && n.acked == {} && n.data == map[]
  {
    assert Reached(rules, [], Initial(rules));
    es, n := SendAfter(rules, [], Initial(rules), m);
  }

  /** One more message sent after a run. */
  lemma {:induction false} SendAfter(rules: Rules, past: seq<Event>, s: State, m: Message)
      returns (es: seq<Event>, n: State)
    requires Reached(rules, past, s)
    ensures Reached(rules, es, n) && n.rules == s.rules
    ensures n.sent == s.sent + [m] && n.acked == s.acked && n.data == s.data
  {
    n := Step(s, Send(m));
    StepKeepsInv(s, Send(m));
    RunsOn(s, Send(m), [], n);
    ReachedOn(rules, past, s, [Send(m)] + [], n);
    es := past + ([Send(m)] + []);
  }

  /** One delivery after a run, in which nothing fails, or only the hand-over to Kafka. */
  lemma {:induction false} DeliverAfter(rules: Rules, past: seq<Event>, s: State, i: nat, now: int, ok: bool)
      returns (es: seq<Event>, n: State)
    requires Reached(rules, past, s) && i < |s.sent| && i !in s.acked
    requires WellFormed(s.sent[i]) && AcceptedAt(s.rules, s.sent[i], now)
    ensures Reached(rules, es, n) && n.rules == s.rules && n.sent == s.sent
    ensures n.acked == s.acked + (if ok then {i} else {})
    ensures n.data == FirstWrite.Insert(s.data, RowOf(s.sent[i], now))
  {
    StillOwed(s, i);
    var fs, acked;
    fs, n, acked := Delivery(s, i, AllWell(now).(write := Outcome(ok, ok)));
    ReachedOn(rules, past, s, fs, n);
    es := past + fs;
  }

  predicate Accepted(rules: Rules, m: Message, now: int) {
    WellFormed(m) && AcceptedAt(rules, m, now)
  }

  lemma {:induction false} BothDelivered(rules: Rules, a: Message, b: Message, now: int)
      returns (es: seq<Event>, n: State, x: Insertion, y: Insertion)
    requires Accepted(rules, a, now) && Accepted(rules, b, now)
    ensures WellFormed(a) && WellFormed(b) && x == RowOf(a, now) && y == RowOf(b, now)
    ensures Reached(rules, es, n) && n.sent == [a, b] && n.acked == {0, 1}
    ensures n.data == FirstWrite.Insert(FirstWrite.Insert(map[], x), y)
  {
    x, y := RowOf(a, now), RowOf(b, now);
    var es0, n0 := BothSent(rules, a, b);
    var es1, n1 := DeliverAfter(rules, es0, n0, 0, now, true);
    es, n := DeliverAfter(rules, es1, n1, 1, now, true);
  }

  lemma {:induction false} BothSent(rules: Rules, a: Message, b: Message) returns (es: seq<Event>, n: State)
    ensures Reached(rules, es, n) && n.rules == rules
    ensures n.sent == [a, b] && n.acked == {} && n.data == map[]
  {
    var es1, n1 := SendFirst(rules, a);
    es, n := SendAfter(rules, es1, n1, b);
  }

  /** Two different messages of one device that are parsed in the same second: both are acked, and
      the second one's payload is nowhere in the table. */
  lemma {:induction false} SecondMessageIsLost(rules: Rules, a: Message, b: Message, now: int)
      returns (es: seq<Event>, s: State)
    requires Accepted(rules, a, now) && Accepted(rules, b, now)
    requires RowOf(a, now).key == RowOf(b, now).key && RowOf(a, now).entry != RowOf(b, now).entry
    ensures Reached(rules, es, s) && s.sent == [a, b] && s.acked == {0, 1}
    ensures s.data == map[RowOf(a, now).key := RowOf(a, now).entry]
  {
    var x, y;
    es, s, x, y := BothDelivered(rules, a, b, now);
    SecondIsDropped(map[], x, y);
  }

  /** One message, delivered again because its first handler could not reach Kafka, and parsed in
      another second: it leaves two rows. */
  lemma {:induction false} OneMessageTwice(rules: Rules, m: Message, t1: int, t2: int)
      returns (es: seq<Event>, s: State)
    requires WellFormed(m) && t1 != t2 && AcceptedAt(rules, m, t1) && AcceptedAt(rules, m, t2)
    ensures Reached(rules, es, s) && s.sent == [m] && s.acked == {0}
    ensures s.data.Keys == {RowOf(m, t1).key, RowOf(m, t2).key} && |s.data.Keys| == 2
  {
    es, s := SendFirst(rules, m);
    es, s := DeliverAfter(rules, es, s, 0, t1, false);
    es, s := DeliverAfter(rules, es, s, 0, t2, true);
    KeyedByReceiveSecond(m, t1);
    KeyedByReceiveSecond(m, t2);
    assert s.data.Keys == {RowOf(m, t1).key, RowOf(m, t2).key};
  }
}
