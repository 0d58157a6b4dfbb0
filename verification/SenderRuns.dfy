/** What holds of every run of the sender protocol. */
module SenderRuns {
  import opened Prelude
  import opened QueueTable
  import opened SenderProtocol

  lemma {:induction false} RunKeepsInv(s: State, es: seq<Event>)
    requires Inv(s) && CanRun(s, es)
    ensures Inv(After(s, es))
    decreases |es|
  {
    if es != [] {
      StepKeepsInv(s, es[0]);
      RunKeepsInv(Step(s, es[0]), es[1..]);
    }
  }

  /** One event and then a run is a run. */
  lemma {:induction false} RunOn(s: State, e: Event, es: seq<Event>)
    requires Enabled(s, e) && CanRun(Step(s, e), es)
    ensures CanRun(s, [e] + es) && After(s, [e] + es) == After(Step(s, e), es)
  {
    assert ([e] + es)[1..] == es;
  }

  /** One run after another is a run. */
  lemma {:induction false} RunThen(s: State, es: seq<Event>, fs: seq<Event>)
    requires CanRun(s, es) && CanRun(After(s, es), fs)
    ensures CanRun(s, es + fs) && After(s, es + fs) == After(After(s, es), fs)
    decreases |es|
  {
    if es == [] {
      assert es + fs == fs;
    } else {
      RunThen(Step(s, es[0]), es[1..], fs);
      assert (es + fs)[1..] == es[1..] + fs;
    }
  }

  // ----- At most once, in order, nothing lost but what a sender holds -----

  /** Row `id` is with a sender, dead or alive, that has not published it. */
  ghost predicate InHand(s: State, id: int) {
    exists a :: 0 <= a < |s.agents| && Holds(s.agents[a], id) && !s.agents[a].pc.Acking?
  }

  ghost predicate Waiting(s: State, id: int) {
    id in s.table.rows && s.table.rows[id].status == READY
  }

  /** Ids are handed out as 1, 2, 3, ...; no id is given to Publish twice; a row is acked or
      deleted only after its Publish succeeded; and every payload ever enqueued is in exactly
      one of three places: waiting, in the hands of one sender, or published. */
  lemma {:induction false} EveryRun(es: seq<Event>)
    requires CanRun(INITIAL, es)
    ensures
      var s := After(INITIAL, es);
      && (forall j | 0 <= j < |s.handed| :: s.handed[j] == j + 1)
      && (forall i, j | 0 <= i < j < |s.attempts| :: s.attempts[i].id != s.attempts[j].id)
      && (forall i | 0 <= i < |s.attempts| ::
            1 <= s.attempts[i].id <= |s.handed| <= |s.enqueued| && s.attempts[i].data == s.enqueued[s.attempts[i].id - 1])
      && (forall id | Gone(s, id) :: Published(s, id))
      && (forall id | 1 <= id <= |s.enqueued| ::
            && (Waiting(s, id) || InHand(s, id) || Published(s, id))
            && !(Waiting(s, id) && InHand(s, id))
            && !(Waiting(s, id) && Published(s, id))
            && !(InHand(s, id) && Published(s, id)))
  {
    RunKeepsInv(INITIAL, es);
    var s := After(INITIAL, es);
    forall id | 1 <= id <= |s.enqueued|
      ensures Waiting(s, id) || InHand(s, id) || Published(s, id)
      ensures !(Waiting(s, id) && InHand(s, id))
      ensures !(Waiting(s, id) && Published(s, id))
      ensures !(InHand(s, id) && Published(s, id))
    {
      OnePlaceEach(s, id);
    }
  }

  lemma {:induction false} OnePlaceEach(s: State, id: int)
    requires Inv(s) && 1 <= id <= |s.enqueued|
    ensures Waiting(s, id) || InHand(s, id) || Published(s, id)
    ensures !(Waiting(s, id) && InHand(s, id))
    ensures !(Waiting(s, id) && Published(s, id))
    ensures !(InHand(s, id) && Published(s, id))
  {
    if |s.handed| < id {
      assert Waiting(s, id);
    } else if !Gone(s, id) {
      var a :| 0 <= a < |s.agents| && Holds(s.agents[a], id);
    }
    if InHand(s, id) {
      var a :| 0 <= a < |s.agents| && Holds(s.agents[a], id) && !s.agents[a].pc.Acking?;
      forall i | 0 <= i < |s.attempts| && s.attempts[i].id == id ensures !s.attempts[i].ok {
        assert AttemptWell(s, s.attempts[i]);
        assert !Gone(s, id);
      }
    }
    if Published(s, id) {
      var i :| 0 <= i < |s.attempts| && s.attempts[i].id == id && s.attempts[i].ok;
      assert AttemptWell(s, s.attempts[i]);
    }
  }

  /** The id a sender holds, if any. */
  function HeldOne(g: Agent): (ids: set<int>)
    ensures |ids| <= 1
    ensures forall id :: id in ids <==> Holds(g, id)
  {
    match g.pc
    case Holding(i, d) => if d.Some? then {i} else {}
    case Stuck(i) => {i}
    case Acking(i) => {i}
    case _ => {}
  }

  /** The ids the first `n` senders ever started are holding. */
  function HeldBy(s: State, n: nat): (ids: set<int>)
    requires n <= |s.agents|
    ensures |ids| <= n
  {
    if n == 0 then {} else
      var rest, last := HeldBy(s, n - 1), HeldOne(s.agents[n - 1]);
      assert |rest + last| <= |rest| + |last|;
      rest + last
  }

  lemma {:induction false} HeldByExactly(s: State, n: nat, id: int)
    requires n <= |s.agents|
    ensures id in HeldBy(s, n) <==> exists a :: 0 <= a < n && Holds(s.agents[a], id)
  {
    if n > 0 {
      HeldByExactly(s, n - 1, id);
      assert id in HeldOne(s.agents[n - 1]) <==> Holds(s.agents[n - 1], id);
    }
  }

  lemma {:induction false} ClaimedAreHeld(s: State)
    requires ClaimsHeld(s) && ClaimedIsHeld(s)
    ensures WithStatus(s.table, CLAIMED) == HeldBy(s, |s.agents|)
  {
    forall id ensures id in WithStatus(s.table, CLAIMED) <==> id in HeldBy(s, |s.agents|) {
      HeldByExactly(s, |s.agents|, id);
    }
  }

  /** Claimed rows are exactly what senders hold, so there are never more of them than senders
      ever started. */
  lemma {:induction false} ClaimedRowsBounded(es: seq<Event>)
    requires CanRun(INITIAL, es)
    ensures
      var s := After(INITIAL, es);
      && WithStatus(s.table, CLAIMED) == HeldBy(s, |s.agents|)
      && |WithStatus(s.table, CLAIMED)| <= |s.agents|
  {
    RunKeepsInv(INITIAL, es);
    ClaimedAreHeld(After(INITIAL, es));
  }

  /** In any state, an event removes only acked rows, never lowers the id counter, and never
      brings a row back to ready. */
  lemma {:induction false} OnlyAckedVanish(s: State, e: Event)
    requires Enabled(s, e)
    ensures var n := Step(s, e);
      && s.table.nextId <= n.table.nextId
      && (forall id | id in s.table.rows && id !in n.table.rows :: s.table.rows[id].status == ACKED)
      && (forall id | id in n.table.rows && id !in s.table.rows :: id == s.table.nextId)
      && (Valid(s.table) ==> forall id | id in s.table.rows && id in n.table.rows ::
            n.table.rows[id].status == READY ==> s.table.rows[id].status == READY)
  {
  }

  /** Acking the id of an empty dequeue, -1, changes no row. */
  lemma {:induction false} AckOfNothing(s: State, a: nat)
    requires Inv(s) && Enabled(s, Acknowledge(a)) && s.agents[a].pc.Holding?
    ensures Step(s, Acknowledge(a)).table == s.table
  {
  }

  /** A deleted id is never given out again. */
  lemma {:induction false} GoneForGood(s: State, es: seq<Event>, id: int)
    requires Inv(s) && CanRun(s, es) && Gone(s, id)
    ensures Gone(After(s, es), id)
    ensures forall j | |s.handed| <= j < |After(s, es).handed| :: After(s, es).handed[j] != id
    decreases |es|
  {
    HandedGrows(s, es);
    GoneStays(s, es, id);
    RunKeepsInv(s, es);
  }

  lemma {:induction false} HandedGrows(s: State, es: seq<Event>)
    requires CanRun(s, es)
    ensures s.handed <= After(s, es).handed && s.enqueued <= After(s, es).enqueued
    ensures s.attempts <= After(s, es).attempts
    decreases |es|
  {
    if es != [] { HandedGrows(Step(s, es[0]), es[1..]); }
  }

  lemma {:induction false} GoneStays(s: State, es: seq<Event>, id: int)
    requires Inv(s) && CanRun(s, es) && Gone(s, id)
    ensures Gone(After(s, es), id)
    decreases |es|
  {
    if es != [] {
      StepKeepsInv(s, es[0]);
      if es[0].Take? { TakeIsNext(s); }
      assert Gone(Step(s, es[0]), id);
      GoneStays(Step(s, es[0]), es[1..], id);
    }
  }

  // ----- What a failed Publish or a crash costs -----

  /** The sender does nothing more: it spins in the retry loop, or its process is dead. */
  predicate Dormant(s: State, a: nat) {
    a < |s.agents| && (s.agents[a].pc.Stuck? || !s.agents[a].alive)
  }

  /** Once Publish has failed, or the process has died, in every continuation the sender stays
      where it is: it calls Publish and Ack no more, and the row it holds stays claimed through
      every cleanup, kill and restart. */
  lemma {:induction false} DormantForever(s: State, es: seq<Event>, a: nat, id: int)
    requires Inv(s) && CanRun(s, es) && Dormant(s, a) && Holds(s.agents[a], id)
    ensures
      var n := After(s, es);
      && Dormant(n, a) && n.agents[a].pc == s.agents[a].pc
      && id in n.table.rows && n.table.rows[id].status == CLAIMED
      && n.table.rows[id].data == s.table.rows[id].data
      && (forall i | |s.attempts| <= i < |n.attempts| :: n.attempts[i].agent != a && n.attempts[i].id != id)
      && (forall j | 0 <= j < |es| :: es[j] != Acknowledge(a))
    decreases |es|
  {
    if es != [] {
      var m := Step(s, es[0]);
      StepKeepsInv(s, es[0]);
      DormantStep(s, es[0], a, id);
      DormantForever(m, es[1..], a, id);
      HandedGrows(m, es[1..]);
      var n := After(m, es[1..]);
      assert forall i | |s.attempts| <= i < |m.attempts| :: n.attempts[i] == m.attempts[i];
      forall j | 0 <= j < |es| ensures es[j] != Acknowledge(a) {
        if j > 0 { assert es[j] == es[1..][j - 1]; }
      }
    }
  }

  lemma {:induction false} DormantStep(s: State, e: Event, a: nat, id: int)
    requires Inv(s) && Enabled(s, e) && Dormant(s, a) && Holds(s.agents[a], id)
    ensures e != Acknowledge(a)
    ensures var m := Step(s, e); Dormant(m, a) && m.agents[a].pc == s.agents[a].pc && Holds(m.agents[a], id)
    ensures id in s.table.rows && id in Step(s, e).table.rows
    ensures Step(s, e).table.rows[id].data == s.table.rows[id].data
    ensures forall i | |s.attempts| <= i < |Step(s, e).attempts| ::
      Step(s, e).attempts[i].agent != a && Step(s, e).attempts[i].id != id
  {
    DormantStays(s, e, a);
    HeldRowStays(s, e, a, id);
    OthersPublishOthers(s, e, a, id);
  }

  lemma {:induction false} DormantStays(s: State, e: Event, a: nat)
    requires Enabled(s, e) && Dormant(s, a)
    ensures e != Acknowledge(a) && Dormant(Step(s, e), a) && Step(s, e).agents[a].pc == s.agents[a].pc
  {
  }

  lemma {:induction false} HeldRowStays(s: State, e: Event, a: nat, id: int)
    requires HandedInOrder(s) && RowsWell(s) && ClaimsHeld(s) && Enabled(s, e)
    requires a < |s.agents| && Holds(s.agents[a], id)
    ensures id in s.table.rows && id in Step(s, e).table.rows
    ensures Step(s, e).table.rows[id].data == s.table.rows[id].data
  {
    if e.Take? { TakeIsNext(s); }
  }

  lemma {:induction false} OthersPublishOthers(s: State, e: Event, a: nat, id: int)
    requires ClaimsHeld(s) && Enabled(s, e) && Dormant(s, a) && Holds(s.agents[a], id)
    ensures forall i | |s.attempts| <= i < |Step(s, e).attempts| ::
      Step(s, e).attempts[i].agent != a && Step(s, e).attempts[i].id != id
  {
    if e.Publish? { assert Holds(s.agents[e.a], s.agents[e.a].pc.id); }
  }

  /** So a payload whose one attempt failed is published by no continuation. */
  lemma {:induction false} FailedIsNeverPublished(s: State, es: seq<Event>, a: nat, id: int)
    requires Inv(s) && CanRun(s, es) && Dormant(s, a) && Holds(s.agents[a], id) && !s.agents[a].pc.Acking?
    ensures !Published(After(s, es), id) && InHand(After(s, es), id)
  {
    DormantForever(s, es, a, id);
    RunKeepsInv(s, es);
    var n := After(s, es);
    assert Holds(n.agents[a], id);
    assert id in n.table.rows && 1 <= id <= |n.enqueued|;
    OnePlaceEach(n, id);
  }

  // ----- One consumer, no crash: the queue is first in, first out -----

  predicate Undisturbed(es: seq<Event>) {
    && (forall j | 0 <= j < |es| :: !es[j].Crash?)
    && (forall i, j | 0 <= i < j < |es| :: !(es[i].Start? && es[j].Start?))
  }

  /** The payloads whose Publish succeeded, in the order of the calls. */
  function PublishedData(ts: seq<Attempt>): (out: seq<string>) {
    if ts == [] then [] else
      var last := ts[|ts| - 1];
      PublishedData(ts[..|ts| - 1]) + (if last.ok then [last.data] else [])
  }

  /** The payload the consumer has claimed and not published. */
  function ClaimedData(s: State): (out: seq<string>)
    ensures |out| <= 1
  {
    if |s.agents| == 0 then [] else
      match s.agents[0].pc
      case Holding(_, Some(d)) => [d]
      case Stuck(id) => if id in s.table.rows then [s.table.rows[id].data] else []
      case _ => []
  }

  /** SELECT data ... WHERE status = 0 AND id >= ? ORDER BY id. */
  function ReadyData(t: Table, id: int): (out: seq<string>)
    decreases t.nextId - id
  {
    if id >= t.nextId then [] else
      (if id in t.rows && t.rows[id].status == READY then [t.rows[id].data] else []) + ReadyData(t, id + 1)
  }

  lemma {:induction false} ReadyIsSuffix(s: State, id: int)
    requires HandedInOrder(s) && RowsWell(s) && 1 <= id <= s.table.nextId
    ensures ReadyData(s.table, id) == s.enqueued[if id <= |s.handed| then |s.handed| else id - 1..]
    decreases s.table.nextId - id
  {
    if id < s.table.nextId { ReadyIsSuffix(s, id + 1); }
  }

  /** The ids above `lo`, up to `hi`. */
  function Span(lo: int, hi: int): (ids: set<int>)
    requires lo <= hi
    ensures |ids| == hi - lo && forall i :: i in ids <==> lo < i <= hi
    decreases hi - lo
  {
    if lo == hi then {} else Span(lo, hi - 1) + {hi}
  }

  ghost predicate OneConsumer(s: State) {
    && |s.agents| <= 1 && (forall a | 0 <= a < |s.agents| :: s.agents[a].alive)
    && (|s.agents| == 0 ==> s.handed == [])
    && (forall i | 0 <= i < |s.attempts| ::
          && s.attempts[i].id == i + 1
          && (s.attempts[i].ok <==> !(i == |s.attempts| - 1 && s.agents != [] && s.agents[0].pc.Stuck?)))
    && |s.handed| == |s.attempts| +
        (if s.agents != [] && s.agents[0].pc.Holding? && s.agents[0].pc.data.Some? then 1 else 0)
    && (s.agents != [] && s.agents[0].pc.Holding? && s.agents[0].pc.data.Some? ==> s.agents[0].pc.id == |s.handed|)
    && (s.agents != [] && s.agents[0].pc.Stuck? ==> s.agents[0].pc.id == |s.attempts|)
  }

  lemma {:induction false} OneConsumerStep(s: State, e: Event)
    requires Inv(s) && OneConsumer(s) && Enabled(s, e)
    requires !e.Crash? && (e.Start? ==> s.agents == [])
    ensures OneConsumer(Step(s, e))
  {
    if e.Take? { TakeIsNext(s); }
    if e.Publish? { assert Holds(s.agents[0], s.agents[0].pc.id); }
  }

  lemma {:induction false} OneConsumerRun(s: State, es: seq<Event>)
    requires Inv(s) && OneConsumer(s) && CanRun(s, es) && Undisturbed(es)
    requires s.agents != [] ==> forall j | 0 <= j < |es| :: !es[j].Start?
    ensures Inv(After(s, es)) && OneConsumer(After(s, es))
    decreases |es|
  {
    if es != [] {
      StepKeepsInv(s, es[0]);
      OneConsumerStep(s, es[0]);
      var rest := es[1..];
      assert forall j | 0 <= j < |rest| :: rest[j] == es[j + 1];
      OneConsumerRun(Step(s, es[0]), rest);
    }
  }

  lemma {:induction false} PublishedPrefix(s: State, n: nat)
    requires AttemptsWell(s) && OneConsumer(s) && n <= |s.attempts| && n <= |s.enqueued|
    requires forall i | 0 <= i < n :: s.attempts[i].ok
    ensures PublishedData(s.attempts[..n]) == s.enqueued[..n]
  {
    if n > 0 {
      PublishedPrefix(s, n - 1);
      assert s.attempts[..n][..n - 1] == s.attempts[..n - 1];
      assert AttemptWell(s, s.attempts[n - 1]);
    }
  }

  /** What was enqueued is what was published, then what the consumer holds, then the ready rows
      in id order, whose number is what Size returns. */
  ghost predicate InOrder(s: State) {
    && s.enqueued == PublishedData(s.attempts) + ClaimedData(s) + ReadyData(s.table, 1)
    && |WithStatus(s.table, READY)| == |ReadyData(s.table, 1)|
  }

  /** With one consumer and no crash the queue is in order, however enqueues, cleanups and kills
      fall between the consumer's steps. */
  lemma {:induction false} FirstInFirstOut(es: seq<Event>)
    requires CanRun(INITIAL, es) && Undisturbed(es)
    ensures InOrder(After(INITIAL, es))
  {
    OneConsumerRun(INITIAL, es);
    OneConsumerInOrder(After(INITIAL, es));
  }

  lemma {:induction false} OneConsumerInOrder(s: State)
    requires HandedInOrder(s) && RowsWell(s) && ClaimsHeld(s) && AttemptsWell(s) && OneConsumer(s)
    ensures InOrder(s)
  {
    var k := |s.handed|;
    assert ReadyData(s.table, 1) == s.enqueued[k..] by { ReadyIsSuffix(s, 1); }
    assert |WithStatus(s.table, READY)| == |s.enqueued| - k by { ReadyCount(s); }
    assert PublishedData(s.attempts) + ClaimedData(s) == s.enqueued[..k] by { PublishedAndClaimed(s); }
    assert s.enqueued == s.enqueued[..k] + s.enqueued[k..];
  }

  lemma {:induction false} ReadyCount(s: State)
    requires HandedInOrder(s) && RowsWell(s)
    ensures |WithStatus(s.table, READY)| == |s.enqueued| - |s.handed|
  {
    assert WithStatus(s.table, READY) == Span(|s.handed|, |s.enqueued|);
  }

  lemma {:induction false} PublishedAndClaimed(s: State)
    requires HandedInOrder(s) && RowsWell(s) && ClaimsHeld(s) && AttemptsWell(s) && OneConsumer(s)
    ensures PublishedData(s.attempts) + ClaimedData(s) == s.enqueued[..|s.handed|]
  {
    if s.agents != [] && s.agents[0].pc.Stuck? {
      PublishedWhenStuck(s);
    } else {
      PublishedWhenFree(s);
    }
  }

  lemma {:induction false} PublishedWhenFree(s: State)
    requires HandedInOrder(s) && ClaimsHeld(s) && AttemptsWell(s) && OneConsumer(s)
    requires s.agents == [] || !s.agents[0].pc.Stuck?
    ensures PublishedData(s.attempts) + ClaimedData(s) == s.enqueued[..|s.handed|]
  {
    var n := |s.attempts|;
    assert s.attempts[..n] == s.attempts;
    PublishedPrefix(s, n);
    if s.agents != [] && s.agents[0].pc.Holding? && s.agents[0].pc.data.Some? {
      assert ClaimedData(s) == [s.enqueued[n]];
    } else {
      assert ClaimedData(s) == [];
    }
  }

  lemma {:induction false} PublishedWhenStuck(s: State)
    requires HandedInOrder(s) && RowsWell(s) && ClaimsHeld(s) && AttemptsWell(s) && OneConsumer(s)
    requires s.agents != [] && s.agents[0].pc.Stuck?
    ensures 0 < |s.handed| <= |s.enqueued|
    ensures PublishedData(s.attempts) == s.enqueued[..|s.handed| - 1]
    ensures ClaimedData(s) == [s.enqueued[|s.handed| - 1]]
  {
    var n := |s.attempts|;
    var id := s.agents[0].pc.id;
    assert Holds(s.agents[0], id) && id in s.table.rows;
    PublishedPrefix(s, n - 1);
  }

  /** One failure stops the queue: until another sender is started, nothing more is handed out
      or published in any continuation, and every payload still waiting goes on waiting. */
  lemma {:induction false} OneFailureStopsTheQueue(s: State, es: seq<Event>)
    requires Inv(s) && CanRun(s, es) && |s.agents| == 1 && s.agents[0].pc.Stuck?
    requires forall j | 0 <= j < |es| :: !es[j].Start?
    ensures
      var n := After(s, es);
      && n.attempts == s.attempts && n.handed == s.handed && s.enqueued <= n.enqueued
      && (forall id | |s.handed| < id <= |n.enqueued| :: Waiting(n, id))
    decreases |es|
  {
    RunKeepsInv(s, es);
    if es != [] {
      var rest := es[1..];
      assert forall j | 0 <= j < |rest| :: rest[j] == es[j + 1];
      StepKeepsInv(s, es[0]);
      OneFailureStopsTheQueue(Step(s, es[0]), rest);
    }
  }
}
