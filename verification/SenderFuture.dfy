/** Which payloads can still be published, and how one is lost. */
module SenderFuture {
  import opened Prelude
  import opened QueueTable
  import opened SenderProtocol
  import opened SenderRuns
  import opened SenderLoop

  /** The payload is with a sender that is stuck or dead and has not published it. */
  ghost predicate Lost(s: State, id: int) {
    exists a: nat :: Dormant(s, a) && Holds(s.agents[a], id) && !s.agents[a].pc.Acking?
  }

  /** Some continuation publishes row `id`. */
  ghost predicate Publishable(s: State, id: int) {
    exists es :: CanRun(s, es) && Published(After(s, es), id)
  }

  lemma {:induction false} LostForever(s: State, es: seq<Event>, id: int)
    requires Inv(s) && CanRun(s, es) && Lost(s, id)
    ensures !Published(After(s, es), id)
  {
    var a: nat :| Dormant(s, a) && Holds(s.agents[a], id) && !s.agents[a].pc.Acking?;
    FailedIsNeverPublished(s, es, a, id);
  }

  lemma {:induction false} InvIsValid(s: State)
    requires HandedInOrder(s) && RowsWell(s)
    ensures Valid(s.table)
  {
  }

  /** One undisturbed turn that succeeds: the next row is published, and no later one handed out. */
  ghost predicate OneFurther(s: State, n: State, a: nat) {
    && Inv(n) && AtLoop(n, a) && s.enqueued <= n.enqueued && |s.handed| < |n.handed|
    && Published(n, |s.handed| + 1)
    && (|s.handed| + 2 <= |s.enqueued| ==> |n.handed| == |s.handed| + 1)
  }

  lemma {:induction false} NextStillWaits(s: State, n: State)
    requires Inv(s) && Inv(n) && |s.handed| + 2 <= |s.enqueued|
    requires n.table == SetStatus(Dequeue(s.table).table, Dequeue(s.table).id, ACKED)
    ensures |n.handed| < |s.handed| + 2
  {
    TakeIsNext(s);
    var id := |s.handed| + 2;
    assert id in n.table.rows && n.table.rows[id].status == READY;
  }

  lemma {:induction false} TurnGetsFurther(s: State, a: nat) returns (es: seq<Event>)
    requires Inv(s) && AtLoop(s, a) && |s.handed| < |s.enqueued|
    ensures CanRun(s, es) && OneFurther(s, After(s, es), a)
  {
    TakeIsNext(s);
    InvIsValid(s);
    es := TurnEvents(s, a, true, 0, true);
    TurnRuns(s, a, true, 0, true);
    RunKeepsInv(s, es);
    HandedGrows(s, es);
    var n := After(s, es);
    var t := n.attempts[|s.attempts|];
    assert t.id == |s.handed| + 1 && t.ok;
    assert AttemptWell(n, t);
    if |s.handed| + 2 <= |s.enqueued| { NextStillWaits(s, n); }
  }

  /** A running sender gets to every waiting row, one turn after another. */
  lemma {:induction false} WaitingIsReached(s: State, a: nat, id: int) returns (es: seq<Event>)
    requires Inv(s) && AtLoop(s, a) && |s.handed| < id <= |s.enqueued|
    ensures CanRun(s, es) && Published(After(s, es), id)
    decreases id - |s.handed|
  {
    es := TurnGetsFurther(s, a);
    if id != |s.handed| + 1 {
      var rest := WaitingIsReached(After(s, es), a, id);
      RunThen(s, es, rest);
      es := es + rest;
    }
  }

  /** So does a sender started now. */
  lemma {:induction false} WaitingIsPublishable(s: State, id: int)
    requires Inv(s) && |s.handed| < id <= |s.enqueued|
    ensures Publishable(s, id)
  {
    var n := Step(s, Start(0));
    StepKeepsInv(s, Start(0));
    var es := WaitingIsReached(n, |s.agents|, id);
    RunOn(s, Start(0), es);
  }

  lemma {:induction false} HeldIsPublishable(s: State, a: nat, id: int)
    requires Inv(s) && a < |s.agents| && Holds(s.agents[a], id) && !s.agents[a].pc.Acking? && !Dormant(s, a)
    ensures Publishable(s, id)
  {
    var n := Step(s, Publish(a, true));
    assert n.attempts[|s.attempts|].id == id && n.attempts[|s.attempts|].ok;
    RunOn(s, Publish(a, true), []);
    assert Published(After(s, [Publish(a, true)] + []), id);
  }

  lemma {:induction false} PublishedIsPublishable(s: State, id: int)
    requires Published(s, id)
    ensures Publishable(s, id)
  {
    assert CanRun(s, []) && After(s, []) == s;
  }

  lemma {:induction false} PublishableState(s: State, id: int)
    requires Inv(s) && 1 <= id <= |s.enqueued|
    ensures Publishable(s, id) <==> !Lost(s, id)
  {
    if Lost(s, id) {
      forall es | CanRun(s, es) ensures !Published(After(s, es), id) { LostForever(s, es, id); }
    } else {
      OnePlaceEach(s, id);
      if Waiting(s, id) {
        WaitingIsPublishable(s, id);
      } else if Published(s, id) {
        PublishedIsPublishable(s, id);
      } else {
        var a: nat :| a < |s.agents| && Holds(s.agents[a], id) && !s.agents[a].pc.Acking?;
        HeldIsPublishable(s, a, id);
      }
    }
  }

  /** After every run, a payload enqueued can still be published, or has been, if and only if no
      sender holds it that is stuck in its retry loop or dead: restarts, cleanups and other
      senders bring back everything else, and that never. */
  lemma {:induction false} PublishableExactly(past: seq<Event>, id: int)
    requires CanRun(INITIAL, past) && 1 <= id <= |After(INITIAL, past).enqueued|
    ensures Publishable(After(INITIAL, past), id) <==> !Lost(After(INITIAL, past), id)
  {
    RunKeepsInv(INITIAL, past);
    PublishableState(After(INITIAL, past), id);
  }

  // ----- Two runs that lose a payload -----

  /** Enqueue, start, poll, claim. */
  function Claiming(data: string): (es: seq<Event>) {
    [Enqueue(data), Start(0), Poll(0, true, 0), Take(0)]
  }

  lemma {:induction false} ClaimingRuns(data: string) returns (s: State)
    ensures CanRun(INITIAL, Claiming(data)) && s == After(INITIAL, Claiming(data))
    ensures s.agents == [Agent(Holding(1, Some(data)), true, true, 0)] && s.enqueued == [data]
  {
    var s1 := Step(INITIAL, Enqueue(data));
    assert WithStatus(s1.table, READY) == {1};
    var s2 := Step(s1, Start(0));
    var rest;
    rest, s := PollAndTake(s2);
    RunOn(s1, Start(0), rest);
    RunOn(INITIAL, Enqueue(data), [Start(0)] + rest);
    assert [Enqueue(data)] + ([Start(0)] + rest) == Claiming(data);
  }

  lemma {:induction false} PollAndTake(s: State) returns (es: seq<Event>, n: State)
    requires s.agents == [Agent(Loop, true, true, 0)] && WithStatus(s.table, READY) == {1}
    ensures es == [Poll(0, true, 0), Take(0)] && CanRun(s, es) && n == After(s, es)
    ensures 1 in s.table.rows && n.enqueued == s.enqueued
    ensures n.agents == [Agent(Holding(1, Some(s.table.rows[1].data)), true, true, 0)]
  {
    assert 1 in WithStatus(s.table, READY);
    var m := Step(s, Poll(0, true, 0));
    n := Step(m, Take(0));
    RunOn(m, Take(0), []);
    RunOn(s, Poll(0, true, 0), [Take(0)]);
    es := [Poll(0, true, 0)] + [Take(0)];
  }

  /** A claimed row is lost by one failed Publish, and by one crash. */
  lemma {:induction false} LosingRuns(data: string, e: Event)
    requires e == Publish(0, false) || e == Crash
    ensures CanRun(INITIAL, Claiming(data) + [e])
    ensures
      var s := After(INITIAL, Claiming(data) + [e]);
      s.enqueued == [data] && Lost(s, 1) && !Publishable(s, 1)
  {
    var s := ClaimingRuns(data);
    var n := Step(s, e);
    RunOn(s, e, []);
    assert [e] + [] == [e];
    RunThen(INITIAL, Claiming(data), [e]);
    assert Dormant(n, 0) && Holds(n.agents[0], 1);
    PublishableExactly(Claiming(data) + [e], 1);
  }
}
