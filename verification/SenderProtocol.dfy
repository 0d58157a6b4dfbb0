/** Producers, sender loops, the cleaner and the watchdog over one queue, as a state machine.
    One event is one locked transaction or one step of a sender loop, so a run is an arbitrary
    interleaving with crashes between any two calls. Senders of a crashed process stay in the
    state, dead, so that what they were holding can still be spoken of. */
module SenderProtocol {
  import opened Prelude
  import opened QueueTable

  /** Where a sender is in its loop. `Stuck` is the loop
      `for err := Publish(..); err != nil; { .. }`, whose condition never changes. */
  datatype Pc =
    | Loop
    | Sized
    | Holding(id: int, data: Option<string>)
    | Stuck(id: int)
    | Acking(id: int)
    | Exited

  datatype Agent = Agent(pc: Pc, running: bool, alive: bool, kicked: nat)

  /** One call of Publish and its outcome. */
  datatype Attempt = Attempt(agent: nat, id: int, data: string, ok: bool)

  /** The table, every sender ever started, and the history: payloads enqueued, ids handed out
      by DequeueData, and calls of Publish, in order. */
  datatype State = State(
    table: Table, agents: seq<Agent>,
    enqueued: seq<string>, handed: seq<int>, attempts: seq<Attempt>)

  datatype Event =
    | Enqueue(data: string)
    | Start(now: nat)
    | Poll(a: nat, connected: bool, now: nat)
    | Take(a: nat)
    | Publish(a: nat, ok: bool)
    | Acknowledge(a: nat)
    | Spin(a: nat, now: nat)
    | Kill(a: nat)
    | CleanUp
    | Inspect(now: nat)
    | Crash

  const INITIAL := State(EMPTY_TABLE, [], [], [], [])

  predicate At(s: State, a: nat) {
    a < |s.agents| && s.agents[a].alive
  }

  predicate Enabled(s: State, e: Event) {
    match e
    case Poll(a, _, _) => At(s, a) && s.agents[a].pc == Loop
    case Take(a) => At(s, a) && s.agents[a].pc == Sized
    case Publish(a, _) => At(s, a) && s.agents[a].pc.Holding? && s.agents[a].pc.data.Some?
    case Acknowledge(a) =>
      At(s, a) && (s.agents[a].pc.Acking? || (s.agents[a].pc.Holding? && s.agents[a].pc.data.None?))
    case Spin(a, _) => At(s, a) && s.agents[a].pc.Stuck?
    case Kill(a) => At(s, a)
    case _ => true
  }

  function Goto(s: State, a: nat, pc: Pc): State
    requires a < |s.agents|
  {
    s.(agents := s.agents[a := s.agents[a].(pc := pc)])
  }

  function Kick(s: State, a: nat, now: nat): State
    requires a < |s.agents|
  {
    s.(agents := s.agents[a := s.agents[a].(kicked := now)])
  }

  function Step(s: State, e: Event): State
    requires Enabled(s, e)
  {
    match e
    case Enqueue(data) =>
      s.(table := Insert(s.table, data), enqueued := s.enqueued + [data])
    case Start(now) =>
      s.(agents := s.agents + [Agent(Loop, true, true, now)])
    case Poll(a, connected, now) =>
      if !s.agents[a].running then Goto(s, a, Exited)
      else
        var k := Kick(s, a, now);
        if connected && WithStatus(s.table, READY) != {} then Goto(k, a, Sized) else k
    case Take(a) =>
      var claim := Dequeue(s.table);
      Goto(s, a, Holding(claim.id, claim.data)).(
        table := claim.table,
        handed := if claim.data.Some? then s.handed + [claim.id] else s.handed)
    case Publish(a, ok) =>
      var pc := s.agents[a].pc;
      Goto(s, a, if ok then Acking(pc.id) else Stuck(pc.id)).(
        attempts := s.attempts + [Attempt(a, pc.id, pc.data.value, ok)])
    case Acknowledge(a) =>
      Goto(s, a, Loop).(table := SetStatus(s.table, s.agents[a].pc.id, ACKED))
    case Spin(a, now) => Kick(s, a, now)
    case Kill(a) => s.(agents := s.agents[a := s.agents[a].(running := false)])
    case CleanUp => s.(table := DeleteAcked(s.table))
    case Inspect(_) => s
    case Crash => s.(agents := seq(|s.agents|, i requires 0 <= i < |s.agents| => s.agents[i].(alive := false)))
  }

  predicate CanRun(s: State, es: seq<Event>)
    decreases |es|
  {
    es == [] || (Enabled(s, es[0]) && CanRun(Step(s, es[0]), es[1..]))
  }

  function After(s: State, es: seq<Event>): State
    requires CanRun(s, es)
    decreases |es|
  {
    if es == [] then s else After(Step(s, es[0]), es[1..])
  }

  // ----- The invariant -----

  predicate Holds(g: Agent, id: int) {
    match g.pc
    case Holding(i, d) => d.Some? && i == id
    case Stuck(i) => i == id
    case Acking(i) => i == id
    case _ => false
  }

  /** Ids are handed out exactly in order, without gap: the j-th is j. */
  ghost predicate HandedInOrder(s: State) {
    && s.table.nextId == |s.enqueued| + 1
    && |s.handed| <= |s.enqueued|
    && forall j | 0 <= j < |s.handed| :: s.handed[j] == j + 1
  }

  /** Rows keep their payload; the ready ones are exactly the ids not yet handed out. */
  ghost predicate RowsWell(s: State) {
    && (forall id | id in s.table.rows ::
          && 1 <= id <= |s.enqueued|
          && s.table.rows[id].data == s.enqueued[id - 1]
          && (s.table.rows[id].status == READY <==> |s.handed| < id)
          && s.table.rows[id].status in {READY, CLAIMED, ACKED})
    && (forall id | |s.handed| < id <= |s.enqueued| :: id in s.table.rows)
  }

  /** What a sender holds, dead or alive, is a claimed row, and no two hold the same. */
  ghost predicate ClaimsHeld(s: State) {
    && (forall a, id | 0 <= a < |s.agents| && Holds(s.agents[a], id) ::
          id in s.table.rows && s.table.rows[id].status == CLAIMED)
    && (forall a, b, id | 0 <= a < |s.agents| && 0 <= b < |s.agents|
          && Holds(s.agents[a], id) && Holds(s.agents[b], id) :: a == b)
    && (forall a | 0 <= a < |s.agents| && s.agents[a].pc.Holding? ::
          match s.agents[a].pc.data
          case None => s.agents[a].pc.id == -1
          case Some(d) => 1 <= s.agents[a].pc.id <= |s.enqueued| && d == s.enqueued[s.agents[a].pc.id - 1])
  }

  /** Every claimed row is held by a sender. */
  ghost predicate ClaimedIsHeld(s: State) {
    forall id | id in s.table.rows && s.table.rows[id].status == CLAIMED ::
      exists a :: 0 <= a < |s.agents| && Holds(s.agents[a], id)
  }

  predicate Gone(s: State, id: int) {
    1 <= id <= |s.handed| && (id !in s.table.rows || s.table.rows[id].status == ACKED)
  }

  predicate AttemptWell(s: State, t: Attempt) {
    && 1 <= t.id <= |s.handed| <= |s.enqueued|
    && t.data == s.enqueued[t.id - 1]
    && t.agent < |s.agents|
    && (if t.ok then s.agents[t.agent].pc == Acking(t.id) || Gone(s, t.id)
        else s.agents[t.agent].pc == Stuck(t.id))
  }

  /** Calls of Publish: one per id at most, and a row is gone just when one succeeded. */
  ghost predicate AttemptsWell(s: State) {
    && (forall i, j | 0 <= i < j < |s.attempts| :: s.attempts[i].id != s.attempts[j].id)
    && (forall i | 0 <= i < |s.attempts| :: AttemptWell(s, s.attempts[i]))
    && (forall a, i | 0 <= a < |s.agents| && 0 <= i < |s.attempts| && s.agents[a].pc.Holding? ::
          s.agents[a].pc.id != s.attempts[i].id)
  }

  ghost predicate GoneWasPublished(s: State) {
    && (forall id | Gone(s, id) :: Published(s, id))
    && (forall a | 0 <= a < |s.agents| && s.agents[a].pc.Acking? :: Published(s, s.agents[a].pc.id))
  }

  ghost predicate Published(s: State, id: int) {
    exists i :: 0 <= i < |s.attempts| && s.attempts[i].id == id && s.attempts[i].ok
  }

  ghost predicate Inv(s: State) {
    HandedInOrder(s) && RowsWell(s) && ClaimsHeld(s) && ClaimedIsHeld(s) && AttemptsWell(s) && GoneWasPublished(s)
  }

  /** DequeueData hands out the next id of the sequence. */
  lemma {:induction false} TakeIsNext(s: State)
    requires HandedInOrder(s) && RowsWell(s)
    ensures Dequeue(s.table).id == if |s.handed| < |s.enqueued| then |s.handed| + 1 else -1
    ensures Dequeue(s.table).data == if |s.handed| < |s.enqueued| then Some(s.enqueued[|s.handed|]) else None
  {
    var ready := WithStatus(s.table, READY);
    if |s.handed| < |s.enqueued| {
      assert |s.handed| + 1 in ready;
    } else {
      assert forall id | id in ready :: |s.handed| < id <= |s.enqueued|;
    }
  }

  lemma {:induction false} StepKeepsOrder(s: State, e: Event)
    requires HandedInOrder(s) && RowsWell(s) && Enabled(s, e)
    requires e.Acknowledge? ==> ClaimsHeld(s)
    ensures HandedInOrder(Step(s, e)) && RowsWell(Step(s, e))
  {
    if e.Take? { TakeIsNext(s); }
  }

  predicate AtRest(pc: Pc) {
    pc.Loop? || pc.Sized? || pc.Exited?
  }

  /** The table and the history stand still, and no sender picks up or drops a row. */
  ghost predicate Quiet(s: State, n: State) {
    && n.table == s.table && n.enqueued == s.enqueued && n.handed == s.handed && n.attempts == s.attempts
    && |s.agents| <= |n.agents|
    && (forall a | 0 <= a < |s.agents| ::
          n.agents[a].pc == s.agents[a].pc || (AtRest(n.agents[a].pc) && AtRest(s.agents[a].pc)))
    && (forall a | |s.agents| <= a < |n.agents| :: AtRest(n.agents[a].pc))
  }

  predicate Bystanding(e: Event) {
    e.Start? || e.Poll? || e.Spin? || e.Kill? || e.Inspect? || e.Crash?
  }

  lemma {:induction false} BystandingIsQuiet(s: State, e: Event)
    requires Enabled(s, e) && Bystanding(e)
    ensures Quiet(s, Step(s, e))
  {
  }

  lemma {:induction false} QuietKeepsClaims(s: State, n: State)
    requires ClaimsHeld(s) && Quiet(s, n)
    ensures ClaimsHeld(n)
  {
    assert forall a, id | 0 <= a < |n.agents| && Holds(n.agents[a], id) ::
        a < |s.agents| && Holds(s.agents[a], id);
  }

  lemma {:induction false} TakeKeepsClaims(s: State, a: nat)
    requires HandedInOrder(s) && RowsWell(s) && ClaimsHeld(s) && Enabled(s, Take(a))
    ensures ClaimsHeld(Step(s, Take(a)))
  {
    TakeIsNext(s);
  }

  lemma {:induction false} AcknowledgeKeepsClaims(s: State, a: nat)
    requires HandedInOrder(s) && RowsWell(s) && ClaimsHeld(s) && Enabled(s, Acknowledge(a))
    ensures ClaimsHeld(Step(s, Acknowledge(a)))
  {
  }

  lemma {:induction false} EnqueueKeepsClaims(s: State, data: string)
    requires HandedInOrder(s) && RowsWell(s) && ClaimsHeld(s)
    ensures ClaimsHeld(Step(s, Enqueue(data)))
  {
  }

  lemma {:induction false} PublishKeepsClaims(s: State, a: nat, ok: bool)
    requires ClaimsHeld(s) && Enabled(s, Publish(a, ok))
    ensures ClaimsHeld(Step(s, Publish(a, ok)))
  {
    var n := Step(s, Publish(a, ok));
    assert forall b, id | 0 <= b < |s.agents| :: Holds(n.agents[b], id) <==> Holds(s.agents[b], id);
  }

  lemma {:induction false} CleanUpKeepsClaims(s: State)
    requires ClaimsHeld(s)
    ensures ClaimsHeld(Step(s, CleanUp))
  {
  }

  lemma {:induction false} StepKeepsClaims(s: State, e: Event)
    requires HandedInOrder(s) && RowsWell(s) && ClaimsHeld(s) && Enabled(s, e)
    ensures ClaimsHeld(Step(s, e))
  {
    match e
    case Enqueue(data) => EnqueueKeepsClaims(s, data);
    case Take(a) => TakeKeepsClaims(s, a);
    case Publish(a, ok) => PublishKeepsClaims(s, a, ok);
    case Acknowledge(a) => AcknowledgeKeepsClaims(s, a);
    case CleanUp => CleanUpKeepsClaims(s);
    case _ =>
      BystandingIsQuiet(s, e);
      QuietKeepsClaims(s, Step(s, e));
  }

  lemma {:induction false} StepKeepsHeld(s: State, e: Event)
    requires HandedInOrder(s) && RowsWell(s) && ClaimsHeld(s) && ClaimedIsHeld(s) && Enabled(s, e)
    ensures ClaimedIsHeld(Step(s, e))
  {
    if e.Take? { TakeIsNext(s); }
    var n := Step(s, e);
    forall id | id in n.table.rows && n.table.rows[id].status == CLAIMED
      ensures exists a :: 0 <= a < |n.agents| && Holds(n.agents[a], id)
    {
      if id in s.table.rows && s.table.rows[id].status == CLAIMED {
        var a :| 0 <= a < |s.agents| && Holds(s.agents[a], id);
        assert Holds(n.agents[a], id);
      } else {
        assert e.Take? && Holds(n.agents[e.a], id);
      }
    }
  }

  lemma {:induction false} QuietKeepsAttempts(s: State, n: State)
    requires AttemptsWell(s) && Quiet(s, n)
    ensures AttemptsWell(n)
  {
    assert forall id | Gone(s, id) :: Gone(n, id);
  }

  lemma {:induction false} PublishKeepsAttempts(s: State, a: nat, ok: bool)
    requires HandedInOrder(s) && RowsWell(s) && ClaimsHeld(s) && AttemptsWell(s) && Enabled(s, Publish(a, ok))
    ensures AttemptsWell(Step(s, Publish(a, ok)))
  {
    var n := Step(s, Publish(a, ok));
    var id := s.agents[a].pc.id;
    assert Holds(s.agents[a], id);
    assert forall k | Gone(s, k) :: Gone(n, k);
    forall b | 0 <= b < |n.agents| && n.agents[b].pc.Holding? ensures n.agents[b].pc.id != id {
      assert n.agents[b].pc.id == -1 || Holds(s.agents[b], n.agents[b].pc.id);
    }
    forall i | 0 <= i < |n.attempts| ensures AttemptWell(n, n.attempts[i]) {
      if i < |s.attempts| {
        assert n.attempts[i] == s.attempts[i] && AttemptWell(s, s.attempts[i]);
      } else {
        assert id in s.table.rows;
      }
    }
  }

  lemma {:induction false} EnqueueKeepsAttempts(s: State, data: string)
    requires HandedInOrder(s) && AttemptsWell(s)
    ensures AttemptsWell(Step(s, Enqueue(data)))
  {
    var n := Step(s, Enqueue(data));
    forall i | 0 <= i < |s.attempts| ensures AttemptWell(n, n.attempts[i]) {
      assert AttemptWell(s, s.attempts[i]);
    }
  }

  lemma {:induction false} TakeKeepsAttempts(s: State, a: nat)
    requires HandedInOrder(s) && RowsWell(s) && AttemptsWell(s) && Enabled(s, Take(a))
    ensures AttemptsWell(Step(s, Take(a)))
  {
    TakeIsNext(s);
    var n := Step(s, Take(a));
    forall i | 0 <= i < |s.attempts| ensures AttemptWell(n, n.attempts[i]) {
      assert AttemptWell(s, s.attempts[i]);
    }
  }

  lemma {:induction false} AcknowledgeKeepsAttempts(s: State, a: nat)
    requires HandedInOrder(s) && RowsWell(s) && ClaimsHeld(s) && AttemptsWell(s) && Enabled(s, Acknowledge(a))
    ensures AttemptsWell(Step(s, Acknowledge(a)))
  {
    var n := Step(s, Acknowledge(a));
    forall i | 0 <= i < |s.attempts| ensures AttemptWell(n, n.attempts[i]) {
      assert AttemptWell(s, s.attempts[i]);
    }
  }

  lemma {:induction false} CleanUpKeepsAttempts(s: State)
    requires AttemptsWell(s)
    ensures AttemptsWell(Step(s, CleanUp))
  {
    var n := Step(s, CleanUp);
    assert forall id | Gone(s, id) :: Gone(n, id);
    forall i | 0 <= i < |s.attempts| ensures AttemptWell(n, n.attempts[i]) {
      assert AttemptWell(s, s.attempts[i]);
    }
  }

  lemma {:induction false} StepKeepsAttempts(s: State, e: Event)
    requires HandedInOrder(s) && RowsWell(s) && ClaimsHeld(s) && AttemptsWell(s) && Enabled(s, e)
    ensures AttemptsWell(Step(s, e))
  {
    match e
    case Enqueue(data) => EnqueueKeepsAttempts(s, data);
    case Take(a) => TakeKeepsAttempts(s, a);
    case Publish(a, ok) => PublishKeepsAttempts(s, a, ok);
    case Acknowledge(a) => AcknowledgeKeepsAttempts(s, a);
    case CleanUp => CleanUpKeepsAttempts(s);
    case _ =>
      BystandingIsQuiet(s, e);
      QuietKeepsAttempts(s, Step(s, e));
  }

  lemma {:induction false} StepKeepsPublished(s: State, e: Event)
    requires HandedInOrder(s) && RowsWell(s) && ClaimsHeld(s) && GoneWasPublished(s) && Enabled(s, e)
    ensures GoneWasPublished(Step(s, e))
  {
    if e.Take? { TakeIsNext(s); }
    var n := Step(s, e);
    forall id | Published(s, id) ensures Published(n, id) {
      var i :| 0 <= i < |s.attempts| && s.attempts[i].id == id && s.attempts[i].ok;
      assert n.attempts[i] == s.attempts[i];
    }
    if e.Publish? && e.ok {
      assert n.attempts[|s.attempts|].ok;
      assert Published(n, s.agents[e.a].pc.id);
    }
  }

  lemma {:induction false} StepKeepsInv(s: State, e: Event)
    requires Inv(s) && Enabled(s, e)
    ensures Inv(Step(s, e))
  {
    StepKeepsOrder(s, e);
    StepKeepsClaims(s, e);
    StepKeepsHeld(s, e);
    StepKeepsAttempts(s, e);
    StepKeepsPublished(s, e);
  }
}
