/** What a killed sender still does, and what each event leaves alone. */
module SenderKill {
  import opened Prelude
  import opened QueueTable
  import opened SenderProtocol
  import opened SenderRuns

  /** The calls of Publish by sender `a`. */
  function AttemptsBy(ts: seq<Attempt>, a: nat): nat {
    if ts == [] then 0 else
      AttemptsBy(ts[..|ts| - 1], a) + (if ts[|ts| - 1].agent == a then 1 else 0)
  }

  /** How often a run has a sender other than `a` claim. */
  function TakesByOthers(es: seq<Event>, a: nat): nat
    decreases |es|
  {
    if es == [] then 0 else
      (if es[0].Take? && es[0].a != a then 1 else 0) + TakesByOthers(es[1..], a)
  }

  /** The sender will not get into another turn: its running flag is cleared. */
  predicate Killed(s: State, a: nat) {
    a < |s.agents| && !s.agents[a].running
  }

  /** It is at the test of its loop, or past it. */
  predicate AtTest(pc: Pc) {
    pc.Loop? || pc.Exited?
  }

  /** The claim and the call of Publish that the rest of the turn may still make. */
  function ClaimsLeft(pc: Pc): nat {
    if pc.Sized? then 1 else 0
  }

  function AttemptsLeft(pc: Pc): nat {
    if pc.Sized? || (pc.Holding? && pc.data.Some?) then 1 else 0
  }

  predicate PollBy(e: Event, a: nat) {
    e.Poll? && e.a == a
  }

  lemma {:induction false} KilledStep(s: State, e: Event, a: nat)
    requires Enabled(s, e) && Killed(s, a)
    ensures Killed(Step(s, e), a)
    ensures
      var n := Step(s, e);
      && AttemptsBy(n.attempts, a) + AttemptsLeft(n.agents[a].pc)
         <= AttemptsBy(s.attempts, a) + AttemptsLeft(s.agents[a].pc)
      && |n.handed| + ClaimsLeft(n.agents[a].pc)
         <= |s.handed| + ClaimsLeft(s.agents[a].pc) + (if e.Take? && e.a != a then 1 else 0)
  {
    var n := Step(s, e);
    if e.Publish? {
      assert n.attempts[..|n.attempts| - 1] == s.attempts;
    }
  }

  /** Whatever follows a kill, the sender makes at most the one claim and the one call of Publish
      that its turn was about to make. */
  lemma {:induction false} KilledMakesOneMore(s: State, es: seq<Event>, a: nat)
    requires CanRun(s, es) && Killed(s, a)
    ensures
      var n := After(s, es);
      && Killed(n, a)
      && AttemptsBy(n.attempts, a) + AttemptsLeft(n.agents[a].pc)
         <= AttemptsBy(s.attempts, a) + AttemptsLeft(s.agents[a].pc)
      && |n.handed| + ClaimsLeft(n.agents[a].pc)
         <= |s.handed| + ClaimsLeft(s.agents[a].pc) + TakesByOthers(es, a)
    decreases |es|
  {
    if es != [] {
      KilledStep(s, es[0], a);
      KilledMakesOneMore(Step(s, es[0]), es[1..], a);
    }
  }

  lemma {:induction false} KilledAtTestStep(s: State, e: Event, a: nat)
    requires Enabled(s, e) && Killed(s, a) && AtTest(s.agents[a].pc)
    ensures Killed(Step(s, e), a) && AtTest(Step(s, e).agents[a].pc) && e != Take(a)
    ensures Step(s, e).agents[a].pc.Exited? <==> s.agents[a].pc.Exited? || PollBy(e, a)
  {
  }

  lemma {:induction false} KilledAtTestStays(s: State, es: seq<Event>, a: nat)
    requires CanRun(s, es) && Killed(s, a) && AtTest(s.agents[a].pc)
    ensures Killed(After(s, es), a) && AtTest(After(s, es).agents[a].pc)
    ensures forall j | 0 <= j < |es| :: es[j] != Take(a)
    ensures After(s, es).agents[a].pc.Exited? <==>
      s.agents[a].pc.Exited? || exists j :: 0 <= j < |es| && PollBy(es[j], a)
    decreases |es|
  {
    if es != [] {
      var rest := es[1..];
      KilledAtTestStep(s, es[0], a);
      KilledAtTestStays(Step(s, es[0]), rest, a);
      assert forall j | 0 <= j < |rest| :: rest[j] == es[j + 1];
      assert forall j | 1 <= j < |es| :: es[j] == rest[j - 1];
    }
  }

  /** No attempt from number `from` on is by sender `a`. */
  predicate NoneBy(ts: seq<Attempt>, from: nat, a: nat) {
    from <= |ts| && forall i | from <= i < |ts| :: ts[i].agent != a
  }

  lemma {:induction false} KilledAtTestPublishesNothing(s: State, es: seq<Event>, a: nat)
    requires CanRun(s, es) && Killed(s, a) && AtTest(s.agents[a].pc)
    ensures s.attempts <= After(s, es).attempts && NoneBy(After(s, es).attempts, |s.attempts|, a)
    decreases |es|
  {
    if es != [] {
      var m := Step(s, es[0]);
      KilledAtTestStep(s, es[0], a);
      KilledAtTestPublishesNothing(m, es[1..], a);
      assert s.attempts <= m.attempts && NoneBy(m.attempts, |s.attempts|, a);
      NoneByLonger(m.attempts, After(m, es[1..]).attempts, |s.attempts|, a);
    }
  }

  lemma {:induction false} NoneByLonger(ts: seq<Attempt>, all: seq<Attempt>, from: nat, a: nat)
    requires NoneBy(ts, from, a) && ts <= all && NoneBy(all, |ts|, a)
    ensures NoneBy(all, from, a)
  {
    assert forall i | from <= i < |ts| :: all[i] == ts[i];
  }

  /** Killed at its loop test, a sender claims nothing more in any continuation, holds nothing,
      calls Publish no more, and has exited exactly once it has polled. */
  lemma {:induction false} KilledAtTestIsDone(s: State, es: seq<Event>, a: nat)
    requires CanRun(s, es) && Killed(s, a) && AtTest(s.agents[a].pc)
    ensures
      var n := After(s, es);
      && Killed(n, a) && AtTest(n.agents[a].pc)
      && (n.agents[a].pc.Exited? <==> s.agents[a].pc.Exited? || exists j :: 0 <= j < |es| && PollBy(es[j], a))
      && (forall id :: !Holds(n.agents[a], id))
      && (forall j | 0 <= j < |es| :: es[j] != Take(a))
      && |n.handed| <= |s.handed| + TakesByOthers(es, a)
      && s.attempts <= n.attempts && NoneBy(n.attempts, |s.attempts|, a)
  {
    KilledAtTestStays(s, es, a);
    KilledAtTestPublishesNothing(s, es, a);
    KilledMakesOneMore(s, es, a);
  }

  /** So after a Kill, in every continuation: a sender at its loop test is done, and one in the
      middle of a turn calls Publish at most once more. */
  lemma {:induction false} KillEnds(s: State, es: seq<Event>, a: nat)
    requires At(s, a) && CanRun(Step(s, Kill(a)), es)
    ensures
      var n := After(Step(s, Kill(a)), es);
      && Killed(n, a)
      && AttemptsBy(n.attempts, a) <= AttemptsBy(s.attempts, a) + 1
      && |n.handed| <= |s.handed| + 1 + TakesByOthers(es, a)
      && (AtTest(s.agents[a].pc) ==>
            && AtTest(n.agents[a].pc)
            && ((exists j :: 0 <= j < |es| && PollBy(es[j], a)) ==> n.agents[a].pc.Exited?)
            && |n.handed| <= |s.handed| + TakesByOthers(es, a)
            && s.attempts <= n.attempts && NoneBy(n.attempts, |s.attempts|, a))
  {
    var k := Step(s, Kill(a));
    KilledMakesOneMore(k, es, a);
    if AtTest(s.agents[a].pc) { KilledAtTestIsDone(k, es, a); }
  }

  // ----- What the other events do -----

  /** The sender is where it was, dead. */
  predicate DeadAt(s: State, a: nat, pc: Pc) {
    a < |s.agents| && !s.agents[a].alive && s.agents[a].pc == pc
  }

  /** After a crash no sender of before acts again, in any continuation. */
  lemma {:induction false} CrashEndsAll(s: State, es: seq<Event>, a: nat)
    requires CanRun(Step(s, Crash), es) && a < |s.agents|
    ensures
      var n := After(Step(s, Crash), es);
      && DeadAt(n, a, s.agents[a].pc)
      && s.attempts <= n.attempts && NoneBy(n.attempts, |s.attempts|, a)
      && |n.handed| <= |s.handed| + TakesByOthers(es, a)
  {
    DeadStays(Step(s, Crash), es, a);
  }

  lemma {:induction false} DeadStays(s: State, es: seq<Event>, a: nat)
    requires CanRun(s, es) && a < |s.agents| && !s.agents[a].alive
    ensures
      var n := After(s, es);
      && DeadAt(n, a, s.agents[a].pc)
      && s.attempts <= n.attempts && NoneBy(n.attempts, |s.attempts|, a)
      && |n.handed| <= |s.handed| + TakesByOthers(es, a)
    decreases |es|
  {
    if es != [] {
      var m := Step(s, es[0]);
      DeadStep(s, es[0], a);
      DeadStays(m, es[1..], a);
      NoneByLonger(m.attempts, After(m, es[1..]).attempts, |s.attempts|, a);
    }
  }

  lemma {:induction false} DeadStep(s: State, e: Event, a: nat)
    requires Enabled(s, e) && a < |s.agents| && !s.agents[a].alive
    ensures DeadAt(Step(s, e), a, s.agents[a].pc)
    ensures s.attempts <= Step(s, e).attempts && NoneBy(Step(s, e).attempts, |s.attempts|, a)
    ensures |Step(s, e).handed| <= |s.handed| + (if e.Take? && e.a != a then 1 else 0)
  {
  }

  /** When a sender was last kicked: by being started, by polling while not killed, or by a turn
      of its retry loop; and by nothing else. */
  function KickTime(s: State, e: Event, a: nat): Option<nat> {
    match e
    case Start(now) => if a == |s.agents| then Some(now) else None
    case Poll(b, _, now) => if b == a && a < |s.agents| && s.agents[a].running then Some(now) else None
    case Spin(b, now) => if b == a then Some(now) else None
    case _ => None
  }

  lemma {:induction false} KickedExactly(s: State, e: Event, a: nat)
    requires Enabled(s, e) && a < |Step(s, e).agents|
    ensures
      var k := Step(s, e).agents[a].kicked;
      if KickTime(s, e, a).Some? then k == KickTime(s, e, a).value else a < |s.agents| && k == s.agents[a].kicked
  {
  }

  /** A cleanup leaves no acked row and takes no other; a crash and a start leave the table. */
  lemma {:induction false} TableAfter(s: State, now: nat)
    ensures
      var n := Step(s, CleanUp).table.rows;
      forall id :: if id in s.table.rows && s.table.rows[id].status != 5 then id in n && n[id] == s.table.rows[id]
                   else id !in n
    ensures Step(s, Crash).table == s.table && Step(s, Start(now)).table == s.table
  {
  }
}
