/** The watchdog over the sender protocol: it cannot see a sender whose Publish has failed. */
module SenderWatch {
  import opened SenderProtocol
  import opened SenderRuns
  import opened SenderLoop
  import opened Watchdog
  import opened Words
  import opened QueueTable

  /** Every clock reading of the run fits a signed 64-bit integer. */
  predicate ClocksFit(es: seq<Event>) {
    forall j | 0 <= j < |es| ::
      && (es[j].Inspect? ==> es[j].now < TWO_63)
      && (es[j].Spin? ==> es[j].now < TWO_63)
  }

  /** No check of the run fires on sender `a`, kicked last as the protocol state says. */
  predicate NeverFires(s: State, es: seq<Event>, a: nat)
    requires CanRun(s, es) && a < |s.agents| && s.agents[a].kicked < TWO_63 && s.agents[a].pc.Stuck?
    requires ClocksFit(es)
    decreases |es|
  {
    es == [] ||
    (assert forall j | 0 <= j < |es[1..]| :: es[1..][j] == es[j + 1];
     (es[0].Inspect? ==> !Fires(es[0].now, ToInt(s.agents[a].kicked), AGENT_WTD))
     && NeverFires(Step(s, es[0]), es[1..], a))
  }

  /** The spinning sender kicks in time: no check reads the clock before its last kick, or more
      than the limit after it. */
  predicate KicksInTime(kicked: nat, es: seq<Event>, a: nat)
    decreases |es|
  {
    es == [] ||
    match es[0]
    case Inspect(now) => kicked <= now <= kicked + AGENT_WTD && KicksInTime(kicked, es[1..], a)
    case Spin(b, now) => KicksInTime(if b == a then now else kicked, es[1..], a)
    case _ => KicksInTime(kicked, es[1..], a)
  }

  /** A sender whose Publish failed is left alone by the watchdog exactly as long as its retry
      loop kicks in time; and all that while, whatever else happens, it publishes nothing more
      and its row stays claimed. */
  lemma {:induction false} StuckSenderEvadesWatchdog(s: State, es: seq<Event>, a: nat)
    requires Inv(s) && CanRun(s, es) && a < |s.agents| && s.agents[a].pc.Stuck?
    requires s.agents[a].kicked < TWO_63 && ClocksFit(es)
    ensures NeverFires(s, es, a) <==> KicksInTime(s.agents[a].kicked, es, a)
    ensures
      var id := s.agents[a].pc.id;
      && id in After(s, es).table.rows && After(s, es).table.rows[id].status == CLAIMED
      && !Published(After(s, es), id)
      && forall i | |s.attempts| <= i < |After(s, es).attempts| :: After(s, es).attempts[i].agent != a
  {
    var id := s.agents[a].pc.id;
    assert Holds(s.agents[a], id);
    DormantForever(s, es, a, id);
    FailedIsNeverPublished(s, es, a, id);
    FiringIsLateness(s, es, a);
  }

  lemma {:induction false} FiringIsLateness(s: State, es: seq<Event>, a: nat)
    requires CanRun(s, es) && a < |s.agents| && s.agents[a].pc.Stuck?
    requires s.agents[a].kicked < TWO_63 && ClocksFit(es)
    ensures NeverFires(s, es, a) <==> KicksInTime(s.agents[a].kicked, es, a)
    decreases |es|
  {
    if es != [] {
      assert forall j | 0 <= j < |es[1..]| :: es[1..][j] == es[j + 1];
      var m := Step(s, es[0]);
      assert m.agents[a].pc == s.agents[a].pc;
      if es[0].Inspect? {
        FiresExactly(es[0].now, s.agents[a].kicked, AGENT_WTD);
      }
      FiringIsLateness(m, es[1..], a);
    }
  }
}
