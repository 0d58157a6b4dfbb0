/** What the published stream says about the simulated one, for any publish timing and over any
    number of routes. */
module FirmwareFacts {
  import opened Driving
  import opened DriveFacts
  import StatVars
  import opened Firmware

  function Flatten(ws: seq<seq<Position>>): (ps: seq<Position>) {
    if ws == [] then [] else Flatten(ws[..|ws| - 1]) + ws[|ws| - 1]
  }

  lemma {:induction false} FlattenAppend(ws: seq<seq<Position>>, w: seq<Position>)
    ensures Flatten(ws + [w]) == Flatten(ws) + w
  {
    assert (ws + [w])[..|ws|] == ws;
  }

  /** The windows and then the pending samples are exactly the samples consumed. */
  ghost predicate Partition(l: Log, ps: seq<Position>) {
    && Flatten(l.windows) + l.pending == ps
    && (forall i | 0 <= i < |l.windows| :: l.windows[i] != [])
    && (l.lastStatus == if ps == [] then Unset else ps[|ps| - 1].status)
  }

  lemma {:induction false} PartitionStep(l: Log, ps: seq<Position>, p: Position, due: bool)
    requires Partition(l, ps)
    ensures Partition(Observe(l, p, due), ps + [p])
  {
    var w := l.pending + [p];
    FlattenAppend(l.windows, w);
    assert Flatten(l.windows) + w == ps + [p];
  }

  /** Publications cut the stream of samples into consecutive nonempty windows: none is lost,
      repeated or reordered. */
  lemma {:induction false} WindowsPartition(ps: seq<Position>, dues: seq<bool>)
    requires |dues| == |ps|
    ensures Partition(ObserveAll(NOTHING, ps, dues), ps)
  {
    if ps != [] {
      var n := |ps| - 1;
      WindowsPartition(ps[..n], dues[..n]);
      PartitionStep(ObserveAll(NOTHING, ps[..n], dues[..n]), ps[..n], ps[n], dues[n]);
      assert ps == ps[..n] + [ps[n]];
    }
  }

  // ----- Statuses -----

  /** A sequence with immediate repeats removed. */
  function Dedup(xs: seq<Status>): (out: seq<Status>) {
    if |xs| <= 1 then xs
    else
      var n := |xs| - 1;
      if xs[n] == xs[n - 1] then Dedup(xs[..n]) else Dedup(xs[..n]) + [xs[n]]
  }

  function Statuses(ps: seq<Position>): (out: seq<Status>)
    ensures |out| == |ps|
  {
    if ps == [] then [] else Statuses(ps[..|ps| - 1]) + [ps[|ps| - 1].status]
  }

  /** The status of the payload that stands for a window, its last sample's. */
  function PublishedStatuses(ws: seq<seq<Position>>): (out: seq<Status>)
    ensures |out| == |ws|
  {
    if ws == [] then [] else
      var w := ws[|ws| - 1];
      PublishedStatuses(ws[..|ws| - 1]) + [if w == [] then Unset else w[|w| - 1].status]
  }

  lemma {:induction false} PublishedAppend(ws: seq<seq<Position>>, w: seq<Position>, p: Position)
    ensures PublishedStatuses(ws + [w + [p]]) == PublishedStatuses(ws) + [p.status]
  {
    assert (ws + [w + [p]])[..|ws|] == ws;
  }

  lemma {:induction false} DedupAppend(xs: seq<Status>, x: Status)
    ensures Dedup(xs + [x]) == if xs != [] && xs[|xs| - 1] == x then Dedup(xs) else Dedup(xs) + [x]
  {
    assert (xs + [x])[..|xs|] == xs;
  }

  /** One more status consumed, and published unless it repeats the last. */
  lemma {:induction false} DedupStep(published: seq<Status>, consumed: seq<Status>, x: Status, publish: bool)
    requires Dedup(published) == Dedup(consumed)
    requires published == [] <==> consumed == []
    requires consumed != [] ==> published[|published| - 1] == consumed[|consumed| - 1]
    requires publish || (consumed != [] && consumed[|consumed| - 1] == x)
    ensures Dedup(if publish then published + [x] else published) == Dedup(consumed + [x])
  {
    DedupAppend(consumed, x);
    DedupAppend(published, x);
  }

  /** The last status kept is the latest one consumed and the latest one published, and with
      repeats removed the published statuses are the consumed ones. */
  ghost predicate Faithful(last: Status, published: seq<Status>, consumed: seq<Status>) {
    && (published == [] <==> consumed == [])
    && (if consumed == [] then last == Unset
        else last == consumed[|consumed| - 1] == published[|published| - 1])
    && Dedup(published) == Dedup(consumed)
  }

  lemma {:induction false} FaithfulStep(last: Status, published: seq<Status>, consumed: seq<Status>, x: Status, due: bool)
    requires Faithful(last, published, consumed) && x != Unset
    ensures Faithful(x, if due || last != x then published + [x] else published, consumed + [x])
  {
    DedupStep(published, consumed, x, due || last != x);
  }

  /** So no change of status goes unpublished, whatever the publish timing and however many
      routes the samples come from. */
  lemma {:induction false} StatusesFaithful(ps: seq<Position>, dues: seq<bool>)
    requires |dues| == |ps| && forall i | 0 <= i < |ps| :: ps[i].status != Unset
    ensures var l := ObserveAll(NOTHING, ps, dues);
      Faithful(l.lastStatus, PublishedStatuses(l.windows), Statuses(ps))
  {
    if ps != [] {
      var n := |ps| - 1;
      StatusesFaithful(ps[..n], dues[..n]);
      var l := ObserveAll(NOTHING, ps[..n], dues[..n]);
      FaithfulStep(l.lastStatus, PublishedStatuses(l.windows), Statuses(ps[..n]), ps[n].status, dues[n]);
      PublishedAppend(l.windows, l.pending, ps[n]);
    }
  }

  // ----- Conservation -----

  function PublishedDistance(qs: seq<Payload>): real {
    if qs == [] then 0.0 else PublishedDistance(qs[..|qs| - 1]) + qs[|qs| - 1].deltaDistance
  }

  lemma {:induction false} DistanceOfWindows(qs: seq<Payload>, ws: seq<seq<Position>>)
    requires Represents(qs, ws)
    ensures PublishedDistance(qs) == SumDistance(Flatten(ws))
  {
    if qs != [] {
      var n := |qs| - 1;
      DistanceOfWindows(qs[..n], ws[..n]);
      SumConcat(Flatten(ws[..n]), ws[n]);
    }
  }

  function StatsIn(q: Payload, g: Gauge): StatVars.Stats {
    match g
    case Speed => q.speedStats
    case Consumption => q.consumptionStats
  }

  /** What the statistics of one window say about the sum of its readings, given its first. */
  function RebuiltSum(s: StatVars.Stats, first: real): real {
    s.count as real * s.avg + first
  }

  function Rebuilt(qs: seq<Payload>, ws: seq<seq<Position>>, g: Gauge): real
    requires Represents(qs, ws)
  {
    if qs == [] then 0.0 else
      var n := |qs| - 1;
      Rebuilt(qs[..n], ws[..n], g) + RebuiltSum(StatsIn(qs[n], g), Reading(ws[n][0], g))
  }

  lemma {:induction false} StatsOfWindow(w: seq<Position>, g: Gauge)
    requires w != []
    ensures StatsIn(PayloadOf(w), g) == StatVars.StatsOf(Readings(w, g)) && Readings(w, g)[0] == Reading(w[0], g)
  {
  }

  lemma {:induction false} SumIsRebuilt(xs: seq<real>)
    requires xs != []
    ensures RebuiltSum(StatVars.StatsOf(xs), xs[0]) == StatVars.Sum(xs)
  {
    StatVars.StatsExactly(xs);
  }

  lemma {:induction false} WindowRebuilt(w: seq<Position>, g: Gauge)
    requires w != []
    ensures RebuiltSum(StatsIn(PayloadOf(w), g), Reading(w[0], g)) == StatVars.Sum(Readings(w, g))
  {
    StatsOfWindow(w, g);
    SumIsRebuilt(Readings(w, g));
  }

  lemma {:induction false} ReadingsConcat(ps: seq<Position>, qs: seq<Position>, g: Gauge)
    ensures StatVars.Sum(Readings(ps + qs, g)) == StatVars.Sum(Readings(ps, g)) + StatVars.Sum(Readings(qs, g))
  {
    assert Readings(ps + qs, g) == Readings(ps, g) + Readings(qs, g);
    StatVars.SumConcat(Readings(ps, g), Readings(qs, g));
  }

  lemma {:induction false} ReadingsOfWindows(qs: seq<Payload>, ws: seq<seq<Position>>, g: Gauge)
    requires Represents(qs, ws)
    ensures Rebuilt(qs, ws, g) == StatVars.Sum(Readings(Flatten(ws), g))
  {
    if qs == [] {
      assert Readings(Flatten(ws), g) == [];
    } else {
      var n := |qs| - 1;
      ReadingsOfWindows(qs[..n], ws[..n], g);
      var sum := RebuiltSum(StatsIn(qs[n], g), Reading(ws[n][0], g));
      assert sum == StatVars.Sum(Readings(ws[n], g)) by { WindowRebuilt(ws[n], g); }
      ReadingsConcat(Flatten(ws[..n]), ws[n], g);
    }
  }

  /** At every moment the distances published and the pending accumulator add up to what was
      consumed; and the sums of all speeds and of all consumptions are rebuilt from the published
      statistics, the first sample of each window, and the samples still pending. */
  lemma {:induction false} Conserved(ps: seq<Position>, dues: seq<bool>, qs: seq<Payload>)
    requires |dues| == |ps| && Represents(qs, ObserveAll(NOTHING, ps, dues).windows)
    ensures
      var l := ObserveAll(NOTHING, ps, dues);
      && PublishedDistance(qs) + SumDistance(l.pending) == SumDistance(ps)
      && forall g :: Rebuilt(qs, l.windows, g) + StatVars.Sum(Readings(l.pending, g)) == StatVars.Sum(Readings(ps, g))
  {
    var l := ObserveAll(NOTHING, ps, dues);
    WindowsPartition(ps, dues);
    var published := Flatten(l.windows);
    DistanceOfWindows(qs, l.windows);
    SumConcat(published, l.pending);
    forall g ensures Rebuilt(qs, l.windows, g) + StatVars.Sum(Readings(l.pending, g)) == StatVars.Sum(Readings(ps, g)) {
      ReadingsOfWindows(qs, l.windows, g);
      ReadingsConcat(published, l.pending, g);
    }
  }

  /** The drives of successive routes, one after the other. */
  function Drives(sims: seq<Simulator>): (ps: seq<Position>)
    requires forall i | 0 <= i < |sims| :: Valid(sims[i])
  {
    if sims == [] then [] else Drives(sims[..|sims| - 1]) + Drive(sims[|sims| - 1])
  }

  lemma {:induction false} ObserveConcat(l: Log, ps: seq<Position>, qs: seq<Position>, dp: seq<bool>, dq: seq<bool>)
    requires |dp| == |ps| && |dq| == |qs|
    ensures ObserveAll(l, ps + qs, dp + dq) == ObserveAll(ObserveAll(l, ps, dp), qs, dq)
  {
    if qs == [] {
      assert ps + qs == ps && dp + dq == dp;
    } else {
      var n := |qs| - 1;
      assert (ps + qs)[..|ps + qs| - 1] == ps + qs[..n] && (dp + dq)[..|dp + dq| - 1] == dp + dq[..n];
      ObserveConcat(l, ps, qs[..n], dp, dq[..n]);
    }
  }

  /** Empty, or ending in its one ARRIVED, which carries no distance. */
  predicate Closed(d: seq<Position>) {
    && (forall i | 0 <= i < |d| :: d[i].status == Arrived <==> i == |d| - 1)
    && (d != [] ==> d[|d| - 1].distance == 0.0)
  }

  lemma {:induction false} DriveIsClosed(sim: Simulator)
    requires Valid(sim)
    ensures Closed(Drive(sim))
  {
    EveryDrive(sim);
  }

  /** When a route ends nothing is owed: the pending distance is 0 after every sequence of whole
      drives, so what they published adds up to what they simulated. */
  lemma {:induction false} NothingPendingAtRouteEnd(sims: seq<Simulator>, dues: seq<bool>)
    requires forall i | 0 <= i < |sims| :: Valid(sims[i])
    requires |dues| == |Drives(sims)|
    ensures SumDistance(ObserveAll(NOTHING, Drives(sims), dues).pending) == 0.0
  {
    if sims != [] {
      var k := |sims| - 1;
      var before, d := Drives(sims[..k]), Drive(sims[k]);
      NothingPendingAtRouteEnd(sims[..k], dues[..|before|]);
      DriveIsClosed(sims[k]);
      OneMoreDrive(before, d, dues);
    }
  }

  lemma {:induction false} OneMoreDrive(before: seq<Position>, d: seq<Position>, dues: seq<bool>)
    requires |dues| == |before| + |d| && Closed(d)
    requires SumDistance(ObserveAll(NOTHING, before, dues[..|before|]).pending) == 0.0
    ensures SumDistance(ObserveAll(NOTHING, before + d, dues).pending) == 0.0
  {
    var dp, dq := dues[..|before|], dues[|before|..];
    assert dues == dp + dq;
    ObserveConcat(NOTHING, before, d, dp, dq);
    DriveClearsPending(ObserveAll(NOTHING, before, dp), d, dq);
  }

  lemma {:induction false} DriveClearsPending(l: Log, d: seq<Position>, dues: seq<bool>)
    requires |dues| == |d| && SumDistance(l.pending) == 0.0 && Closed(d)
    ensures SumDistance(ObserveAll(l, d, dues).pending) == 0.0
  {
    if d != [] {
      var n := |d| - 1;
      var before := ObserveAll(l, d[..n], dues[..n]);
      if n == 0 {
        SumConcat(l.pending, [d[0]]);
        SumOfEqual([d[0]], 0.0);
      } else {
        LastStatusSeen(l, d[..n], dues[..n]);
        assert before.lastStatus == d[n - 1].status != Arrived;
      }
    }
  }

  lemma {:induction false} LastStatusSeen(l: Log, ps: seq<Position>, dues: seq<bool>)
    requires |dues| == |ps| > 0
    ensures ObserveAll(l, ps, dues).lastStatus == ps[|ps| - 1].status
  {
  }

  /** Over whole routes, then: the distance published is the sum of the samples' distances. */
  lemma {:induction false} RoutesConserved(sims: seq<Simulator>, dues: seq<bool>, qs: seq<Payload>)
    requires forall i | 0 <= i < |sims| :: Valid(sims[i])
    requires |dues| == |Drives(sims)| && Represents(qs, ObserveAll(NOTHING, Drives(sims), dues).windows)
    ensures PublishedDistance(qs) == SumDistance(Drives(sims))
  {
    Conserved(Drives(sims), dues, qs);
    NothingPendingAtRouteEnd(sims, dues);
  }

  lemma {:induction false} DrivesHaveStatuses(sims: seq<Simulator>)
    requires forall i | 0 <= i < |sims| :: Valid(sims[i])
    ensures forall i | 0 <= i < |Drives(sims)| :: Drives(sims)[i].status != Unset
  {
    if sims != [] {
      DrivesHaveStatuses(sims[..|sims| - 1]);
      EveryDrive(sims[|sims| - 1]);
    }
  }

  /** Over any routes: with repeats removed, the statuses published are the statuses simulated. */
  lemma {:induction false} RoutesFaithful(sims: seq<Simulator>, dues: seq<bool>)
    requires forall i | 0 <= i < |sims| :: Valid(sims[i])
    requires |dues| == |Drives(sims)|
    ensures Dedup(PublishedStatuses(ObserveAll(NOTHING, Drives(sims), dues).windows)) == Dedup(Statuses(Drives(sims)))
  {
    DrivesHaveStatuses(sims);
    StatusesFaithful(Drives(sims), dues);
  }
}
