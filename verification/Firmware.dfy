/** tracky/src/firmware.go: the loop that consumes a drive and publishes from it. */
module Firmware {
  import opened Driving
  import opened DriveFacts
  import opened StatVars

  /** What is enqueued, but for the clock, the device's names and the random sensors. */
  datatype Payload = Payload(
    at: Coordinate, speed: real, speedLimit: real, status: Status, start: Coordinate, end: Coordinate,
    consumption: real, speedStats: Stats, consumptionStats: Stats, deltaDistance: real)

  /** The two quantities that are averaged. */
  datatype Gauge = Speed | Consumption

  function Reading(p: Position, g: Gauge): real {
    match g
    case Speed => p.speed
    case Consumption => p.consumption
  }

  function Readings(ps: seq<Position>, g: Gauge): (out: seq<real>)
    ensures |out| == |ps| && forall i | 0 <= i < |ps| :: out[i] == Reading(ps[i], g)
  {
    seq(|ps|, i requires 0 <= i < |ps| => Reading(ps[i], g))
  }

  /** The payload that stands for a window of samples: the last sample, with statistics and
      distance over all of them. */
  function PayloadOf(w: seq<Position>): Payload
    requires w != []
  {
    var p := w[|w| - 1];
    Payload(p.at, p.speed, p.speedLimit, p.status, p.start, p.end, p.consumption,
            StatsOf(Readings(w, Speed)), StatsOf(Readings(w, Consumption)), SumDistance(w))
  }

  /** The loop without its accumulators: windows published so far, samples since the last. */
  datatype Log = Log(windows: seq<seq<Position>>, pending: seq<Position>, lastStatus: Status)

  const NOTHING := Log([], [], Unset)

  /** One position; `due` says the publish period has elapsed. */
  function Observe(l: Log, p: Position, due: bool): Log {
    if due || l.lastStatus != p.status then Log(l.windows + [l.pending + [p]], [], p.status)
    else l.(pending := l.pending + [p])
  }

  function ObserveAll(l: Log, ps: seq<Position>, dues: seq<bool>): Log
    requires |dues| == |ps|
  {
    if ps == [] then l else
      var n := |ps| - 1;
      Observe(ObserveAll(l, ps[..n], dues[..n]), ps[n], dues[n])
  }

  /** The variables of Loop that outlive a position, and the queue it feeds. */
  class Loop {
    var deltaDistance: real
    var lastStatus: Status
    const speedVar: StatVar
    const consumptionVar: StatVar
    var enqueued: seq<Payload>
    ghost var log: Log

    /** The accumulators hold exactly what the windows say they should. */
    ghost predicate Valid()
      reads this, speedVar, consumptionVar
    {
      && speedVar != consumptionVar && speedVar.Valid() && consumptionVar.Valid()
      && lastStatus == log.lastStatus
      && deltaDistance == SumDistance(log.pending)
      && speedVar.samples == Readings(log.pending, Speed) && consumptionVar.samples == Readings(log.pending, Consumption)
      && Represents(enqueued, log.windows)
    }

    constructor ()
      ensures Valid() && fresh(speedVar) && fresh(consumptionVar) && log == NOTHING
    {
      speedVar := new StatVar();
      consumptionVar := new StatVar();
      deltaDistance, lastStatus, enqueued, log := 0.0, Unset, [], NOTHING;
    }

    /** The body of the loop over positions. */
    method Consume(position: Position, due: bool)
      requires Valid()
      modifies this, speedVar, consumptionVar
      ensures Valid() && log == Observe(old(log), position, due)
    {
      ghost var w := log.pending + [position];
      WindowGrows(log.pending, position);
      log := Observe(log, position, due);

      deltaDistance := deltaDistance + position.distance;
      speedVar.Add(position.speed);
      consumptionVar.Add(position.consumption);
      if due || lastStatus != position.status {
        lastStatus := position.status;
        var speedStats := speedVar.Get();
        var consumptionStats := consumptionVar.Get();
        var payload := Payload(position.at, position.speed, position.speedLimit, position.status,
          position.start, position.end, position.consumption, speedStats, consumptionStats, deltaDistance);
        assert payload == PayloadOf(w);
        enqueued := enqueued + [payload];
        deltaDistance := 0.0;
      }
    }

    /** The loop over one drive's channel. */
    method ConsumeRoute(positions: seq<Position>, due: seq<bool>)
      requires Valid() && |due| == |positions|
      modifies this, speedVar, consumptionVar
      ensures Valid() && log == ObserveAll(old(log), positions, due)
    {
      for i := 0 to |positions|
        invariant Valid() && log == ObserveAll(old(log), positions[..i], due[..i])
      {
        assert positions[..i + 1][..i] == positions[..i] && due[..i + 1][..i] == due[..i];
        Consume(positions[i], due[i]);
      }
      assert positions[..|positions|] == positions && due[..|due|] == due;
    }
  }

  ghost predicate Represents(qs: seq<Payload>, ws: seq<seq<Position>>) {
    |qs| == |ws| && forall i | 0 <= i < |qs| :: ws[i] != [] && qs[i] == PayloadOf(ws[i])
  }

  lemma {:induction false} WindowGrows(ps: seq<Position>, p: Position)
    ensures forall g :: Readings(ps + [p], g) == Readings(ps, g) + [Reading(p, g)]
    ensures SumDistance(ps + [p]) == SumDistance(ps) + p.distance
  {
    assert (ps + [p])[..|ps|] == ps;
  }
}
