/** tracky/src/trackeroo/driving.go: the simulated drive, with reals for floats. Distances,
    consumption and random draws are parameters of the simulator. */
module Driving {

  datatype Status = Unset | Arrived | Driving | Stopped | Slowing | Accelerating

  datatype Coordinate = Coordinate(lat: real, lng: real)

  datatype Segment = Segment(coords: seq<Coordinate>, speedKmh: real, shouldStop: bool)

  datatype Position = Position(
    at: Coordinate, speed: real, speedLimit: real, status: Status,
    start: Coordinate, end: Coordinate, consumption: real, distance: real)

  const SPEED_VARIATION := 0.03
  const TOLERANCE := 0.05
  const PIRATE_FACTOR := 1.40
  const NANOS_PER_HOUR := 3600000000000.0
  const NANOS_PER_MILLI := 1000000

  /** `draw(k)` is the k-th value of rand.Float64, `haversine` the distance between points. */
  datatype Simulator = Simulator(
    route: seq<Segment>, avgSpeed: real, isPirate: bool, updateMillis: int,
    haversine: (Coordinate, Coordinate) -> real, consume: real -> real, draw: nat -> real)

  ghost predicate Valid(sim: Simulator) {
    && sim.avgSpeed > 0.0
    && sim.updateMillis > 0
    && (forall a, b :: sim.haversine(a, b) >= 0.0)
    && (forall k :: 0.0 <= sim.draw(k) < 1.0)
    // SimulateDrive indexes the route's first and last coordinate.
    && |sim.route| > 0 && |sim.route[0].coords| > 0 && |sim.route[|sim.route| - 1].coords| > 0
  }

  /** The variables that live across coordinate pairs, and how many draws have been made. */
  datatype Motor = Motor(lastSpeed: real, stopCompensation: int, speedLimit: real, draws: nat)

  const AT_START := Motor(0.0, 1, 0.0, 0)

  datatype Leg = Leg(samples: seq<Position>, motor: Motor)

  function Pairs(seg: Segment): nat {
    if |seg.coords| == 0 then 0 else |seg.coords| - 1
  }

  function Interpolate(a: Coordinate, b: Coordinate, progress: real): Coordinate {
    Coordinate(a.lat + (b.lat - a.lat) * progress, a.lng + (b.lng - a.lng) * progress)
  }

  function RouteStart(sim: Simulator): Coordinate
    requires Valid(sim)
  {
    sim.route[0].coords[0]
  }

  function RouteEnd(sim: Simulator): Coordinate
    requires Valid(sim)
  {
    var last := sim.route[|sim.route| - 1];
    last.coords[|last.coords| - 1]
  }

  /** A sample at rest: STOPPED at a junction, ARRIVED at the end. */
  function Rest(sim: Simulator, at: Coordinate, limit: real, status: Status): Position
    requires Valid(sim)
  {
    Position(at, 0.0, limit, status, RouteStart(sim), RouteEnd(sim), 0.0, 0.0)
  }

  function SegmentSpeed(sim: Simulator, seg: Segment): (v: real)
    requires Valid(sim)
    ensures v > 0.0
  {
    if seg.speedKmh > 0.0 then seg.speedKmh else sim.avgSpeed
  }

  function LimitAfter(speed: real, stopCompensation: int): real {
    if stopCompensation > 1 then speed / stopCompensation as real else speed
  }

  function Jitter(draw: real): real {
    1.0 + (draw - 0.5) * 2.0 * SPEED_VARIATION
  }

  function DrawnSpeed(limit: real, draw: real, isPirate: bool): real {
    if isPirate then limit * Jitter(draw) * PIRATE_FACTOR else limit * Jitter(draw)
  }

  function StatusOf(lastSpeed: real, speed: real): Status {
    var difference := if speed < lastSpeed then lastSpeed - speed else speed - lastSpeed;
    if difference > speed * TOLERANCE then (if lastSpeed < speed then Accelerating else Slowing) else Driving
  }

  function Compensation(s: Status): real {
    match s
    case Accelerating => 1.3
    case Slowing => 0.5
    case _ => 1.0
  }

  /** max(int(duration / interval), 1), both truncated to whole nanoseconds. */
  function Steps(sim: Simulator, distance: real, speed: real): (n: nat)
    requires Valid(sim) && speed > 0.0 && distance >= 0.0
    ensures n >= 1
  {
    var nanos := (distance / speed * NANOS_PER_HOUR).Floor;
    var n := nanos / (sim.updateMillis * NANOS_PER_MILLI);
    if n > 1 then n else 1
  }

  /** What one coordinate pair sees once a stop, if any, is over. */
  function BeforePair(seg: Segment, i: nat, m: Motor): Motor {
    if i == 0 && seg.shouldStop then m.(stopCompensation := 3, lastSpeed := 0.0, draws := m.draws + 1) else m
  }

  function PairLimit(sim: Simulator, seg: Segment, i: nat, m: Motor): (limit: real)
    requires Valid(sim)
    ensures 0.0 < limit <= SegmentSpeed(sim, seg)
  {
    var c := BeforePair(seg, i, m).stopCompensation;
    var v := SegmentSpeed(sim, seg);
    assert 0.0 < LimitAfter(v, c) <= v by { if c > 1 { DivideByAtLeastOne(v, c as real); } }
    LimitAfter(v, c)
  }

  lemma {:induction false} DivideByAtLeastOne(v: real, c: real)
    requires v > 0.0 && c >= 1.0
    ensures 0.0 < v / c <= v
  {
    var q := v / c;
    assert q * c == v;
    if q <= 0.0 {
      assert false;
    }
    assert q * (c - 1.0) >= 0.0;
  }

  function PairSpeed(sim: Simulator, seg: Segment, i: nat, m: Motor): (speed: real)
    requires Valid(sim)
    ensures speed > 0.0
  {
    var limit := PairLimit(sim, seg, i, m);
    var r := sim.draw(BeforePair(seg, i, m).draws);
    assert 0.97 <= Jitter(r) < 1.03;
    assert limit * Jitter(r) > 0.0;
    DrawnSpeed(limit, r, sim.isPirate)
  }

  /** The slowest and the fastest the jitter makes a vehicle, relative to its limit. */
  function LowEdge(limit: real, isPirate: bool): real {
    if isPirate then limit * 1.358 else limit * 0.97
  }

  function HighEdge(limit: real, isPirate: bool): real {
    if isPirate then limit * 1.442 else limit * 1.03
  }

  predicate SpeedBand(speed: real, limit: real, isPirate: bool) {
    LowEdge(limit, isPirate) <= speed < HighEdge(limit, isPirate)
  }

  lemma {:induction false} PlainBand(limit: real, v: real)
    requires limit > 0.0 && 0.97 <= v < 1.03
    ensures SpeedBand(limit * v, limit, false)
  {
    var above, below := v - 0.97, 1.03 - v;
    assert limit * above >= 0.0 && limit * below > 0.0;
    assert limit * v == limit * above + limit * 0.97;
    assert limit * v == limit * 1.03 - limit * below;
  }

  lemma {:induction false} PirateBand(limit: real, plain: real)
    requires SpeedBand(plain, limit, false)
    ensures SpeedBand(plain * PIRATE_FACTOR, limit, true)
  {
    assert LowEdge(limit, true) == LowEdge(limit, false) * PIRATE_FACTOR;
    assert HighEdge(limit, true) == HighEdge(limit, false) * PIRATE_FACTOR;
  }

  lemma {:induction false} JitterBand(limit: real, v: real, isPirate: bool)
    requires limit > 0.0 && 0.97 <= v < 1.03
    ensures SpeedBand(if isPirate then limit * v * PIRATE_FACTOR else limit * v, limit, isPirate)
  {
    PlainBand(limit, v);
    if isPirate { PirateBand(limit, limit * v); }
  }

  lemma {:induction false} PairSpeedBand(sim: Simulator, seg: Segment, i: nat, m: Motor)
    requires Valid(sim)
    ensures SpeedBand(PairSpeed(sim, seg, i, m), PairLimit(sim, seg, i, m), sim.isPirate)
  {
    JitterBand(PairLimit(sim, seg, i, m), Jitter(sim.draw(BeforePair(seg, i, m).draws)), sim.isPirate);
  }

  function PairLeg(sim: Simulator, seg: Segment, i: nat, m: Motor): Leg
    requires Valid(sim) && i < Pairs(seg)
  {
    var (a, b) := (seg.coords[i], seg.coords[i + 1]);
    var m1 := BeforePair(seg, i, m);
    var limit := PairLimit(sim, seg, i, m);
    var speed := PairSpeed(sim, seg, i, m);
    var stop := if i == 0 && seg.shouldStop then [Rest(sim, a, m.speedLimit, Stopped)] else [];
    Leg(stop + Moving(sim, a, b, limit, speed, StatusOf(m1.lastSpeed, speed)),
        Motor(speed, if m1.stopCompensation > 1 then m1.stopCompensation - 1 else m1.stopCompensation,
              limit, m1.draws + 1))
  }

  function Sample(sim: Simulator, a: Coordinate, b: Coordinate, limit: real, speed: real, status: Status,
                  step: nat, steps: nat): Position
    requires Valid(sim) && steps > 0
  {
    Position(Interpolate(a, b, step as real / steps as real), speed, limit, status,
             RouteStart(sim), RouteEnd(sim), sim.consume(speed) * Compensation(status), sim.haversine(a, b))
  }

  /** steps + 1 samples along a pair, each carrying the pair's whole distance. */
  function Moving(sim: Simulator, a: Coordinate, b: Coordinate, limit: real, speed: real, status: Status)
    : (out: seq<Position>)
    requires Valid(sim) && speed > 0.0
    ensures |out| == Steps(sim, sim.haversine(a, b), speed) + 1
    ensures forall k | 0 <= k < |out| ::
      out[k].speed == speed && out[k].speedLimit == limit && out[k].status == status
      && out[k].distance == sim.haversine(a, b)
  {
    var n := Steps(sim, sim.haversine(a, b), speed);
    seq(n + 1, k requires 0 <= k < n + 1 => Sample(sim, a, b, limit, speed, status, k, n))
  }

  /** The first `i` pairs of a segment entered with `m`. */
  function SegmentUpTo(sim: Simulator, seg: Segment, i: nat, m: Motor): Leg
    requires Valid(sim) && i <= Pairs(seg)
  {
    if i == 0 then Leg([], m) else
      var before := SegmentUpTo(sim, seg, i - 1, m);
      var pair := PairLeg(sim, seg, i - 1, before.motor);
      Leg(before.samples + pair.samples, pair.motor)
  }

  function WholeSegment(sim: Simulator, seg: Segment, m: Motor): Leg
    requires Valid(sim)
  {
    SegmentUpTo(sim, seg, Pairs(seg), m)
  }

  /** The first `k` segments of the route. */
  function RouteUpTo(sim: Simulator, k: nat): Leg
    requires Valid(sim) && k <= |sim.route|
  {
    if k == 0 then Leg([], AT_START) else
      var before := RouteUpTo(sim, k - 1);
      var seg := WholeSegment(sim, sim.route[k - 1], before.motor);
      Leg(before.samples + seg.samples, seg.motor)
  }

  /** Everything sent on the channel before it is closed. */
  function Drive(sim: Simulator): seq<Position>
    requires Valid(sim)
  {
    if |sim.route| < 2 then [] else
      var all := RouteUpTo(sim, |sim.route|);
      all.samples + [Rest(sim, RouteEnd(sim), all.motor.speedLimit, Arrived)]
  }

  /** The loop over the steps of one pair. */
  method DriveSteps(sim: Simulator, a: Coordinate, b: Coordinate, limit: real, speed: real, status: Status, steps: nat)
    returns (sent: seq<Position>)
    requires Valid(sim) && speed > 0.0 && steps == Steps(sim, sim.haversine(a, b), speed)
    ensures sent == Moving(sim, a, b, limit, speed, status)
  {
    sent := [];
    ghost var moving := Moving(sim, a, b, limit, speed, status);
    for step := 0 to steps + 1
      invariant sent == moving[..step]
    {
      sent := sent + [Sample(sim, a, b, limit, speed, status, step, steps)];
    }
  }

  /** The limit and the jittered speed of a pair. */
  method DrawSpeed(sim: Simulator, seg: Segment, ghost i: nat, ghost m: Motor, stopCompensation: int, draw: nat)
    returns (speedLimit: real, currentSpeed: real)
    requires Valid(sim)
    requires stopCompensation == BeforePair(seg, i, m).stopCompensation && draw == BeforePair(seg, i, m).draws
    ensures speedLimit == PairLimit(sim, seg, i, m) && currentSpeed == PairSpeed(sim, seg, i, m)
    ensures 0.0 < speedLimit <= SegmentSpeed(sim, seg) && SpeedBand(currentSpeed, speedLimit, sim.isPirate)
  {
    PairSpeedBand(sim, seg, i, m);
    var baseSpeed := sim.avgSpeed;
    if seg.speedKmh > 0.0 {
      baseSpeed := seg.speedKmh;
    }
    if stopCompensation > 1 {
      baseSpeed := baseSpeed / stopCompensation as real;
    }
    speedLimit := baseSpeed;
    currentSpeed := baseSpeed * Jitter(sim.draw(draw));
    if sim.isPirate {
      currentSpeed := currentSpeed * PIRATE_FACTOR;
    }
  }

  /** The body of the loop over coordinate pairs. */
  method DrivePair(sim: Simulator, seg: Segment, i: nat, m: Motor) returns (sent: seq<Position>, n: Motor)
    requires Valid(sim) && i < Pairs(seg)
    ensures Leg(sent, n) == PairLeg(sim, seg, i, m)
  {
    var lastSpeed, stopCompensation, speedLimit, draws := m.lastSpeed, m.stopCompensation, m.speedLimit, m.draws;
    sent := [];
    var currentPos, nextPos := seg.coords[i], seg.coords[i + 1];
    var distance := sim.haversine(currentPos, nextPos);
    if i == 0 && seg.shouldStop {
      sent := sent + [Rest(sim, currentPos, speedLimit, Stopped)];
      draws := draws + 1;
      stopCompensation := 3;
      lastSpeed := 0.0;
    }
    var currentSpeed;
    speedLimit, currentSpeed := DrawSpeed(sim, seg, i, m, stopCompensation, draws);
    if stopCompensation > 1 {
      stopCompensation := stopCompensation - 1;
    }
    draws := draws + 1;
    var steps := Steps(sim, distance, currentSpeed);
    var status := StatusOf(lastSpeed, currentSpeed);
    lastSpeed := currentSpeed;
    var moving := DriveSteps(sim, currentPos, nextPos, speedLimit, currentSpeed, status, steps);
    sent := sent + moving;
    n := Motor(lastSpeed, stopCompensation, speedLimit, draws);
  }

  /** The loop over the pairs of one segment. */
  method DriveSegment(sim: Simulator, seg: Segment, m: Motor) returns (sent: seq<Position>, n: Motor)
    requires Valid(sim)
    ensures Leg(sent, n) == WholeSegment(sim, seg, m)
  {
    sent, n := [], m;
    for i := 0 to Pairs(seg)
      invariant Leg(sent, n) == SegmentUpTo(sim, seg, i, m)
    {
      var samples, next := DrivePair(sim, seg, i, n);
      sent, n := sent + samples, next;
    }
  }

  /** The goroutine of SimulateDrive, its channel as the sequence sent. */
  method SimulateDrive(sim: Simulator) returns (sent: seq<Position>)
    requires Valid(sim)
    ensures sent == Drive(sim)
  {
    sent := [];
    if |sim.route| < 2 {
      return;
    }
    var motor := AT_START;
    for k := 0 to |sim.route|
      invariant Leg(sent, motor) == RouteUpTo(sim, k)
    {
      var samples, next := DriveSegment(sim, sim.route[k], motor);
      sent, motor := sent + samples, next;
    }
    sent := sent + [Rest(sim, RouteEnd(sim), motor.speedLimit, Arrived)];
  }
}
