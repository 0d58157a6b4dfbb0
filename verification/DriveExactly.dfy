/** Every sample of a drive, field by field, from the route, the draws and the sample before it. */
module DriveExactly {
  import opened Prelude
  import opened Driving
  import opened DriveFacts

  // ----- The reference: no state carried from pair to pair -----

  predicate StopsAt(sim: Simulator, j: nat, i: nat)
    requires j < |sim.route|
  {
    i == 0 && sim.route[j].shouldStop
  }

  /** How many pairs have been driven since the last stop, before pair `i` of segment `j`; none
      if there was no stop yet. */
  function SinceStop(sim: Simulator, j: nat, i: nat): Option<nat>
    requires j < |sim.route| && i <= Pairs(sim.route[j])
    decreases j, i
  {
    if i == 0 then
      if j == 0 then None else SinceStop(sim, j - 1, Pairs(sim.route[j - 1]))
    else if StopsAt(sim, j, i - 1) then Some(1)
    else
      match SinceStop(sim, j, i - 1)
      case None => None
      case Some(k) => Some(k + 1)
  }

  /** How many random numbers have been drawn before it: one a pair, and one a stop. */
  function DrawsBefore(sim: Simulator, j: nat, i: nat): nat
    requires j < |sim.route| && i <= Pairs(sim.route[j])
    decreases j, i
  {
    (if j == 0 then 0 else DrawsBefore(sim, j - 1, Pairs(sim.route[j - 1])))
    + i + (if i > 0 && sim.route[j].shouldStop then 1 else 0)
  }

  /** The segment's own speed if it has one, or the average; a third of it for the pair that leaves
      a stop, half of it for the next. */
  function LimitAt(sim: Simulator, j: nat, i: nat): real
    requires j < |sim.route| && i < Pairs(sim.route[j])
  {
    var base := if sim.route[j].speedKmh > 0.0 then sim.route[j].speedKmh else sim.avgSpeed;
    if StopsAt(sim, j, i) then base / 3.0
    else if SinceStop(sim, j, i) == Some(1) then base / 2.0
    else base
  }

  /** The limit with a jitter of 3% either way, and 40% on top of that for a pirate. */
  function SpeedAt(sim: Simulator, j: nat, i: nat): real
    requires j < |sim.route| && i < Pairs(sim.route[j])
  {
    var r := sim.draw(DrawsBefore(sim, j, i) + (if StopsAt(sim, j, i) then 1 else 0));
    var plain := LimitAt(sim, j, i) * (1.0 + (r - 0.5) * 2.0 * 0.03);
    if sim.isPirate then plain * 1.4 else plain
  }

  /** Faster or slower than before by more than 5% of the new speed, or neither. */
  predicate StatusFits(status: Status, before: real, speed: real) {
    && (status == Accelerating <==> speed - before > 0.05 * speed)
    && (status == Slowing <==> before - speed > 0.05 * speed)
    && (status == Status.Driving <==> speed - before <= 0.05 * speed && before - speed <= 0.05 * speed)
  }

  predicate OnRoute(sim: Simulator, p: Position)
    requires Valid(sim)
  {
    var last := sim.route[|sim.route| - 1].coords;
    p.start == sim.route[0].coords[0] && p.end == last[|last| - 1]
  }

  /** At rest at `at`, under the limit of the sample before. */
  predicate RestFits(sim: Simulator, p: Position, at: Coordinate, limit: real, status: Status)
    requires Valid(sim)
  {
    && p.at == at && p.speed == 0.0 && p.speedLimit == limit && p.status == status
    && p.consumption == 0.0 && p.distance == 0.0 && OnRoute(sim, p)
  }

  /** `progress` of the way from `a` to `b`. */
  predicate PlaceFits(at: Coordinate, a: Coordinate, b: Coordinate, progress: real) {
    at.lat == a.lat + (b.lat - a.lat) * progress && at.lng == a.lng + (b.lng - a.lng) * progress
  }

  predicate ConsumptionFits(p: Position, rate: real) {
    && (p.status == Accelerating ==> p.consumption == rate * 1.3)
    && (p.status == Slowing ==> p.consumption == rate * 0.5)
    && (p.status == Status.Driving ==> p.consumption == rate * 1.0)
  }

  predicate MoveFits(sim: Simulator, p: Position, j: nat, i: nat, before: real)
    requires Valid(sim) && j < |sim.route| && i < Pairs(sim.route[j])
  {
    && p.speedLimit == LimitAt(sim, j, i) && p.speed == SpeedAt(sim, j, i)
    && StatusFits(p.status, before, p.speed) && ConsumptionFits(p, sim.consume(p.speed))
    && p.distance == sim.haversine(sim.route[j].coords[i], sim.route[j].coords[i + 1])
    && OnRoute(sim, p)
  }

  /** The number of update intervals that fit the travel time, in whole nanoseconds; at least one. */
  predicate StepsFit(sim: Simulator, n: nat, distance: real, speed: real)
    requires speed != 0.0
  {
    var nanos := (distance / speed * 3600000000000.0).Floor;
    var interval := sim.updateMillis * 1000000;
    n >= 1 && (if nanos < interval then n == 1 else n * interval <= nanos < (n + 1) * interval)
  }

  /** The samples before position `o` of the drive end with this speed and this limit. */
  function SpeedBefore(d: seq<Position>, o: nat): real
    requires o <= |d|
  {
    if o == 0 then 0.0 else d[o - 1].speed
  }

  function LimitBefore(d: seq<Position>, o: nat): real
    requires o <= |d|
  {
    if o == 0 then 0.0 else d[o - 1].speedLimit
  }

  // ----- The simulator's own state is what the reference says -----

  function LegTo(sim: Simulator, j: nat, i: nat): Leg
    requires Valid(sim) && j < |sim.route| && i <= Pairs(sim.route[j])
  {
    var before := RouteUpTo(sim, j);
    var here := SegmentUpTo(sim, sim.route[j], i, before.motor);
    Leg(before.samples + here.samples, here.motor)
  }

  /** The compensation that is left so many pairs after a stop. */
  function CompensationLeft(since: Option<nat>): int {
    if since == Some(1) then 2 else 1
  }

  predicate MotorFits(m: Motor, samples: seq<Position>, since: Option<nat>, draws: nat) {
    && m.lastSpeed == SpeedBefore(samples, |samples|)
    && m.speedLimit == LimitBefore(samples, |samples|)
    && m.stopCompensation == CompensationLeft(since)
    && m.draws == draws
    && since != Some(0)
  }

  lemma {:induction false} MotorExactly(sim: Simulator, j: nat, i: nat)
    requires Valid(sim) && j < |sim.route| && i <= Pairs(sim.route[j])
    ensures MotorFits(LegTo(sim, j, i).motor, LegTo(sim, j, i).samples, SinceStop(sim, j, i), DrawsBefore(sim, j, i))
    decreases j, i
  {
    if i > 0 {
      MotorExactly(sim, j, i - 1);
      PairMovesMotor(sim, j, i - 1);
    } else if j > 0 {
      MotorExactly(sim, j - 1, Pairs(sim.route[j - 1]));
      SegmentStarts(sim, j);
    } else {
      assert LegTo(sim, 0, 0) == Leg([], AT_START);
    }
  }

  lemma {:induction false} SegmentStarts(sim: Simulator, j: nat)
    requires Valid(sim) && 0 < j < |sim.route|
    ensures LegTo(sim, j, 0) == LegTo(sim, j - 1, Pairs(sim.route[j - 1]))
    ensures LegTo(sim, j, 0) == RouteUpTo(sim, j)
    ensures DrawsBefore(sim, j, 0) == DrawsBefore(sim, j - 1, Pairs(sim.route[j - 1]))
  {
  }

  lemma {:induction false} LegGrows(sim: Simulator, j: nat, i: nat)
    requires Valid(sim) && j < |sim.route| && i < Pairs(sim.route[j])
    ensures
      var pair := PairLeg(sim, sim.route[j], i, LegTo(sim, j, i).motor);
      LegTo(sim, j, i + 1) == Leg(LegTo(sim, j, i).samples + pair.samples, pair.motor)
  {
  }

  lemma {:induction false} PairEnds(sim: Simulator, seg: Segment, i: nat, m: Motor)
    requires Valid(sim) && i < Pairs(seg)
    ensures
      var pair := PairLeg(sim, seg, i, m);
      && |pair.samples| > 0
      && pair.samples[|pair.samples| - 1].speed == pair.motor.lastSpeed
      && pair.samples[|pair.samples| - 1].speedLimit == pair.motor.speedLimit
  {
  }

  lemma {:induction false} PairMovesMotor(sim: Simulator, j: nat, i: nat)
    requires Valid(sim) && j < |sim.route| && i < Pairs(sim.route[j])
    requires MotorFits(LegTo(sim, j, i).motor, LegTo(sim, j, i).samples, SinceStop(sim, j, i), DrawsBefore(sim, j, i))
    ensures
      MotorFits(LegTo(sim, j, i + 1).motor, LegTo(sim, j, i + 1).samples, SinceStop(sim, j, i + 1),
                DrawsBefore(sim, j, i + 1))
  {
    LegGrows(sim, j, i);
    PairEnds(sim, sim.route[j], i, LegTo(sim, j, i).motor);
  }

  // ----- The drive -----

  /** Where pair `i` of segment `j` begins in the drive. */
  function Offset(sim: Simulator, j: nat, i: nat): nat
    requires Valid(sim) && j < |sim.route| && i <= Pairs(sim.route[j])
  {
    |LegTo(sim, j, i).samples|
  }

  /** The samples from `o` to `end` are pair `i` of segment `j`. */
  ghost predicate PairFits(sim: Simulator, d: seq<Position>, j: nat, i: nat, o: nat, end: nat)
    requires Valid(sim) && j < |sim.route| && i < Pairs(sim.route[j]) && o < end <= |d|
  {
    var (a, b) := (sim.route[j].coords[i], sim.route[j].coords[i + 1]);
    var first := if StopsAt(sim, j, i) then o + 1 else o;
    var before := if StopsAt(sim, j, i) then 0.0 else SpeedBefore(d, o);
    && (StopsAt(sim, j, i) ==> RestFits(sim, d[o], a, LimitBefore(d, o), Stopped))
    && first + 1 < end
    && SpeedAt(sim, j, i) > 0.0
    && StepsFit(sim, end - first - 1, sim.haversine(a, b), SpeedAt(sim, j, i))
    && (forall k | first <= k < end :: MoveFits(sim, d[k], j, i, before))
    && (forall k | first <= k < end ::
          PlaceFits(d[k].at, a, b, (k - first) as real / (end - first - 1) as real))
  }

  lemma {:induction false} LimitIsRight(sim: Simulator, j: nat, i: nat, m: Motor)
    requires Valid(sim) && j < |sim.route| && i < Pairs(sim.route[j])
    requires m.stopCompensation == CompensationLeft(SinceStop(sim, j, i))
    ensures PairLimit(sim, sim.route[j], i, m) == LimitAt(sim, j, i)
  {
  }

  lemma {:induction false} SpeedIsRight(sim: Simulator, j: nat, i: nat, m: Motor)
    requires Valid(sim) && j < |sim.route| && i < Pairs(sim.route[j])
    requires m.stopCompensation == CompensationLeft(SinceStop(sim, j, i)) && m.draws == DrawsBefore(sim, j, i)
    ensures PairSpeed(sim, sim.route[j], i, m) == SpeedAt(sim, j, i) > 0.0
  {
    LimitIsRight(sim, j, i, m);
  }

  lemma {:induction false} StatusIsRight(before: real, speed: real)
    requires speed > 0.0
    ensures StatusFits(StatusOf(before, speed), before, speed)
  {
  }

  /** One sample along the pair. */
  lemma {:induction false} SampleIsRight(sim: Simulator, j: nat, i: nat, before: real, k: nat, n: nat)
    requires Valid(sim) && j < |sim.route| && i < Pairs(sim.route[j]) && k <= n && n > 0
    requires SpeedAt(sim, j, i) > 0.0
    ensures
      var (a, b) := (sim.route[j].coords[i], sim.route[j].coords[i + 1]);
      var speed := SpeedAt(sim, j, i);
      var p := Sample(sim, a, b, LimitAt(sim, j, i), speed, StatusOf(before, speed), k, n);
      MoveFits(sim, p, j, i, before) && PlaceFits(p.at, a, b, k as real / n as real)
  {
    StatusIsRight(before, SpeedAt(sim, j, i));
  }

  /** What a pair sends, as long as the motor is as it should be. */
  lemma {:induction false} PairSends(sim: Simulator, j: nat, i: nat, m: Motor)
    requires Valid(sim) && j < |sim.route| && i < Pairs(sim.route[j])
    requires m.stopCompensation == CompensationLeft(SinceStop(sim, j, i)) && m.draws == DrawsBefore(sim, j, i)
    ensures SpeedAt(sim, j, i) > 0.0
    ensures
      var (a, b) := (sim.route[j].coords[i], sim.route[j].coords[i + 1]);
      var speed := SpeedAt(sim, j, i);
      var before := if StopsAt(sim, j, i) then 0.0 else m.lastSpeed;
      PairLeg(sim, sim.route[j], i, m).samples ==
        (if StopsAt(sim, j, i) then [Rest(sim, a, m.speedLimit, Stopped)] else [])
        + Moving(sim, a, b, LimitAt(sim, j, i), speed, StatusOf(before, speed))
  {
    LimitIsRight(sim, j, i, m);
    SpeedIsRight(sim, j, i, m);
  }

  lemma {:induction false} MovingIsRight(sim: Simulator, j: nat, i: nat, before: real)
    requires Valid(sim) && j < |sim.route| && i < Pairs(sim.route[j]) && SpeedAt(sim, j, i) > 0.0
    ensures
      var (a, b) := (sim.route[j].coords[i], sim.route[j].coords[i + 1]);
      var speed := SpeedAt(sim, j, i);
      var xs := Moving(sim, a, b, LimitAt(sim, j, i), speed, StatusOf(before, speed));
      && |xs| > 1 && StepsFit(sim, |xs| - 1, sim.haversine(a, b), speed)
      && (forall k | 0 <= k < |xs| :: MoveFits(sim, xs[k], j, i, before))
      && (forall k | 0 <= k < |xs| :: PlaceFits(xs[k].at, a, b, k as real / (|xs| - 1) as real))
  {
    var (a, b) := (sim.route[j].coords[i], sim.route[j].coords[i + 1]);
    var speed := SpeedAt(sim, j, i);
    var n := Steps(sim, sim.haversine(a, b), speed);
    StepsExactly(sim, sim.haversine(a, b), speed);
    forall k: nat | k <= n
      ensures
        var p := Sample(sim, a, b, LimitAt(sim, j, i), speed, StatusOf(before, speed), k, n);
        MoveFits(sim, p, j, i, before) && PlaceFits(p.at, a, b, k as real / n as real)
    {
      SampleIsRight(sim, j, i, before, k, n);
    }
  }

  lemma {:induction false} LegPrefix(sim: Simulator, j: nat, i: nat)
    requires Valid(sim) && j < |sim.route| && i <= Pairs(sim.route[j])
    ensures LegTo(sim, j, i).samples <= RouteUpTo(sim, |sim.route|).samples
  {
    var before := RouteUpTo(sim, j);
    SegmentPrefix(sim, sim.route[j], i, Pairs(sim.route[j]), before.motor);
    RoutePrefix(sim, j + 1, |sim.route|);
    assert LegTo(sim, j, i).samples <= RouteUpTo(sim, j + 1).samples;
  }

  lemma {:induction false} LegInDrive(sim: Simulator, j: nat, i: nat)
    requires Valid(sim) && |sim.route| >= 2 && j < |sim.route| && i <= Pairs(sim.route[j])
    ensures Offset(sim, j, i) < |Drive(sim)| && LegTo(sim, j, i).samples == Drive(sim)[..Offset(sim, j, i)]
  {
    LegPrefix(sim, j, i);
  }

  /** A pair's samples stand in the drive from its offset to the next pair's. */
  lemma {:induction false} PairInDrive(sim: Simulator, j: nat, i: nat)
    requires Valid(sim) && |sim.route| >= 2 && j < |sim.route| && i < Pairs(sim.route[j])
    ensures
      var (o, end) := (Offset(sim, j, i), Offset(sim, j, i + 1));
      var pair := PairLeg(sim, sim.route[j], i, LegTo(sim, j, i).motor);
      && o + |pair.samples| == end < |Drive(sim)| && Drive(sim)[o..end] == pair.samples
  {
    LegInDrive(sim, j, i);
    LegInDrive(sim, j, i + 1);
    LegGrows(sim, j, i);
    var pair := PairLeg(sim, sim.route[j], i, LegTo(sim, j, i).motor);
    SliceOf(Drive(sim), LegTo(sim, j, i).samples, pair.samples);
  }

  lemma {:induction false} SliceOf(d: seq<Position>, xs: seq<Position>, ys: seq<Position>)
    requires |xs| + |ys| <= |d| && d[..|xs| + |ys|] == xs + ys
    ensures d[|xs|..|xs| + |ys|] == ys
  {
    assert (xs + ys)[|xs|..] == ys;
  }

  lemma {:induction false} StopThenMoving(sim: Simulator, d: seq<Position>, j: nat, i: nat, o: nat, end: nat,
                                          stop: seq<Position>, moving: seq<Position>, before: real)
    requires Valid(sim) && j < |sim.route| && i < Pairs(sim.route[j]) && o < end <= |d| && |moving| > 1
    requires d[o..end] == stop + moving && |stop| == (if StopsAt(sim, j, i) then 1 else 0)
    requires before == if StopsAt(sim, j, i) then 0.0 else SpeedBefore(d, o)
    requires StopsAt(sim, j, i) ==>
      RestFits(sim, stop[0], sim.route[j].coords[i], LimitBefore(d, o), Stopped)
    requires SpeedAt(sim, j, i) > 0.0
    requires StepsFit(sim, |moving| - 1, sim.haversine(sim.route[j].coords[i], sim.route[j].coords[i + 1]), SpeedAt(sim, j, i))
    requires forall k | 0 <= k < |moving| :: MoveFits(sim, moving[k], j, i, before)
    requires forall k | 0 <= k < |moving| ::
      PlaceFits(moving[k].at, sim.route[j].coords[i], sim.route[j].coords[i + 1], k as real / (|moving| - 1) as real)
    ensures PairFits(sim, d, j, i, o, end)
  {
    var first := o + |stop|;
    forall k | first <= k < end ensures d[k] == moving[k - first] {
      assert d[k] == d[o..end][k - o];
    }
    if StopsAt(sim, j, i) {
      assert d[o] == d[o..end][0] == stop[0];
    }
    assert end - first - 1 == |moving| - 1;
  }

  /** Every pair of every drive: what it sends is determined by the route, the draws and the sample
      before, and nothing else. */
  lemma {:induction false} PairExactly(sim: Simulator, j: nat, i: nat)
    requires Valid(sim) && |sim.route| >= 2 && j < |sim.route| && i < Pairs(sim.route[j])
    ensures Offset(sim, j, i) < Offset(sim, j, i + 1) < |Drive(sim)|
    ensures PairFits(sim, Drive(sim), j, i, Offset(sim, j, i), Offset(sim, j, i + 1))
  {
    var (o, end) := (Offset(sim, j, i), Offset(sim, j, i + 1));
    var (a, b) := (sim.route[j].coords[i], sim.route[j].coords[i + 1]);
    var m := LegTo(sim, j, i).motor;
    MotorExactly(sim, j, i);
    LegInDrive(sim, j, i);
    PairInDrive(sim, j, i);
    PairSends(sim, j, i, m);
    var speed := SpeedAt(sim, j, i);
    var before := if StopsAt(sim, j, i) then 0.0 else m.lastSpeed;
    MovingIsRight(sim, j, i, before);
    var stop := if StopsAt(sim, j, i) then [Rest(sim, a, m.speedLimit, Stopped)] else [];
    StopThenMoving(sim, Drive(sim), j, i, o, end, stop,
                   Moving(sim, a, b, LimitAt(sim, j, i), speed, StatusOf(before, speed)), before);
  }

  /** And the pairs, one after the other, are the whole drive but for its last sample: ARRIVED, at
      the last coordinate of the route, under the limit of the sample before. */
  lemma {:induction false} DriveIsItsPairs(sim: Simulator)
    requires Valid(sim) && |sim.route| >= 2
    ensures Offset(sim, 0, 0) == 0
    ensures forall j | 0 < j < |sim.route| :: Offset(sim, j, 0) == Offset(sim, j - 1, Pairs(sim.route[j - 1]))
    ensures
      var (d, last) := (Drive(sim), sim.route[|sim.route| - 1]);
      var n := Offset(sim, |sim.route| - 1, Pairs(last));
      n + 1 == |d| && RestFits(sim, d[n], last.coords[|last.coords| - 1], LimitBefore(d, n), Arrived)
  {
    forall j | 0 < j < |sim.route| ensures Offset(sim, j, 0) == Offset(sim, j - 1, Pairs(sim.route[j - 1])) {
      SegmentStarts(sim, j);
    }
    ArrivesLast(sim);
  }

  lemma {:induction false} ArrivesLast(sim: Simulator)
    requires Valid(sim) && |sim.route| >= 2
    ensures
      var (d, last) := (Drive(sim), sim.route[|sim.route| - 1]);
      var n := Offset(sim, |sim.route| - 1, Pairs(last));
      n + 1 == |d| && RestFits(sim, d[n], last.coords[|last.coords| - 1], LimitBefore(d, n), Arrived)
  {
    WholeIsLeg(sim);
    var all := RouteUpTo(sim, |sim.route|);
    RestIsRight(sim, Drive(sim), all.samples, all.motor.speedLimit);
  }

  lemma {:induction false} WholeIsLeg(sim: Simulator)
    requires Valid(sim) && |sim.route| >= 2
    ensures
      var j := |sim.route| - 1;
      var all := RouteUpTo(sim, |sim.route|);
      LegTo(sim, j, Pairs(sim.route[j])) == all && all.motor.speedLimit == LimitBefore(all.samples, |all.samples|)
  {
    var j := |sim.route| - 1;
    MotorExactly(sim, j, Pairs(sim.route[j]));
  }

  lemma {:induction false} RestIsRight(sim: Simulator, d: seq<Position>, xs: seq<Position>, limit: real)
    requires Valid(sim) && d == xs + [Rest(sim, RouteEnd(sim), limit, Arrived)] && limit == LimitBefore(xs, |xs|)
    ensures
      var last := sim.route[|sim.route| - 1];
      RestFits(sim, d[|xs|], last.coords[|last.coords| - 1], LimitBefore(d, |xs|), Arrived)
  {
  }
}
