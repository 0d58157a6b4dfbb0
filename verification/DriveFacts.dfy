/** What every simulated drive looks like, whatever the route and the random draws. */
module DriveFacts {
  import opened Driving

  predicate AtRest(p: Position) {
    p.status == Stopped || p.status == Arrived
  }

  /** At rest, nothing moves; otherwise the speed is within the jitter of the limit, times the
      pirate factor, and the limit is at most `cap`. */
  predicate SampleWell(p: Position, isPirate: bool, cap: real) {
    && p.distance >= 0.0
    && 0.0 <= p.speedLimit <= cap
    && if AtRest(p) then p.speed == 0.0 && p.distance == 0.0
       else p.speedLimit > 0.0 && p.status != Unset && SpeedBand(p.speed, p.speedLimit, isPirate)
  }

  /** Every STOPPED is immediately followed by two ACCELERATING samples. */
  predicate StopsRamp(xs: seq<Position>) {
    forall i | 0 <= i < |xs| && xs[i].status == Stopped ::
      i + 2 < |xs| && xs[i + 1].status == Accelerating && xs[i + 2].status == Accelerating
  }

  predicate NoneArrived(xs: seq<Position>) {
    forall i | 0 <= i < |xs| :: xs[i].status != Arrived
  }

  predicate AllWell(xs: seq<Position>, isPirate: bool, cap: real) {
    forall i | 0 <= i < |xs| :: SampleWell(xs[i], isPirate, cap)
  }

  /** No segment of the route is faster than `cap`. */
  ghost predicate Capped(sim: Simulator, cap: real)
    requires Valid(sim)
  {
    cap > 0.0 && forall k | 0 <= k < |sim.route| :: SegmentSpeed(sim, sim.route[k]) <= cap
  }

  lemma {:induction false} FromRestAccelerates(speed: real)
    requires speed > 0.0
    ensures StatusOf(0.0, speed) == Accelerating
  {
  }

  /** The three facts together. */
  predicate SamplesWell(xs: seq<Position>, isPirate: bool, cap: real) {
    StopsRamp(xs) && NoneArrived(xs) && AllWell(xs, isPirate, cap)
  }

  lemma {:induction false} WellConcat(xs: seq<Position>, ys: seq<Position>, isPirate: bool, cap: real)
    requires SamplesWell(xs, isPirate, cap) && SamplesWell(ys, isPirate, cap)
    ensures SamplesWell(xs + ys, isPirate, cap)
  {
    var all := xs + ys;
    forall i | 0 <= i < |all| && all[i].status == Stopped
      ensures i + 2 < |all| && all[i + 1].status == Accelerating && all[i + 2].status == Accelerating
    {
      if i < |xs| {
        assert xs[i].status == Stopped;
      } else {
        assert ys[i - |xs|].status == Stopped;
        assert all[i + 1] == ys[i + 1 - |xs|] && all[i + 2] == ys[i + 2 - |xs|];
      }
    }
  }

  predicate LegWell(leg: Leg, isPirate: bool, cap: real) {
    SamplesWell(leg.samples, isPirate, cap) && 0.0 <= leg.motor.speedLimit <= cap
  }

  lemma {:induction false} LegConcat(before: Leg, next: Leg, isPirate: bool, cap: real)
    requires LegWell(before, isPirate, cap) && LegWell(next, isPirate, cap)
    ensures LegWell(Leg(before.samples + next.samples, next.motor), isPirate, cap)
  {
    WellConcat(before.samples, next.samples, isPirate, cap);
  }

  lemma {:induction false} PairWell(sim: Simulator, seg: Segment, i: nat, m: Motor, cap: real)
    requires Valid(sim) && i < Pairs(seg) && 0.0 <= m.speedLimit <= cap && SegmentSpeed(sim, seg) <= cap
    ensures LegWell(PairLeg(sim, seg, i, m), sim.isPirate, cap)
  {
    PairSpeedBand(sim, seg, i, m);
    FromRestAccelerates(PairSpeed(sim, seg, i, m));
    assert sim.haversine(seg.coords[i], seg.coords[i + 1]) >= 0.0;
  }

  lemma {:induction false} SegmentWell(sim: Simulator, seg: Segment, i: nat, m: Motor, cap: real)
    requires Valid(sim) && i <= Pairs(seg) && 0.0 <= m.speedLimit <= cap && SegmentSpeed(sim, seg) <= cap
    ensures LegWell(SegmentUpTo(sim, seg, i, m), sim.isPirate, cap)
  {
    if i > 0 {
      SegmentWell(sim, seg, i - 1, m, cap);
      var before := SegmentUpTo(sim, seg, i - 1, m);
      PairWell(sim, seg, i - 1, before.motor, cap);
      LegConcat(before, PairLeg(sim, seg, i - 1, before.motor), sim.isPirate, cap);
    }
  }

  lemma {:induction false} RouteWell(sim: Simulator, k: nat, cap: real)
    requires Valid(sim) && k <= |sim.route| && Capped(sim, cap)
    ensures LegWell(RouteUpTo(sim, k), sim.isPirate, cap)
  {
    if k > 0 {
      RouteWell(sim, k - 1, cap);
      var before, seg := RouteUpTo(sim, k - 1), sim.route[k - 1];
      SegmentWell(sim, seg, Pairs(seg), before.motor, cap);
      LegConcat(before, WholeSegment(sim, seg, before.motor), sim.isPirate, cap);
    }
  }

  lemma {:induction false} SomeCap(sim: Simulator, k: nat) returns (cap: real)
    requires Valid(sim) && k <= |sim.route|
    ensures cap > 0.0 && forall j | 0 <= j < k :: SegmentSpeed(sim, sim.route[j]) <= cap
  {
    if k == 0 {
      cap := 1.0;
    } else {
      cap := SomeCap(sim, k - 1);
      var v := SegmentSpeed(sim, sim.route[k - 1]);
      cap := if v > cap then v else cap;
    }
  }

  /** Every STOPPED is followed at once by two ACCELERATING, and ARRIVED comes exactly once, last. */
  lemma {:induction false} EveryDrive(sim: Simulator)
    requires Valid(sim)
    ensures
      var d := Drive(sim);
      && StopsRamp(d)
      && (|sim.route| < 2 ==> d == [])
      && (|sim.route| >= 2 ==> d != [] && forall i | 0 <= i < |d| :: d[i].status == Arrived <==> i == |d| - 1)
      && (forall i | 0 <= i < |d| :: d[i].status != Unset && d[i].distance >= 0.0 && (AtRest(d[i]) ==> d[i].distance == 0.0))
  {
    var cap := SomeCap(sim, |sim.route|);
    RouteWell(sim, |sim.route|, cap);
    assert AllWell(Drive(sim), sim.isPirate, cap);
  }

  /** Every sample keeps its speed band, under any cap on the route's segment speeds. */
  lemma {:induction false} DriveBands(sim: Simulator, cap: real)
    requires Valid(sim) && Capped(sim, cap)
    ensures AllWell(Drive(sim), sim.isPirate, cap)
  {
    RouteWell(sim, |sim.route|, cap);
  }

  // ----- The ramp out of a stop -----

  /** `speed` after `last` counts as accelerating when the limit went from `slow` to `fast`, at
      least a third again as much, despite the jitter on both. */
  lemma {:induction false} FasterLimitAccelerates(last: real, slow: real, speed: real, fast: real, isPirate: bool)
    requires 0.0 < slow && 3.0 * fast >= 4.0 * slow
    requires SpeedBand(last, slow, isPirate) && SpeedBand(speed, fast, isPirate)
    ensures StatusOf(last, speed) == Accelerating
  {
  }

  /** The first three pairs of a stopping segment run at 1/3, 1/2 and all of its speed. */
  lemma {:induction false} RampLimits(sim: Simulator, seg: Segment, m: Motor)
    requires Valid(sim) && seg.shouldStop && Pairs(seg) >= 3
    ensures
      var v := SegmentSpeed(sim, seg);
      var m1 := PairLeg(sim, seg, 0, m).motor;
      var m2 := PairLeg(sim, seg, 1, m1).motor;
      && PairLimit(sim, seg, 0, m) == v / 3.0
      && PairLimit(sim, seg, 1, m1) == v / 2.0
      && PairLimit(sim, seg, 2, m2) == v
  {
  }

  /** A sample of the ramp: accelerating, at the given limit. */
  predicate Ramping(p: Position, limit: real) {
    p.status == Accelerating && p.speedLimit == limit
  }

  predicate AllRamping(xs: seq<Position>, limit: real) {
    |xs| >= 2 && forall i | 0 <= i < |xs| :: Ramping(xs[i], limit)
  }

  /** Leaving a stop, a segment with at least three pairs sends one STOPPED sample and then three
      runs of ACCELERATING ones, at the three limits. */
  lemma {:induction false} SegmentRamp(sim: Simulator, seg: Segment, m: Motor)
      returns (a: seq<Position>, b: seq<Position>, c: seq<Position>)
    requires Valid(sim) && seg.shouldStop && Pairs(seg) >= 3
    ensures
      var v := SegmentSpeed(sim, seg);
      && SegmentUpTo(sim, seg, 3, m).samples == [Rest(sim, seg.coords[0], m.speedLimit, Stopped)] + a + b + c
      && AllRamping(a, v / 3.0) && AllRamping(b, v / 2.0) && AllRamping(c, v)
  {
    var l1 := PairLeg(sim, seg, 0, m);
    var l2 := PairLeg(sim, seg, 1, l1.motor);
    var l3 := PairLeg(sim, seg, 2, l2.motor);
    assert SegmentUpTo(sim, seg, 0, m) == Leg([], m);
    assert SegmentUpTo(sim, seg, 1, m) == Leg(l1.samples, l1.motor);
    assert SegmentUpTo(sim, seg, 2, m) == Leg(l1.samples + l2.samples, l2.motor);
    assert SegmentUpTo(sim, seg, 3, m) == Leg(l1.samples + l2.samples + l3.samples, l3.motor);
    RampLimits(sim, seg, m);
    PairSpeedBand(sim, seg, 0, m);
    PairSpeedBand(sim, seg, 1, l1.motor);
    PairSpeedBand(sim, seg, 2, l2.motor);
    var v := SegmentSpeed(sim, seg);
    var s1, s2, s3 := PairSpeed(sim, seg, 0, m), PairSpeed(sim, seg, 1, l1.motor), PairSpeed(sim, seg, 2, l2.motor);
    FromRestAccelerates(s1);
    FasterLimitAccelerates(s1, v / 3.0, s2, v / 2.0, sim.isPirate);
    FasterLimitAccelerates(s2, v / 2.0, s3, v, sim.isPirate);
    a, b, c := l1.samples[1..], l2.samples, l3.samples;
  }

  lemma {:induction false} SegmentPrefix(sim: Simulator, seg: Segment, i: nat, j: nat, m: Motor)
    requires Valid(sim) && i <= j <= Pairs(seg)
    ensures SegmentUpTo(sim, seg, i, m).samples <= SegmentUpTo(sim, seg, j, m).samples
    decreases j
  {
    if i < j { SegmentPrefix(sim, seg, i, j - 1, m); }
  }

  lemma {:induction false} RoutePrefix(sim: Simulator, j: nat, k: nat)
    requires Valid(sim) && j <= k <= |sim.route|
    ensures RouteUpTo(sim, j).samples <= RouteUpTo(sim, k).samples
    decreases k
  {
    if j < k { RoutePrefix(sim, j, k - 1); }
  }

  /** Somewhere in the drive, for each stopping segment with at least three pairs, stands its
      STOPPED sample followed by its whole ramp. */
  lemma {:induction false} DriveHasRamp(sim: Simulator, j: nat)
      returns (o: nat, a: seq<Position>, b: seq<Position>, c: seq<Position>)
    requires Valid(sim) && |sim.route| >= 2 && j < |sim.route|
    requires sim.route[j].shouldStop && Pairs(sim.route[j]) >= 3
    ensures
      var v := SegmentSpeed(sim, sim.route[j]);
      && o + 1 + |a| + |b| + |c| < |Drive(sim)|
      && Drive(sim)[o].status == Stopped
      && Drive(sim)[o + 1..o + 1 + |a| + |b| + |c|] == a + b + c
      && AllRamping(a, v / 3.0) && AllRamping(b, v / 2.0) && AllRamping(c, v)
  {
    var seg := sim.route[j];
    var m := RouteUpTo(sim, j).motor;
    a, b, c := SegmentRamp(sim, seg, m);
    SegmentInDrive(sim, j, 3);
    o := |RouteUpTo(sim, j).samples|;
    var ramp := SegmentUpTo(sim, seg, 3, m).samples;
    var d := Drive(sim);
    assert d[o..o + |ramp|][0] == d[o];
    assert d[o..o + |ramp|][1..] == d[o + 1..o + |ramp|];
    assert ramp[1..] == a + b + c;
  }

  /** The samples of a segment's first pairs stand together in the drive. */
  lemma {:induction false} SegmentInDrive(sim: Simulator, j: nat, i: nat)
    requires Valid(sim) && |sim.route| >= 2 && j < |sim.route| && i <= Pairs(sim.route[j])
    ensures
      var o := |RouteUpTo(sim, j).samples|;
      var part := SegmentUpTo(sim, sim.route[j], i, RouteUpTo(sim, j).motor).samples;
      o + |part| < |Drive(sim)| && Drive(sim)[o..o + |part|] == part
  {
    var before := RouteUpTo(sim, j);
    var seg := sim.route[j];
    SegmentPrefix(sim, seg, i, Pairs(seg), before.motor);
    RoutePrefix(sim, j + 1, |sim.route|);
    var part := SegmentUpTo(sim, seg, i, before.motor).samples;
    PrefixChain(before.samples, part, WholeSegment(sim, seg, before.motor).samples,
                RouteUpTo(sim, |sim.route|).samples);
  }

  lemma {:induction false} PrefixChain(before: seq<Position>, part: seq<Position>, whole: seq<Position>, all: seq<Position>)
    requires part <= whole && before + whole <= all
    ensures |before| + |part| <= |all| && all[|before|..|before| + |part|] == part
  {
    assert (before + whole)[|before|..] == whole;
  }

  // ----- Where the samples are, and how many -----

  /** Along a pair the samples start exactly at its first coordinate and end exactly at its
      second. */
  lemma {:induction false} PairEndpoints(sim: Simulator, a: Coordinate, b: Coordinate, limit: real, speed: real, status: Status)
    requires Valid(sim) && speed > 0.0
    ensures
      var xs := Moving(sim, a, b, limit, speed, status);
      xs[0].at == a && xs[|xs| - 1].at == b
  {
    var xs := Moving(sim, a, b, limit, speed, status);
    var n := |xs| - 1;
    assert xs[0].at == Interpolate(a, b, 0.0);
    assert n as real / n as real == 1.0;
    assert xs[n].at == Interpolate(a, b, 1.0);
  }

  /** And they are equally spaced: each is one n-th of the way on from the one before. */
  lemma {:induction false} PairSpacing(a: Coordinate, b: Coordinate, steps: nat, k: nat)
    requires k < steps
    ensures
      var p := Interpolate(a, b, k as real / steps as real);
      var q := Interpolate(a, b, (k + 1) as real / steps as real);
      && (q.lat - p.lat) * steps as real == b.lat - a.lat
      && (q.lng - p.lng) * steps as real == b.lng - a.lng
  {
    EqualStep(b.lat - a.lat, a.lat, k as real, steps as real);
    EqualStep(b.lng - a.lng, a.lng, k as real, steps as real);
  }

  lemma {:induction false} EqualStep(d: real, from: real, k: real, n: real)
    requires n > 0.0
    ensures ((from + d * ((k + 1.0) / n)) - (from + d * (k / n))) * n == d
  {
    var p, q := (k + 1.0) / n, k / n;
    assert p * n == k + 1.0 && q * n == k;
    assert (d * p - d * q) * n == d * (p * n - q * n);
  }

  /** The number of steps is how often the update interval fits the pair's travel time, in whole
      nanoseconds, but at least one. */
  lemma {:induction false} StepsExactly(sim: Simulator, distance: real, speed: real)
    requires Valid(sim) && speed > 0.0 && distance >= 0.0
    ensures
      var nanos := (distance / speed * NANOS_PER_HOUR).Floor;
      var interval := sim.updateMillis * NANOS_PER_MILLI;
      var n := Steps(sim, distance, speed);
      if nanos < interval then n == 1 else n * interval <= nanos < (n + 1) * interval
  {
    assert distance / speed >= 0.0;
    var nanos := (distance / speed * NANOS_PER_HOUR).Floor;
    assert nanos >= 0;
    Fits(nanos, sim.updateMillis * NANOS_PER_MILLI);
  }

  lemma {:induction false} Fits(x: nat, d: int)
    requires d > 0
    ensures x / d * d <= x < (x / d + 1) * d
    ensures x < d ==> x / d == 0
    ensures x >= d ==> x / d >= 1
  {
  }

  // ----- Distance -----

  function SumDistance(xs: seq<Position>): real {
    if xs == [] then 0.0 else SumDistance(xs[..|xs| - 1]) + xs[|xs| - 1].distance
  }

  lemma {:induction false} SumConcat(xs: seq<Position>, ys: seq<Position>)
    ensures SumDistance(xs + ys) == SumDistance(xs) + SumDistance(ys)
  {
    if ys == [] {
      assert xs + ys == xs;
    } else {
      var n := |ys| - 1;
      assert (xs + ys)[..|xs + ys| - 1] == xs + ys[..n];
      SumConcat(xs, ys[..n]);
    }
  }

  lemma {:induction false} SumAppend(all: seq<Position>, xs: seq<Position>, ys: seq<Position>)
    requires all == xs + ys
    ensures SumDistance(all) == SumDistance(xs) + SumDistance(ys)
  {
    SumConcat(xs, ys);
  }

  lemma {:induction false} SumOfEqual(xs: seq<Position>, d: real)
    requires forall i | 0 <= i < |xs| :: xs[i].distance == d
    ensures SumDistance(xs) == |xs| as real * d
  {
    if xs != [] { SumOfEqual(xs[..|xs| - 1], d); }
  }

  /** The length of the path, pair by pair. */
  function SegmentPath(sim: Simulator, seg: Segment, i: nat): real
    requires i <= Pairs(seg)
  {
    if i == 0 then 0.0 else SegmentPath(sim, seg, i - 1) + sim.haversine(seg.coords[i - 1], seg.coords[i])
  }

  function RoutePath(sim: Simulator, k: nat): real
    requires k <= |sim.route|
  {
    if k == 0 then 0.0 else RoutePath(sim, k - 1) + SegmentPath(sim, sim.route[k - 1], Pairs(sim.route[k - 1]))
  }

  /** What `steps` + 1 samples report that carry a distance each. */
  function Carried(steps: nat, distance: real): real {
    (steps + 1) as real * distance
  }

  /** The distance of each pair, times the number of samples that carry it. */
  function PairCarried(sim: Simulator, seg: Segment, i: nat, m: Motor): real
    requires Valid(sim) && i < Pairs(seg)
  {
    var d := sim.haversine(seg.coords[i], seg.coords[i + 1]);
    Carried(Steps(sim, d, PairSpeed(sim, seg, i, m)), d)
  }

  function SegmentCarried(sim: Simulator, seg: Segment, i: nat, m: Motor): real
    requires Valid(sim) && i <= Pairs(seg)
  {
    if i == 0 then 0.0 else
      SegmentCarried(sim, seg, i - 1, m) + PairCarried(sim, seg, i - 1, SegmentUpTo(sim, seg, i - 1, m).motor)
  }

  function RouteCarried(sim: Simulator, k: nat): real
    requires Valid(sim) && k <= |sim.route|
  {
    if k == 0 then 0.0 else
      RouteCarried(sim, k - 1)
      + SegmentCarried(sim, sim.route[k - 1], Pairs(sim.route[k - 1]), RouteUpTo(sim, k - 1).motor)
  }

  /** `carried` counts a path of length `path` at least twice, unless both are zero. */
  predicate Overcounts(carried: real, path: real) {
    path >= 0.0 && carried >= 2.0 * path && (path == 0.0 ==> carried == 0.0)
  }

  lemma {:induction false} MovingSum(sim: Simulator, a: Coordinate, b: Coordinate, limit: real, speed: real, status: Status)
    requires Valid(sim) && speed > 0.0
    ensures SumDistance(Moving(sim, a, b, limit, speed, status))
         == Carried(Steps(sim, sim.haversine(a, b), speed), sim.haversine(a, b))
  {
    SumOfEqual(Moving(sim, a, b, limit, speed, status), sim.haversine(a, b));
  }

  lemma {:induction false} AfterStop(all: seq<Position>, stop: seq<Position>, moving: seq<Position>)
    requires all == stop + moving && forall k | 0 <= k < |stop| :: stop[k].distance == 0.0
    ensures SumDistance(all) == SumDistance(moving)
  {
    SumOfEqual(stop, 0.0);
    SumConcat(stop, moving);
  }

  lemma {:induction false} PairSum(sim: Simulator, seg: Segment, i: nat, m: Motor)
    requires Valid(sim) && i < Pairs(seg)
    ensures SumDistance(PairLeg(sim, seg, i, m).samples) == PairCarried(sim, seg, i, m)
  {
    var (a, b) := (seg.coords[i], seg.coords[i + 1]);
    var speed := PairSpeed(sim, seg, i, m);
    var limit, status := PairLimit(sim, seg, i, m), StatusOf(BeforePair(seg, i, m).lastSpeed, speed);
    var stop := if i == 0 && seg.shouldStop then [Rest(sim, a, m.speedLimit, Stopped)] else [];
    MovingSum(sim, a, b, limit, speed, status);
    AfterStop(PairLeg(sim, seg, i, m).samples, stop, Moving(sim, a, b, limit, speed, status));
  }

  lemma {:induction false} PairOvercounts(sim: Simulator, seg: Segment, i: nat, m: Motor)
    requires Valid(sim) && i < Pairs(seg)
    ensures Overcounts(PairCarried(sim, seg, i, m), sim.haversine(seg.coords[i], seg.coords[i + 1]))
  {
    var d := sim.haversine(seg.coords[i], seg.coords[i + 1]);
    AtLeastTwice(Steps(sim, d, PairSpeed(sim, seg, i, m)), d);
  }

  lemma {:induction false} AtLeastTwice(n: nat, d: real)
    requires n >= 1 && d >= 0.0
    ensures Overcounts(Carried(n, d), d)
  {
    var extra := (n - 1) as real * d;
    assert extra >= 0.0;
    assert (n + 1) as real * d == extra + 2.0 * d;
  }

  lemma {:induction false} SegmentSum(sim: Simulator, seg: Segment, i: nat, m: Motor)
    requires Valid(sim) && i <= Pairs(seg)
    ensures SumDistance(SegmentUpTo(sim, seg, i, m).samples) == SegmentCarried(sim, seg, i, m)
  {
    if i > 0 {
      SegmentSum(sim, seg, i - 1, m);
      SegmentSumStep(sim, seg, i, m, SegmentUpTo(sim, seg, i - 1, m));
    }
  }

  lemma {:induction false} SegmentSumStep(sim: Simulator, seg: Segment, i: nat, m: Motor, before: Leg)
    requires Valid(sim) && 0 < i <= Pairs(seg) && before == SegmentUpTo(sim, seg, i - 1, m)
    ensures SumDistance(SegmentUpTo(sim, seg, i, m).samples)
         == SumDistance(before.samples) + PairCarried(sim, seg, i - 1, before.motor)
  {
    PairSum(sim, seg, i - 1, before.motor);
    SumAppend(SegmentUpTo(sim, seg, i, m).samples, before.samples, PairLeg(sim, seg, i - 1, before.motor).samples);
  }

  lemma {:induction false} SegmentOvercounts(sim: Simulator, seg: Segment, i: nat, m: Motor)
    requires Valid(sim) && i <= Pairs(seg)
    ensures Overcounts(SegmentCarried(sim, seg, i, m), SegmentPath(sim, seg, i))
  {
    if i > 0 {
      SegmentOvercounts(sim, seg, i - 1, m);
      PairOvercounts(sim, seg, i - 1, SegmentUpTo(sim, seg, i - 1, m).motor);
    }
  }

  lemma {:induction false} RouteSum(sim: Simulator, k: nat)
    requires Valid(sim) && k <= |sim.route|
    ensures SumDistance(RouteUpTo(sim, k).samples) == RouteCarried(sim, k)
  {
    if k > 0 {
      RouteSum(sim, k - 1);
      RouteSumStep(sim, k, RouteUpTo(sim, k - 1));
    }
  }

  lemma {:induction false} RouteSumStep(sim: Simulator, k: nat, before: Leg)
    requires Valid(sim) && 0 < k <= |sim.route| && before == RouteUpTo(sim, k - 1)
    ensures SumDistance(RouteUpTo(sim, k).samples)
         == SumDistance(before.samples) + SegmentCarried(sim, sim.route[k - 1], Pairs(sim.route[k - 1]), before.motor)
  {
    var seg := sim.route[k - 1];
    SegmentSum(sim, seg, Pairs(seg), before.motor);
    SumAppend(RouteUpTo(sim, k).samples, before.samples, WholeSegment(sim, seg, before.motor).samples);
  }

  lemma {:induction false} RouteOvercounts(sim: Simulator, k: nat)
    requires Valid(sim) && k <= |sim.route|
    ensures Overcounts(RouteCarried(sim, k), RoutePath(sim, k))
  {
    if k > 0 {
      RouteOvercounts(sim, k - 1);
      SegmentOvercounts(sim, sim.route[k - 1], Pairs(sim.route[k - 1]), RouteUpTo(sim, k - 1).motor);
    }
  }

  /** The distance reported over a drive is, for every pair, its length times the number of
      samples it sends: at least twice the path, and so the path's length only when that is 0. */
  lemma {:induction false} DriveDistance(sim: Simulator)
    requires Valid(sim) && |sim.route| >= 2
    ensures
      var total := SumDistance(Drive(sim));
      var path := RoutePath(sim, |sim.route|);
      && total == RouteCarried(sim, |sim.route|)
      && total >= 2.0 * path
      && (total == path <==> path == 0.0)
  {
    var all := RouteUpTo(sim, |sim.route|);
    var last := [Rest(sim, RouteEnd(sim), all.motor.speedLimit, Arrived)];
    RouteSum(sim, |sim.route|);
    RouteOvercounts(sim, |sim.route|);
    SumOfEqual(last, 0.0);
    SumConcat(all.samples, last);
  }
}
