/** tracky/src/trackeroo/utils.go: the running statistics, over reals. */
module StatVars {

  datatype Stats = Stats(avg: real, min: real, max: real, count: nat)

  const ZERO := Stats(0.0, 0.0, 0.0, 0)

  /** One Add. The first sample sets the extremes but leaves the average at 0. */
  function AddTo(s: Stats, value: real): Stats {
    if s.count == 0 then Stats(0.0, value, value, 1)
    else
      Stats(s.avg + (value - s.avg) / (s.count + 1) as real,
            if value < s.min then value else s.min,
            if value > s.max then value else s.max,
            s.count + 1)
  }

  /** The statistics after adding `xs` to a fresh variable. */
  function StatsOf(xs: seq<real>): Stats {
    if xs == [] then ZERO else AddTo(StatsOf(xs[..|xs| - 1]), xs[|xs| - 1])
  }

  function Sum(xs: seq<real>): real {
    if xs == [] then 0.0 else Sum(xs[..|xs| - 1]) + xs[|xs| - 1]
  }

  lemma {:induction false} SumConcat(xs: seq<real>, ys: seq<real>)
    ensures Sum(xs + ys) == Sum(xs) + Sum(ys)
  {
    if ys == [] {
      assert xs + ys == xs;
    } else {
      assert (xs + ys)[..|xs + ys| - 1] == xs + ys[..|ys| - 1];
      SumConcat(xs, ys[..|ys| - 1]);
    }
  }

  lemma {:induction false} MeanStep(avg: real, value: real, n: nat)
    requires n >= 1
    ensures (n + 1) as real * (avg + (value - avg) / (n + 1) as real) == n as real * avg + value
  {
    var d := (n + 1) as real;
    assert d * ((value - avg) / d) == value - avg;
    assert d * avg == n as real * avg + avg;
  }

  lemma {:induction false} AverageDropsFirst(xs: seq<real>)
    requires xs != []
    ensures StatsOf(xs).count == |xs| && |xs| as real * StatsOf(xs).avg == Sum(xs) - xs[0]
  {
    var n := |xs| - 1;
    var init := xs[..n];
    if n > 0 {
      AverageDropsFirst(init);
      MeanStep(StatsOf(init).avg, xs[n], n);
    } else {
      assert Sum(init) == 0.0 && StatsOf(init) == ZERO;
    }
  }

  lemma {:induction false} ExtremesAreExact(xs: seq<real>)
    requires xs != []
    ensures var s := StatsOf(xs); s.min in xs && s.max in xs && forall x | x in xs :: s.min <= x <= s.max
  {
    var n := |xs| - 1;
    var init := xs[..n];
    assert forall x | x in xs :: x in init || x == xs[n];
    CountIsLength(init);
    if n > 0 {
      ExtremesAreExact(init);
    }
  }

  lemma {:induction false} CountIsLength(xs: seq<real>)
    ensures StatsOf(xs).count == |xs|
  {
    if xs != [] { CountIsLength(xs[..|xs| - 1]); }
  }

  /** Over any samples: the count and the extremes are right, and the average is short of the
      first sample: count * avg is the sum of the others. */
  lemma {:induction false} StatsExactly(xs: seq<real>)
    requires xs != []
    ensures
      var s := StatsOf(xs);
      && s.count == |xs|
      && s.count as real * s.avg == Sum(xs) - xs[0]
      && s.min in xs && s.max in xs && forall x | x in xs :: s.min <= x <= s.max
  {
    AverageDropsFirst(xs);
    ExtremesAreExact(xs);
  }

  lemma {:induction false} SameProduct(n: real, a: real, sum: real, first: real)
    requires n > 0.0 && n * a == sum - first
    ensures a == sum / n <==> first == 0.0
  {
    var mean := sum / n;
    assert n * mean == sum;
    assert n * (mean - a) == first;
  }

  /** So the average is the mean exactly when the first sample is 0. */
  lemma {:induction false} AverageIsMeanExactly(xs: seq<real>)
    requires xs != []
    ensures StatsOf(xs).avg == Sum(xs) / |xs| as real <==> xs[0] == 0.0
  {
    AverageDropsFirst(xs);
    SameProduct(|xs| as real, StatsOf(xs).avg, Sum(xs), xs[0]);
  }

  class StatVar {
    var avg: real
    var min: real
    var max: real
    var count: nat

    /** The samples since the last Get. */
    ghost var samples: seq<real>

    ghost predicate Valid()
      reads this
    {
      Stats(avg, min, max, count) == StatsOf(samples)
    }

    constructor ()
      ensures Valid() && samples == []
    {
      avg, min, max, count, samples := 0.0, 0.0, 0.0, 0, [];
    }

    method Add(value: real)
      requires Valid()
      modifies this
      ensures Valid() && samples == old(samples) + [value]
    {
      ghost var was := samples;
      assert (was + [value])[..|was|] == was;
      CountIsLength(was);
      if count == 0 {
        avg := 0.0;
        min := value;
        max := value;
      } else {
        avg := avg + (value - avg) / (count + 1) as real;
        if value < min {
          min := value;
        }
        if value > max {
          max := value;
        }
      }
      count := count + 1;
      samples := was + [value];
    }

    method Get() returns (res: Stats)
      requires Valid()
      modifies this
      ensures Valid() && samples == [] && res == StatsOf(old(samples))
    {
      res := Stats(avg, min, max, count);
      avg, min, max, count := 0.0, 0.0, 0.0, 0;
      samples := [];
    }
  }
}
