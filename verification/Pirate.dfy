/** Pirate detection across the path: simulator, firmware, window. */
module Pirate {
  import opened Prelude
  import D = Driving
  import opened DriveFacts
  import F = Firmware
  import FirmwareFacts
  import opened Window
  import opened WindowFacts

  predicate IsDraw(r: real) {
    0.0 <= r < 1.0
  }

  /** The law-abiding margin, sharp: no draw makes a vehicle look like a pirate at a limit if and
      only if the limit is at most a third of 1000 km/h. */
  lemma {:induction false} NeverSpeedsExactly(limit: real)
    requires limit > 0.0
    ensures (forall r | IsDraw(r) :: !Speeding(D.DrawnSpeed(limit, r, false), limit)) <==> 3.0 * limit <= 1000.0
  {
    if 3.0 * limit <= 1000.0 {
      forall r | IsDraw(r) ensures !Speeding(D.DrawnSpeed(limit, r, false), limit) {
        D.PlainBand(limit, D.Jitter(r));
      }
    } else {
      // The draw half way between the one that just reaches the margin and 1.
      var v := 1.0 + (10.0 / limit + 0.03) / 2.0;
      var r := (v - 1.0) / 0.06 + 0.5;
      assert limit * (10.0 / limit) == 10.0;
      assert 10.0 / limit < 0.03 by { Below(10.0, limit, 0.03); }
      assert IsDraw(r) && D.Jitter(r) == v;
      assert limit * v == limit + (10.0 + 0.03 * limit) / 2.0;
      assert Speeding(D.DrawnSpeed(limit, r, false), limit);
    }
  }

  lemma {:induction false} Below(a: real, x: real, b: real)
    requires x > 0.0 && a > 0.0 && a < b * x
    ensures 0.0 < a / x < b
  {
    var q := a / x;
    assert q * x == a;
    assert (b - q) * x > 0.0;
  }

  /** The pirate's margin, sharp: every draw gives a pirate away at a limit if and only if 0.358
      times the limit exceeds 10, which 28 km/h does and 27.9 does not. */
  lemma {:induction false} AlwaysSpeedsExactly(limit: real)
    requires limit > 0.0
    ensures (forall r | IsDraw(r) :: Speeding(D.DrawnSpeed(limit, r, true), limit)) <==> 0.358 * limit > 10.0
  {
    if 0.358 * limit > 10.0 {
      forall r | IsDraw(r) ensures Speeding(D.DrawnSpeed(limit, r, true), limit) {
        D.JitterBand(limit, D.Jitter(r), true);
      }
    } else {
      assert IsDraw(0.0) && D.Jitter(0.0) == 0.97;
      assert !Speeding(D.DrawnSpeed(limit, 0.0, true), limit);
    }
  }

  /** The envelope's payload reports the speed and the limit of this sample. */
  predicate Carries(e: Envelope, p: D.Position) {
    e.payload.Some? && e.payload.value.speed == Some(p.speed) && e.payload.value.speedLimit == Some(p.speedLimit)
  }

  /** Every payload in the window comes from these samples. */
  ghost predicate FromDrive(es: seq<Envelope>, drive: seq<D.Position>) {
    forall i | 0 <= i < |es| && es[i].payload.Some? :: exists p :: p in drive && Carries(es[i], p)
  }

  /** What a vehicle publishes carries samples of its drive, whenever it publishes. */
  lemma {:induction false} PublishedCarrySamples(drive: seq<D.Position>, dues: seq<bool>, qs: seq<F.Payload>, k: nat)
    requires |dues| == |drive| && F.Represents(qs, F.ObserveAll(F.NOTHING, drive, dues).windows) && k < |qs|
    ensures exists p :: p in drive && p.speed == qs[k].speed && p.speedLimit == qs[k].speedLimit
  {
    var l := F.ObserveAll(F.NOTHING, drive, dues);
    FirmwareFacts.WindowsPartition(drive, dues);
    var w := l.windows[k];
    var p := w[|w| - 1];
    InFlatten(l.windows, k, p);
    assert p in FirmwareFacts.Flatten(l.windows) + l.pending;
  }

  lemma {:induction false} InFlatten(ws: seq<seq<D.Position>>, k: nat, p: D.Position)
    requires k < |ws| && p in ws[k]
    ensures p in FirmwareFacts.Flatten(ws)
  {
    var n := |ws| - 1;
    if k < n {
      InFlatten(ws[..n], k, p);
    }
  }

  /** Every route is simulated without the pirate factor and has no segment faster than `cap`. */
  ghost predicate LawAbiding(sims: seq<D.Simulator>, cap: real) {
    forall i | 0 <= i < |sims| :: D.Valid(sims[i]) && !sims[i].isPirate && Capped(sims[i], cap)
  }

  lemma {:induction false} LawAbidingBands(sims: seq<D.Simulator>, cap: real)
    requires LawAbiding(sims, cap)
    ensures AllWell(FirmwareFacts.Drives(sims), false, cap)
  {
    if sims != [] {
      LawAbidingBands(sims[..|sims| - 1], cap);
      DriveBands(sims[|sims| - 1], cap);
    }
  }

  /** No window of a law-abiding vehicle, whatever samples of its successive drives it happens to
      hold, is marked as a pirate's when no segment is faster than 333 km/h and a third. */
  lemma {:induction false} LawAbidingNeverMarked(sims: seq<D.Simulator>, cap: real, es: seq<Envelope>)
    requires LawAbiding(sims, cap) && 3.0 * cap <= 1000.0
    requires AllReadable(es) && FromDrive(es, FirmwareFacts.Drives(sims))
    ensures !TotalsOf(es).isPirate
  {
    LawAbidingBands(sims, cap);
    FlagsExactly(es);
    forall i | 0 <= i < |es| ensures !SpeedingEnvelope(es[i]) {
      if es[i].payload.Some? {
        var p :| p in FirmwareFacts.Drives(sims) && Carries(es[i], p);
        assert SampleWell(p, false, cap);
      }
    }
  }

  /** Every window of a pirate that holds one moving sample at a limit of 28 km/h or more is. */
  lemma {:induction false} PirateAlwaysMarked(sim: D.Simulator, es: seq<Envelope>, i: nat, p: D.Position)
    requires D.Valid(sim) && sim.isPirate
    requires AllReadable(es) && i < |es| && Carries(es[i], p)
    requires p in D.Drive(sim) && !AtRest(p) && p.speedLimit >= 28.0
    ensures TotalsOf(es).isPirate
  {
    var cap := SomeCap(sim, |sim.route|);
    DriveBands(sim, cap);
    assert SampleWell(p, true, cap);
    FlagsExactly(es);
    assert SpeedingEnvelope(es[i]);
  }
}
