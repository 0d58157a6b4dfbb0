/** Laws of the window fold. */
module WindowFacts {
  import opened Prelude
  import opened Window

  // ----- The totals are a homomorphism into a commutative monoid -----

  lemma {:induction false} PlusLaws(a: Totals, b: Totals, c: Totals)
    ensures Plus(a, b) == Plus(b, a)
    ensures Plus(Plus(a, b), c) == Plus(a, Plus(b, c))
    ensures Plus(a, NONE) == a
  {
  }

  lemma {:induction false} Associates(a: Totals, b: Totals, c: Totals)
    ensures Plus(Plus(a, b), c) == Plus(a, Plus(b, c))
  {
    PlusLaws(a, b, c);
  }

  lemma {:induction false} TotalsAppend(es: seq<Envelope>, e: Envelope)
    requires AllReadable(es) && (e.payload.Some? ==> Readable(e.payload.value))
    ensures AllReadable(es + [e]) && TotalsOf(es + [e]) == Plus(TotalsOf(es), ShareOf(e))
  {
    assert (es + [e])[..|es|] == es;
  }

  lemma {:induction false} TotalsOfConcat(xs: seq<Envelope>, ys: seq<Envelope>)
    requires AllReadable(xs) && AllReadable(ys)
    ensures AllReadable(xs + ys) && TotalsOf(xs + ys) == Plus(TotalsOf(xs), TotalsOf(ys))
  {
    if ys == [] {
      assert xs + ys == xs;
      PlusLaws(TotalsOf(xs), NONE, NONE);
    } else {
      var init, e := ys[..|ys| - 1], ys[|ys| - 1];
      assert xs + ys == (xs + init) + [e];
      TotalsOfConcat(xs, init);
      TotalsAppend(xs + init, e);
      PlusLaws(TotalsOf(xs), TotalsOf(init), ShareOf(e));
    }
  }

  lemma {:induction false} Swap(a: Totals, b: Totals, c: Totals)
    ensures Plus(Plus(a, b), c) == Plus(Plus(a, c), b)
  {
  }

  lemma {:induction false} RemoveOne(a: seq<Envelope>, e: Envelope, b: seq<Envelope>)
    requires AllReadable(a) && AllReadable(b) && (e.payload.Some? ==> Readable(e.payload.value))
    ensures AllReadable(a + [e] + b) && AllReadable(a + b)
    ensures TotalsOf(a + [e] + b) == Plus(TotalsOf(a + b), ShareOf(e))
  {
    TotalsAppend(a, e);
    TotalsOfConcat(a + [e], b);
    TotalsOfConcat(a, b);
    Swap(TotalsOf(a), ShareOf(e), TotalsOf(b));
  }

  lemma {:induction false} SameReadable(xs: seq<Envelope>, ys: seq<Envelope>)
    requires multiset(xs) == multiset(ys) && AllReadable(xs)
    ensures AllReadable(ys)
  {
    forall j | 0 <= j < |ys| && ys[j].payload.Some? ensures Readable(ys[j].payload.value) {
      assert ys[j] in multiset(xs);
      assert ys[j] in xs;
    }
  }

  lemma {:induction false} SameWithoutOne(xs: seq<Envelope>, a: seq<Envelope>, e: Envelope, b: seq<Envelope>)
    requires multiset(xs + [e]) == multiset(a + [e] + b)
    ensures multiset(xs) == multiset(a + b)
  {
    assert multiset(xs) == multiset(xs + [e]) - multiset{e};
    assert multiset(a + b) == multiset(a + [e] + b) - multiset{e};
  }

  lemma {:induction false} Around(ys: seq<Envelope>, e: Envelope) returns (a: seq<Envelope>, b: seq<Envelope>)
    requires e in ys
    ensures ys == a + [e] + b
    ensures AllReadable(ys) ==> AllReadable(a) && AllReadable(b)
  {
    var i :| 0 <= i < |ys| && ys[i] == e;
    a, b := ys[..i], ys[i + 1..];
  }

  /** Order does not matter: windows with the same elements have the same totals. */
  lemma {:induction false} TotalsIgnoreOrder(xs: seq<Envelope>, ys: seq<Envelope>)
    requires multiset(xs) == multiset(ys) && AllReadable(xs)
    ensures AllReadable(ys) && TotalsOf(xs) == TotalsOf(ys)
    decreases |xs|
  {
    SameReadable(xs, ys);
    if xs == [] {
      assert |multiset(ys)| == 0;
    } else {
      var init, e := xs[..|xs| - 1], xs[|xs| - 1];
      assert xs == init + [e];
      assert e in multiset(ys);
      var a, b := Around(ys, e);
      SameWithoutOne(init, a, e, b);
      TotalsIgnoreOrder(init, a + b);
      SameAfterAdding(init, a, e, b);
    }
  }

  lemma {:induction false} SameAfterAdding(xs: seq<Envelope>, a: seq<Envelope>, e: Envelope, b: seq<Envelope>)
    requires AllReadable(xs) && AllReadable(a) && AllReadable(b) && (e.payload.Some? ==> Readable(e.payload.value))
    requires AllReadable(a + b) && TotalsOf(xs) == TotalsOf(a + b)
    ensures AllReadable(xs + [e]) && AllReadable(a + [e] + b) && TotalsOf(xs + [e]) == TotalsOf(a + [e] + b)
  {
    RemoveOne(a, e, b);
    TotalsAppend(xs, e);
  }

  /** One window after another: sums and flags combine, the first part's head wins once it has
      seen a payload, and the second part's tail wins unless it is empty. */
  function Join(a: State, b: State, bEmpty: bool): State {
    State(Plus(a.totals, b.totals), if a.totals.count > 0 then a.head else b.head, if bEmpty then a.tail else b.tail)
  }

  lemma {:induction false} StateOfConcat(xs: seq<Envelope>, ys: seq<Envelope>, hash: (Coordinate, Coordinate) -> string)
    requires Processable(xs) && Processable(ys)
    ensures Processable(xs + ys)
    ensures StateOf(xs + ys, hash) == Join(StateOf(xs, hash), StateOf(ys, hash), ys == [])
  {
    ProcessableConcat(xs, ys);
    StatePartsOfConcat(xs, ys, hash);
  }

  lemma {:induction false} StatePartsOfConcat(xs: seq<Envelope>, ys: seq<Envelope>, hash: (Coordinate, Coordinate) -> string)
    requires Processable(xs) && Processable(ys) && Processable(xs + ys)
    ensures StateOf(xs + ys, hash).totals == Join(StateOf(xs, hash), StateOf(ys, hash), ys == []).totals
    ensures StateOf(xs + ys, hash).head == Join(StateOf(xs, hash), StateOf(ys, hash), ys == []).head
    ensures StateOf(xs + ys, hash).tail == Join(StateOf(xs, hash), StateOf(ys, hash), ys == []).tail
  {
    TotalsOfConcat(xs, ys);
    HeadOfConcat(xs, ys, hash);
    TailOfConcat(xs, ys);
  }

  lemma {:induction false} ProcessableConcat(xs: seq<Envelope>, ys: seq<Envelope>)
    requires Processable(xs) && Processable(ys)
    ensures Processable(xs + ys)
  {
    TotalsOfConcat(xs, ys);
    FirstOfConcat(xs, ys);
    TailOfConcat(xs, ys);
  }

  lemma {:induction false} TailOfConcat(xs: seq<Envelope>, ys: seq<Envelope>)
    requires Processable(xs) && Processable(ys)
    ensures Ended(xs + ys)
    ensures TailAfter(xs + ys) == if ys == [] then TailAfter(xs) else TailAfter(ys)
  {
    if ys == [] { assert xs + ys == xs; }
  }

  lemma {:induction false} HeadOfConcat(xs: seq<Envelope>, ys: seq<Envelope>, hash: (Coordinate, Coordinate) -> string)
    requires Processable(xs) && Processable(ys) && AllReadable(xs + ys)
    ensures Routed(xs + ys)
    ensures HeadAfter(xs + ys, hash) == if TotalsOf(xs).count > 0 then HeadAfter(xs, hash) else HeadAfter(ys, hash)
  {
    CountZero(xs);
    FirstOfConcat(xs, ys);
  }

  lemma {:induction false} FirstOfConcat(xs: seq<Envelope>, ys: seq<Envelope>)
    ensures FirstPayload(xs + ys) == if FirstPayload(xs) < |xs| then FirstPayload(xs) else |xs| + FirstPayload(ys)
    ensures FirstPayload(xs) < |xs| <==> !NoPayloads(xs)
  {
    var i, f, g := FirstPayload(xs + ys), FirstPayload(xs), FirstPayload(ys);
    assert forall j | 0 <= j < |xs| :: (xs + ys)[j] == xs[j];
    assert forall j | |xs| <= j < |xs| + |ys| :: (xs + ys)[j] == ys[j - |xs|];
    if f < |xs| {
      assert i == f;
    } else if g < |ys| {
      assert (xs + ys)[|xs| + g] == ys[g];
      assert i == |xs| + g;
    }
  }

  // ----- Splitting a stream into (device, window) cells -----

  /** The elements assigned to cell `k`, in order. */
  function Cell(es: seq<Envelope>, cells: seq<nat>, k: nat): (out: seq<Envelope>)
    requires |cells| == |es|
    ensures AllReadable(es) ==> AllReadable(out)
  {
    if es == [] then [] else
      var n := |es| - 1;
      assert AllReadable(es) ==> AllReadable(es[..n]);
      Cell(es[..n], cells[..n], k) + (if cells[n] == k then [es[n]] else [])
  }

  function CellTotals(es: seq<Envelope>, cells: seq<nat>): nat -> Totals
    requires |cells| == |es| && AllReadable(es)
  {
    (k: nat) => TotalsOf(Cell(es, cells, k))
  }

  /** The first `n` totals, combined. */
  function Combined(totals: nat -> Totals, n: nat): Totals {
    if n == 0 then NONE else Plus(Combined(totals, n - 1), totals(n - 1))
  }

  /** `after` is `before` and, if `here`, one more share. */
  predicate Grown(before: Totals, after: Totals, share: Totals, here: bool) {
    after == if here then Plus(before, share) else before
  }

  /** The totals of the last element's own cell grow by its share; the other cells' stay. */
  lemma {:induction false} OneCellGrows(es: seq<Envelope>, cells: seq<nat>, e: Envelope, c: nat, k: nat)
    requires |cells| == |es| && AllReadable(es) && (e.payload.Some? ==> Readable(e.payload.value))
    ensures AllReadable(es + [e])
    ensures Grown(TotalsOf(Cell(es, cells, k)), TotalsOf(Cell(es + [e], cells + [c], k)), ShareOf(e), c == k)
  {
    assert (es + [e])[|es|] == e;
    assert (es + [e])[..|es|] == es && (cells + [c])[..|es|] == cells;
    var cell := Cell(es, cells, k);
    if c == k {
      assert Cell(es + [e], cells + [c], k) == cell + [e];
      TotalsAppend(cell, e);
    } else {
      assert Cell(es + [e], cells + [c], k) == cell;
    }
  }

  lemma {:induction false} SumGrows(a: Totals, a': Totals, b: Totals, b': Totals, share: Totals, left: bool, right: bool)
    requires !(left && right) && Grown(a, a', share, left) && Grown(b, b', share, right)
    ensures Grown(Plus(a, b), Plus(a', b'), share, left || right)
  {
    Associates(a, b, share);
    Swap(a, share, b);
  }

  /** When one of the totals grows, so do all of them combined. */
  lemma {:induction false} CombinedGrows(f: nat -> Totals, g: nat -> Totals, share: Totals, c: nat, n: nat)
    requires forall k | 0 <= k < n :: Grown(f(k), g(k), share, c == k)
    ensures Grown(Combined(f, n), Combined(g, n), share, c < n)
  {
    if n > 0 {
      CombinedGrows(f, g, share, c, n - 1);
      SumGrows(Combined(f, n - 1), Combined(g, n - 1), f(n - 1), g(n - 1), share, c < n - 1, c == n - 1);
    }
  }

  lemma {:induction false} NothingAdded(a: Totals, b: Totals)
    requires a == NONE && b == NONE
    ensures Plus(a, b) == NONE
  {
  }

  lemma {:induction false} NothingCombined(f: nat -> Totals, n: nat)
    requires forall k | 0 <= k < n :: f(k) == NONE
    ensures Combined(f, n) == NONE
  {
    if n > 0 {
      NothingCombined(f, n - 1);
      NothingAdded(Combined(f, n - 1), f(n - 1));
    }
  }

  /** However the stream is split into cells, the cells' totals combine to the stream's: counts,
      distances, sensor sums and flags are conserved. */
  lemma {:induction false} CellsConserve(es: seq<Envelope>, cells: seq<nat>, n: nat)
    requires |cells| == |es| && AllReadable(es)
    requires forall i | 0 <= i < |cells| :: cells[i] < n
    ensures Combined(CellTotals(es, cells), n) == TotalsOf(es)
  {
    if es == [] {
      NothingCombined(CellTotals(es, cells), n);
    } else {
      var m := |es| - 1;
      var init, inits, e, c := es[..m], cells[..m], es[m], cells[m];
      assert es == init + [e] && cells == inits + [c];
      forall k | 0 <= k < n
        ensures Grown(CellTotals(init, inits)(k), CellTotals(es, cells)(k), ShareOf(e), c == k)
      {
        OneCellGrows(init, inits, e, c, k);
      }
      CombinedGrows(CellTotals(init, inits), CellTotals(es, cells), ShareOf(e), c, n);
      CellsConserve(init, inits, n);
    }
  }

  // ----- Flags -----

  /** The element reports a speed of more than 10 over the limit it reports. */
  predicate SpeedingEnvelope(e: Envelope) {
    && e.payload.Some? && e.payload.value.speed.Some? && e.payload.value.speedLimit.Some?
    && e.payload.value.speed.value > e.payload.value.speedLimit.value + 10.0
  }

  /** The element carries sensors of the type of device it names. */
  predicate FoodEnvelope(e: Envelope) {
    && e.payload.Some? && e.payload.value.deviceType == Some("food")
    && e.payload.value.sensors.Some? && e.payload.value.sensors.value.Food?
  }

  predicate ValuableEnvelope(e: Envelope) {
    && e.payload.Some? && e.payload.value.deviceType == Some("valuable")
    && e.payload.value.sensors.Some? && e.payload.value.sensors.value.Valuable?
  }

  predicate AlarmEnvelope(e: Envelope) {
    ValuableEnvelope(e) && e.payload.value.sensors.value.alarm
  }

  predicate CollisionEnvelope(e: Envelope) {
    ValuableEnvelope(e) && e.payload.value.sensors.value.collision
  }

  predicate Any(es: seq<Envelope>, f: Envelope -> bool) {
    exists i :: 0 <= i < |es| && f(es[i])
  }

  lemma {:induction false} AnyStep(es: seq<Envelope>, f: Envelope -> bool)
    requires es != []
    ensures Any(es, f) <==> Any(es[..|es| - 1], f) || f(es[|es| - 1])
  {
    var n := |es| - 1;
    assert forall i | 0 <= i < n :: es[..n][i] == es[i];
  }

  /** A flag of the window is set exactly when some element sets it. */
  lemma {:induction false} FlagsExactly(es: seq<Envelope>)
    requires AllReadable(es)
    ensures
      var t := TotalsOf(es);
      && (t.isPirate <==> Any(es, SpeedingEnvelope))
      && (t.alarm <==> Any(es, AlarmEnvelope))
      && (t.collision <==> Any(es, CollisionEnvelope))
      && (t.isFood <==> Any(es, FoodEnvelope))
      && (t.isValuable <==> Any(es, ValuableEnvelope))
  {
    if es != [] {
      FlagsExactly(es[..|es| - 1]);
      FlagsOfOne(es[|es| - 1]);
      AnyStep(es, SpeedingEnvelope);
      AnyStep(es, AlarmEnvelope);
      AnyStep(es, CollisionEnvelope);
      AnyStep(es, FoodEnvelope);
      AnyStep(es, ValuableEnvelope);
    }
  }

  lemma {:induction false} FlagsOfOne(e: Envelope)
    requires e.payload.Some? ==> Readable(e.payload.value)
    ensures ShareOf(e).isPirate <==> SpeedingEnvelope(e)
    ensures ShareOf(e).alarm <==> AlarmEnvelope(e)
    ensures ShareOf(e).collision <==> CollisionEnvelope(e)
    ensures ShareOf(e).isFood <==> FoodEnvelope(e)
    ensures ShareOf(e).isValuable <==> ValuableEnvelope(e)
  {
  }

  /** The elements with a payload, in order. */
  function Payloads(es: seq<Envelope>): (ps: seq<Payload>) {
    if es == [] then [] else
      var e := es[|es| - 1];
      Payloads(es[..|es| - 1]) + (if e.payload.Some? then [e.payload.value] else [])
  }

  function SumDeltas(ps: seq<Payload>): real {
    if ps == [] then 0.0 else SumDeltas(ps[..|ps| - 1]) + ps[|ps| - 1].deltaDistance
  }

  /** The count and the distance are those of the elements that have a payload. */
  lemma {:induction false} CountAndDistance(es: seq<Envelope>)
    requires AllReadable(es)
    ensures TotalsOf(es).count == |Payloads(es)| && TotalsOf(es).deltaSum == SumDeltas(Payloads(es))
  {
    if es != [] {
      var n := |es| - 1;
      CountAndDistance(es[..n]);
      if es[n].payload.Some? {
        var before := Payloads(es[..n]);
        assert (before + [es[n].payload.value])[..|before|] == before;
      } else {
        assert Payloads(es) == Payloads(es[..n]);
      }
    }
  }

  // ----- The record -----

  datatype Sensor = Humidity | Temperature | Pressure | Vibration

  function ReadingOf(e: Envelope, s: Sensor): Option<real> {
    if e.payload.None? || !Sensed(e.payload.value) then None else
      match e.payload.value.sensors.value
      case Food(t, h, p) =>
        (match s
         case Humidity => h
         case Temperature => t
         case Pressure => p
         case Vibration => None)
      case Valuable(_, _, v) => if s == Vibration then v else None
      case Foreign => None
  }

  function SumFor(t: Totals, s: Sensor): real {
    match s
    case Humidity => t.humidity
    case Temperature => t.temperature
    case Pressure => t.pressure
    case Vibration => t.vibration
  }

  /** How many elements carry a reading, and the readings' sum. */
  function Present(es: seq<Envelope>, s: Sensor): nat {
    if es == [] then 0 else
      Present(es[..|es| - 1], s) + (if ReadingOf(es[|es| - 1], s).Some? then 1 else 0)
  }

  function SumReadings(es: seq<Envelope>, s: Sensor): real {
    if es == [] then 0.0 else SumReadings(es[..|es| - 1], s) + OrZero(ReadingOf(es[|es| - 1], s))
  }

  lemma {:induction false} SumsAreOfReadings(es: seq<Envelope>, s: Sensor)
    requires AllReadable(es)
    ensures SumFor(TotalsOf(es), s) == SumReadings(es, s)
    ensures Present(es, s) <= TotalsOf(es).count
  {
    if es != [] {
      var n := |es| - 1;
      SumsAreOfReadings(es[..n], s);
      assert SumFor(ShareOf(es[n]), s) == OrZero(ReadingOf(es[n], s));
      assert ReadingOf(es[n], s).Some? ==> ShareOf(es[n]).count == 1;
    }
  }

  datatype Record =
    | FoodRecord(tag: string, routeHash: string, state: State, humidity: real, pressure: real, temperature: real)
    | ValuableRecord(tag: string, routeHash: string, state: State, vibration: real)
    | GenericRecord(tag: string, routeHash: string, state: State)

  function Average(t: Totals, s: Sensor): real
    requires t.count > 0
  {
    SumFor(t, s) / t.count as real
  }

  /** buildAggregatedRecord, with the printed payload as its fields. */
  function BuildRecord(s: State): Option<Record> {
    if s.totals.count == 0 then None
    else if s.totals.isFood then
      Some(FoodRecord(s.head.tag, s.head.routeHash, s, Average(s.totals, Humidity), Average(s.totals, Pressure),
                      Average(s.totals, Temperature)))
    else if s.totals.isValuable then
      Some(ValuableRecord(s.head.tag, s.head.routeHash, s, Average(s.totals, Vibration)))
    else Some(GenericRecord(s.head.tag, s.head.routeHash, s))
  }

  /** The kind of record a window calls for. Food wins over valuable when a window holds both. */
  ghost predicate KindFits(r: Record, es: seq<Envelope>) {
    match r
    case FoodRecord(_, _, _, _, _, _) => Any(es, FoodEnvelope)
    case ValuableRecord(_, _, _, _) => Any(es, ValuableEnvelope) && !Any(es, FoodEnvelope)
    case GenericRecord(_, _, _) => !Any(es, ValuableEnvelope) && !Any(es, FoodEnvelope)
  }

  predicate Averages(x: real, count: nat, sum: real) {
    x * count as real == sum
  }

  /** `x` times the count of the window is the sum of the sensor's readings. */
  predicate IsAverage(x: real, es: seq<Envelope>, s: Sensor)
    requires AllReadable(es)
  {
    Averages(x, TotalsOf(es).count, SumReadings(es, s))
  }

  /** Its sensor averages, each of its own sensor. */
  predicate AveragesFit(r: Record, es: seq<Envelope>)
    requires AllReadable(es)
  {
    match r
    case FoodRecord(_, _, _, humidity, pressure, temperature) =>
      IsAverage(humidity, es, Humidity) && IsAverage(pressure, es, Pressure) && IsAverage(temperature, es, Temperature)
    case ValuableRecord(_, _, _, vibration) => IsAverage(vibration, es, Vibration)
    case GenericRecord(_, _, _) => true
  }

  /** The fields that the first element with a payload gives. */
  predicate HeadFits(h: Head, e: Envelope, hash: (Coordinate, Coordinate) -> string) {
    && e.payload.Some? && e.payload.value.start.Some? && e.payload.value.end.Some?
    && h.tag == e.tag && h.deviceName == e.payload.value.deviceName
    && Some(h.speedLimit) == e.payload.value.speedLimit
    && h.routeHash == hash(e.payload.value.start.value, e.payload.value.end.value)
  }

  /** The fields that the last element gives. */
  predicate TailFits(t: Tail, e: Envelope) {
    && e.payload.Some? && t.status == e.payload.value.status
    && e.payload.value.speedStats == Numeric(t.speed)
    && e.payload.value.consumptionStats == Numeric(t.consumption)
  }

  /** The fields to which all elements add. */
  ghost predicate TotalsFit(t: Totals, es: seq<Envelope>) {
    && t.count == |Payloads(es)| && t.deltaSum == SumDeltas(Payloads(es))
    && (t.isPirate <==> Any(es, SpeedingEnvelope))
    && (t.alarm <==> Any(es, AlarmEnvelope))
    && (t.collision <==> Any(es, CollisionEnvelope))
  }

  /** Every processable window but the empty one gives a record, of the kind and with the averages
      that its elements call for; its other fields are the first payload's, the last payload's, or
      those of all elements together. */
  lemma {:induction false} RecordExactly(es: seq<Envelope>, hash: (Coordinate, Coordinate) -> string)
    requires Processable(es)
    ensures BuildRecord(StateOf(es, hash)).Some? <==> es != []
    ensures es != [] ==>
      var r := BuildRecord(StateOf(es, hash)).value;
      && KindFits(r, es) && AveragesFit(r, es)
      && FirstPayload(es) < |es|
      && HeadFits(r.state.head, es[FirstPayload(es)], hash)
      && TailFits(r.state.tail, es[|es| - 1])
      && TotalsFit(r.state.totals, es)
      && r.tag == r.state.head.tag && r.routeHash == r.state.head.routeHash
      && r.state == StateOf(es, hash)
  {
    CountZero(es);
    if es != [] {
      assert es[|es| - 1].payload.Some?;
      KindIsRight(es, hash);
      AveragesAreRight(es, hash);
      TotalsAreRight(es);
    }
  }

  lemma {:induction false} TotalsAreRight(es: seq<Envelope>)
    requires AllReadable(es)
    ensures TotalsFit(TotalsOf(es), es)
  {
    FlagsExactly(es);
    CountAndDistance(es);
  }

  lemma {:induction false} KindIsRight(es: seq<Envelope>, hash: (Coordinate, Coordinate) -> string)
    requires Processable(es) && TotalsOf(es).count > 0
    ensures KindFits(BuildRecord(StateOf(es, hash)).value, es)
  {
    FlagsExactly(es);
  }

  lemma {:induction false} AveragesAreRight(es: seq<Envelope>, hash: (Coordinate, Coordinate) -> string)
    requires Processable(es) && TotalsOf(es).count > 0
    ensures AveragesFit(BuildRecord(StateOf(es, hash)).value, es)
  {
    AverageTimes(es, Humidity);
    AverageTimes(es, Pressure);
    AverageTimes(es, Temperature);
    AverageTimes(es, Vibration);
  }

  lemma {:induction false} AverageTimes(es: seq<Envelope>, s: Sensor)
    requires AllReadable(es) && TotalsOf(es).count > 0
    ensures IsAverage(Average(TotalsOf(es), s), es, s)
  {
    SumsAreOfReadings(es, s);
    AverageOfSum(SumReadings(es, s), TotalsOf(es).count);
  }

  lemma {:induction false} AverageOfSum(sum: real, count: nat)
    requires count > 0
    ensures Averages(sum / count as real, count, sum)
  {
  }

  /** The average times the count is the sum of the readings. But the count includes elements
      without a reading, so the average is the mean of the readings that are present exactly when
      none is missing or they sum to zero. */
  predicate MeanExactly(average: real, count: nat, sum: real, present: nat) {
    && average * count as real == sum
    && (average * present as real == sum <==> present == count || sum == 0.0)
  }

  lemma {:induction false} QuotientMean(sum: real, count: nat, present: nat)
    requires count > 0 && present > 0
    ensures MeanExactly(sum / count as real, count, sum, present)
  {
    var a := sum / count as real;
    assert a * count as real == sum;
    if a * present as real == sum {
      assert a * (count as real - present as real) == 0.0;
    }
  }

  lemma {:induction false} AverageExactly(es: seq<Envelope>, s: Sensor)
    requires AllReadable(es) && Present(es, s) > 0
    ensures TotalsOf(es).count > 0
    ensures MeanExactly(Average(TotalsOf(es), s), TotalsOf(es).count, SumReadings(es, s), Present(es, s))
  {
    SumsAreOfReadings(es, s);
    QuotientMean(SumReadings(es, s), TotalsOf(es).count, Present(es, s));
  }

  predicate Within(e: Envelope, s: Sensor, lo: real, hi: real) {
    ReadingOf(e, s).Some? && lo <= ReadingOf(e, s).value <= hi
  }

  lemma {:induction false} SumWithin(es: seq<Envelope>, s: Sensor, lo: real, hi: real)
    requires AllReadable(es)
    requires forall i | 0 <= i < |es| && es[i].payload.Some? :: Within(es[i], s, lo, hi)
    ensures Bounded(SumReadings(es, s), TotalsOf(es).count, lo, hi)
  {
    if es != [] {
      var n := |es| - 1;
      SumWithin(es[..n], s, lo, hi);
      OneMore(SumReadings(es[..n], s), TotalsOf(es[..n]).count, lo, hi, ReadingOf(es[n], s));
      assert ShareOf(es[n]).count == if es[n].payload.Some? then 1 else 0;
    }
  }

  predicate Bounded(sum: real, n: nat, lo: real, hi: real) {
    n as real * lo <= sum <= n as real * hi
  }

  lemma {:induction false} OneMore(sum: real, n: nat, lo: real, hi: real, x: Option<real>)
    requires Bounded(sum, n, lo, hi) && (x.Some? ==> lo <= x.value <= hi)
    ensures Bounded(sum + OrZero(x), if x.Some? then n + 1 else n, lo, hi)
  {
    assert (n + 1) as real * lo == n as real * lo + lo;
    assert (n + 1) as real * hi == n as real * hi + hi;
  }

  /** When every element carries a reading between two bounds, so does the average. */
  lemma {:induction false} AverageWithin(es: seq<Envelope>, s: Sensor, lo: real, hi: real)
    requires AllReadable(es) && TotalsOf(es).count > 0
    requires forall i | 0 <= i < |es| && es[i].payload.Some? :: Within(es[i], s, lo, hi)
    ensures lo <= Average(TotalsOf(es), s) <= hi
  {
    SumsAreOfReadings(es, s);
    SumWithin(es, s, lo, hi);
    Between(SumReadings(es, s), TotalsOf(es).count, lo, hi);
  }

  lemma {:induction false} Between(sum: real, n: nat, lo: real, hi: real)
    requires n > 0 && Bounded(sum, n, lo, hi)
    ensures lo <= sum / n as real <= hi
  {
    var a := sum / n as real;
    assert n as real * a == sum;
    Cancel(n as real, lo, a);
    Cancel(n as real, a, hi);
  }

  lemma {:induction false} Cancel(n: real, x: real, y: real)
    requires n > 0.0 && n * x <= n * y
    ensures x <= y
  {
    assert n * (y - x) >= 0.0;
  }
}
