/** flink_job's AggregationHandler: the fold over one window of envelopes, with reals for
    doubles, and the record built from it. */
module Window {
  import opened Prelude

  datatype Coordinate = Coordinate(lat: real, lon: real)

  /** The sensors object as mapper.convertValue sees it: its fields fit one class, or neither. */
  datatype Sensors =
    | Food(temperature: Option<real>, humidity: Option<real>, pressure: Option<real>)
    | Valuable(alarm: bool, collision: bool, vibration: Option<real>)
    | Foreign

  datatype Stats = Stats(avg: real, min: real, max: real)

  /** A statistics map, whose missing keys read as zero; or one with a value that is no number. */
  datatype StatsMap = Numeric(stats: Stats) | Odd

  /** None stands for Java's null. */
  datatype Payload = Payload(
    speed: Option<real>, speedLimit: Option<real>, deviceType: Option<string>, deviceName: string,
    status: string, sensors: Option<Sensors>, start: Option<Coordinate>, end: Option<Coordinate>,
    deltaDistance: real, speedStats: StatsMap, consumptionStats: StatsMap)

  datatype Envelope = Envelope(tag: string, payload: Option<Payload>)

  /** The part of AggregationState that every element adds to. */
  datatype Totals = Totals(
    count: nat, deltaSum: real, vibration: real, humidity: real, temperature: real, pressure: real,
    collision: bool, alarm: bool, isFood: bool, isValuable: bool, isPirate: bool)

  const NONE := Totals(0, 0.0, 0.0, 0.0, 0.0, 0.0, false, false, false, false, false)

  /** The part set by the first element with a payload. */
  datatype Head = Head(speedLimit: real, deviceName: string, tag: string, routeHash: string)

  const BLANK := Head(0.0, " ", " ", " ")

  /** The part set by the last element. */
  datatype Tail = Tail(status: string, speed: Stats, consumption: Stats)

  const STILL := Tail(" ", Stats(0.0, 0.0, 0.0), Stats(0.0, 0.0, 0.0))

  datatype State = State(totals: Totals, head: Head, tail: Tail)

  function OrZero(x: Option<real>): real {
    match x
    case Some(v) => v
    case None => 0.0
  }

  /** speed > speed_limit + 10. */
  predicate Speeding(speed: real, limit: real) {
    speed > limit + 10.0
  }

  /** No field that the loop unboxes or calls into is null, and the sensors fit the device. */
  predicate Readable(p: Payload) {
    && p.speed.Some? && p.speedLimit.Some? && p.deviceType.Some?
    && (p.sensors.Some? ==>
          && (p.deviceType.value == "food" ==> p.sensors.value.Food?)
          && (p.deviceType.value == "valuable" ==> p.sensors.value.Valuable?))
  }

  /** What every payload adds. */
  function Base(speed: real, limit: real, deltaDistance: real): Totals {
    NONE.(count := 1, deltaSum := deltaDistance, isPirate := Speeding(speed, limit))
  }

  /** What the sensors of a food or valuable device add. */
  function SensorShare(s: Sensors): Totals {
    match s
    case Food(t, h, p) => NONE.(isFood := true, temperature := OrZero(t), humidity := OrZero(h), pressure := OrZero(p))
    case Valuable(a, c, v) => NONE.(isValuable := true, alarm := a, collision := c, vibration := OrZero(v))
    case Foreign => NONE
  }

  predicate Sensed(p: Payload) {
    p.sensors.Some? && p.deviceType.Some? && (p.deviceType.value == "food" || p.deviceType.value == "valuable")
  }

  /** What one payload adds. */
  function Share(p: Payload): Totals
    requires Readable(p)
  {
    Plus(Base(p.speed.value, p.speedLimit.value, p.deltaDistance), if Sensed(p) then SensorShare(p.sensors.value) else NONE)
  }

  function ShareOf(e: Envelope): Totals
    requires e.payload.Some? ==> Readable(e.payload.value)
  {
    match e.payload
    case Some(p) => Share(p)
    case None => NONE
  }

  function Plus(a: Totals, b: Totals): Totals {
    Totals(a.count + b.count, a.deltaSum + b.deltaSum, a.vibration + b.vibration, a.humidity + b.humidity,
           a.temperature + b.temperature, a.pressure + b.pressure,
           a.collision || b.collision, a.alarm || b.alarm, a.isFood || b.isFood, a.isValuable || b.isValuable,
           a.isPirate || b.isPirate)
  }

  predicate AllReadable(es: seq<Envelope>) {
    forall i | 0 <= i < |es| && es[i].payload.Some? :: Readable(es[i].payload.value)
  }

  function TotalsOf(es: seq<Envelope>): Totals
    requires AllReadable(es)
  {
    if es == [] then NONE else Plus(TotalsOf(es[..|es| - 1]), ShareOf(es[|es| - 1]))
  }

  /** Position of the first element with a payload. */
  function FirstPayload(es: seq<Envelope>): (i: nat)
    ensures i <= |es|
    ensures forall j | 0 <= j < i :: es[j].payload.None?
    ensures i < |es| ==> es[i].payload.Some?
  {
    if es == [] || es[0].payload.Some? then 0 else
      var i := 1 + FirstPayload(es[1..]);
      assert forall j | 1 <= j < i :: es[j] == es[1..][j - 1];
      i
  }

  predicate HasRoute(p: Payload) {
    p.start.Some? && p.end.Some?
  }

  /** `hash` stands for SHA-256 of the printed coordinates, cut to 16 hex digits. */
  function HeadOf(e: Envelope, hash: (Coordinate, Coordinate) -> string): Head
    requires e.payload.Some? && e.payload.value.speedLimit.Some? && HasRoute(e.payload.value)
  {
    var p := e.payload.value;
    Head(p.speedLimit.value, p.deviceName, e.tag, hash(p.start.value, p.end.value))
  }

  /** No statistic that is read from the payload makes the cast to Number fail. */
  predicate Castable(p: Payload) {
    p.speedStats.Numeric? && p.consumptionStats.Numeric?
  }

  function TailOf(p: Payload): Tail
    requires Castable(p)
  {
    Tail(p.status, p.speedStats.stats, p.consumptionStats.stats)
  }

  /** The last element has a payload, and its statistics are numbers. */
  predicate Ended(es: seq<Envelope>) {
    es != [] ==> es[|es| - 1].payload.Some? && Castable(es[|es| - 1].payload.value)
  }

  /** The window goes through without an exception. */
  predicate Processable(es: seq<Envelope>) {
    && AllReadable(es)
    && Routed(es)
    && Ended(es)
  }

  predicate Routed(es: seq<Envelope>) {
    FirstPayload(es) < |es| ==>
      HasRoute(es[FirstPayload(es)].payload.value) && es[FirstPayload(es)].payload.value.speedLimit.Some?
  }

  /** The loop body throws on it: a null that is unboxed or called, or sensors that do not fit. */
  predicate Throws(e: Envelope) {
    && e.payload.Some?
    && (|| e.payload.value.speed == None || e.payload.value.speedLimit == None || e.payload.value.deviceType == None
        || (e.payload.value.deviceType == Some("food")
            && e.payload.value.sensors.Some? && !e.payload.value.sensors.value.Food?)
        || (e.payload.value.deviceType == Some("valuable")
            && e.payload.value.sensors.Some? && !e.payload.value.sensors.value.Valuable?))
  }

  /** It is the first element with a payload. */
  ghost predicate IsFirst(es: seq<Envelope>, i: nat) {
    i < |es| && es[i].payload.Some? && forall j | 0 <= j < i :: es[j].payload.None?
  }

  /** Which windows go through, element by element: none throws, the first payload has a start and
      an end, and the last element has a payload whose statistics are numbers. */
  lemma {:induction false} ProcessableExactly(es: seq<Envelope>)
    ensures Processable(es) <==>
      && (forall i | 0 <= i < |es| :: !Throws(es[i]))
      && (forall i: nat | IsFirst(es, i) ::
            es[i].payload.value.start != None && es[i].payload.value.end != None)
      && (es != [] ==>
            && es[|es| - 1].payload.Some?
            && es[|es| - 1].payload.value.speedStats.Numeric? && es[|es| - 1].payload.value.consumptionStats.Numeric?)
  {
    forall i: nat | IsFirst(es, i) ensures FirstPayload(es) == i {
      assert FirstPayload(es) <= i;
    }
    if FirstPayload(es) < |es| { assert IsFirst(es, FirstPayload(es)); }
    assert AllReadable(es) <==> forall i | 0 <= i < |es| :: !Throws(es[i]);
  }

  function HeadAfter(es: seq<Envelope>, hash: (Coordinate, Coordinate) -> string): Head
    requires Routed(es)
  {
    if FirstPayload(es) < |es| then HeadOf(es[FirstPayload(es)], hash) else BLANK
  }

  function TailAfter(es: seq<Envelope>): Tail
    requires Ended(es)
  {
    if es == [] then STILL else TailOf(es[|es| - 1].payload.value)
  }

  function StateOf(es: seq<Envelope>, hash: (Coordinate, Coordinate) -> string): State
    requires Processable(es)
  {
    State(TotalsOf(es), HeadAfter(es, hash), TailAfter(es))
  }

  /** The mutable accumulator. */
  class AggregationState {
    var totals: Totals
    var head: Head
    var tail: Tail
    var last: Option<Envelope>

    constructor ()
      ensures totals == NONE && head == BLANK && tail == STILL && last == None
    {
      totals, head, tail, last := NONE, BLANK, STILL, None;
    }

    method SetHead(p: Payload, tag: string, hash: (Coordinate, Coordinate) -> string) returns (ok: bool)
      modifies this`head
      ensures ok == (p.speedLimit.Some? && HasRoute(p))
      ensures ok ==> head == Head(p.speedLimit.value, p.deviceName, tag, hash(p.start.value, p.end.value))
    {
      if p.speedLimit.None? {
        return false;
      }
      if p.start.None? || p.end.None? {
        return false;
      }
      head := Head(p.speedLimit.value, p.deviceName, tag, hash(p.start.value, p.end.value));
      return true;
    }

    /** The pirate check, the count and the distance. */
    method AddBase(speed: real, limit: real, deltaDistance: real)
      modifies this`totals
      ensures totals == Plus(old(totals), Base(speed, limit, deltaDistance))
    {
      if speed > limit + 10.0 {
        totals := totals.(isPirate := true);
      }
      totals := totals.(count := totals.count + 1, deltaSum := totals.deltaSum + deltaDistance);
    }

    method AddFood(s: Sensors)
      requires s.Food?
      modifies this`totals
      ensures totals == Plus(old(totals), SensorShare(s))
    {
      totals := totals.(isFood := true);
      if s.humidity.Some? { totals := totals.(humidity := totals.humidity + s.humidity.value); }
      if s.pressure.Some? { totals := totals.(pressure := totals.pressure + s.pressure.value); }
      if s.temperature.Some? { totals := totals.(temperature := totals.temperature + s.temperature.value); }
    }

    method AddValuable(s: Sensors)
      requires s.Valuable?
      modifies this`totals
      ensures totals == Plus(old(totals), SensorShare(s))
    {
      totals := totals.(isValuable := true);
      if s.collision { totals := totals.(collision := true); }
      if s.alarm { totals := totals.(alarm := true); }
      if s.vibration.Some? { totals := totals.(vibration := totals.vibration + s.vibration.value); }
    }

    /** One payload. False stands for the exception it throws. */
    method Accumulate(p: Payload) returns (ok: bool)
      modifies this`totals
      ensures ok == Readable(p)
      ensures ok ==> totals == Plus(old(totals), Share(p))
    {
      if p.speed.None? || p.speedLimit.None? {
        return false;
      }
      AddBase(p.speed.value, p.speedLimit.value, p.deltaDistance);
      if p.deviceType.None? {
        return false;
      }
      if p.deviceType.value == "food" && p.sensors.Some? {
        if !p.sensors.value.Food? {
          return false;
        }
        AddFood(p.sensors.value);
      } else if p.deviceType.value == "valuable" && p.sensors.Some? {
        if !p.sensors.value.Valuable? {
          return false;
        }
        AddValuable(p.sensors.value);
      }
      return true;
    }

    /** The body of the loop over the window. */
    method Process(env: Envelope, hash: (Coordinate, Coordinate) -> string) returns (ok: bool)
      modifies this
      ensures ok <==> (env.payload.Some? ==>
        Readable(env.payload.value) && (old(totals).count == 0 ==> HasRoute(env.payload.value)))
      ensures ok ==> totals == Plus(old(totals), ShareOf(env))
      ensures ok ==> head == if env.payload.Some? && old(totals).count == 0 then HeadOf(env, hash) else old(head)
      ensures tail == old(tail) && last == Some(env)
    {
      last := Some(env);
      if env.payload.Some? {
        var p := env.payload.value;
        if totals.count == 0 {
          var headSet := SetHead(p, env.tag, hash);
          if !headSet {
            return false;
          }
        }
        var added := Accumulate(p);
        return added;
      }
      return true;
    }
  }

  lemma {:induction false} ReadablePrefix(es: seq<Envelope>, n: nat)
    requires n < |es|
    ensures AllReadable(es[..n + 1]) <==>
      AllReadable(es[..n]) && (es[n].payload.Some? ==> Readable(es[n].payload.value))
    ensures AllReadable(es[..n + 1]) ==> TotalsOf(es[..n + 1]) == Plus(TotalsOf(es[..n]), ShareOf(es[n]))
  {
    assert es[..n + 1][..n] == es[..n];
    assert forall i | 0 <= i < n :: es[..n + 1][i] == es[..n][i];
  }

  predicate NoPayloads(es: seq<Envelope>) {
    forall i | 0 <= i < |es| :: es[i].payload.None?
  }

  lemma {:induction false} CountZero(es: seq<Envelope>)
    requires AllReadable(es)
    ensures TotalsOf(es).count == 0 <==> NoPayloads(es)
  {
    if es != [] {
      var n := |es| - 1;
      var init, e := es[..n], es[n];
      CountZero(init);
      assert NoPayloads(es) <==> NoPayloads(init) && e.payload.None? by {
        assert es == init + [e];
      }
      assert ShareOf(e).count == if e.payload.None? then 0 else 1;
    }
  }

  /** The head is set by element `i` just when no earlier one has a payload. */
  lemma {:induction false} FirstIsHere(es: seq<Envelope>, i: nat)
    requires i < |es| && AllReadable(es[..i]) && es[i].payload.Some?
    ensures TotalsOf(es[..i]).count == 0 <==> FirstPayload(es) == i
    ensures FirstPayload(es) <= i
  {
    CountZero(es[..i]);
    var first := FirstPayload(es);
    assert first < i ==> es[..i][first].payload.Some?;
  }

  /** The state after the first `i` elements, none of which made the loop throw. */
  ghost predicate Folded(es: seq<Envelope>, i: nat, hash: (Coordinate, Coordinate) -> string, totals: Totals, head: Head)
    requires i <= |es|
  {
    var first := FirstPayload(es);
    && AllReadable(es[..i]) && totals == TotalsOf(es[..i])
    && (first < i ==> HasRoute(es[first].payload.value) && es[first].payload.value.speedLimit.Some?)
    && head == if first < i then HeadOf(es[first], hash) else BLANK
  }

  /** Process does not throw on this element, the count being `count`. */
  predicate Passes(env: Envelope, count: nat) {
    env.payload.Some? ==> Readable(env.payload.value) && (count == 0 ==> HasRoute(env.payload.value))
  }

  lemma {:induction false} FoldOne(es: seq<Envelope>, i: nat, hash: (Coordinate, Coordinate) -> string, totals: Totals, head: Head)
    requires i < |es| && Folded(es, i, hash, totals, head) && Passes(es[i], totals.count)
    ensures
      Folded(es, i + 1, hash, Plus(totals, ShareOf(es[i])),
             if es[i].payload.Some? && totals.count == 0 then HeadOf(es[i], hash) else head)
  {
    ReadablePrefix(es, i);
    if es[i].payload.Some? { FirstIsHere(es, i); }
  }

  lemma {:induction false} FoldThrows(es: seq<Envelope>, i: nat, hash: (Coordinate, Coordinate) -> string, totals: Totals, head: Head)
    requires i < |es| && Folded(es, i, hash, totals, head) && !Passes(es[i], totals.count)
    ensures !Processable(es)
  {
    FirstIsHere(es, i);
    assert AllReadable(es) ==> Readable(es[i].payload.value);
  }

  lemma {:induction false} FoldAll(es: seq<Envelope>, hash: (Coordinate, Coordinate) -> string, totals: Totals, head: Head)
    requires Folded(es, |es|, hash, totals, head)
    ensures Processable(es) <==> Ended(es)
    ensures Ended(es) ==> State(totals, head, TailAfter(es)) == StateOf(es, hash)
  {
    assert es[..|es|] == es;
  }

  /** processElements: it throws exactly on the windows that are not Processable, and otherwise
      leaves the state that the window as a whole determines. */
  method ProcessElements(es: seq<Envelope>, hash: (Coordinate, Coordinate) -> string)
    returns (state: AggregationState, ok: bool)
    ensures fresh(state)
    ensures ok <==> Processable(es)
    ensures ok ==> State(state.totals, state.head, state.tail) == StateOf(es, hash)
  {
    state := new AggregationState();
    for i := 0 to |es|
      invariant Folded(es, i, hash, state.totals, state.head) && state.tail == STILL
      invariant state.last == if i == 0 then None else Some(es[i - 1])
    {
      ghost var totals, head := state.totals, state.head;
      ok := state.Process(es[i], hash);
      if !ok {
        FoldThrows(es, i, hash, totals, head);
        return;
      }
      FoldOne(es, i, hash, totals, head);
    }
    FoldAll(es, hash, state.totals, state.head);
    match state.last {
      case Some(env) =>
        if env.payload.None? {
          return state, false;
        }
        if env.payload.value.consumptionStats.Odd? || env.payload.value.speedStats.Odd? {
          return state, false;
        }
        state.tail := TailOf(env.payload.value);
      case None =>
    }
    return state, true;
  }
}
