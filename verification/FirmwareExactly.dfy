/** What is enqueued, payload by payload and field by field, from the samples consumed and the
    moments at which the publish period had elapsed. */
module FirmwareExactly {
  import opened Driving
  import opened DriveFacts
  import StatVars
  import opened Firmware
  import opened FirmwareFacts

  /** Sample `k` is published: the period has elapsed, or its status is not that of the one before. */
  predicate Publishes(ps: seq<Position>, dues: seq<bool>, k: nat)
    requires |dues| == |ps| && k < |ps|
  {
    dues[k] || ps[k].status != (if k == 0 then Unset else ps[k - 1].status)
  }

  /** The samples that are published, in order. */
  function PublishedAt(ps: seq<Position>, dues: seq<bool>): (at: seq<nat>)
    requires |dues| == |ps|
    ensures forall j | 0 <= j < |at| :: at[j] < |ps|
    ensures forall j, k | 0 <= j < k < |at| :: at[j] < at[k]
  {
    if ps == [] then [] else
      var n := |ps| - 1;
      PublishedAt(ps[..n], dues[..n]) + (if Publishes(ps, dues, n) then [n] else [])
  }

  lemma {:induction false} PublishedAtExactly(ps: seq<Position>, dues: seq<bool>, k: nat)
    requires |dues| == |ps|
    ensures k in PublishedAt(ps, dues) <==> k < |ps| && Publishes(ps, dues, k)
  {
    if ps != [] {
      var n := |ps| - 1;
      PublishedAtExactly(ps[..n], dues[..n], k);
      if k < n {
        assert Publishes(ps[..n], dues[..n], k) == Publishes(ps, dues, k);
      }
    }
  }

  /** Where the window that ends at publication `j` begins. */
  function WindowStart(at: seq<nat>, j: nat): nat
    requires j <= |at|
  {
    if j == 0 then 0 else at[j - 1] + 1
  }

  /** `w` runs from after publication `j` - 1 to publication `j`. */
  predicate WindowFits(w: seq<Position>, ps: seq<Position>, at: seq<nat>, j: nat) {
    j < |at| && WindowStart(at, j) <= at[j] < |ps| && w == ps[WindowStart(at, j)..at[j] + 1]
  }

  predicate PendingFits(pending: seq<Position>, ps: seq<Position>, at: seq<nat>) {
    WindowStart(at, |at|) <= |ps| && pending == ps[WindowStart(at, |at|)..]
  }

  /** The windows run from each publication to the next, and what is pending from the last one on. */
  predicate LogFits(l: Log, ps: seq<Position>, at: seq<nat>) {
    && |l.windows| == |at|
    && (forall j | 0 <= j < |at| :: WindowFits(l.windows[j], ps, at, j))
    && PendingFits(l.pending, ps, at)
    && l.lastStatus == (if ps == [] then Unset else ps[|ps| - 1].status)
  }

  lemma {:induction false} WindowStays(w: seq<Position>, ps: seq<Position>, p: Position, at: seq<nat>, more: seq<nat>, j: nat)
    requires WindowFits(w, ps, at, j)
    ensures WindowFits(w, ps + [p], at + more, j)
  {
    assert (ps + [p])[WindowStart(at, j)..at[j] + 1] == ps[WindowStart(at, j)..at[j] + 1];
  }

  lemma {:induction false} WindowCloses(pending: seq<Position>, ps: seq<Position>, p: Position, at: seq<nat>)
    requires PendingFits(pending, ps, at)
    ensures WindowFits(pending + [p], ps + [p], at + [|ps|], |at|)
    ensures PendingFits([], ps + [p], at + [|ps|]) && PendingFits(pending + [p], ps + [p], at)
  {
    var all, start := ps + [p], WindowStart(at, |at|);
    assert WindowStart(at + [|ps|], |at|) == start;
    assert all[start..|ps| + 1] == all[start..] == pending + [p];
  }

  lemma {:induction false} LogFitsStep(l: Log, ps: seq<Position>, at: seq<nat>, p: Position, due: bool)
    requires LogFits(l, ps, at)
    ensures LogFits(Observe(l, p, due), ps + [p], at + (if due || l.lastStatus != p.status then [|ps|] else []))
  {
    var more := if due || l.lastStatus != p.status then [|ps|] else [];
    var n := Observe(l, p, due);
    forall j | 0 <= j < |at| ensures WindowFits(n.windows[j], ps + [p], at + more, j) {
      WindowStays(l.windows[j], ps, p, at, more, j);
    }
    WindowCloses(l.pending, ps, p, at);
    if more == [] { assert at + more == at; }
  }

  lemma {:induction false} WindowsExactly(ps: seq<Position>, dues: seq<bool>)
    requires |dues| == |ps|
    ensures LogFits(ObserveAll(NOTHING, ps, dues), ps, PublishedAt(ps, dues))
  {
    if ps != [] {
      var n := |ps| - 1;
      WindowsExactly(ps[..n], dues[..n]);
      var l := ObserveAll(NOTHING, ps[..n], dues[..n]);
      LogFitsStep(l, ps[..n], PublishedAt(ps[..n], dues[..n]), ps[n], dues[n]);
      assert ps == ps[..n] + [ps[n]];
    }
  }

  /** The statistics of these readings, but for the first one missing from the average. */
  predicate StatsFit(s: StatVars.Stats, xs: seq<real>) {
    && s.count == |xs| > 0
    && s.count as real * s.avg == StatVars.Sum(xs) - xs[0]
    && s.min in xs && s.max in xs && forall x | x in xs :: s.min <= x <= s.max
  }

  function SpeedsOf(w: seq<Position>): (xs: seq<real>)
    ensures |xs| == |w| && forall i | 0 <= i < |w| :: xs[i] == w[i].speed
  {
    Readings(w, Speed)
  }

  function ConsumptionsOf(w: seq<Position>): (xs: seq<real>)
    ensures |xs| == |w| && forall i | 0 <= i < |w| :: xs[i] == w[i].consumption
  {
    Readings(w, Consumption)
  }

  /** The fields of the window's last sample. */
  predicate FieldsFit(q: Payload, p: Position) {
    && q.at == p.at && q.speed == p.speed && q.speedLimit == p.speedLimit && q.status == p.status
    && q.start == p.start && q.end == p.end && q.consumption == p.consumption
  }

  /** The payload of a window: the fields of its last sample, and its statistics and distance. */
  predicate PayloadFits(q: Payload, w: seq<Position>) {
    && w != [] && FieldsFit(q, w[|w| - 1])
    && StatsFit(q.speedStats, SpeedsOf(w)) && StatsFit(q.consumptionStats, ConsumptionsOf(w))
    && q.deltaDistance == SumDistance(w)
  }

  lemma {:induction false} StatsAreRight(xs: seq<real>)
    requires xs != []
    ensures StatsFit(StatVars.StatsOf(xs), xs)
  {
    StatVars.StatsExactly(xs);
  }

  lemma {:induction false} PayloadIsRight(w: seq<Position>)
    requires w != []
    ensures PayloadFits(PayloadOf(w), w)
  {
    var q := PayloadOf(w);
    assert FieldsFit(q, w[|w| - 1]);
    assert StatsFit(q.speedStats, SpeedsOf(w)) by { StatsAreRight(SpeedsOf(w)); }
    assert StatsFit(q.consumptionStats, ConsumptionsOf(w)) by { StatsAreRight(ConsumptionsOf(w)); }
  }

  /** `q` stands for the samples from after publication `j` - 1 to publication `j`. */
  ghost predicate Describes(q: Payload, ps: seq<Position>, at: seq<nat>, j: nat) {
    j < |at| && WindowStart(at, j) <= at[j] < |ps| && PayloadFits(q, ps[WindowStart(at, j)..at[j] + 1])
  }

  lemma {:induction false} WindowDescribed(w: seq<Position>, ps: seq<Position>, at: seq<nat>, j: nat)
    requires WindowFits(w, ps, at, j) && w != []
    ensures Describes(PayloadOf(w), ps, at, j)
  {
    PayloadIsRight(w);
  }

  /** For any samples and any publish timing: there is one payload for each sample that is due or
      changes the status, in order, and it stands for the samples since the one before. */
  lemma {:induction false} PublishedExactly(ps: seq<Position>, dues: seq<bool>, qs: seq<Payload>)
    requires |dues| == |ps| && Represents(qs, ObserveAll(NOTHING, ps, dues).windows)
    ensures
      var at := PublishedAt(ps, dues);
      |qs| == |at| && forall j | 0 <= j < |at| :: Describes(qs[j], ps, at, j)
  {
    WindowsExactly(ps, dues);
    var at, ws := PublishedAt(ps, dues), ObserveAll(NOTHING, ps, dues).windows;
    forall j | 0 <= j < |at| ensures Describes(qs[j], ps, at, j) {
      WindowDescribed(ws[j], ps, at, j);
    }
  }

  /** The statuses that are enqueued. */
  function StatusesIn(qs: seq<Payload>): (out: seq<Status>)
    ensures |out| == |qs| && forall i | 0 <= i < |qs| :: out[i] == qs[i].status
  {
    if qs == [] then [] else StatusesIn(qs[..|qs| - 1]) + [qs[|qs| - 1].status]
  }

  lemma {:induction false} StatusesOfWindows(qs: seq<Payload>, ws: seq<seq<Position>>)
    requires Represents(qs, ws)
    ensures StatusesIn(qs) == PublishedStatuses(ws)
  {
    if qs != [] {
      var n := |qs| - 1;
      StatusesOfWindows(qs[..n], ws[..n]);
      PayloadIsRight(ws[n]);
    }
  }

  /** The statuses in the payloads, with repeats removed, are the consumed ones with repeats
      removed; and the last of each is the one the loop keeps. */
  lemma {:induction false} PayloadsFaithful(ps: seq<Position>, dues: seq<bool>, qs: seq<Payload>)
    requires |dues| == |ps| && forall i | 0 <= i < |ps| :: ps[i].status != Unset
    requires Represents(qs, ObserveAll(NOTHING, ps, dues).windows)
    ensures Faithful(ObserveAll(NOTHING, ps, dues).lastStatus, StatusesIn(qs), Statuses(ps))
  {
    StatusesFaithful(ps, dues);
    StatusesOfWindows(qs, ObserveAll(NOTHING, ps, dues).windows);
  }

  /** Over any routes, then, the payloads tell every status simulated, in order, ARRIVED too. */
  lemma {:induction false} RoutesPublished(sims: seq<Simulator>, dues: seq<bool>, qs: seq<Payload>)
    requires forall i | 0 <= i < |sims| :: Valid(sims[i])
    requires |dues| == |Drives(sims)| && Represents(qs, ObserveAll(NOTHING, Drives(sims), dues).windows)
    ensures Dedup(StatusesIn(qs)) == Dedup(Statuses(Drives(sims)))
  {
    DrivesHaveStatuses(sims);
    PayloadsFaithful(Drives(sims), dues, qs);
  }
}
