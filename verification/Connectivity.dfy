/** trackeroo-backend's connectivity store: one stream of connection events kept either as Redis
    hashes of strings or as structs in a map. */
module Connectivity {
  import opened Prelude
  import opened Words
  import opened Decimal

  /** Seconds since 1970 and nanoseconds within the second. */
  datatype Time = Time(sec: int64, nanos: nat)

  /** time.Unix(i, 0). */
  function FromUnix(i: int64): Time {
    Time(i, 0)
  }

  const EPOCH := FromUnix(0)

  /** Go's zero time, the start of year 1. */
  const ZERO_TIME := Time(-62135596800, 0)

  datatype DeviceStatus = DeviceStatus(connected: bool, lastConnection: Time, lastDisconnection: Time, lastIP: string)

  const ZERO_STATUS := DeviceStatus(false, ZERO_TIME, ZERO_TIME, "")

  /** A hash's fields; a field that is absent reads as the empty string. */
  type Hash = map<string, string>

  function Field(m: Hash, key: string): string {
    if key in m then m[key] else ""
  }

  const CONNECTED := "connected"
  const LAST_CONNECTION := "last_connection"
  const LAST_DISCONNECTION := "last_disconnection"
  const LAST_IP := "last_ip"

  function StructToMap(s: DeviceStatus): Hash {
    map[CONNECTED := FormatBool(s.connected)]
      + map[LAST_CONNECTION := FormatInt(s.lastConnection.sec)]
      + map[LAST_DISCONNECTION := FormatInt(s.lastDisconnection.sec)]
      + map[LAST_IP := s.lastIP]
  }

  function MapToStruct(m: Hash): Option<DeviceStatus> {
    var connected := ParseBool(Field(m, CONNECTED));
    var connection := ParseInt(Field(m, LAST_CONNECTION));
    var disconnection := ParseInt(Field(m, LAST_DISCONNECTION));
    if connected.None? || connection.None? || disconnection.None? then None
    else Some(DeviceStatus(connected.value, FromUnix(connection.value), FromUnix(disconnection.value), Field(m, LAST_IP)))
  }

  function Truncate(t: Time): Time {
    FromUnix(t.sec)
  }

  function TruncateStatus(s: DeviceStatus): DeviceStatus {
    s.(lastConnection := Truncate(s.lastConnection), lastDisconnection := Truncate(s.lastDisconnection))
  }

  lemma {:induction false} FieldNames()
    ensures CONNECTED != LAST_CONNECTION && CONNECTED != LAST_DISCONNECTION && CONNECTED != LAST_IP
    ensures LAST_CONNECTION != LAST_DISCONNECTION && LAST_CONNECTION != LAST_IP && LAST_DISCONNECTION != LAST_IP
  {
    assert |CONNECTED| == 9 && |LAST_CONNECTION| == 15 && |LAST_DISCONNECTION| == 18 && |LAST_IP| == 7;
  }

  lemma {:induction false} FieldsOf(s: DeviceStatus)
    ensures
      var m := StructToMap(s);
      && Field(m, CONNECTED) == FormatBool(s.connected)
      && Field(m, LAST_CONNECTION) == FormatInt(s.lastConnection.sec)
      && Field(m, LAST_DISCONNECTION) == FormatInt(s.lastDisconnection.sec)
      && Field(m, LAST_IP) == s.lastIP
      && m.Keys == {CONNECTED, LAST_CONNECTION, LAST_DISCONNECTION, LAST_IP}
  {
    FieldNames();
  }

  /** Through the strings and back, every status comes out as itself cut to whole seconds, before
      1970 as after. */
  lemma {:induction false} RoundTrip(s: DeviceStatus)
    ensures MapToStruct(StructToMap(s)) == Some(TruncateStatus(s))
  {
    FieldsOf(s);
    ParseOfFormatBool(s.connected);
    ParseOfFormat(s.lastConnection.sec);
    ParseOfFormat(s.lastDisconnection.sec);
  }

  // ----- The history both stores stand for -----

  datatype Event = Event(devID: string, ip: string, at: Time, connected: bool)

  predicate Seen(evs: seq<Event>, devID: string) {
    exists i :: 0 <= i < |evs| && evs[i].devID == devID
  }

  /** When the device last connected, or disconnected; the epoch if it never did. */
  function LastTime(evs: seq<Event>, devID: string, connected: bool): Time {
    if evs == [] then EPOCH else
      var e := evs[|evs| - 1];
      if e.devID == devID && e.connected == connected then e.at else LastTime(evs[..|evs| - 1], devID, connected)
  }

  function LastEvent(evs: seq<Event>, devID: string): Option<Event> {
    if evs == [] then None else
      var e := evs[|evs| - 1];
      if e.devID == devID then Some(e) else LastEvent(evs[..|evs| - 1], devID)
  }

  lemma {:induction false} SeenIsSome(evs: seq<Event>, devID: string)
    ensures Seen(evs, devID) <==> LastEvent(evs, devID).Some?
  {
    if evs != [] {
      var n := |evs| - 1;
      SeenIsSome(evs[..n], devID);
      assert forall i | 0 <= i < n :: evs[..n][i] == evs[i];
    }
  }

  /** The last event's flag and address, with the last times of both kinds; None when unseen. */
  function StatusOf(evs: seq<Event>, devID: string): Option<DeviceStatus> {
    match LastEvent(evs, devID)
    case None => None
    case Some(e) =>
      Some(DeviceStatus(e.connected, LastTime(evs, devID, true), LastTime(evs, devID, false), e.ip))
  }

  predicate Matches(e: Event, devID: string, connected: bool) {
    e.devID == devID && e.connected == connected
  }

  /** LastTime is the time of the last matching event, and the epoch just when there is none. */
  lemma {:induction false} LastTimeExactly(evs: seq<Event>, devID: string, connected: bool) returns (k: nat)
    ensures k <= |evs|
    ensures forall j | k < j < |evs| :: !Matches(evs[j], devID, connected)
    ensures if k < |evs| then Matches(evs[k], devID, connected) && LastTime(evs, devID, connected) == evs[k].at
            else LastTime(evs, devID, connected) == EPOCH && forall j | 0 <= j < |evs| :: !Matches(evs[j], devID, connected)
  {
    if evs == [] {
      k := 0;
    } else {
      var n := |evs| - 1;
      if Matches(evs[n], devID, connected) {
        k := n;
      } else {
        k := LastTimeExactly(evs[..n], devID, connected);
        assert forall j | 0 <= j < n :: evs[..n][j] == evs[j];
        k := if k == n then |evs| else k;
      }
    }
  }

  // ----- Each store's own update -----

  /** The status SetDeviceStatus writes: the event's own time, and `other` for the other kind. */
  function NewStatus(e: Event, other: Time): DeviceStatus {
    if e.connected then DeviceStatus(true, e.at, other, e.ip) else DeviceStatus(false, other, e.at, e.ip)
  }

  function OtherField(e: Event): string {
    if e.connected then LAST_DISCONNECTION else LAST_CONNECTION
  }

  ghost predicate RedisHolds(redis: map<string, Hash>, evs: seq<Event>) {
    forall d :: if StatusOf(evs, d).None? then d !in redis else d in redis && redis[d] == StructToMap(StatusOf(evs, d).value)
  }

  ghost predicate FallbackHolds(cache: map<string, DeviceStatus>, evs: seq<Event>) {
    forall d :: if StatusOf(evs, d).None? then d !in cache else d in cache && cache[d] == StatusOf(evs, d).value
  }

  /** One more event: only its own device's status changes, and of the times only its own kind. */
  lemma {:induction false} StatusAfter(evs: seq<Event>, e: Event, d: string)
    ensures StatusOf(evs + [e], d) ==
      if d != e.devID then StatusOf(evs, d) else Some(NewStatus(e, LastTime(evs, d, !e.connected)))
    ensures StatusOf(evs, d).None? ==> LastTime(evs, d, !e.connected) == EPOCH
  {
    assert (evs + [e])[..|evs|] == evs;
    NeverSeen(evs, d, !e.connected);
  }

  lemma {:induction false} NeverSeen(evs: seq<Event>, d: string, connected: bool)
    ensures LastEvent(evs, d).None? ==> LastTime(evs, d, connected) == EPOCH
  {
    if evs != [] { NeverSeen(evs[..|evs| - 1], d, connected); }
  }

  lemma {:induction false} SameSeconds(a: DeviceStatus, b: DeviceStatus)
    requires TruncateStatus(a) == TruncateStatus(b)
    ensures StructToMap(a) == StructToMap(b)
  {
  }

  /** HSet over an old hash of the same four fields leaves exactly the new ones. */
  lemma {:induction false} HashRewritten(evs: seq<Event>, d: string, hash: Hash, a: DeviceStatus, b: DeviceStatus)
    requires hash == map[] || (StatusOf(evs, d).Some? && hash == StructToMap(StatusOf(evs, d).value))
    requires TruncateStatus(a) == TruncateStatus(b)
    ensures hash + StructToMap(a) == StructToMap(b)
  {
    SameSeconds(a, b);
    FieldsOf(a);
    if hash != map[] { FieldsOf(StatusOf(evs, d).value); }
  }

  lemma {:induction false} RedisStep(redis: map<string, Hash>, evs: seq<Event>, e: Event, other: Time)
    requires RedisHolds(redis, evs) && other == Truncate(LastTime(evs, e.devID, !e.connected))
    ensures
      var hash := if e.devID in redis then redis[e.devID] else map[];
      RedisHolds(redis[e.devID := hash + StructToMap(NewStatus(e, other))], evs + [e])
  {
    var hash := if e.devID in redis then redis[e.devID] else map[];
    HashRewritten(evs, e.devID, hash, NewStatus(e, other), NewStatus(e, LastTime(evs, e.devID, !e.connected)));
    forall d ensures StatusOf(evs + [e], d) ==
        if d != e.devID then StatusOf(evs, d) else Some(NewStatus(e, LastTime(evs, d, !e.connected)))
    {
      StatusAfter(evs, e, d);
    }
  }

  lemma {:induction false} FallbackStep(cache: map<string, DeviceStatus>, evs: seq<Event>, e: Event)
    requires FallbackHolds(cache, evs)
    ensures FallbackHolds(cache[e.devID := NewStatus(e, LastTime(evs, e.devID, !e.connected))], evs + [e])
  {
    forall d ensures StatusOf(evs + [e], d) ==
        if d != e.devID then StatusOf(evs, d) else Some(NewStatus(e, LastTime(evs, d, !e.connected)))
    {
      StatusAfter(evs, e, d);
    }
  }

  /** What a single read reports of a history. */
  function Reported(evs: seq<Event>, devID: string, useFallback: bool): Option<DeviceStatus> {
    match StatusOf(evs, devID)
    case None => None
    case Some(s) => Some(if useFallback then s else TruncateStatus(s))
  }

  /** What the batch read reports: on the fallback path, nothing but zeros. */
  function BatchReported(evs: seq<Event>, devID: string, useFallback: bool): DeviceStatus {
    var single := Reported(evs, devID, useFallback);
    if useFallback || single.None? then ZERO_STATUS else single.value
  }

  /** `k` is the last event that matches, or there is none and `k` is past the end. */
  ghost predicate IsLast(evs: seq<Event>, devID: string, connected: bool, k: nat) {
    && k <= |evs| && (k < |evs| ==> Matches(evs[k], devID, connected))
    && forall j | 0 <= j < |evs| && (j > k || k == |evs|) :: !Matches(evs[j], devID, connected)
  }

  ghost predicate IsLatest(evs: seq<Event>, devID: string, k: nat) {
    && k < |evs| && evs[k].devID == devID
    && forall j | k < j < |evs| :: evs[j].devID != devID
  }

  /** The time of event `k`, cut to the second on the Redis path; 1970 if there is none. */
  function TimeShown(evs: seq<Event>, k: nat, useFallback: bool): Time {
    if k >= |evs| then Time(0, 0)
    else if useFallback then evs[k].at
    else Time(evs[k].at.sec, 0)
  }

  lemma {:induction false} LatestIsLast(evs: seq<Event>, devID: string) returns (k: nat)
    requires LastEvent(evs, devID).Some?
    ensures IsLatest(evs, devID, k) && LastEvent(evs, devID) == Some(evs[k])
  {
    var n := |evs| - 1;
    if evs[n].devID == devID {
      k := n;
    } else {
      k := LatestIsLast(evs[..n], devID);
      assert evs[..n][k] == evs[k];
      assert forall j | 0 <= j < n :: evs[..n][j] == evs[j];
    }
  }

  /** What a single read reports, from the events themselves: the flag and the address of the
      device's latest event, the time of its latest connection and of its latest disconnection;
      and nothing exactly for a device without events. */
  lemma {:induction false} ReportedExactly(evs: seq<Event>, devID: string, useFallback: bool)
      returns (k: nat, c: nat, d: nat)
    ensures Reported(evs, devID, useFallback).None? <==> forall j | 0 <= j < |evs| :: evs[j].devID != devID
    ensures Reported(evs, devID, useFallback).Some? ==>
      var s := Reported(evs, devID, useFallback).value;
      && IsLatest(evs, devID, k) && s.connected == evs[k].connected && s.lastIP == evs[k].ip
      && IsLast(evs, devID, true, c) && s.lastConnection == TimeShown(evs, c, useFallback)
      && IsLast(evs, devID, false, d) && s.lastDisconnection == TimeShown(evs, d, useFallback)
  {
    SeenIsSome(evs, devID);
    k := 0;
    if LastEvent(evs, devID).Some? { k := LatestIsLast(evs, devID); }
    c := LastTimeExactly(evs, devID, true);
    d := LastTimeExactly(evs, devID, false);
  }

  /** The strings kept in Redis for a status, field by field. */
  lemma {:induction false} HashInPlace(s: DeviceStatus)
    ensures
      var m := StructToMap(s);
      && m.Keys == {"connected", "last_connection", "last_disconnection", "last_ip"}
      && m["connected"] == (if s.connected then "true" else "false")
      && m["last_connection"] == FormatInt(s.lastConnection.sec)
      && m["last_disconnection"] == FormatInt(s.lastDisconnection.sec)
      && m["last_ip"] == s.lastIP
  {
    FieldsOf(s);
  }

  /** The last event was a disconnection from no address, and both last times are the start of
      year 1. */
  predicate LooksUnseen(evs: seq<Event>, devID: string) {
    match LastEvent(evs, devID)
    case None => false
    case Some(e) =>
      !e.connected && e.ip == ""
      && LastTime(evs, devID, true) == ZERO_TIME && LastTime(evs, devID, false) == ZERO_TIME
  }

  /** When the two reads agree, an unseen device reading as the zero status: always on the Redis
      path; on the fallback path only for a device that was never seen or looks it. */
  lemma {:induction false} ReadsAgreeExactly(evs: seq<Event>, devID: string, useFallback: bool)
    ensures
      var single := Reported(evs, devID, useFallback);
      BatchReported(evs, devID, useFallback) == (if single.Some? then single.value else ZERO_STATUS)
      <==> !useFallback || !Seen(evs, devID) || LooksUnseen(evs, devID)
  {
    SeenIsSome(evs, devID);
  }

  class ConnectivityCache {
    /** Chosen once, by whether Redis answered when the cache was initialised. */
    const useFallback: bool
    var redis: map<string, Hash>
    var fallback: map<string, DeviceStatus>
    ghost var history: seq<Event>

    ghost predicate Valid()
      reads this
    {
      if useFallback then FallbackHolds(fallback, history) else RedisHolds(redis, history)
    }

    constructor (useFallback: bool)
      ensures Valid() && history == [] && this.useFallback == useFallback
    {
      this.useFallback := useFallback;
      redis, fallback, history := map[], map[], [];
    }

    /** Both branches read the other kind of time back and rewrite the whole status. */
    method SetDeviceStatus(devID: string, ip: string, timestamp: Time, connected: bool)
      requires Valid()
      modifies this
      ensures Valid() && history == old(history) + [Event(devID, ip, timestamp, connected)]
    {
      var status := if connected then DeviceStatus(true, timestamp, EPOCH, ip) else DeviceStatus(false, EPOCH, timestamp, ip);
      ghost var e := Event(devID, ip, timestamp, connected);
      StatusAfter(history, e, devID);
      if !useFallback {
        var key := if connected then LAST_DISCONNECTION else LAST_CONNECTION;
        var other := ReadOther(devID, key, e);
        status := if connected then status.(lastDisconnection := other) else status.(lastConnection := other);
        assert status == NewStatus(e, other);
        RedisStep(redis, history, e, other);
        redis := redis[devID := (if devID in redis then redis[devID] else map[]) + StructToMap(status)];
      } else {
        if devID in fallback {
          var s := fallback[devID];
          status := if connected then status.(lastDisconnection := s.lastDisconnection)
                    else status.(lastConnection := s.lastConnection);
        }
        assert status == NewStatus(e, LastTime(history, devID, !connected));
        FallbackStep(fallback, history, e);
        fallback := fallback[devID := status];
      }
      history := history + [e];
    }

    /** HGet of the other kind's field, parsed; the epoch when it is missing or unreadable. */
    method ReadOther(devID: string, key: string, ghost e: Event) returns (t: Time)
      requires Valid() && !useFallback && e.devID == devID && key == OtherField(e)
      ensures t == Truncate(LastTime(history, devID, !e.connected))
    {
      StatusAfter(history, e, devID);
      t := EPOCH;
      if devID in redis {
        ghost var s := StatusOf(history, devID).value;
        FieldsOf(s);
        ParseOfFormat(LastTime(history, devID, !e.connected).sec);
        if key in redis[devID] {
          var i := ParseInt(redis[devID][key]);
          if i.Some? {
            t := FromUnix(i.value);
          }
        }
      }
    }

    /** The last event's flag and address and both last times, to the second on the Redis path;
        the zero status and an error for a device never seen. */
    method GetDeviceStatus(devID: string) returns (status: DeviceStatus, ok: bool)
      requires Valid()
      ensures ok <==> Reported(history, devID, useFallback).Some?
      ensures status == if ok then Reported(history, devID, useFallback).value else ZERO_STATUS
    {
      if !useFallback {
        var d := if devID in redis then redis[devID] else map[];
        if devID in redis { RoundTrip(StatusOf(history, devID).value); }
        var parsed := MapToStruct(d);
        match parsed
        case Some(s) => return s, true;
        case None => return ZERO_STATUS, false;
      } else {
        if devID in fallback {
          return fallback[devID], true;
        }
        return ZERO_STATUS, false;
      }
    }

    /** One entry of the batch read. */
    method ReadOne(id: string) returns (status: DeviceStatus, ok: bool)
      requires Valid()
      ensures ok && status == BatchReported(history, id, useFallback)
    {
      ok := true;
      if !useFallback {
        var d := if id in redis then redis[id] else map[];
        if id in redis {
          RoundTrip(StatusOf(history, id).value);
          FieldsOf(StatusOf(history, id).value);
          assert CONNECTED in d;
        }
        if |d| == 0 {
          return ZERO_STATUS, true;
        }
        var parsed := MapToStruct(d);
        if parsed.None? {
          return ZERO_STATUS, false;
        }
        return parsed.value, true;
      } else {
        // The test for nil is inverted: a status that is found is thrown away.
        if id in fallback {
          return ZERO_STATUS, true;
        }
        return ZERO_STATUS, true;
      }
    }

    /** The batch read. On the Redis path it agrees with single reads of devices seen, and an
        unseen device is no error; on the fallback path it knows no status at all. */
    method GetDevicesStatus(devIDs: seq<string>) returns (result: map<string, DeviceStatus>, ok: bool)
      requires Valid()
      ensures ok
      ensures forall d :: d in result <==> d in devIDs
      ensures forall d | d in result :: result[d] == BatchReported(history, d, useFallback)
    {
      result, ok := map[], true;
      for i := 0 to |devIDs|
        invariant ok
        invariant forall d :: d in result <==> d in devIDs[..i]
        invariant forall d | d in result :: result[d] == BatchReported(history, d, useFallback)
      {
        var status, read := ReadOne(devIDs[i]);
        ok := ok && read;
        result := result[devIDs[i] := status];
      }
    }
  }
}
