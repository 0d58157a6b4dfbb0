/** brokeroo: the message handler with its stores, run alone. */
module Brokeroo {
  import opened Prelude
  import opened GoStrings
  import opened TopicPath
  import opened FirstWrite

  /** A JSON value, and the Go value encoding/json decodes it to when the target is `any`. */
  datatype Json = JNull | JBool(b: bool) | JNumber(r: real) | JString(s: string) | JArray | JObject
  datatype GoValue = Nil | Bool(b: bool) | Float64(r: real) | Int64(i: int) | Str(s: string) | Slice | Map

  function Decode(j: Json): GoValue {
    match j
    case JNull => Nil
    case JBool(b) => Bool(b)
    case JNumber(r) => Float64(r)
    case JString(s) => Str(s)
    case JArray => Slice
    case JObject => Map
  }

  /** One MQTT message; `body` is None when json.Unmarshal into a map fails on the payload. */
  datatype Message = Message(topic: string, payload: string, body: Option<map<string, Json>>)

  predicate WellFormed(m: Message) {
    ParseTopic(m.topic).Some? && m.body.Some?
  }

  /** data["ts"].(int64), or the current second when the assertion fails. */
  function RowSecond(body: map<string, Json>, now: int): int {
    var v := if "ts" in body then Decode(body["ts"]) else Nil;
    if v.Int64? then v.i else now
  }

  datatype Envelope = Envelope(tsUnix: int, devID: string, tag: string, payload: string)
  datatype Forward = Forward(topic: string, envelope: Envelope)

  function RowOf(m: Message, now: int): Insertion
    requires WellFormed(m)
  {
    var s := ParseTopic(m.topic).value;
    Insertion(Key(RowSecond(m.body.value, now), s.devID), Entry(s.tag, m.payload))
  }

  function ForwardOf(m: Message, now: int): Forward
    requires WellFormed(m)
  {
    var s := ParseTopic(m.topic).value;
    Forward(SanitizeTopic(m.topic), Envelope(RowSecond(m.body.value, now), s.devID, s.tag, m.payload))
  }

  /** The device's own timestamp is never used: every row is keyed by the second in which the
      handler ran, whatever the payload says. */
  lemma {:induction false} KeyedByReceiveSecond(m: Message, now: int)
    requires WellFormed(m)
    ensures RowOf(m, now).key == Key(now, ParseTopic(m.topic).value.devID)
    ensures ForwardOf(m, now).envelope.tsUnix == now
  {
    var body := m.body.value;
    assert "ts" in body ==> !Decode(body["ts"]).Int64?;
  }

  /** The shape of a topic that is let through: j/data/DEVID/TAG. */
  predicate Addressed(topic: string, devID: string, tag: string) {
    Free(devID, '/') && Free(tag, '/') && topic == "j/data/" + devID + "/" + tag
  }

  lemma {:induction false} AddressedParses(topic: string, devID: string, tag: string)
    ensures ParseTopic(topic) == Some(Source(devID, tag)) <==> Addressed(topic, devID, tag)
  {
    ParseInvertsTopic(topic, devID, tag);
    NamesInPlace(devID, tag, "");
  }

  /** What is well-formed, from the topic's letters. */
  lemma {:induction false} WellFormedExactly(m: Message)
    ensures WellFormed(m) <==> m.body.Some? && exists devID, tag :: Addressed(m.topic, devID, tag)
  {
    if ParseTopic(m.topic).Some? {
      var s := ParseTopic(m.topic).value;
      AddressedParses(m.topic, s.devID, s.tag);
    }
    if devID, tag :| Addressed(m.topic, devID, tag) {
      AddressedParses(m.topic, devID, tag);
    }
  }

  /** The row and the Kafka message, every field from the message as it was sent. */
  lemma {:induction false} FieldsInPlace(m: Message, now: int, devID: string, tag: string)
    requires Addressed(m.topic, devID, tag) && m.body.Some?
    ensures WellFormed(m)
    ensures RowOf(m, now) == Insertion(Key(now, devID), Entry(tag, m.payload))
    ensures ForwardOf(m, now) == Forward("j-data-" + devID + "-" + tag, Envelope(now, devID, tag, m.payload))
  {
    AddressedParses(m.topic, devID, tag);
    KeyedByReceiveSecond(m, now);
    SanitizedForm(m.topic);
    NamesInPlace(devID, tag, m.payload);
  }

  /** How one call to a store goes. A call may fail after it has taken effect. */
  datatype Outcome = Outcome(ok: bool, applied: bool)

  predicate Possible(o: Outcome) {
    o.ok ==> o.applied
  }

  datatype Creation = Created | AlreadyExists | Failed(created: bool)

  predicate Creates(c: Creation) {
    c.Created? || (c.Failed? && c.created)
  }

  /** What the stores take at all: payloads that the JSONB column can hold, names that Kafka gives
      topics, and envelopes that the writer's batches have room for. */
  datatype Rules = Rules(storable: string -> bool, nameable: string -> bool, writable: Forward -> bool)

  /** Nothing stands in the way of a message parsed at second `now` but what failures come and go. */
  predicate AcceptedAt(r: Rules, m: Message, now: int)
    requires WellFormed(m)
  {
    r.storable(m.payload) && r.nameable(SanitizeTopic(m.topic)) && r.writable(ForwardOf(m, now))
  }

  ghost predicate Acceptable(r: Rules, m: Message)
    requires WellFormed(m)
  {
    exists now :: AcceptedAt(r, m, now)
  }

  /** Everything outside one handler, and how the handler's calls go. */
  datatype Stores = Stores(data: Data, topics: set<string>, known: set<string>, forwarded: seq<Forward>)
  datatype Calls = Calls(now: int, insert: Outcome, create: Creation, write: Outcome)

  /** The calls can go that way: success means taken effect, and only a topic that exists is
      reported to. */
  predicate PossibleCalls(c: Calls, m: Message, topics: set<string>) {
    && Possible(c.insert) && Possible(c.write)
    && (c.create.AlreadyExists? ==> SanitizeTopic(m.topic) in topics)
  }

  /** No call takes effect that the rules refuse. */
  predicate Permitted(r: Rules, m: Message, c: Calls) {
    WellFormed(m) ==>
      && (c.insert.applied ==> r.storable(m.payload))
      && (Creates(c.create) ==> r.nameable(SanitizeTopic(m.topic)))
      && (c.write.applied ==> r.writable(ForwardOf(m, c.now)))
  }

  /** A malformed message is acked and changes nothing. A well-formed one is acked exactly when
      every call succeeded; each effect happens only after those before it. */
  predicate Handled(b: Stores, n: Stores, m: Message, c: Calls, acked: bool) {
    if !WellFormed(m) then acked && n == b else
      var topic := SanitizeTopic(m.topic);
      var ensured := c.insert.ok && (topic in b.known || !c.create.Failed?);
      && (acked <==> ensured && c.write.ok)
      && n.data == (if c.insert.applied then FirstWrite.Insert(b.data, RowOf(m, c.now)) else b.data)
      && n.topics == (if c.insert.ok && topic !in b.known && Creates(c.create) then b.topics + {topic} else b.topics)
      && n.known == (if ensured then b.known + {topic} else b.known)
      && n.forwarded == (if ensured && c.write.applied then b.forwarded + [ForwardOf(m, c.now)] else b.forwarded)
  }

  /** The effects of a handler, written from the message as it was sent. */
  lemma {:induction false} HandledInPlace(b: Stores, n: Stores, m: Message, c: Calls, acked: bool, devID: string, tag: string)
    requires Handled(b, n, m, c, acked) && Addressed(m.topic, devID, tag) && m.body.Some?
    ensures
      var key := Key(c.now, devID);
      n.data == if c.insert.applied && key !in b.data then b.data[key := Entry(tag, m.payload)] else b.data
    ensures
      var topic := "j-data-" + devID + "-" + tag;
      var sent := c.insert.ok && (topic in b.known || !c.create.Failed?) && c.write.applied;
      n.forwarded == b.forwarded + if sent then [Forward(topic, Envelope(c.now, devID, tag, m.payload))] else []
  {
    FieldsInPlace(m, c.now, devID, tag);
  }

  class Service {
    // In memory.
    var knownTopics: set<string>
    // Outside: PostgreSQL, Kafka's topics, and what the Kafka writer has been handed.
    var data: Data
    var topics: set<string>
    var forwarded: seq<Forward>

    predicate Valid()
      reads this
    {
      knownTopics <= topics
    }

    function View(): Stores
      reads this
    {
      Stores(data, topics, knownTopics, forwarded)
    }

    constructor (data: Data, topics: set<string>)
      ensures Valid() && knownTopics == {} && this.data == data && this.topics == topics && forwarded == []
    {
      knownTopics, this.data, this.topics, forwarded := {}, data, topics, [];
    }

    method InsertData(x: Insertion, o: Outcome) returns (ok: bool)
      requires Possible(o)
      modifies this`data
      ensures ok == o.ok
      ensures data == if o.applied then FirstWrite.Insert(old(data), x) else old(data)
      ensures ok ==> x.key in data
    {
      if o.applied {
        data := FirstWrite.Insert(data, x);
      }
      return o.ok;
    }

    method EnsureTopicExists(topic: string, c: Creation) returns (ok: bool)
      requires Valid() && (c.AlreadyExists? ==> topic in topics)
      modifies this`knownTopics, this`topics
      ensures Valid()
      ensures ok <==> topic in old(knownTopics) || !c.Failed?
      ensures knownTopics == if ok then old(knownTopics) + {topic} else old(knownTopics)
      ensures topics == if topic !in old(knownTopics) && Creates(c) then old(topics) + {topic} else old(topics)
    {
      if topic in knownTopics {
        return true;
      }
      if Creates(c) {
        topics := topics + {topic};
      }
      if c.Failed? {
        return false;
      }
      knownTopics := knownTopics + {topic};
      return true;
    }

    /** And after an ack the message's key has a row, its topic is known to exist, and the Kafka
        writer has its envelope. */
    method MessageHandler(m: Message, c: Calls) returns (acked: bool)
      requires Valid() && PossibleCalls(c, m, topics)
      modifies this
      ensures Valid()
      ensures Handled(old(View()), View(), m, c, acked)
      ensures WellFormed(m) && acked ==>
        RowOf(m, c.now).key in data && SanitizeTopic(m.topic) in topics && ForwardOf(m, c.now) in forwarded
    {
      var source := ParseTopic(m.topic);
      if source.None? {
        return true;
      }
      if m.body.None? {
        return true;
      }
      var tsUnix := RowSecond(m.body.value, c.now);
      var row := Insertion(Key(tsUnix, source.value.devID), Entry(source.value.tag, m.payload));
      var inserted := InsertData(row, c.insert);
      if !inserted {
        return false;
      }
      var topic := SanitizeTopic(m.topic);
      var ensured := EnsureTopicExists(topic, c.create);
      if !ensured {
        return false;
      }
      var envelope := Envelope(tsUnix, source.value.devID, source.value.tag, m.payload);
      if c.write.applied {
        forwarded := forwarded + [Forward(topic, envelope)];
      }
      return c.write.ok;
    }
  }
}
