/** The route of one payload's names: encoded into a queue row, decoded by cutting, put into an
    MQTT topic, and split again by brokeroo. */
module TopicPath {
  import opened Prelude
  import opened GoStrings

  const TOPIC_DATA := "j/data/"

  // ----- trackeroo-backend -----

  function BackendEncode(devID: string, tag: string, payload: string): string {
    devID + ['/'] + tag + ['/'] + payload
  }

  datatype Parts = Parts(devID: string, tag: string, payload: string)

  function BackendDecode(row: string): (p: Parts) {
    var (devID, tagPayload, _) := Cut(row, '/');
    var (tag, payload, _) := Cut(tagPayload, '/');
    Parts(devID, tag, payload)
  }

  function BackendTopic(devID: string, tag: string): string {
    TOPIC_DATA + devID + ['/'] + tag
  }

  // ----- tracky -----

  function AgentEncode(tag: string, payload: string): string {
    tag + ['/'] + payload
  }

  function AgentTopic(clientId: string, tag: string): string {
    TOPIC_DATA + clientId + ['/'] + tag
  }

  // ----- brokeroo -----

  datatype Source = Source(devID: string, tag: string)

  /** j/data/DEVID/TAG, or nothing when the topic has another shape. */
  function ParseTopic(topic: string): (r: Option<Source>) {
    var parts := Split(topic, '/');
    if |parts| != 4 || parts[0] != "j" || parts[1] != "data" then None
    else Some(Source(parts[2], parts[3]))
  }

  function SanitizeTopic(topic: string): string {
    ReplaceAll(topic, '/', '-')
  }

  /** The rows and topics, letter by letter. */
  lemma {:induction false} NamesInPlace(devID: string, tag: string, payload: string)
    ensures BackendEncode(devID, tag, payload) == devID + "/" + tag + "/" + payload
    ensures AgentEncode(tag, payload) == tag + "/" + payload
    ensures BackendTopic(devID, tag) == AgentTopic(devID, tag) == "j/data/" + devID + "/" + tag
    ensures "j-data-" + Dashed(Source(devID, tag)) == "j-data-" + devID + "-" + tag
  {
    assert "j-data-" + Dashed(Source(devID, tag)) == "j-data-" + devID + "-" + tag;
  }

  lemma {:induction false} JoinFour(devID: string, tag: string, sep: char)
    ensures Join(["j", "data", devID, tag], sep) == "j" + [sep] + ("data" + [sep] + (devID + [sep] + tag))
  {
    var four, three, two, one := ["j", "data", devID, tag], ["data", devID, tag], [devID, tag], [tag];
    assert four[1..] == three && three[1..] == two && two[1..] == one;
    assert Join(one, sep) == tag;
    assert Join(two, sep) == devID + [sep] + tag;
    assert Join(three, sep) == "data" + [sep] + (devID + [sep] + tag);
    assert Join(four, sep) == "j" + [sep] + Join(three, sep);
  }

  lemma {:induction false} DashPrefix(x: string)
    ensures "j" + ['-'] + ("data" + ['-'] + x) == "j-data-" + x
  {
  }

  lemma {:induction false} TopicIsJoin(devID: string, tag: string)
    ensures BackendTopic(devID, tag) == Join(["j", "data", devID, tag], '/')
  {
    JoinFour(devID, tag, '/');
  }

  /** brokeroo reads a topic as (devID, tag) exactly when neither contains the separator and the
      topic is the one the senders build from them. */
  lemma {:induction false} ParseInvertsTopic(topic: string, devID: string, tag: string)
    ensures ParseTopic(topic) == Some(Source(devID, tag))
       <==> Free(devID, '/') && Free(tag, '/') && topic == BackendTopic(devID, tag)
  {
    if ParseTopic(topic) == Some(Source(devID, tag)) {
      ParsedIsTopic(topic);
    }
    if Free(devID, '/') && Free(tag, '/') && topic == BackendTopic(devID, tag) {
      TopicParses(devID, tag);
    }
  }

  lemma {:induction false} TopicParses(devID: string, tag: string)
    requires Free(devID, '/') && Free(tag, '/')
    ensures Split(BackendTopic(devID, tag), '/') == ["j", "data", devID, tag]
    ensures ParseTopic(BackendTopic(devID, tag)) == Some(Source(devID, tag))
  {
    TopicIsJoin(devID, tag);
    SplitOfJoin(["j", "data", devID, tag], '/');
  }

  lemma {:induction false} ParsedIsTopic(topic: string)
    requires ParseTopic(topic).Some?
    ensures
      var s := ParseTopic(topic).value;
      Free(s.devID, '/') && Free(s.tag, '/') && topic == BackendTopic(s.devID, s.tag)
  {
    var parts := Split(topic, '/');
    assert Free(parts[2], '/') && Free(parts[3], '/');
    assert parts == ["j", "data", parts[2], parts[3]];
    JoinOfSplit(topic, '/');
    TopicIsJoin(parts[2], parts[3]);
  }

  /** The names and the payload given to EnqueueData come out of brokeroo's parser unchanged if
      and only if neither the device id nor the tag contains a slash. The payload may. */
  lemma {:induction false} BackendRoundTrip(devID: string, tag: string, payload: string)
    ensures
      var p := BackendDecode(BackendEncode(devID, tag, payload));
      (p == Parts(devID, tag, payload) && ParseTopic(BackendTopic(p.devID, p.tag)) == Some(Source(devID, tag)))
      <==> Free(devID, '/') && Free(tag, '/')
  {
    var row := BackendEncode(devID, tag, payload);
    var p := BackendDecode(row);
    if Free(devID, '/') && Free(tag, '/') {
      DecodeInvertsEncode(devID, tag, payload);
      ParseInvertsTopic(BackendTopic(devID, tag), devID, tag);
    } else {
      DecodedIsFree(row);
    }
  }

  lemma {:induction false} DecodeInvertsEncode(devID: string, tag: string, payload: string)
    requires Free(devID, '/') && Free(tag, '/')
    ensures BackendDecode(BackendEncode(devID, tag, payload)) == Parts(devID, tag, payload)
  {
    assert BackendEncode(devID, tag, payload) == devID + ['/'] + (tag + ['/'] + payload);
    CutConcat(devID, '/', tag + ['/'] + payload);
    CutConcat(tag, '/', payload);
  }

  lemma {:induction false} DecodedIsFree(row: string)
    ensures Free(BackendDecode(row).devID, '/') && Free(BackendDecode(row).tag, '/')
  {
  }

  /** What a slash in the tag does: the message still parses, under the tag's first part, and the
      rest of the tag is taken for the beginning of the payload. */
  lemma {:induction false} SlashInTagMovesIntoPayload(devID: string, head: string, rest: string, payload: string)
    requires Free(devID, '/') && Free(head, '/')
    ensures
      var p := BackendDecode(BackendEncode(devID, head + ['/'] + rest, payload));
      && p == Parts(devID, head, rest + ['/'] + payload)
      && ParseTopic(BackendTopic(p.devID, p.tag)) == Some(Source(devID, head))
  {
    assert BackendEncode(devID, head + ['/'] + rest, payload) == BackendEncode(devID, head, rest + ['/'] + payload) by {
      assert head + ['/'] + rest + ['/'] + payload == head + ['/'] + (rest + ['/'] + payload);
    }
    DecodeInvertsEncode(devID, head, rest + ['/'] + payload);
    ParseInvertsTopic(BackendTopic(devID, head), devID, head);
  }

  /** The vehicle's path: one cut, its own client id in the topic. */
  lemma {:induction false} AgentRoundTrip(clientId: string, tag: string, payload: string)
    ensures
      var (t, p, _) := Cut(AgentEncode(tag, payload), '/');
      (t == tag && p == payload && ParseTopic(AgentTopic(clientId, t)) == Some(Source(clientId, tag)))
      <==> Free(clientId, '/') && Free(tag, '/')
  {
    var (t, p, _) := Cut(AgentEncode(tag, payload), '/');
    ParseInvertsTopic(AgentTopic(clientId, t), clientId, tag);
    if Free(tag, '/') { CutConcat(tag, '/', payload); }
  }

  function Dashed(s: Source): string {
    s.devID + ['-'] + s.tag
  }

  /** Two well-formed topics share a Kafka topic exactly when joining their names by '-' gives
      the same string; with device ids of one length that means they are the same topic. */
  lemma {:induction false} SanitizedCollision(t1: string, t2: string)
    requires ParseTopic(t1).Some? && ParseTopic(t2).Some?
    ensures SanitizeTopic(t1) == SanitizeTopic(t2) <==> Dashed(ParseTopic(t1).value) == Dashed(ParseTopic(t2).value)
    ensures |ParseTopic(t1).value.devID| == |ParseTopic(t2).value.devID| ==>
      (SanitizeTopic(t1) == SanitizeTopic(t2) <==> t1 == t2)
  {
    var s1, s2 := ParseTopic(t1).value, ParseTopic(t2).value;
    SanitizedForm(t1);
    SanitizedForm(t2);
    SamePrefix("j-data-", Dashed(s1), Dashed(s2));
    if |s1.devID| == |s2.devID| {
      DashedInjective(s1, s2);
    }
  }

  lemma {:induction false} SamePrefix(p: string, x: string, y: string)
    ensures p + x == p + y <==> x == y
  {
    assert (p + x)[|p|..] == x && (p + y)[|p|..] == y;
  }

  lemma {:induction false} DashedInjective(s: Source, t: Source)
    requires |s.devID| == |t.devID|
    ensures Dashed(s) == Dashed(t) <==> s == t
  {
    var n := |s.devID|;
    assert Dashed(s)[..n] == s.devID && Dashed(t)[..n] == t.devID;
    assert Dashed(s)[n + 1..] == s.tag && Dashed(t)[n + 1..] == t.tag;
  }

  lemma {:induction false} SanitizedForm(topic: string)
    requires ParseTopic(topic).Some?
    ensures topic == BackendTopic(ParseTopic(topic).value.devID, ParseTopic(topic).value.tag)
    ensures SanitizeTopic(topic) == "j-data-" + Dashed(ParseTopic(topic).value)
  {
    var s := ParseTopic(topic).value;
    ParsedIsTopic(topic);
    var parts := ["j", "data", s.devID, s.tag];
    TopicIsJoin(s.devID, s.tag);
    ReplaceInJoin(parts, '/', '-');
    JoinFour(s.devID, s.tag, '-');
    DashPrefix(Dashed(s));
  }
}
