/** The example inputs `set_topology.py` runs its generator on: six topics,
    107 publishers, 10 subscribers, and configurations for three topics. */
module TopologyExample {
  import opened Wrappers
  import opened Seqs
  import opened Topology

  function ExampleTopics(): seq<string>
  {
    ["laser_topic", "image_topic", "pcl_topic", "speed_topic", "vector_topic", "byte_topic"]
  }

  function ExampleMsgTypes(): seq<string>
  {
    ["laser_scan", "image", "point_cloud2", "twist", "vector3", "stamped8mb"]
  }

  function ExamplePublishers(): Dict<int>
  {
    [("laser_topic", 100), ("image_topic", 2), ("pcl_topic", 1), ("speed_topic", 1), ("vector_topic", 2), ("byte_topic", 1)]
  }

  function ExampleSubscribers(): Dict<int>
  {
    [("laser_topic", 2), ("image_topic", 1), ("pcl_topic", 3), ("speed_topic", 2), ("vector_topic", 1), ("byte_topic", 1)]
  }

  function Config(period: int): PubConfig
  {
    [("period_ms", JInt(period)), ("msg_pass_by", JStr("shared_ptr"))]
  }

  function ExampleConfigs(): Dict<seq<PubConfig>>
  {
    [("laser_topic", [Config(20)]), ("image_topic", [Config(30)]), ("pcl_topic", [Config(15)])]
  }

  function ExampleInputs(): Inputs
  {
    Inputs(ExamplePublishers(), ExampleSubscribers(), ExampleTopics(), ExampleMsgTypes(), Some(ExampleConfigs()))
  }

  /** Every listed topic has a message type. */
  lemma ExampleTypesFound(i: nat)
    requires i < |ExampleTopics()|
    ensures MsgTypeOf(ExampleInputs(), ExampleTopics()[i]) == Ok(ExampleMsgTypes()[i])
  {
    var ts := ExampleTopics();
    assert forall a, b :: 0 <= a < b < |ts| ==> ts[a] != ts[b];
    var v := IndexOf(ts, ts[i]).value;
    assert ts[v] == ts[i];
  }

  /** The configuration topic `i`'s publishers use: its first listed one, or none. */
  function TopicConfig(i: nat): PubConfig
  {
    if i == 0 then Config(20) else if i == 1 then Config(30) else if i == 2 then Config(15) else []
  }

  lemma ExampleConfigFound(i: nat)
    requires i < |ExampleTopics()|
    ensures ConfigFor(ExampleInputs(), ExampleTopics()[i]) == Ok(TopicConfig(i))
  {
    var ts, cs := ExampleTopics(), ExampleConfigs();
    if i < 3 {
      assert cs[i].0 == ts[i];
    } else {
      assert forall k :: 0 <= k < |cs| ==> cs[k].0 != ts[i];
    }
  }

  /** Both count dictionaries list the topics in the order of `topics`. */
  lemma ExampleKeysInOrder(i: nat)
    requires i < |ExampleTopics()|
    ensures |ExamplePublishers()| == |ExampleSubscribers()| == |ExampleTopics()|
    ensures ExamplePublishers()[i].0 == ExampleSubscribers()[i].0 == ExampleTopics()[i]
    ensures ExamplePublishers()[i].1 > 0 && ExampleSubscribers()[i].1 > 0
  {
  }

  lemma ExampleBuilds(inp: Inputs)
    requires inp == ExampleInputs()
    ensures !Fails(inp)
  {
    forall i | 0 <= i < |inp.numPublishers|
      ensures ConfigFor(inp, inp.numPublishers[i].0).Ok? && MsgTypeOf(inp, inp.numPublishers[i].0).Ok?
    {
      ExampleKeysInOrder(i);
      ExampleConfigFound(i);
      ExampleTypesFound(i);
    }
    forall i | 0 <= i < |inp.numSubscribers| ensures MsgTypeOf(inp, inp.numSubscribers[i].0).Ok? {
      ExampleKeysInOrder(i);
      ExampleTypesFound(i);
    }
  }

  /** Each publisher entry is built for one of the topics, from its type and configuration. */
  lemma ExampleEntry(inp: Inputs, pubs: seq<Publisher>, j: nat) returns (i: nat)
    requires inp == ExampleInputs()
    requires PairedTopology(inp).Ok? && pubs == PairedTopology(inp).value[0].publishers.value && j < |pubs|
    ensures i < |ExampleTopics()|
    ensures && pubs[j].topicName == ExampleTopics()[i] && pubs[j].msgType == ExampleMsgTypes()[i]
            && pubs[j].periodMs == Get(TopicConfig(i), "period_ms", JInt(DEFAULT_PERIOD_MS))
            && pubs[j].msgPassBy == Some(Get(TopicConfig(i), "msg_pass_by", JStr(DEFAULT_MSG_PASS_BY)))
  {
    i := PairedPublisherOrigin(inp, j);
    ExampleKeysInOrder(i);
    ExampleTypesFound(i);
    ExampleConfigFound(i);
    assert ExampleTopics()[i] + "" == ExampleTopics()[i];
  }

  lemma ExampleCounts(inp: Inputs)
    requires inp == ExampleInputs()
    ensures PairedTopology(inp).Ok?
    ensures |PairedTopology(inp).value[0].publishers.value| == 107
    ensures |PairedTopology(inp).value[1].subscribers.value| == 10
    ensures CountNamed(PairedTopology(inp).value[0].publishers.value, PublisherName, "laser_topic") == 100
  {
    ExampleBuilds(inp);
    assert PosSum(inp.numPublishers) == 107;
    assert PosSum(inp.numSubscribers) == 10;
    PairedPerTopic(inp, "laser_topic");
    assert Get(inp.numPublishers, "laser_topic", 0) == 100;
  }

  /** An entry built for topic `i` and named after the laser topic, or after
      the byte topic, is that topic's entry. */
  lemma ExampleNamedEntry(p: Publisher, i: nat)
    requires i < |ExampleTopics()|
    requires && p.topicName == ExampleTopics()[i] && p.msgType == ExampleMsgTypes()[i]
             && p.periodMs == Get(TopicConfig(i), "period_ms", JInt(DEFAULT_PERIOD_MS))
             && p.msgPassBy == Some(Get(TopicConfig(i), "msg_pass_by", JStr(DEFAULT_MSG_PASS_BY)))
    ensures p.topicName == "laser_topic" ==> p.periodMs == JInt(20)
    ensures p.topicName == "byte_topic" ==> p == Publisher("byte_topic", "stamped8mb", JInt(10), Some(JStr("shared_ptr")))
  {
    var ts := ExampleTopics();
    // The six topic names start with six different letters.
    if p.topicName == "laser_topic" {
      assert p.topicName[0] == 'l' && ts[i][0] == p.topicName[0];
      assert i == 0;
    } else if p.topicName == "byte_topic" {
      assert p.topicName[0] == 'b' && ts[i][0] == p.topicName[0];
      assert i == 5;
    }
  }

  lemma ExampleNamedEntries(inp: Inputs, pubs: seq<Publisher>)
    requires inp == ExampleInputs()
    requires PairedTopology(inp).Ok? && pubs == PairedTopology(inp).value[0].publishers.value
    ensures forall p :: p in pubs && p.topicName == "laser_topic" ==> p.periodMs == JInt(20)
    ensures forall p :: p in pubs && p.topicName == "byte_topic" ==>
              p == Publisher("byte_topic", "stamped8mb", JInt(10), Some(JStr("shared_ptr")))
  {
    forall j | 0 <= j < |pubs|
      ensures pubs[j].topicName == "laser_topic" ==> pubs[j].periodMs == JInt(20)
      ensures pubs[j].topicName == "byte_topic" ==>
                pubs[j] == Publisher("byte_topic", "stamped8mb", JInt(10), Some(JStr("shared_ptr")))
    {
      var i := ExampleEntry(inp, pubs, j);
      ExampleNamedEntry(pubs[j], i);
    }
  }

  /** The example yields 107 publisher entries, 100 of them for the laser
      topic, and 10 subscriber entries; laser publishers run every 20 ms, and
      the byte topic publishes `stamped8mb` at the default 10 ms, passed by
      shared pointer. */
  lemma ExampleTopology()
    ensures PairedTopology(ExampleInputs()).Ok?
    ensures |PairedTopology(ExampleInputs()).value[0].publishers.value| == 107
    ensures |PairedTopology(ExampleInputs()).value[1].subscribers.value| == 10
    ensures CountNamed(PairedTopology(ExampleInputs()).value[0].publishers.value, PublisherName, "laser_topic") == 100
    ensures forall p :: p in PairedTopology(ExampleInputs()).value[0].publishers.value && p.topicName == "laser_topic" ==>
              p.periodMs == JInt(20)
    ensures forall p :: p in PairedTopology(ExampleInputs()).value[0].publishers.value && p.topicName == "byte_topic" ==>
              p == Publisher("byte_topic", "stamped8mb", JInt(10), Some(JStr("shared_ptr")))
  {
    ExampleCounts(ExampleInputs());
    ExampleNamedEntries(ExampleInputs(), PairedTopology(ExampleInputs()).value[0].publishers.value);
  }
}
