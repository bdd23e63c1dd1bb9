/** The topology generators: `create_topology` builds the node list of a
    benchmark topology from per-topic publisher and subscriber counts, the
    topic list with its message types, and optional per-topic publisher
    configurations. Two shapes exist: one publisher node and one subscriber
    node holding every entry, or `num_nodes` identical nodes whose topic names
    carry the node's number. Python dictionaries are sequences of pairs, so
    their iteration order is kept. */
module Topology {
  import opened Wrappers
  import opened Seqs
  import opened Text
  import Names

  /** The JSON values a publisher configuration holds. */
  datatype JValue = JInt(i: int) | JStr(s: string)

  /** One publisher configuration, e.g. `{"period_ms": 20, "msg_pass_by": "shared_ptr"}`. */
  type PubConfig = Dict<JValue>

  /** The inputs every generator shares; `publisherConfigs` is the optional
      map from topic to its list of configurations. */
  datatype Inputs = Inputs(
    numPublishers: Dict<int>,
    numSubscribers: Dict<int>,
    topics: seq<string>,
    msgTypes: seq<string>,
    publisherConfigs: Option<Dict<seq<PubConfig>>>)

  /** The exceptions `create_topology` can raise: an `IndexError` on an empty
      configuration list, a `ValueError` from `topics.index`, an `IndexError`
      on `msg_types`. */
  datatype TopologyError =
    | EmptyConfigList(topic: string)
    | TopicNotListed(topic: string)
    | NoMsgType(topic: string, index: nat)

  /** A publisher entry; the replicated generator writes no `msg_pass_by` key. */
  datatype Publisher = Publisher(topicName: string, msgType: string, periodMs: JValue, msgPassBy: Option<JValue>)

  datatype Subscriber = Subscriber(topicName: string, msgType: string)

  /** A node; a missing list is a key the node does not have. */
  datatype Node = Node(nodeName: string, publishers: Option<seq<Publisher>>, subscribers: Option<seq<Subscriber>>)

  const DEFAULT_PERIOD_MS: int := 10
  const DEFAULT_MSG_PASS_BY: string := "shared_ptr"

  /** `msg_types[topics.index(topic)]`. */
  function MsgTypeOf(inp: Inputs, topic: string): (r: Result<string, TopologyError>)
    ensures topic !in inp.topics ==> r == Err(TopicNotListed(topic))
    ensures topic in inp.topics ==>
              var i := IndexOf(inp.topics, topic).value;
              if i < |inp.msgTypes| then r == Ok(inp.msgTypes[i]) else r == Err(NoMsgType(topic, i))
  {
    match IndexOf(inp.topics, topic)
    case None => Err(TopicNotListed(topic))
    case Some(i) => if i < |inp.msgTypes| then Ok(inp.msgTypes[i]) else Err(NoMsgType(topic, i))
  }

  /** `publisher_configs[topic][0]` when the topic has configurations, `{}` otherwise. */
  function ConfigFor(inp: Inputs, topic: string): (r: Result<PubConfig, TopologyError>)
    ensures inp.publisherConfigs.None? || Lookup(inp.publisherConfigs.value, topic).None? ==> r == Ok([])
    ensures inp.publisherConfigs.Some? && Lookup(inp.publisherConfigs.value, topic).Some? ==>
              var list := Lookup(inp.publisherConfigs.value, topic).value;
              if |list| == 0 then r == Err(EmptyConfigList(topic)) else r == Ok(list[0])
  {
    match inp.publisherConfigs
    case None => Ok([])
    case Some(configs) =>
      match Lookup(configs, topic)
      case None => Ok([])
      case Some(list) => if |list| == 0 then Err(EmptyConfigList(topic)) else Ok(list[0])
  }

  /** One publisher entry for `topic`, named `topic + suffix`; `period_ms` and,
      when `withPassBy`, `msg_pass_by` come from the topic's first configuration
      or their defaults. The configuration is looked up before the message type. */
  function PublisherFor(inp: Inputs, topic: string, suffix: string, withPassBy: bool): (r: Result<Publisher, TopologyError>)
    ensures ConfigFor(inp, topic).Err? ==> r == Err(ConfigFor(inp, topic).error)
    ensures ConfigFor(inp, topic).Ok? && MsgTypeOf(inp, topic).Err? ==> r == Err(MsgTypeOf(inp, topic).error)
    ensures r.Ok? <==> ConfigFor(inp, topic).Ok? && MsgTypeOf(inp, topic).Ok?
    ensures r.Ok? ==> r.value.topicName == topic + suffix && r.value.msgType == MsgTypeOf(inp, topic).value
    ensures r.Ok? ==> r.value.periodMs == Get(ConfigFor(inp, topic).value, "period_ms", JInt(DEFAULT_PERIOD_MS))
    ensures r.Ok? && !withPassBy ==> r.value.msgPassBy.None?
    ensures r.Ok? && withPassBy ==>
              r.value.msgPassBy == Some(Get(ConfigFor(inp, topic).value, "msg_pass_by", JStr(DEFAULT_MSG_PASS_BY)))
  {
    var config :- ConfigFor(inp, topic);
    var msgType :- MsgTypeOf(inp, topic);
    Ok(Publisher(topic + suffix, msgType, Get(config, "period_ms", JInt(DEFAULT_PERIOD_MS)),
                 if withPassBy then Some(Get(config, "msg_pass_by", JStr(DEFAULT_MSG_PASS_BY))) else None))
  }

  /** One subscriber entry for `topic`, named `topic + suffix`. */
  function SubscriberFor(inp: Inputs, topic: string, suffix: string): (r: Result<Subscriber, TopologyError>)
    ensures r.Ok? <==> MsgTypeOf(inp, topic).Ok?
    ensures r.Err? ==> r.error == MsgTypeOf(inp, topic).error
    ensures r.Ok? ==> r.value == Subscriber(topic + suffix, MsgTypeOf(inp, topic).value)
  {
    var msgType :- MsgTypeOf(inp, topic);
    Ok(Subscriber(topic + suffix, msgType))
  }

  /** `sum(max(n, 0) for n in counts.values())`: how many entries the counts ask for. */
  function PosSum(counts: seq<(string, int)>): nat
  {
    if |counts| == 0 then 0 else (if counts[0].1 > 0 then counts[0].1 else 0) + PosSum(counts[1..])
  }

  /** The entries for one topic: `n` copies of its entry, built only when the
      loop body runs at least once. */
  function TopicEntries<E>(topic: string, n: int, entry: string -> Result<E, TopologyError>): (r: Result<seq<E>, TopologyError>)
    ensures n <= 0 ==> r == Ok([])
    ensures n > 0 ==> (r.Ok? <==> entry(topic).Ok?)
    ensures n > 0 && r.Err? ==> r.error == entry(topic).error
    ensures r.Ok? ==> |r.value| == (if n > 0 then n else 0)
    ensures r.Ok? ==> forall j :: 0 <= j < |r.value| ==> entry(topic) == Ok(r.value[j])
  {
    if n <= 0 then Ok([])
    else
      var e :- entry(topic);
      Ok(Repeat(e, n))
  }

  /** Where topic `i`'s entries start: after those of the topics before it. */
  function BlockStart(counts: seq<(string, int)>, i: nat): nat
    requires i <= |counts|
  {
    PosSum(counts[..i])
  }

  /** Where topic `i`'s entries end. */
  function BlockEnd(counts: seq<(string, int)>, i: nat): nat
    requires i < |counts|
  {
    PosSum(counts[..i + 1])
  }

  /** The entries are grouped by topic in the dictionary's order: topic `i`'s
      entries fill the positions from `BlockStart(counts, i)` up to
      `BlockEnd(counts, i)`, and there are no others. */
  ghost predicate Grouped<E>(counts: seq<(string, int)>, entry: string -> Result<E, TopologyError>, es: seq<E>)
  {
    && |es| == PosSum(counts)
    && forall i :: 0 <= i < |counts| ==>
         && BlockEnd(counts, i) <= |es|
         && forall j :: BlockStart(counts, i) <= j < BlockEnd(counts, i) ==> entry(counts[i].0) == Ok(es[j])
  }

  /** The first topic's block followed by the blocks of the others. */
  lemma GroupedCons<E>(counts: seq<(string, int)>, entry: string -> Result<E, TopologyError>, here: seq<E>, rest: seq<E>)
    requires |counts| > 0
    requires |here| == (if counts[0].1 > 0 then counts[0].1 else 0)
    requires forall j :: 0 <= j < |here| ==> entry(counts[0].0) == Ok(here[j])
    requires Grouped(counts[1..], entry, rest)
    ensures Grouped(counts, entry, here + rest)
  {
    var tail := counts[1..];
    var p0 := |here|;
    var es := here + rest;
    assert PosSum(counts) == p0 + PosSum(tail);
    forall i | 0 <= i < |counts|
      ensures BlockEnd(counts, i) <= |es|
      ensures forall j :: BlockStart(counts, i) <= j < BlockEnd(counts, i) ==> entry(counts[i].0) == Ok(es[j])
    {
      assert PosSum(counts[..i + 1]) == p0 + PosSum(tail[..i]) by {
        assert counts[..i + 1][0] == counts[0] && counts[..i + 1][1..] == tail[..i];
      }
      if i == 0 {
        assert tail[..0] == [] && counts[..0] == [];
        assert forall j :: 0 <= j < p0 ==> es[j] == here[j];
      } else {
        var k := i - 1;
        assert PosSum(counts[..i]) == p0 + PosSum(tail[..k]) by {
          assert counts[..i][0] == counts[0] && counts[..i][1..] == tail[..k];
        }
        assert tail[..k + 1] == tail[..i] && counts[i] == tail[k];
        assert BlockEnd(tail, k) <= |rest|;
        forall j | BlockStart(counts, i) <= j < BlockEnd(counts, i)
          ensures entry(counts[i].0) == Ok(es[j])
        {
          assert BlockStart(tail, k) <= j - p0 < BlockEnd(tail, k);
          assert es[j] == rest[j - p0];
        }
      }
    }
  }

  /** Every entry of grouped entries is the entry of a topic with a positive count. */
  lemma GroupedOrigin<E>(counts: seq<(string, int)>, entry: string -> Result<E, TopologyError>, es: seq<E>)
    requires Grouped(counts, entry, es)
    ensures forall j :: 0 <= j < |es| ==>
              exists i :: 0 <= i < |counts| && counts[i].1 > 0 && entry(counts[i].0) == Ok(es[j])
  {
    forall j | 0 <= j < |es|
      ensures exists i :: 0 <= i < |counts| && counts[i].1 > 0 && entry(counts[i].0) == Ok(es[j])
    {
      var i := BlockOf(counts, j);
    }
  }

  /** Every position below the total lies in the block of a topic with a
      positive count. */
  lemma {:induction false} BlockOf(counts: seq<(string, int)>, j: nat) returns (i: nat)
    requires j < PosSum(counts)
    ensures i < |counts| && counts[i].1 > 0
    ensures BlockStart(counts, i) <= j < BlockEnd(counts, i)
  {
    var tail := counts[1..];
    var p0 := if counts[0].1 > 0 then counts[0].1 else 0;
    assert counts[..1][0] == counts[0] && counts[..1][1..] == [];
    if j < p0 {
      i := 0;
      assert counts[..0] == [];
    } else {
      var i' := BlockOf(tail, j - p0);
      i := i' + 1;
      assert counts[..i][0] == counts[0] && counts[..i][1..] == tail[..i'];
      assert counts[..i + 1][0] == counts[0] && counts[..i + 1][1..] == tail[..i' + 1];
      assert counts[i] == tail[i'];
    }
  }

  /** `for topic, n in counts.items(): for _ in range(n): append(entry(topic))`:
      the first failing entry stops the loop. */
  function Entries<E>(counts: seq<(string, int)>, entry: string -> Result<E, TopologyError>): (r: Result<seq<E>, TopologyError>)
    ensures r.Ok? ==> |r.value| == PosSum(counts)
    ensures r.Err? <==> exists i :: 0 <= i < |counts| && counts[i].1 > 0 && entry(counts[i].0).Err?
    ensures r.Ok? ==> forall j :: 0 <= j < |r.value| ==>
              exists i :: 0 <= i < |counts| && counts[i].1 > 0 && entry(counts[i].0) == Ok(r.value[j])
    ensures r.Ok? ==> Grouped(counts, entry, r.value)
  {
    if |counts| == 0 then Ok([])
    else
      var here :- TopicEntries(counts[0].0, counts[0].1, entry);
      var rest :- Entries(counts[1..], entry);
      assert forall i :: 1 <= i < |counts| ==> counts[i] == counts[1..][i - 1];
      GroupedCons(counts, entry, here, rest);
      GroupedOrigin(counts, entry, here + rest);
      Ok(here + rest)
  }

  /** Topic `i` is the first topic with a positive count whose entry fails,
      and it fails with `e`. */
  ghost predicate FirstFailure<E>(counts: seq<(string, int)>, entry: string -> Result<E, TopologyError>,
                                  e: TopologyError, i: nat)
  {
    && i < |counts| && counts[i].1 > 0 && entry(counts[i].0) == Err(e)
    && forall i' :: 0 <= i' < i && counts[i'].1 > 0 ==> entry(counts[i'].0).Ok?
  }

  /** No topic with a positive count has a failing entry. */
  ghost predicate NoneFails<E>(counts: seq<(string, int)>, entry: string -> Result<E, TopologyError>)
  {
    forall i :: 0 <= i < |counts| && counts[i].1 > 0 ==> entry(counts[i].0).Ok?
  }

  /** The loop raises the error of the first counted topic, in the
      dictionary's order, whose entry fails. */
  lemma {:induction false} EntriesFirstError<E>(counts: seq<(string, int)>, entry: string -> Result<E, TopologyError>)
    returns (i: nat)
    requires Entries(counts, entry).Err?
    ensures FirstFailure(counts, entry, Entries(counts, entry).error, i)
  {
    if counts[0].1 > 0 && entry(counts[0].0).Err? {
      i := 0;
    } else {
      var tail := counts[1..];
      var i0 := EntriesFirstError(tail, entry);
      i := i0 + 1;
      assert forall i' :: 1 <= i' < |counts| ==> counts[i'] == tail[i' - 1];
    }
  }

  /** How many entries are named `target`. */
  function CountNamed<E>(es: seq<E>, name: E -> string, target: string): nat
  {
    if |es| == 0 then 0 else (if name(es[0]) == target then 1 else 0) + CountNamed(es[1..], name, target)
  }

  lemma {:induction false} CountNamedAppend<E>(xs: seq<E>, ys: seq<E>, name: E -> string, target: string)
    ensures CountNamed(xs + ys, name, target) == CountNamed(xs, name, target) + CountNamed(ys, name, target)
  {
    if |xs| == 0 {
      assert xs + ys == ys;
    } else {
      assert (xs + ys)[0] == xs[0] && (xs + ys)[1..] == xs[1..] + ys;
      CountNamedAppend(xs[1..], ys, name, target);
    }
  }

  lemma {:induction false} CountNamedUniform<E>(es: seq<E>, e: E, name: E -> string, target: string)
    requires forall j :: 0 <= j < |es| ==> es[j] == e
    ensures CountNamed(es, name, target) == if name(e) == target then |es| else 0
  {
    if |es| > 0 {
      CountNamedUniform(es[1..], e, name, target);
    }
  }

  /** Two topics carrying the same suffix give the same name only when they are
      the same topic. */
  lemma SameSuffixSameTopic(t: string, topic: string, suffix: string)
    ensures t + suffix == topic + suffix <==> t == topic
  {
    if t + suffix == topic + suffix {
      assert |t| == |topic|;
      assert t == (t + suffix)[..|t|] && topic == (topic + suffix)[..|topic|];
    }
  }

  /** With distinct topics, each topic's entries appear exactly as often as
      its count asks (none for a non-positive or missing count): the suffix is
      shared, so no two topics' entries share a name. */
  lemma {:induction false} EntriesPerTopic<E>(counts: Dict<int>, entry: string -> Result<E, TopologyError>,
                                              name: E -> string, suffix: string, topic: string)
    requires forall t :: entry(t).Ok? ==> name(entry(t).value) == t + suffix
    requires Entries(counts, entry).Ok?
    ensures CountNamed(Entries(counts, entry).value, name, topic + suffix) ==
              var n := Get(counts, topic, 0); if n > 0 then n else 0
  {
    if |counts| > 0 {
      var (t0, n0) := counts[0];
      var tail: Dict<int> := counts[1..];
      var here := TopicEntries(t0, n0, entry).value;
      var rest := Entries(tail, entry).value;
      assert Entries(counts, entry).value == here + rest;
      CountNamedAppend(here, rest, name, topic + suffix);
      EntriesPerTopic(tail, entry, name, suffix, topic);
      if n0 > 0 {
        var e := entry(t0).value;
        CountNamedUniform(here, e, name, topic + suffix);
        SameSuffixSameTopic(t0, topic, suffix);
      } else {
        assert here == [];
      }
      assert forall i :: 1 <= i < |counts| ==> counts[i] == tail[i - 1];
      if t0 == topic {
        assert Get(tail, topic, 0) == 0;
      } else {
        assert Get(counts, topic, 0) == Get(tail, topic, 0);
      }
    }
  }

  /** The entry builders the generators loop with. */
  function PublisherEntry(inp: Inputs, suffix: string, withPassBy: bool): string -> Result<Publisher, TopologyError>
  {
    t => PublisherFor(inp, t, suffix, withPassBy)
  }

  function SubscriberEntry(inp: Inputs, suffix: string): string -> Result<Subscriber, TopologyError>
  {
    t => SubscriberFor(inp, t, suffix)
  }

  function PublisherName(p: Publisher): string { p.topicName }

  function SubscriberName(s: Subscriber): string { s.topicName }

  /** Some topic with a positive count cannot be built: its configuration list
      is empty, it is not in `topics`, or it has no message type. */
  predicate Fails(inp: Inputs)
  {
    || (exists i :: 0 <= i < |inp.numPublishers| && inp.numPublishers[i].1 > 0 &&
          (ConfigFor(inp, inp.numPublishers[i].0).Err? || MsgTypeOf(inp, inp.numPublishers[i].0).Err?))
    || (exists i :: 0 <= i < |inp.numSubscribers| && inp.numSubscribers[i].1 > 0 &&
          MsgTypeOf(inp, inp.numSubscribers[i].0).Err?)
  }

  /** Building one node's publisher and subscriber lists fails exactly when
      the inputs fail, whatever the suffix. */
  lemma EntriesFail(inp: Inputs, suffix: string, withPassBy: bool)
    ensures (|| Entries(inp.numPublishers, PublisherEntry(inp, suffix, withPassBy)).Err?
             || Entries(inp.numSubscribers, SubscriberEntry(inp, suffix)).Err?) <==> Fails(inp)
  {
    var pe, se := PublisherEntry(inp, suffix, withPassBy), SubscriberEntry(inp, suffix);
    assert forall t :: pe(t) == PublisherFor(inp, t, suffix, withPassBy);
    assert forall t :: se(t) == SubscriberFor(inp, t, suffix);
  }

  /** Building a node's publisher list and then its subscriber list raises
      the first failing publisher topic's error, or, when every publisher
      topic builds, the first failing subscriber topic's error. */
  lemma ListsFirstError(inp: Inputs, suffix: string, withPassBy: bool, e: TopologyError)
    returns (inPublishers: bool, i: nat)
    requires var pubs := Entries(inp.numPublishers, PublisherEntry(inp, suffix, withPassBy));
             var subs := Entries(inp.numSubscribers, SubscriberEntry(inp, suffix));
             if pubs.Err? then e == pubs.error else subs.Err? && e == subs.error
    ensures inPublishers ==> FirstFailure(inp.numPublishers, PublisherEntry(inp, suffix, withPassBy), e, i)
    ensures !inPublishers ==> && NoneFails(inp.numPublishers, PublisherEntry(inp, suffix, withPassBy))
                              && FirstFailure(inp.numSubscribers, SubscriberEntry(inp, suffix), e, i)
  {
    var pe, se := PublisherEntry(inp, suffix, withPassBy), SubscriberEntry(inp, suffix);
    inPublishers := Entries(inp.numPublishers, pe).Err?;
    if inPublishers {
      i := EntriesFirstError(inp.numPublishers, pe);
    } else {
      i := EntriesFirstError(inp.numSubscribers, se);
    }
  }

  /** `create_topology` of `set_topology_yaml.py` and `set_topology.py`: a
      `publisher` node holding every publisher entry and a `subscriber` node
      holding every subscriber entry, under the topics' own names. */
  function PairedTopology(inp: Inputs): (r: Result<seq<Node>, TopologyError>)
    ensures r.Err? <==> Fails(inp)
    ensures r.Ok? ==> |r.value| == 2
    ensures r.Ok? ==> && r.value[0].nodeName == "publisher"
                      && r.value[0].publishers.Some? && r.value[0].subscribers.None?
                      && |r.value[0].publishers.value| == PosSum(inp.numPublishers)
    ensures r.Ok? ==> && r.value[1].nodeName == "subscriber"
                      && r.value[1].publishers.None? && r.value[1].subscribers.Some?
                      && |r.value[1].subscribers.value| == PosSum(inp.numSubscribers)
    ensures r.Ok? ==> && Grouped(inp.numPublishers, PublisherEntry(inp, "", true), r.value[0].publishers.value)
                      && Grouped(inp.numSubscribers, SubscriberEntry(inp, ""), r.value[1].subscribers.value)
  {
    EntriesFail(inp, "", true);
    var pubs :- Entries(inp.numPublishers, PublisherEntry(inp, "", true));
    var subs :- Entries(inp.numSubscribers, SubscriberEntry(inp, ""));
    Ok([Node("publisher", Some(pubs), None), Node("subscriber", None, Some(subs))])
  }

  /** A failing paired topology raises the error of the first failing
      publisher topic, or, when every publisher topic builds, of the first
      failing subscriber topic, each in its dictionary's order. */
  lemma PairedFirstError(inp: Inputs) returns (inPublishers: bool, i: nat)
    requires PairedTopology(inp).Err?
    ensures inPublishers ==> FirstFailure(inp.numPublishers, PublisherEntry(inp, "", true), PairedTopology(inp).error, i)
    ensures !inPublishers ==> && NoneFails(inp.numPublishers, PublisherEntry(inp, "", true))
                              && FirstFailure(inp.numSubscribers, SubscriberEntry(inp, ""), PairedTopology(inp).error, i)
  {
    inPublishers, i := ListsFirstError(inp, "", true, PairedTopology(inp).error);
  }

  /** Each publisher entry of the paired topology is the entry built for the
      topic with a positive count in whose block it lies: that topic's name
      and message type, and its first configuration's period and passing
      mode or the defaults. */
  lemma PairedPublisherOrigin(inp: Inputs, j: nat) returns (i: nat)
    requires PairedTopology(inp).Ok? && j < |PairedTopology(inp).value[0].publishers.value|
    ensures i < |inp.numPublishers| && inp.numPublishers[i].1 > 0
    ensures BlockStart(inp.numPublishers, i) <= j < BlockEnd(inp.numPublishers, i)
    ensures PublisherFor(inp, inp.numPublishers[i].0, "", true) == Ok(PairedTopology(inp).value[0].publishers.value[j])
  {
    i := BlockOf(inp.numPublishers, j);
    assert PublisherEntry(inp, "", true)(inp.numPublishers[i].0) == PublisherFor(inp, inp.numPublishers[i].0, "", true);
  }

  /** Each subscriber entry carries the topic with a positive count in whose
      block it lies, and that topic's message type. */
  lemma PairedSubscriberOrigin(inp: Inputs, j: nat) returns (i: nat)
    requires PairedTopology(inp).Ok? && j < |PairedTopology(inp).value[1].subscribers.value|
    ensures i < |inp.numSubscribers| && inp.numSubscribers[i].1 > 0
    ensures BlockStart(inp.numSubscribers, i) <= j < BlockEnd(inp.numSubscribers, i)
    ensures PairedTopology(inp).value[1].subscribers.value[j] ==
              Subscriber(inp.numSubscribers[i].0, MsgTypeOf(inp, inp.numSubscribers[i].0).value)
  {
    i := BlockOf(inp.numSubscribers, j);
    var topic := inp.numSubscribers[i].0;
    assert SubscriberEntry(inp, "")(topic) == SubscriberFor(inp, topic, "");
    assert topic + "" == topic;
  }

  /** In the paired topology every topic has as many publisher (subscriber)
      entries under its name as its count asks. */
  lemma PairedPerTopic(inp: Inputs, topic: string)
    requires PairedTopology(inp).Ok?
    ensures CountNamed(PairedTopology(inp).value[0].publishers.value, PublisherName, topic) ==
              var n := Get(inp.numPublishers, topic, 0); if n > 0 then n else 0
    ensures CountNamed(PairedTopology(inp).value[1].subscribers.value, SubscriberName, topic) ==
              var n := Get(inp.numSubscribers, topic, 0); if n > 0 then n else 0
  {
    var pe, se := PublisherEntry(inp, "", true), SubscriberEntry(inp, "");
    assert PairedTopology(inp).value[0].publishers.value == Entries(inp.numPublishers, pe).value;
    assert PairedTopology(inp).value[1].subscribers.value == Entries(inp.numSubscribers, se).value;
    assert topic + "" == topic;
    EntriesPerTopic(inp.numPublishers, pe, PublisherName, "", topic);
    EntriesPerTopic(inp.numSubscribers, se, SubscriberName, "", topic);
  }

  /** `f"_{node_id}"`, the suffix of node `k`'s topic names. */
  function NodeSuffix(k: nat): string
  {
    "_" + IntToString(k)
  }

  /** `f"node_{node_id}"`. */
  function NodeName(k: nat): string
  {
    "node_" + IntToString(k)
  }

  /** Node `k` of `set_topology_adv.py`: both lists, with the node's suffix on
      every topic name and no `msg_pass_by` key. */
  function ReplicaNode(inp: Inputs, k: nat): (r: Result<Node, TopologyError>)
    ensures r.Err? <==> Fails(inp)
    ensures r.Ok? ==> && r.value.nodeName == NodeName(k)
                      && r.value.publishers.Some? && r.value.subscribers.Some?
                      && |r.value.publishers.value| == PosSum(inp.numPublishers)
                      && |r.value.subscribers.value| == PosSum(inp.numSubscribers)
    ensures r.Ok? ==> && Grouped(inp.numPublishers, PublisherEntry(inp, NodeSuffix(k), false), r.value.publishers.value)
                      && Grouped(inp.numSubscribers, SubscriberEntry(inp, NodeSuffix(k)), r.value.subscribers.value)
  {
    EntriesFail(inp, NodeSuffix(k), false);
    var pubs :- Entries(inp.numPublishers, PublisherEntry(inp, NodeSuffix(k), false));
    var subs :- Entries(inp.numSubscribers, SubscriberEntry(inp, NodeSuffix(k)));
    Ok(Node(NodeName(k), Some(pubs), Some(subs)))
  }

  /** Nodes `0` to `n - 1`, in order; the first failing node stops the loop. */
  function ReplicaNodes(inp: Inputs, n: nat): (r: Result<seq<Node>, TopologyError>)
    ensures r.Err? <==> n > 0 && Fails(inp)
    ensures r.Ok? ==> |r.value| == n && forall k :: 0 <= k < n ==> ReplicaNode(inp, k) == Ok(r.value[k])
    ensures r.Err? ==> ReplicaNode(inp, 0) == Err(r.error)
  {
    if n == 0 then Ok([])
    else
      var init :- ReplicaNodes(inp, n - 1);
      var last :- ReplicaNode(inp, n - 1);
      Ok(init + [last])
  }

  /** `create_topology` of `set_topology_adv.py`: `max(num_nodes, 0)` nodes
      named `node_0`, `node_1`, ..., each with publisher and subscriber lists. */
  function ReplicatedTopology(numNodes: int, inp: Inputs): (r: Result<seq<Node>, TopologyError>)
    ensures r.Err? <==> numNodes > 0 && Fails(inp)
    ensures r.Ok? ==> |r.value| == (if numNodes > 0 then numNodes else 0)
    ensures r.Ok? ==> forall k :: 0 <= k < |r.value| ==>
              && r.value[k].nodeName == NodeName(k)
              && r.value[k].publishers.Some? && r.value[k].subscribers.Some?
              && |r.value[k].publishers.value| == PosSum(inp.numPublishers)
              && |r.value[k].subscribers.value| == PosSum(inp.numSubscribers)
  {
    ReplicaNodes(inp, if numNodes > 0 then numNodes else 0)
  }

  /** A failing replicated topology raises node `node_0`'s error: that of its
      first failing publisher topic, or, when every publisher topic builds,
      of its first failing subscriber topic. */
  lemma ReplicatedFirstError(numNodes: int, inp: Inputs) returns (inPublishers: bool, i: nat)
    requires ReplicatedTopology(numNodes, inp).Err?
    ensures var e := ReplicatedTopology(numNodes, inp).error;
            && (inPublishers ==> FirstFailure(inp.numPublishers, PublisherEntry(inp, NodeSuffix(0), false), e, i))
            && (!inPublishers ==> && NoneFails(inp.numPublishers, PublisherEntry(inp, NodeSuffix(0), false))
                                  && FirstFailure(inp.numSubscribers, SubscriberEntry(inp, NodeSuffix(0)), e, i))
  {
    inPublishers, i := ListsFirstError(inp, NodeSuffix(0), false, ReplicatedTopology(numNodes, inp).error);
  }

  /** With no node, nothing is looked up and nothing can fail. */
  lemma NoNodesNoErrors(numNodes: int, inp: Inputs)
    requires numNodes <= 0
    ensures ReplicatedTopology(numNodes, inp) == Ok([])
  {
  }

  /** The publisher entries of all nodes together. */
  function TotalPublishers(nodes: seq<Node>): nat
  {
    if |nodes| == 0 then 0
    else (if nodes[0].publishers.Some? then |nodes[0].publishers.value| else 0) + TotalPublishers(nodes[1..])
  }

  function TotalSubscribers(nodes: seq<Node>): nat
  {
    if |nodes| == 0 then 0
    else (if nodes[0].subscribers.Some? then |nodes[0].subscribers.value| else 0) + TotalSubscribers(nodes[1..])
  }

  lemma {:induction false} TotalsOfUniform(nodes: seq<Node>, p: nat, s: nat)
    requires forall k :: 0 <= k < |nodes| ==> nodes[k].publishers.Some? && |nodes[k].publishers.value| == p
    requires forall k :: 0 <= k < |nodes| ==> nodes[k].subscribers.Some? && |nodes[k].subscribers.value| == s
    ensures TotalPublishers(nodes) == |nodes| * p && TotalSubscribers(nodes) == |nodes| * s
  {
    if |nodes| > 0 {
      TotalsOfUniform(nodes[1..], p, s);
      assert |nodes| * p == p + (|nodes| - 1) * p;
      assert |nodes| * s == s + (|nodes| - 1) * s;
    }
  }

  /** The replicated topology holds `num_nodes` times the entries of one node. */
  lemma ReplicatedTotals(numNodes: int, inp: Inputs)
    requires ReplicatedTopology(numNodes, inp).Ok?
    ensures TotalPublishers(ReplicatedTopology(numNodes, inp).value) ==
              (if numNodes > 0 then numNodes else 0) * PosSum(inp.numPublishers)
    ensures TotalSubscribers(ReplicatedTopology(numNodes, inp).value) ==
              (if numNodes > 0 then numNodes else 0) * PosSum(inp.numSubscribers)
  {
    TotalsOfUniform(ReplicatedTopology(numNodes, inp).value, PosSum(inp.numPublishers), PosSum(inp.numSubscribers));
  }

  /** Node `k` has, for every topic, as many entries named `topic_k` as the
      topic's count asks. */
  lemma ReplicaNodePerTopic(inp: Inputs, k: nat, topic: string)
    requires ReplicaNode(inp, k).Ok?
    ensures CountNamed(ReplicaNode(inp, k).value.publishers.value, PublisherName, topic + NodeSuffix(k)) ==
              var n := Get(inp.numPublishers, topic, 0); if n > 0 then n else 0
    ensures CountNamed(ReplicaNode(inp, k).value.subscribers.value, SubscriberName, topic + NodeSuffix(k)) ==
              var n := Get(inp.numSubscribers, topic, 0); if n > 0 then n else 0
  {
    var pe, se := PublisherEntry(inp, NodeSuffix(k), false), SubscriberEntry(inp, NodeSuffix(k));
    EntriesPerTopic(inp.numPublishers, pe, PublisherName, NodeSuffix(k), topic);
    EntriesPerTopic(inp.numSubscribers, se, SubscriberName, NodeSuffix(k), topic);
  }

  /** No publisher entry of node `k` has a `msg_pass_by` key. */
  lemma ReplicaNodeNoPassBy(inp: Inputs, k: nat)
    requires ReplicaNode(inp, k).Ok?
    ensures forall j :: 0 <= j < |ReplicaNode(inp, k).value.publishers.value| ==>
              ReplicaNode(inp, k).value.publishers.value[j].msgPassBy.None?
  {
    var pe := PublisherEntry(inp, NodeSuffix(k), false);
    var pubs := ReplicaNode(inp, k).value.publishers.value;
    forall j | 0 <= j < |pubs| ensures pubs[j].msgPassBy.None? {
      var i :| 0 <= i < |inp.numPublishers| && inp.numPublishers[i].1 > 0 && pe(inp.numPublishers[i].0) == Ok(pubs[j]);
    }
  }

  /** In the replicated topology, node `k` holds its entries grouped by topic
      in the dictionary's order, has for every topic as many entries named
      `topic_k` as the topic's count asks, and no publisher has a
      `msg_pass_by` key. */
  lemma ReplicaPerTopic(numNodes: int, inp: Inputs, k: nat, topic: string)
    requires ReplicatedTopology(numNodes, inp).Ok? && k < |ReplicatedTopology(numNodes, inp).value|
    ensures var node := ReplicatedTopology(numNodes, inp).value[k];
            && CountNamed(node.publishers.value, PublisherName, topic + NodeSuffix(k)) ==
                 (var n := Get(inp.numPublishers, topic, 0); if n > 0 then n else 0)
            && CountNamed(node.subscribers.value, SubscriberName, topic + NodeSuffix(k)) ==
                 (var n := Get(inp.numSubscribers, topic, 0); if n > 0 then n else 0)
            && Grouped(inp.numPublishers, PublisherEntry(inp, NodeSuffix(k), false), node.publishers.value)
            && Grouped(inp.numSubscribers, SubscriberEntry(inp, NodeSuffix(k)), node.subscribers.value)
            && forall j :: 0 <= j < |node.publishers.value| ==> node.publishers.value[j].msgPassBy.None?
  {
    assert ReplicaNode(inp, k) == Ok(ReplicatedTopology(numNodes, inp).value[k]);
    ReplicaNodePerTopic(inp, k, topic);
    ReplicaNodeNoPassBy(inp, k);
  }

  /** The node names decode back to their number through `item_name_to_id`. */
  lemma ReplicaNamesDecode(numNodes: int, inp: Inputs, k: nat, hash: string -> Names.Int32)
    requires ReplicatedTopology(numNodes, inp).Ok? && k < |ReplicatedTopology(numNodes, inp).value|
    requires k <= Names.INT_MAX
    ensures Names.ItemNameToId(ReplicatedTopology(numNodes, inp).value[k].nodeName, hash) == Ok(k)
  {
    assert NodeName(k) == Names.IdToName(Names.NodeItem, k);
    Names.DecodeEncode(Names.NodeItem, k, hash);
  }
}
