/**
 The names of a topic's streams (packages/core/src/utils/topic.ts and keys.ts), and when two
 topics share one.
 */
module StreamKeys {
  import opened Wrappers

  /** A topic is made from a bare namespace, or from options with or without a topic name. */
  datatype TopicOptions = Namespace(name: string) | Options(namespace: string, topic: Option<string>)

  datatype Topic = Topic(namespace: string, topic: string)

  function MakeTopic(options: TopicOptions): Topic {
    match options
    case Namespace(name) => Topic(name, "DEFAULT")
    case Options(namespace, topic) => Topic(namespace, match topic { case Some(t) => t case None => "DEFAULT" })
  }

  function KeyGenerator(namespace: string, key: string): string {
    namespace + "::" + key
  }

  /** A missing shard and an empty one are the same. */
  function ShardDecorator(key: string, shard: Option<string>): string {
    if Sharded(shard) then key + "#" + shard.value else key
  }

  predicate Sharded(shard: Option<string>) {
    shard.Some? && shard.value != ""
  }

  datatype Party = Consumer | Producer

  const CONSUMER_SUFFIX := "::CONSUMER_INCOMING"
  const PRODUCER_SUFFIX := "::PRODUCER_OUTGOING"

  function ConsumerProducerDecorator(key: string, party: Party): string {
    key + if party.Consumer? then CONSUMER_SUFFIX else PRODUCER_SUFFIX
  }

  /** `consumerKey` and `producerKey`. */
  function StreamKey(t: Topic, party: Party, shard: Option<string>): string {
    ConsumerProducerDecorator(KeyGenerator(t.namespace, ShardDecorator(t.topic, shard)), party)
  }

  // ---------- the keys, spelled out ----------

  /** Which key is which. */
  lemma KeysSpelledOut(o: TopicOptions, shard: string)
    ensures var namespace := match o { case Namespace(n) => n case Options(n, _) => n };
            var topic := match o { case Options(_, Some(t)) => t case _ => "DEFAULT" };
            var t := MakeTopic(o);
            && StreamKey(t, Consumer, None) == namespace + "::" + topic + "::CONSUMER_INCOMING"
            && StreamKey(t, Producer, None) == namespace + "::" + topic + "::PRODUCER_OUTGOING"
            && (shard != "" ==>
                  var body := namespace + "::" + topic + "#" + shard;
                  && StreamKey(t, Consumer, Some(shard)) == body + "::CONSUMER_INCOMING"
                  && StreamKey(t, Producer, Some(shard)) == body + "::PRODUCER_OUTGOING")
            && StreamKey(t, Consumer, Some("")) == StreamKey(t, Consumer, None)
            && StreamKey(t, Producer, Some("")) == StreamKey(t, Producer, None)
  {
    var t := MakeTopic(o);
    assert t.namespace + "::" + (t.topic + "#" + shard) == t.namespace + "::" + t.topic + "#" + shard;
    assert t.namespace + "::" + t.topic + "#" + shard + CONSUMER_SUFFIX
        == t.namespace + "::" + (t.topic + "#" + shard) + CONSUMER_SUFFIX;
  }

  // ---------- when keys tell topics apart ----------

  /** No two colons in a row, and none at the end. */
  predicate PlainNamespace(namespace: string) {
    forall i | 0 <= i < |namespace| && namespace[i] == ':' :: i + 1 < |namespace| && namespace[i + 1] != ':'
  }

  predicate SameShard(a: Option<string>, b: Option<string>) {
    a == b || (!Sharded(a) && !Sharded(b))
  }

  lemma NamespaceNoLonger(n1: string, n2: string, rest1: string, rest2: string)
    requires n1 + "::" + rest1 == n2 + "::" + rest2 && |n1| < |n2|
    ensures !PlainNamespace(n2)
  {
    var key := n2 + "::" + rest2;
    assert key == n1 + "::" + rest1;
    assert key[|n1|] == ':' && key[|n1| + 1] == ':';
    assert n2[|n1|] == ':';
    assert |n1| + 1 < |n2| ==> n2[|n1| + 1] == ':';
  }

  lemma SuffixesDiffer(a: string, b: string)
    ensures a + CONSUMER_SUFFIX != b + PRODUCER_SUFFIX
  {
    var x, y := a + CONSUMER_SUFFIX, b + PRODUCER_SUFFIX;
    if |a| == |b| {
      assert x[|a| + 2] == CONSUMER_SUFFIX[2];
      assert y[|b| + 2] == PRODUCER_SUFFIX[2];
    }
  }

  /** No consumer key is any producer key. */
  lemma ConsumerIsNeverProducer(t1: Topic, t2: Topic, s1: Option<string>, s2: Option<string>)
    ensures StreamKey(t1, Consumer, s1) != StreamKey(t2, Producer, s2)
  {
    SuffixesDiffer(KeyGenerator(t1.namespace, ShardDecorator(t1.topic, s1)),
                   KeyGenerator(t2.namespace, ShardDecorator(t2.topic, s2)));
  }

  lemma EqualKeysEqualBodies(t1: Topic, t2: Topic, party: Party, s1: Option<string>, s2: Option<string>)
    requires StreamKey(t1, party, s1) == StreamKey(t2, party, s2)
    ensures t1.namespace + "::" + ShardDecorator(t1.topic, s1) == t2.namespace + "::" + ShardDecorator(t2.topic, s2)
  {
    var a := KeyGenerator(t1.namespace, ShardDecorator(t1.topic, s1));
    var b := KeyGenerator(t2.namespace, ShardDecorator(t2.topic, s2));
    var suffix := if party.Consumer? then CONSUMER_SUFFIX else PRODUCER_SUFFIX;
    assert |a| == |b|;
    assert a == (a + suffix)[..|a|] == (b + suffix)[..|b|] == b;
  }

  /** The shorter topic's shard begins with the rest of the longer topic's name. */
  predicate Continues(t1: string, s1: Option<string>, t2: string, s2: Option<string>) {
    && |t1| < |t2| && t1 + "#" <= t2 && Sharded(s1)
    && s1.value == ShardDecorator(t2[|t1| + 1..], s2)
  }

  /** There is a '#' in the name, and not only as its last character. */
  predicate HashInside(topic: string) {
    exists i :: 0 <= i < |topic| - 1 && topic[i] == '#'
  }

  lemma HashWhereItContinues(t1: string, s1: Option<string>, t2: string, s2: Option<string>)
    requires Continues(t1, s1, t2, s2)
    ensures '#' in t2 && (HashInside(t2) || Sharded(s2))
  {
    assert t2[|t1|] == (t1 + "#")[|t1|];
  }

  /** Two (topic, shard) pairs are decorated alike exactly if they are the same or one continues the other. */
  lemma SameBodyExactly(t1: string, t2: string, s1: Option<string>, s2: Option<string>)
    ensures ShardDecorator(t1, s1) == ShardDecorator(t2, s2)
       <==> (t1 == t2 && SameShard(s1, s2)) || Continues(t1, s1, t2, s2) || Continues(t2, s2, t1, s1)
  {
    if |t1| < |t2| {
      LongerTopic(t1, t2, s1, s2);
    } else if |t2| < |t1| {
      LongerTopic(t2, t1, s2, s1);
    } else {
      EqualLength(t1, t2, s1, s2);
    }
  }

  lemma EqualLength(t1: string, t2: string, s1: Option<string>, s2: Option<string>)
    requires |t1| == |t2|
    ensures ShardDecorator(t1, s1) == ShardDecorator(t2, s2) <==> t1 == t2 && SameShard(s1, s2)
  {
    var a, b := ShardDecorator(t1, s1), ShardDecorator(t2, s2);
    assert t1 == a[..|t1|] && t2 == b[..|t2|];
    if a == b && Sharded(s1) && Sharded(s2) {
      assert s1.value == a[|t1| + 1..] == b[|t2| + 1..] == s2.value;
    }
  }

  lemma LongerTopic(t1: string, t2: string, s1: Option<string>, s2: Option<string>)
    requires |t1| < |t2|
    ensures ShardDecorator(t1, s1) == ShardDecorator(t2, s2) <==> Continues(t1, s1, t2, s2)
  {
    if ShardDecorator(t1, s1) == ShardDecorator(t2, s2) {
      SameBodyContinues(t1, t2, s1, s2);
    }
    if t1 + "#" <= t2 {
      DecoratedRest(t1, t2, s2);
    }
  }

  lemma SameBodyContinues(t1: string, t2: string, s1: Option<string>, s2: Option<string>)
    requires |t1| < |t2| && ShardDecorator(t1, s1) == ShardDecorator(t2, s2)
    ensures Continues(t1, s1, t2, s2)
  {
    var body, n := ShardDecorator(t1, s1), |t1|;
    assert body[..|t2|] == t2 && Sharded(s1);
    assert body == t1 + "#" + s1.value;
    assert t2[..n + 1] == body[..n + 1] == t1 + "#";
    DecoratedRest(t1, t2, s2);
    assert s1.value == body[n + 1..] == (t1 + "#" + ShardDecorator(t2[n + 1..], s2))[n + 1..];
  }

  lemma DecoratedRest(t1: string, t2: string, s2: Option<string>)
    requires t1 + "#" <= t2
    ensures ShardDecorator(t2, s2) == t1 + "#" + ShardDecorator(t2[|t1| + 1..], s2)
  {
    assert t2 == t1 + "#" + t2[|t1| + 1..];
  }

  /** With plain namespaces: two keys are the same exactly if party and namespace are, and the bodies. */
  lemma SameKeyExactly(t1: Topic, t2: Topic, p1: Party, p2: Party, s1: Option<string>, s2: Option<string>)
    requires PlainNamespace(t1.namespace) && PlainNamespace(t2.namespace)
    ensures StreamKey(t1, p1, s1) == StreamKey(t2, p2, s2)
       <==> p1 == p2 && t1.namespace == t2.namespace && ShardDecorator(t1.topic, s1) == ShardDecorator(t2.topic, s2)
  {
    if StreamKey(t1, p1, s1) == StreamKey(t2, p2, s2) {
      ConsumerIsNeverProducer(t1, t2, s1, s2);
      ConsumerIsNeverProducer(t2, t1, s2, s1);
      EqualKeysEqualBodies(t1, t2, p1, s1, s2);
      var a, b := ShardDecorator(t1.topic, s1), ShardDecorator(t2.topic, s2);
      var n := |t1.namespace|;
      assert n == |t2.namespace| by {
        if n < |t2.namespace| {
          NamespaceNoLonger(t1.namespace, t2.namespace, a, b);
        } else if |t2.namespace| < n {
          NamespaceNoLonger(t2.namespace, t1.namespace, b, a);
        }
      }
      assert t1.namespace == (t1.namespace + "::" + a)[..n] == (t2.namespace + "::" + b)[..n] == t2.namespace;
      assert a == (t1.namespace + "::" + a)[n + 2..] == (t2.namespace + "::" + b)[n + 2..] == b;
    }
  }

  /** With plain namespaces and '#'-free topics, a key names its party, namespace, topic and shard. */
  lemma KeysAreUnambiguous(t1: Topic, t2: Topic, p1: Party, p2: Party, s1: Option<string>, s2: Option<string>)
    requires PlainNamespace(t1.namespace) && PlainNamespace(t2.namespace)
    requires '#' !in t1.topic && '#' !in t2.topic
    ensures StreamKey(t1, p1, s1) == StreamKey(t2, p2, s2)
       <==> p1 == p2 && t1.namespace == t2.namespace && t1.topic == t2.topic && SameShard(s1, s2)
  {
    SameKeyExactly(t1, t2, p1, p2, s1, s2);
    SameBodyExactly(t1.topic, t2.topic, s1, s2);
    if Continues(t1.topic, s1, t2.topic, s2) {
      HashWhereItContinues(t1.topic, s1, t2.topic, s2);
    }
    if Continues(t2.topic, s2, t1.topic, s1) {
      HashWhereItContinues(t2.topic, s2, t1.topic, s1);
    }
  }

  /** A topic made from a bare namespace shares its streams with those options that name no other topic. */
  lemma BareNamespaceIsDefaultTopic(name: string, o: TopicOptions, party: Party, shard: Option<string>)
    requires o.Options? && PlainNamespace(name) && PlainNamespace(o.namespace)
    requires o.topic.Some? ==> '#' !in o.topic.value
    ensures StreamKey(MakeTopic(Namespace(name)), party, shard) == StreamKey(MakeTopic(o), party, shard)
       <==> o.namespace == name && o.topic in {None, Some("DEFAULT")}
  {
    KeysAreUnambiguous(MakeTopic(Namespace(name)), MakeTopic(o), party, party, shard, shard);
  }

  // ---------- and when they do not ----------

  /** Every other namespace shares its keys with a shorter one, whatever the topic and shard. */
  lemma OtherNamespacesCollide(t: Topic, party: Party, shard: Option<string>) returns (u: Topic)
    requires !PlainNamespace(t.namespace)
    ensures |u.namespace| < |t.namespace| && StreamKey(u, party, shard) == StreamKey(t, party, shard)
  {
    var n := t.namespace;
    var i :| 0 <= i < |n| && n[i] == ':' && !(i + 1 < |n| && n[i + 1] != ':');
    var body := n + "::" + t.topic;
    u := t.(namespace := n[..i], topic := body[i + 2..]);
    assert body[i + 1] == ':';
    assert body == u.namespace + "::" + u.topic;
    assert n + "::" + ShardDecorator(t.topic, shard) == u.namespace + "::" + ShardDecorator(u.topic, shard) by {
      if Sharded(shard) {
        assert n + "::" + ShardDecorator(t.topic, shard) == body + "#" + shard.value;
      }
    }
  }

  /** Another topic or shard with the same key. */
  predicate Shares(t: Topic, party: Party, shard: Option<string>, u: Topic, uShard: Option<string>) {
    && PlainNamespace(u.namespace) && StreamKey(u, party, uShard) == StreamKey(t, party, shard)
    && !(u.namespace == t.namespace && u.topic == t.topic && SameShard(uShard, shard))
  }

  /**
   A topic with its shard shares its key with another topic or shard exactly if there is a shard, or
   a '#' inside the topic's name.
   */
  lemma SharesKeyExactly(t: Topic, party: Party, shard: Option<string>)
    requires PlainNamespace(t.namespace)
    ensures Sharded(shard) || HashInside(t.topic) <==> exists u, uShard :: Shares(t, party, shard, u, uShard)
  {
    if Sharded(shard) {
      var u := t.(topic := t.topic + "#" + shard.value);
      SameKeyExactly(u, t, party, party, None, shard);
      assert Shares(t, party, shard, u, None);
    } else if HashInside(t.topic) {
      var i :| 0 <= i < |t.topic| - 1 && t.topic[i] == '#';
      var u, rest := t.(topic := t.topic[..i]), t.topic[i + 1..];
      assert t.topic == u.topic + "#" + rest;
      SameKeyExactly(u, t, party, party, Some(rest), shard);
      assert Shares(t, party, shard, u, Some(rest));
    } else {
      forall u, uShard ensures !Shares(t, party, shard, u, uShard) {
        if PlainNamespace(u.namespace) {
          SameKeyExactly(u, t, party, party, uShard, shard);
          SameBodyExactly(u.topic, t.topic, uShard, shard);
          if Continues(u.topic, uShard, t.topic, shard) {
            HashWhereItContinues(u.topic, uShard, t.topic, shard);
          }
        }
      }
    }
  }
}
