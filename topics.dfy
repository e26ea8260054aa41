/**
  The bus topics the aggregator uses: the nine sensor topics it subscribes to
  under one prefix, the control topic it publishes to, and the rule that turns
  an inbound topic into a channel key.
 */
module Topics {
  import opened JsString

  /** A message on the bus: a topic and a payload already decoded to text. */
  datatype Message = Message(topic: string, payload: string)

  const TopicPrefix: string := "mykmou/window25/"
  const SensorPath: string := "sensor/"
  const ControlTopic: string := TopicPrefix + "control"

  /** The channels subscribed to, each as the topic suffix after `TopicPrefix`. */
  const SensorTopics: seq<string> := [
    "sensor/temperature", "sensor/humidity", "sensor/motion", "sensor/window",
    "sensor/sound", "sensor/distance", "sensor/vibration",
    "sensor/window_motor_state", "sensor/danger"
  ]

  /** The full topic of sensor channel `key`. */
  function SensorTopic(key: string): string {
    TopicPrefix + SensorPath + key
  }

  /** The channel key of an inbound topic: the topic with `mykmou/window25/sensor/` cut out. */
  function ChannelKey(topic: string): (k: string)
    ensures k == topic || |k| + |TopicPrefix + SensorPath| == |topic|
  {
    RemoveFirst(topic, TopicPrefix + SensorPath)
  }

  /** A message on a subscribed sensor topic is filed under the channel name the topic ends with. */
  lemma ChannelKeyOfSensorTopic(key: string)
    ensures ChannelKey(SensorTopic(key)) == key
  {
    assert SensorTopic(key) == (TopicPrefix + SensorPath) + key;
    RemoveLeadingPattern(TopicPrefix + SensorPath, key);
  }

  /** Every subscribed topic yields the channel name that follows `sensor/`. */
  lemma SubscribedChannelKeys()
    ensures forall i :: 0 <= i < |SensorTopics| ==>
      ChannelKey(TopicPrefix + SensorTopics[i]) == SensorTopics[i][|SensorPath|..]
  {
    forall i | 0 <= i < |SensorTopics|
      ensures ChannelKey(TopicPrefix + SensorTopics[i]) == SensorTopics[i][|SensorPath|..]
    {
      ChannelKeyUnderSensorPath(SensorTopics[i]);
    }
  }

  lemma ChannelKeyUnderSensorPath(t: string)
    requires |t| >= |SensorPath| && t[..|SensorPath|] == SensorPath
    ensures ChannelKey(TopicPrefix + t) == t[|SensorPath|..]
  {
    var key := t[|SensorPath|..];
    assert t == SensorPath + key;
    assert TopicPrefix + t == SensorTopic(key);
    ChannelKeyOfSensorTopic(key);
  }

  /** A topic that does not contain `mykmou/window25/sensor/` is used whole as the key. */
  lemma ChannelKeyOfForeignTopic(topic: string)
    requires forall i :: !OccursAt(topic, TopicPrefix + SensorPath, i)
    ensures ChannelKey(topic) == topic
  {
    RemoveFirstAbsent(topic, TopicPrefix + SensorPath);
  }

  /** Distinct channel names come from distinct sensor topics and never share a key. */
  lemma ChannelKeyInjective(k1: string, k2: string)
    requires k1 != k2
    ensures SensorTopic(k1) != SensorTopic(k2)
    ensures ChannelKey(SensorTopic(k1)) != ChannelKey(SensorTopic(k2))
  {
    ChannelKeyOfSensorTopic(k1);
    ChannelKeyOfSensorTopic(k2);
  }
}
