/**
 * Shared vocabulary of the MQTT bridge model: bounded integers, the constants
 * of slm_at_mqtt.c, the errno codes it returns, the events the MQTT library
 * hands to the event handler, and the calls the bridge makes into the library.
 */
module MqttTypes {

  newtype byte = x: int | 0 <= x < 0x100
  newtype uint16 = x: int | 0 <= x < 0x1_0000

  datatype Option<T> = None | Some(value: T)

  /** UINT16_MAX, the value at which both message-ID counters restart at 1. */
  const Uint16Max: uint16 := 0xFFFF
  /** MQTT_MAX_TOPIC_LEN. */
  const MaxTopicLen: nat := 128
  /** MQTT_MESSAGE_BUFFER_LEN, set to Zephyr's NET_IPV4_MTU: the size of rx_buffer, tx_buffer and payload_buf. */
  const MessageBufferLen: nat := 576
  /** MQTT_QOS_2_EXACTLY_ONCE, the largest QoS level of section 4.3 of MQTT 3.1.1. */
  const MaxQos: nat := 2
  /** MQTT_VERSION_3_1_1: protocol level 4 (section 3.1.2.2 of MQTT 3.1.1). */
  const ProtocolLevel311: nat := 4

  /** errno values (Zephyr's errno.h); the bridge returns them negated. */
  const EINVAL: int := 22
  const EMSGSIZE: int := 122
  const EISCONN: int := 127
  const ENOTCONN: int := 128

  /** The "\r\n" the notifications are framed with. */
  const CRLF: seq<byte> := [13, 10]

  /** ctx.family: zero after slm_at_mqtt_init, AF_INET or AF_INET6 once a connect command set it. */
  datatype Family = Unspecified | IPv4 | IPv6

  /** A resolved broker address with the configured port (ctx.broker / ctx.broker6). */
  datatype Endpoint = Endpoint(family: Family, address: seq<byte>, port: uint16)

  /** Which member of the ctx address union client.broker points at, or NULL. */
  datatype BrokerSlot = NoBroker | BrokerV4 | BrokerV6

  /** client.transport: plain TCP, or TLS with one security tag, peer verification required and the broker URL as host name. */
  datatype Transport = NonSecure | Secure(secTag: nat, hostname: seq<byte>)

  /** The fields of the library's mqtt_client struct that client_init sets. */
  datatype ClientConfig = ClientConfig(
    broker: BrokerSlot,
    clientId: seq<byte>,
    userName: Option<seq<byte>>,
    password: Option<seq<byte>>,
    protocolVersion: nat,
    rxBufSize: nat,
    txBufSize: nat,
    transport: Transport)

  /** mqtt_publish_param: topic, QoS, retain and duplicate flags, message ID and payload. */
  datatype PublishParam = PublishParam(
    topic: seq<byte>, qos: nat, retain: nat, dup: bool, messageId: uint16, payload: seq<byte>)

  /** One mqtt_topic entry of a subscription list. */
  datatype TopicFilter = TopicFilter(topic: seq<byte>, qos: nat)

  /** mqtt_subscription_list. */
  datatype SubscriptionList = SubscriptionList(list: seq<TopicFilter>, messageId: uint16)

  /** mqtt_evt_type. */
  datatype EventKind =
    ConnAck | Disconnect | Publish | PubAck | PubRec | PubRel | PubComp | SubAck | UnsubAck | PingResp

  /**
   * An mqtt_evt: its type, its result, the packet identifier its parameter
   * carries, and, for an inbound PUBLISH, the topic and the payload whose
   * length the header announces.
   */
  datatype Event = Event(kind: EventKind, result: int, messageId: uint16, topic: seq<byte>, payload: seq<byte>)

  /**
   * What the library answers while the handler runs: the result of
   * mqtt_readall_publish_payload and of the QoS 2 continuation call.
   */
  datatype Replies = Replies(readResult: int, continuationResult: int)

  /** One callback invocation: the event and the library's answers during it. */
  datatype Delivery = Delivery(evt: Event, replies: Replies)

  /** The calls the bridge makes into code outside this file, in the order it makes them. */
  datatype Call =
    | ResolveBroker(family: Family, host: seq<byte>)
    | MqttConnect(config: ClientConfig)
    | StartPump
    | MqttDisconnect
    | MqttPublish(param: PublishParam)
    | MqttSubscribe(subscriptions: SubscriptionList)
    | MqttUnsubscribe(subscriptions: SubscriptionList)
    | EnterDatamode
    | ReadAllPayload(length: nat)
    | Qos2Release(releaseId: uint16)
    | Qos2Complete(completeId: uint16)
    | PollWait
    | MqttLive
    | MqttInput
    | MqttAbort

  /** Number of occurrences of `c` in `cs`. */
  function Count(c: Call, cs: seq<Call>): (n: nat)
  {
    if cs == [] then 0 else (if cs[0] == c then 1 else 0) + Count(c, cs[1..])
  }

  lemma {:induction false} CountAppend(c: Call, a: seq<Call>, b: seq<Call>)
    ensures Count(c, a + b) == Count(c, a) + Count(c, b)
  {
    if a == [] {
      assert a + b == b;
    } else {
      assert (a + b)[1..] == a[1..] + b;
      CountAppend(c, a[1..], b);
    }
  }

  lemma {:induction false} CountAbsent(c: Call, cs: seq<Call>)
    requires c !in cs
    ensures Count(c, cs) == 0
  {
    if cs != [] {
      assert c !in cs[1..];
      CountAbsent(c, cs[1..]);
    }
  }
}
