/**
 * mqtt_evt_handler, handle_mqtt_publish_evt and publish_get_payload as a
 * function of the event, the session's connected flag and the library's
 * answers: the new flag, the library calls made, the notifications sent and
 * the value written in the closing "#XMQTTEVT" line.
 */
module Events {
  import opened MqttTypes
  import opened Framing

  /** Calls, notifications and return value of one handler branch. */
  datatype Reaction = Reaction(calls: seq<Call>, sent: seq<Emission>, ret: int)

  /** Everything one callback does: the branch's reaction plus the new connected flag. */
  datatype Effect = Effect(connected: bool, calls: seq<Call>, sent: seq<Emission>, ret: int)

  /** The events after which the session no longer counts as connected: a refused CONNACK, any DISCONNECT. */
  predicate ClearsConnected(e: Event)
  {
    e.kind == Disconnect || (e.kind == ConnAck && e.result != 0)
  }

  /** The QoS 2 continuation an event asks for, if its result is 0 (section 4.3.3 of MQTT 3.1.1). */
  function Continuation(e: Event): (c: Option<Call>)
  {
    if e.result != 0 then None
    else if e.kind == PubRec then Some(Qos2Release(e.messageId))
    else if e.kind == PubRel then Some(Qos2Complete(e.messageId))
    else None
  }

  /** Every call is a payload read or a QoS 2 continuation. */
  predicate HandlerCallsOnly(cs: seq<Call>)
  {
    forall c :: c in cs ==> c.Qos2Release? || c.Qos2Complete? || c.ReadAllPayload?
  }

  /** No send before the last one is a "#XMQTTEVT" line. */
  predicate NoEarlierEvtLine(sent: seq<Emission>)
  {
    forall i :: 0 <= i < |sent| - 1 ==> !(sent[i].Line? && sent[i].notice.EvtNotice?)
  }

  /**
   * publish_get_payload: the payload is read into payload_buf only when its
   * length fits the buffer; a longer payload is refused with -EMSGSIZE and
   * nothing is read.
   */
  function PayloadRead(length: nat, readResult: int): (r: Reaction)
    ensures r.sent == []
    ensures r.calls != [] <==> length <= MessageBufferLen
    ensures r.calls != [] ==> r.calls == [ReadAllPayload(length)] && r.ret == readResult
    ensures r.calls == [] ==> r.ret == -EMSGSIZE
  {
    if length > MessageBufferLen then Reaction([], [], -EMSGSIZE)
    else Reaction([ReadAllPayload(length)], [], readResult)
  }

  /**
   * handle_mqtt_publish_evt: an inbound message is delivered as one frame
   * when its payload was read, and not at all otherwise; the return value is
   * 0 on delivery and the negative read error otherwise.
   */
  function PublishReaction(e: Event, readResult: int): (r: Reaction)
    ensures |e.payload| > MessageBufferLen ==> r == Reaction([], [], -EMSGSIZE)
    ensures r.sent != [] <==> |e.payload| <= MessageBufferLen && readResult >= 0
    ensures r.sent != [] ==> r.sent == MessageFrame(e.topic, e.payload) && r.ret == 0
    ensures r.sent == [] ==> r.ret < 0
    ensures r.calls == (if |e.payload| <= MessageBufferLen then [ReadAllPayload(|e.payload|)] else [])
  {
    var read := PayloadRead(|e.payload|, readResult);
    if read.ret < 0 then read
    else Reaction(read.calls, MessageFrame(e.topic, e.payload), 0)
  }

  /** The switch of mqtt_evt_handler, before the closing notification. */
  function Branch(connected: bool, d: Delivery): (x: Effect)
    ensures x.connected == (connected && !ClearsConnected(d.evt))
    ensures x.sent != [] ==> d.evt.kind == Publish
    ensures d.evt.kind != Publish ==> x.calls == (if Continuation(d.evt).Some? then [Continuation(d.evt).value] else [])
  {
    var e := d.evt;
    match e.kind
    case ConnAck => Effect(if e.result != 0 then false else connected, [], [], e.result)
    case Disconnect => Effect(false, [], [], e.result)
    case Publish =>
      var r := PublishReaction(e, d.replies.readResult);
      Effect(connected, r.calls, r.sent, r.ret)
    case PubRec =>
      if e.result != 0 then Effect(connected, [], [], e.result)
      else Effect(connected, [Qos2Release(e.messageId)], [], d.replies.continuationResult)
    case PubRel =>
      if e.result != 0 then Effect(connected, [], [], e.result)
      else Effect(connected, [Qos2Complete(e.messageId)], [], d.replies.continuationResult)
    case _ => Effect(connected, [], [], e.result)
  }

  /**
   * One call of mqtt_evt_handler. The flag drops exactly on a refused CONNACK
   * or a DISCONNECT and changes on no other event, and every event ends with a
   * "#XMQTTEVT: type,ret" line.
   */
  function EventEffect(connected: bool, d: Delivery): (x: Effect)
    ensures x.connected == (connected && !ClearsConnected(d.evt))
    ensures |x.sent| >= 1 && x.sent[|x.sent| - 1] == Line(EvtNotice(d.evt.kind, x.ret))
  {
    var b := Branch(connected, d);
    Effect(b.connected, b.calls, b.sent + [Line(EvtNotice(d.evt.kind, b.ret))], b.ret)
  }

  /**
   * What the handler calls and sends for each kind of event: exactly one
   * "#XMQTTEVT" line, the last; a message frame only for an inbound PUBLISH;
   * for PUBREC and PUBREL with result 0 exactly one release or complete
   * carrying the event's packet ID, whose result is the value reported; for
   * every other event no call, and the event's own result reported.
   */
  lemma EventEffectCalls(connected: bool, d: Delivery)
    ensures var x := EventEffect(connected, d);
            NoEarlierEvtLine(x.sent) && HandlerCallsOnly(x.calls)
            && (Continuation(d.evt).Some? ==>
                  x.calls == [Continuation(d.evt).value] && x.ret == d.replies.continuationResult
                  && x.sent == [Line(EvtNotice(d.evt.kind, x.ret))])
            && (d.evt.kind == Publish ==>
                  var r := PublishReaction(d.evt, d.replies.readResult);
                  x.calls == r.calls && x.ret == r.ret && x.sent == r.sent + [Line(EvtNotice(Publish, r.ret))])
            && (d.evt.kind != Publish && Continuation(d.evt).None? ==>
                  x.calls == [] && x.ret == d.evt.result && x.sent == [Line(EvtNotice(d.evt.kind, d.evt.result))])
  {
    var x := EventEffect(connected, d);
    if d.evt.kind == Publish {
      var r := PublishReaction(d.evt, d.replies.readResult);
      assert r.sent == [] || r.sent == MessageFrame(d.evt.topic, d.evt.payload);
    }
  }

  /** An inbound PUBLISH whose payload exceeds the buffer is dropped: no read, no message, the session stays as it was. */
  lemma OversizedPublishDropped(connected: bool, d: Delivery)
    requires d.evt.kind == Publish && |d.evt.payload| > MessageBufferLen
    ensures var x := EventEffect(connected, d);
            x.connected == connected && x.calls == []
            && x.sent == [Line(EvtNotice(Publish, -EMSGSIZE))]
  {
    EventEffectCalls(connected, d);
  }

  /** A delivered inbound message reaches the host as topic and payload that a reader recovers exactly. */
  lemma DeliveredMessageRecoverable(connected: bool, d: Delivery)
    requires d.evt.kind == Publish && |d.evt.payload| <= MessageBufferLen && d.replies.readResult >= 0
    ensures var x := EventEffect(connected, d);
            |x.sent| == 6 && x.sent[0] == Line(MsgNotice(|d.evt.topic|, |d.evt.payload|))
            && Unframe(x.sent[0].notice, RawBytes(x.sent[1..5])) == Some((d.evt.topic, d.evt.payload))
  {
    var x := EventEffect(connected, d);
    EventEffectCalls(connected, d);
    assert x.sent[..5] == MessageFrame(d.evt.topic, d.evt.payload);
    assert x.sent[1..5] == MessageFrame(d.evt.topic, d.evt.payload)[1..];
    FrameRoundTrip(d.evt.topic, d.evt.payload);
  }
}
