/**
 * The text notifications the bridge sends to the AT host through rsp_send,
 * kept as a sequence of send calls: a formatted header line, or raw bytes.
 * An inbound message is sent as a header carrying the topic size and payload
 * length, then the topic, CRLF, the payload and CRLF.
 */
module Framing {
  import opened MqttTypes

  /** The formatted lines: "#XMQTTMSG: <topic size>,<payload length>" and "#XMQTTEVT: <type>,<ret>". */
  datatype Notice = MsgNotice(topicLen: nat, payloadLen: nat) | EvtNotice(kind: EventKind, ret: int)

  /** One rsp_send call. */
  datatype Emission = Line(notice: Notice) | Raw(data: seq<byte>)

  /** The five sends that deliver an inbound message. */
  function MessageFrame(topic: seq<byte>, payload: seq<byte>): (f: seq<Emission>)
    ensures |f| == 5
    ensures f[0] == Line(MsgNotice(|topic|, |payload|))
    ensures forall i :: 1 <= i < 5 ==> f[i].Raw?
  {
    [Line(MsgNotice(|topic|, |payload|)), Raw(topic), Raw(CRLF), Raw(payload), Raw(CRLF)]
  }

  /** The bytes after the header are the topic, CRLF, the payload and CRLF, in that order. */
  lemma FrameBytes(topic: seq<byte>, payload: seq<byte>)
    ensures RawBytes(MessageFrame(topic, payload)[1..]) == topic + CRLF + payload + CRLF
  {
    var rest := MessageFrame(topic, payload)[1..];
    assert rest == [Raw(topic), Raw(CRLF), Raw(payload), Raw(CRLF)];
    assert rest[1..][1..][1..][1..] == [];
    calc {
      RawBytes(rest);
      topic + RawBytes(rest[1..]);
      topic + (CRLF + RawBytes(rest[1..][1..]));
      topic + (CRLF + (payload + RawBytes(rest[1..][1..][1..])));
      topic + (CRLF + (payload + (CRLF + RawBytes(rest[1..][1..][1..][1..]))));
    }
  }

  /** The bytes of the raw sends of `es`, concatenated in order. */
  function RawBytes(es: seq<Emission>): (b: seq<byte>)
  {
    if es == [] then []
    else (if es[0].Raw? then es[0].data else []) + RawBytes(es[1..])
  }

  /**
   * What a host reading the notification recovers: given the header and the
   * bytes that follow it, the topic and the payload, or None when the bytes do
   * not have the announced shape.
   */
  function Unframe(n: Notice, body: seq<byte>): (r: Option<(seq<byte>, seq<byte>)>)
  {
    if n.MsgNotice? && |body| == n.topicLen + n.payloadLen + 4
       && body[n.topicLen..n.topicLen + 2] == CRLF && body[|body| - 2..] == CRLF
    then Some((body[..n.topicLen], body[n.topicLen + 2..|body| - 2]))
    else None
  }

  /**
   * The framing is unambiguous: whatever bytes the topic and payload hold
   * (CRLF included), the header's lengths recover both exactly.
   */
  lemma FrameRoundTrip(topic: seq<byte>, payload: seq<byte>)
    ensures var f := MessageFrame(topic, payload);
            Unframe(f[0].notice, RawBytes(f[1..])) == Some((topic, payload))
  {
    FrameBytes(topic, payload);
    var body := topic + CRLF + payload + CRLF;
    var t := |topic|;
    assert body[..t] == topic;
    assert body[t..t + 2] == CRLF;
    assert body[t + 2..|body| - 2] == payload;
    assert body[|body| - 2..] == CRLF;
  }

  /** Conversely, every body the host accepts is exactly one frame's bytes. */
  lemma UnframeOnlyFrames(n: Notice, body: seq<byte>, topic: seq<byte>, payload: seq<byte>)
    requires Unframe(n, body) == Some((topic, payload))
    ensures n == MsgNotice(|topic|, |payload|)
    ensures body == topic + CRLF + payload + CRLF
  {
    var t := n.topicLen;
    assert body == body[..t] + body[t..t + 2] + body[t + 2..|body| - 2] + body[|body| - 2..];
  }
}
