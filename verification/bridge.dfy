/**
 * The state slm_at_mqtt.c keeps in file-scope variables (the session record
 * ctx, the connect parameters, pub_param, the static subscribe counter and the
 * MQTT client) and the operations that change it: init and uninit, connect and
 * disconnect, publish with its datamode continuation, subscribe and
 * unsubscribe, the event callback and the background loop. Calls into the
 * MQTT library, the resolver, the AT host and the kernel are appended to
 * `calls`, and the text sent to the AT host to `sent`; their results are
 * parameters of the operations.
 */
module MqttBridge {
  import opened MqttTypes
  import opened MessageId
  import opened ClientSetup
  import opened Framing
  import opened Events
  import opened Pump

  /** The parsed arguments of AT#XMQTTCON=<op>,<cid>,<username>,<password>,<url>,<port>[,<sec_tag>]. */
  datatype ConnectArgs = ConnectArgs(
    clientId: seq<byte>, username: seq<byte>, password: seq<byte>,
    url: seq<byte>, port: uint16, secTag: Option<nat>)

  /** The outcome of getaddrinfo: 0 with the first address, or a non-zero error. */
  datatype Resolution = Resolution(code: int, address: seq<byte>)

  /** What the resolver and mqtt_connect answer during a connect. */
  datatype ConnectReplies = ConnectReplies(resolution: Resolution, connectResult: int)

  /** What mqtt_disconnect returns, and the event it delivers while it runs, if any. */
  datatype DisconnectReplies = DisconnectReplies(result: int, delivered: Option<Delivery>)

  /** The operations the AT host passes to the datamode callback. */
  datatype DatamodeOp = DatamodeSend | DatamodeExit

  class Bridge {
    // ctx: the session record
    var family: Family
    var connected: bool
    var username: seq<byte>
    var password: seq<byte>
    var secTag: Option<nat>        // None is INVALID_SEC_TAG
    var broker: Option<Endpoint>   // None until broker_init first resolved an address
    // the buffers the connect command fills
    var clientId: seq<byte>
    var brokerUrl: seq<byte>
    var brokerPort: uint16
    // pub_param, filled field by field by the publish command
    var pubTopic: seq<byte>
    var pubQos: nat
    var pubRetain: nat
    var pubDup: bool
    var pubMessageId: uint16
    // the function-static sub_message_id of do_mqtt_subscribe
    var subMessageId: uint16
    // the library's client struct, as client_init leaves it
    var client: ClientConfig
    // whether the MQTT library was built with TLS (CONFIG_MQTT_LIB_TLS)
    const tlsBuilt: bool
    // calls made into other code, and notifications sent to the AT host, in order
    var calls: seq<Call>
    var sent: seq<Emission>

    /**
     * The bridge's invariant: the publish parameters only ever hold a valid
     * QoS and retain flag, and neither counter holds 65535, so the next
     * message ID is never 0.
     */
    ghost predicate Valid()
      reads this
    {
      pubQos <= MaxQos && pubRetain <= 1 && pubMessageId != Uint16Max && subMessageId != Uint16Max
    }

    /** The publish request pub_param describes, carrying `payload`. */
    function PubParam(payload: seq<byte>): (p: PublishParam)
      reads this
    {
      PublishParam(pubTopic, pubQos, pubRetain, pubDup, pubMessageId, payload)
    }

    /** The file's variables as the C runtime zero-initialises them, before slm_at_mqtt_init. */
    constructor (tlsBuilt: bool)
      ensures Valid() && this.tlsBuilt == tlsBuilt
      ensures !connected && family == Unspecified && secTag == Some(0) && broker == None
      ensures pubMessageId == 0 && subMessageId == 0 && calls == [] && sent == []
    {
      family, connected := Unspecified, false;
      username, password := [], [];
      secTag := Some(0);
      broker := None;
      clientId, brokerUrl, brokerPort := [], [], 0;
      pubTopic, pubQos, pubRetain, pubDup, pubMessageId := [], 0, 0, false, 0;
      subMessageId := 0;
      client := ClientConfig(NoBroker, [], None, None, 0, 0, 0, NonSecure);
      this.tlsBuilt := tlsBuilt;
      calls, sent := [], [];
    }

    /**
     * slm_at_mqtt_init: restarts the publish counter and clears the session
     * record, with no security tag. The subscribe counter, the connect
     * parameter buffers and the client are left as they were.
     */
    method Init() returns (r: int)
      requires Valid()
      modifies this`pubMessageId, this`family, this`connected, this`username, this`password, this`secTag, this`broker
      ensures Valid() && r == 0
      ensures pubMessageId == 0 && !connected && family == Unspecified
      ensures username == [] && password == [] && secTag == None && broker == None
    {
      pubMessageId := 0;
      family, connected := Unspecified, false;
      username, password := [], [];
      broker := None;
      secTag := None;
      r := 0;
    }

    /** slm_at_mqtt_uninit: detaches the broker address from the client. */
    method Uninit() returns (r: int)
      modifies this`client
      ensures client == old(client).(broker := NoBroker) && r == 0
    {
      client := client.(broker := NoBroker);
      r := 0;
    }

    /**
     * do_mqtt_connect: refused with -EISCONN while connected, without any
     * change. Otherwise the broker is resolved (its error is returned as is),
     * the client is configured from the session, and mqtt_connect is called;
     * only when it succeeds is the pump started and the session marked
     * connected.
     */
    method DoConnect(cr: ConnectReplies) returns (err: int)
      requires Valid()
      modifies this`broker, this`client, this`calls, this`connected
      ensures Valid()
      ensures err == 0 <==> !old(connected) && connected
      ensures old(connected) ==> err == -EISCONN && unchanged(this)
      ensures !old(connected) && cr.resolution.code != 0 ==>
                err == cr.resolution.code && !connected && broker == old(broker) && client == old(client)
                && calls == old(calls) + [ResolveBroker(family, brokerUrl)]
      ensures !old(connected) && cr.resolution.code == 0 ==>
                broker == Some(Endpoint(family, cr.resolution.address, brokerPort))
                && client == ClientInit(family, clientId, username, password, secTag, brokerUrl, tlsBuilt)
                && calls == old(calls) + [ResolveBroker(family, brokerUrl), MqttConnect(client)]
                              + (if cr.connectResult == 0 then [StartPump] else [])
                && connected == (cr.connectResult == 0) && err == cr.connectResult
    {
      if connected {
        return -EISCONN;
      }
      // broker_init
      calls := calls + [ResolveBroker(family, brokerUrl)];
      if cr.resolution.code != 0 {
        return cr.resolution.code;
      }
      broker := Some(Endpoint(family, cr.resolution.address, brokerPort));
      client := ClientInit(family, clientId, username, password, secTag, brokerUrl, tlsBuilt);
      calls := calls + [MqttConnect(client)];
      if cr.connectResult != 0 {
        return cr.connectResult;
      }
      calls := calls + [StartPump];
      connected := true;
      err := 0;
    }

    /**
     * do_mqtt_disconnect: refused with -ENOTCONN when not connected, without
     * any change. Otherwise mqtt_disconnect is called (the library may deliver
     * an event meanwhile); its error is returned without resetting the client,
     * and on success the client's broker is cleared and 0 returned. The flag
     * itself is not written here: the DISCONNECT event the library delivers
     * clears it.
     */
    method DoDisconnect(dr: DisconnectReplies) returns (err: int)
      requires Valid()
      modifies this`connected, this`calls, this`sent, this`client
      ensures Valid()
      ensures !old(connected) ==> err == -ENOTCONN && unchanged(this)
      ensures old(connected) ==>
                var ev := Deliver(true, dr.delivered);
                err == dr.result && connected == ev.connected
                && calls == old(calls) + [MqttDisconnect] + ev.calls && sent == old(sent) + ev.sent
                && client == (if dr.result != 0 then old(client) else old(client).(broker := NoBroker))
    {
      if !connected {
        return -ENOTCONN;
      }
      calls := calls + [MqttDisconnect];
      if dr.delivered.Some? {
        HandleEvent(dr.delivered.value);
      }
      if dr.result != 0 {
        return dr.result;
      }
      // the bounded wait for the pump thread to end is not modelled
      var _ := Uninit();
      err := dr.result;
    }

    /** The session record filled from the parsed connect arguments, before any check. */
    method StoreConnectArgs(ipv6: bool, args: ConnectArgs)
      modifies this`clientId, this`username, this`password, this`brokerUrl, this`brokerPort, this`secTag, this`family
      ensures clientId == args.clientId && username == args.username && password == args.password
      ensures brokerUrl == args.url && brokerPort == args.port && secTag == args.secTag
      ensures family == (if ipv6 then IPv6 else IPv4)
    {
      clientId := args.clientId;
      username, password := args.username, args.password;
      brokerUrl, brokerPort := args.url, args.port;
      secTag := args.secTag;
      family := if ipv6 then IPv6 else IPv4;
    }

    /**
     * Op 1 and op 2 of AT#XMQTTCON: every argument and the family are stored,
     * then do_mqtt_connect runs on them, so they are stored even when the
     * connect is then refused with -EISCONN.
     */
    method ConnectWith(ipv6: bool, args: ConnectArgs, cr: ConnectReplies) returns (err: int)
      requires Valid()
      modifies this`clientId, this`username, this`password, this`brokerUrl, this`brokerPort, this`secTag, this`family
      modifies this`broker, this`client, this`calls, this`connected
      ensures Valid()
      ensures clientId == args.clientId && username == args.username && password == args.password
      ensures brokerUrl == args.url && brokerPort == args.port && secTag == args.secTag
      ensures family == (if ipv6 then IPv6 else IPv4)
      ensures err == 0 <==> !old(connected) && connected
      ensures old(connected) ==>
                err == -EISCONN && connected && broker == old(broker) && client == old(client) && calls == old(calls)
      ensures !old(connected) && cr.resolution.code != 0 ==>
                err == cr.resolution.code && !connected && broker == old(broker) && client == old(client)
                && calls == old(calls) + [ResolveBroker(family, args.url)]
      ensures !old(connected) && cr.resolution.code == 0 ==>
                broker == Some(Endpoint(family, cr.resolution.address, args.port))
                && client == ClientInit(family, args.clientId, args.username, args.password, args.secTag, args.url, tlsBuilt)
                && calls == old(calls) + [ResolveBroker(family, args.url), MqttConnect(client)]
                              + (if cr.connectResult == 0 then [StartPump] else [])
                && connected == (cr.connectResult == 0) && err == cr.connectResult
    {
      StoreConnectArgs(ipv6, args);
      err := DoConnect(cr);
    }

    /**
     * The set command of AT#XMQTTCON after its arguments were parsed: op 1
     * connects over IPv4 and op 2 over IPv6 (as ConnectWith), op 0
     * disconnects (as DoDisconnect), and any other op is -EINVAL with no
     * change. The publish parameters and both counters are never touched.
     */
    method ConnectCommand(op: uint16, args: ConnectArgs, cr: ConnectReplies, dr: DisconnectReplies)
      returns (err: int)
      requires Valid()
      modifies this`clientId, this`username, this`password, this`brokerUrl, this`brokerPort, this`secTag, this`family
      modifies this`broker, this`client, this`calls, this`connected, this`sent
      ensures Valid()
      ensures pubMessageId == old(pubMessageId) && subMessageId == old(subMessageId)
      ensures op == 1 || op == 2 ==>
                clientId == args.clientId && username == args.username && password == args.password
                && brokerUrl == args.url && brokerPort == args.port && secTag == args.secTag
                && family == (if op == 1 then IPv4 else IPv6) && sent == old(sent)
                && (err == 0 <==> !old(connected) && connected)
      ensures (op == 1 || op == 2) && old(connected) ==>
                err == -EISCONN && connected && broker == old(broker) && client == old(client) && calls == old(calls)
      ensures (op == 1 || op == 2) && !old(connected) && cr.resolution.code != 0 ==>
                err == cr.resolution.code && !connected && broker == old(broker) && client == old(client)
                && calls == old(calls) + [ResolveBroker(if op == 1 then IPv4 else IPv6, args.url)]
      ensures (op == 1 || op == 2) && !old(connected) && cr.resolution.code == 0 ==>
                var fam := if op == 1 then IPv4 else IPv6;
                broker == Some(Endpoint(fam, cr.resolution.address, args.port))
                && client == ClientInit(fam, args.clientId, args.username, args.password, args.secTag, args.url, tlsBuilt)
                && calls == old(calls) + [ResolveBroker(fam, args.url), MqttConnect(client)]
                              + (if cr.connectResult == 0 then [StartPump] else [])
                && connected == (cr.connectResult == 0) && err == cr.connectResult
      ensures op == 0 ==>
                clientId == old(clientId) && username == old(username) && password == old(password)
                && brokerUrl == old(brokerUrl) && brokerPort == old(brokerPort) && secTag == old(secTag)
                && family == old(family) && broker == old(broker)
      ensures op == 0 && !old(connected) ==> err == -ENOTCONN && unchanged(this)
      ensures op == 0 && old(connected) ==>
                var ev := Deliver(true, dr.delivered);
                err == dr.result && connected == ev.connected
                && calls == old(calls) + [MqttDisconnect] + ev.calls && sent == old(sent) + ev.sent
                && client == (if dr.result != 0 then old(client) else old(client).(broker := NoBroker))
      ensures op > 2 ==> err == -EINVAL && unchanged(this)
    {
      if op == 1 || op == 2 {
        err := ConnectWith(op == 2, args, cr);
      } else if op == 0 {
        err := DoDisconnect(dr);
      } else {
        err := -EINVAL;
      }
    }

    /**
     * The set command of AT#XMQTTPUB after its arguments were parsed (an
     * absent message is the empty one). A QoS above 2 is refused with -EINVAL
     * before anything changes; a retain flag above 1 is refused with -EINVAL
     * after the QoS was stored but before the message ID moves. Otherwise the
     * topic, flags and the next message ID are stored, and the message is
     * published, or, when it is empty, datamode is entered and nothing is
     * published yet.
     */
    method Publish(topic: seq<byte>, msg: seq<byte>, qos: uint16, retain: uint16, enterResult: int, publishResult: int)
      returns (err: int)
      requires Valid()
      modifies this`pubTopic, this`pubQos, this`pubRetain, this`pubDup, this`pubMessageId, this`calls
      ensures Valid()
      ensures qos as nat > MaxQos ==> err == -EINVAL && unchanged(this)
      ensures qos as nat <= MaxQos && retain > 1 ==>
                err == -EINVAL && pubQos == qos as nat && pubRetain == old(pubRetain) && pubTopic == old(pubTopic)
                && pubDup == old(pubDup) && pubMessageId == old(pubMessageId) && calls == old(calls)
      ensures qos as nat <= MaxQos && retain <= 1 ==>
                pubTopic == topic && pubQos == qos as nat && pubRetain == retain as nat && !pubDup
                && pubMessageId == NextMessageId(old(pubMessageId)) && 1 <= pubMessageId < Uint16Max
                && calls == old(calls) + [if msg == [] then EnterDatamode else MqttPublish(PubParam(msg))]
                && err == (if msg == [] then enterResult else publishResult)
    {
      if qos as nat <= MaxQos {
        pubQos := qos as nat;
      } else {
        return -EINVAL;
      }
      if retain <= 1 {
        pubRetain := retain as nat;
      } else {
        return -EINVAL;
      }
      pubTopic := topic;
      pubDup := false;
      pubMessageId := NextMessageId(pubMessageId);
      if msg == [] {
        calls := calls + [EnterDatamode];
        err := enterResult;
      } else {
        calls := calls + [MqttPublish(PubParam(msg))];
        err := publishResult;
      }
    }

    /**
     * mqtt_datamode_callback: each DATAMODE_SEND publishes exactly the bytes
     * it is given, with the topic, QoS, retain flag and message ID the
     * initiating publish stored; DATAMODE_EXIT publishes nothing.
     */
    method DatamodeCallback(op: DatamodeOp, data: seq<byte>, publishResult: int) returns (ret: int)
      modifies this`calls
      ensures op == DatamodeSend ==> calls == old(calls) + [MqttPublish(PubParam(data))] && ret == publishResult
      ensures op == DatamodeExit ==> calls == old(calls) && ret == 0
    {
      ret := 0;
      if op == DatamodeSend {
        calls := calls + [MqttPublish(PubParam(data))];
        ret := publishResult;
      }
    }

    /**
     * do_mqtt_subscribe: the subscribe counter advances on every call, even
     * one that is then refused. A QoS above 2 is -EINVAL without calling the
     * library; op 1 subscribes and op 0 unsubscribes a one-topic list with the
     * new ID; any other op is -EINVAL.
     */
    method DoSubscribe(op: uint16, topic: seq<byte>, qos: uint16, result: int) returns (err: int)
      requires Valid()
      modifies this`subMessageId, this`calls
      ensures Valid()
      ensures subMessageId == NextMessageId(old(subMessageId)) && 1 <= subMessageId < Uint16Max
      ensures qos as nat > MaxQos || op > 1 ==> err == -EINVAL && calls == old(calls)
      ensures qos as nat <= MaxQos && op == 1 ==>
                calls == old(calls) + [MqttSubscribe(SubscriptionList([TopicFilter(topic, qos as nat)], subMessageId))]
                && err == result
      ensures qos as nat <= MaxQos && op == 0 ==>
                calls == old(calls) + [MqttUnsubscribe(SubscriptionList([TopicFilter(topic, qos as nat)], subMessageId))]
                && err == result
    {
      err := -EINVAL;
      subMessageId := NextMessageId(subMessageId);
      var list := SubscriptionList([TopicFilter(topic, qos as nat)], subMessageId);
      if qos as nat > MaxQos {
        return err;
      }
      if op == 1 {
        calls := calls + [MqttSubscribe(list)];
        err := result;
      } else if op == 0 {
        calls := calls + [MqttUnsubscribe(list)];
        err := result;
      }
    }

    /** publish_get_payload, against PayloadRead. */
    method PublishGetPayload(length: nat, readResult: int) returns (ret: int)
      modifies this`calls
      ensures var r := PayloadRead(length, readResult);
              ret == r.ret && calls == old(calls) + r.calls
    {
      if length > MessageBufferLen {
        return -EMSGSIZE;
      }
      calls := calls + [ReadAllPayload(length)];
      ret := readResult;
    }

    /** handle_mqtt_publish_evt, against PublishReaction. */
    method HandlePublishEvt(e: Event, readResult: int) returns (ret: int)
      modifies this`calls, this`sent
      ensures var r := PublishReaction(e, readResult);
              ret == r.ret && calls == old(calls) + r.calls && sent == old(sent) + r.sent
    {
      ret := PublishGetPayload(|e.payload|, readResult);
      if ret < 0 {
        return ret;
      }
      sent := sent + [Line(MsgNotice(|e.topic|, |e.payload|))];
      sent := sent + [Raw(e.topic)];
      sent := sent + [Raw(CRLF)];
      sent := sent + [Raw(e.payload)];
      sent := sent + [Raw(CRLF)];
      ret := 0;
    }

    /** mqtt_evt_handler, against EventEffect. */
    method HandleEvent(d: Delivery)
      modifies this`connected, this`calls, this`sent
      ensures var x := EventEffect(old(connected), d);
              connected == x.connected && calls == old(calls) + x.calls && sent == old(sent) + x.sent
    {
      var e := d.evt;
      var ret := e.result;
      match e.kind {
        case ConnAck =>
          if e.result != 0 {
            connected := false;
          }
        case Disconnect =>
          connected := false;
        case Publish =>
          ret := HandlePublishEvt(e, d.replies.readResult);
        case PubRec =>
          if e.result == 0 {
            calls := calls + [Qos2Release(e.messageId)];
            ret := d.replies.continuationResult;
          }
        case PubRel =>
          if e.result == 0 {
            calls := calls + [Qos2Complete(e.messageId)];
            ret := d.replies.continuationResult;
          }
        case _ =>
      }
      sent := sent + [Line(EvtNotice(e.kind, ret))];
    }

    /** mqtt_abort, with the event the library may deliver from inside it. */
    method AbortTransport(d: Option<Delivery>)
      modifies this`connected, this`calls, this`sent
      ensures var ev := Deliver(old(connected), d);
              connected == ev.connected && calls == old(calls) + [MqttAbort] + ev.calls && sent == old(sent) + ev.sent
    {
      calls := calls + [MqttAbort];
      if d.Some? {
        HandleEvent(d.value);
      }
    }

    /** The POLLERR, POLLHUP and POLLNVAL tests of one iteration, against CheckFlags. */
    method CheckPollFlags(w: Wake) returns (stop: Option<StopReason>)
      modifies this`connected, this`calls, this`sent
      ensures var s := CheckFlags(old(connected), old(calls), old(sent), w);
              connected == s.connected && calls == s.calls && sent == s.sent && stop == s.stop
    {
      stop := None;
      if Err in w.revents {
        stop := Some(ErrorFlag);
      } else if Hup in w.revents {
        stop := Some(HangUp);
      } else if Nval in w.revents {
        stop := Some(Invalid);
      }
      assert stop == FlagStop(w);
      if stop.Some? {
        AbortTransport(w.abortEvent);
      }
    }

    /** mqtt_input, with the event the library may deliver from inside it. */
    method FeedInput(d: Option<Delivery>)
      modifies this`connected, this`calls, this`sent
      ensures var ev := Deliver(old(connected), d);
              connected == ev.connected && calls == old(calls) + [MqttInput] + ev.calls && sent == old(sent) + ev.sent
    {
      calls := calls + [MqttInput];
      if d.Some? {
        HandleEvent(d.value);
      }
    }

    /** mqtt_input failed: the transport is aborted and the loop ends, against AfterWait. */
    method InputFailure(w: Wake) returns (stop: Option<StopReason>)
      requires In in w.revents && w.inputResult != 0
      modifies this`connected, this`calls, this`sent
      ensures var a := AfterWait(old(connected), w);
              connected == a.connected && calls == old(calls) + a.calls && sent == old(sent) + a.sent && stop == a.stop
    {
      InputFailedShape(connected, w, calls, sent);
      FeedInput(w.inputEvent);
      AbortTransport(w.abortEvent);
      return Some(InputFailed);
    }

    /** The input branch of an iteration (POLLIN set), against AfterWait. */
    method ServiceInput(w: Wake) returns (stop: Option<StopReason>)
      requires In in w.revents
      modifies this`connected, this`calls, this`sent
      ensures var a := AfterWait(old(connected), w);
              connected == a.connected && calls == old(calls) + a.calls && sent == old(sent) + a.sent && stop == a.stop
    {
      if w.inputResult != 0 {
        stop := InputFailure(w);
        return;
      }
      ghost var ev := Deliver(connected, w.inputEvent);
      FeedInput(w.inputEvent);
      CheckFlagsPrefix(ev.connected, old(calls), old(sent), [MqttInput] + ev.calls, ev.sent, w);
      assert calls == old(calls) + ([MqttInput] + ev.calls);
      stop := CheckPollFlags(w);
    }

    /** The rest of an iteration once poll() returned and the keepalive tick was made, against AfterWait. */
    method ServiceWake(w: Wake) returns (stop: Option<StopReason>)
      modifies this`connected, this`calls, this`sent
      ensures var a := AfterWait(old(connected), w);
              connected == a.connected && calls == old(calls) + a.calls && sent == old(sent) + a.sent && stop == a.stop
    {
      if In in w.revents {
        stop := ServiceInput(w);
      } else {
        CheckFlagsPrefix(connected, old(calls), old(sent), [], [], w);
        assert calls == old(calls) + [] && sent == old(sent) + [];
        stop := CheckPollFlags(w);
      }
    }

    /** One iteration of the loop of mqtt_thread_fn, against PumpStep. */
    method PumpIteration(w: Wake) returns (stop: Option<StopReason>)
      modifies this`connected, this`calls, this`sent
      ensures var s := PumpStep(old(connected), w);
              connected == s.connected && calls == old(calls) + s.calls && sent == old(sent) + s.sent && stop == s.stop
    {
      if !connected {
        return Some(NotConnected);
      }
      calls := calls + [PollWait];
      if w.pollResult < 0 {
        return Some(PollFailed);
      }
      // timeout or event: the keepalive tick
      calls := calls + [MqttLive];
      TickShape(connected, w, old(calls));
      stop := ServiceWake(w);
    }

    /** One pass of the loop of mqtt_thread_fn, against the run still ahead of it. */
    method IterateRun(ghost c0: bool, wakes: seq<Wake>, ghost k0: seq<Call>, ghost s0: seq<Emission>, i: nat)
      returns (step: Option<StopReason>)
      requires i < |wakes| && RunFrom(c0, wakes, k0, s0, i, connected, calls, sent)
      modifies this`connected, this`calls, this`sent
      ensures step.Some? ==> RunEndsIn(c0, wakes, k0, s0, connected, calls, sent, step.value)
      ensures step.None? ==> RunFrom(c0, wakes, k0, s0, i + 1, connected, calls, sent)
    {
      ghost var conn := connected;
      step := PumpIteration(wakes[i]);
      if step.Some? {
        RunFromStop(c0, wakes, k0, s0, i, conn, old(calls), old(sent));
      } else {
        RunFromNext(c0, wakes, k0, s0, i, conn, old(calls), old(sent));
      }
    }

    /**
     * mqtt_thread_fn, against PumpRun: iterations run until one stops, or
     * until the wake-ups run out while the session is still connected.
     */
    method RunPump(wakes: seq<Wake>) returns (stop: StopReason)
      modifies this`connected, this`calls, this`sent
      ensures RunEndsIn(old(connected), wakes, old(calls), old(sent), connected, calls, sent, stop)
    {
      ghost var c0, k0, s0 := connected, calls, sent;
      var i := 0;
      RunFromStart(c0, wakes, k0, s0);
      while true
        invariant 0 <= i <= |wakes|
        invariant RunFrom(c0, wakes, k0, s0, i, connected, calls, sent)
        decreases |wakes| - i
      {
        if i == |wakes| {
          RunFromEnd(c0, wakes, k0, s0, connected, calls, sent);
          stop := if connected then TraceEnded else NotConnected;
          return;
        }
        var step := IterateRun(c0, wakes, k0, s0, i);
        if step.Some? {
          stop := step.value;
          return;
        }
        i := i + 1;
      }
    }
  }

  /**
   * After initialisation, two publishes with inline messages carry message
   * IDs 1 and 2.
   */
  method PublishIdsAfterInit(b: Bridge, topic: seq<byte>, m1: seq<byte>, m2: seq<byte>)
    requires b.Valid() && m1 != [] && m2 != []
    modifies b
    ensures b.calls == old(b.calls) + [MqttPublish(PublishParam(topic, 1, 0, false, 1, m1)),
                                       MqttPublish(PublishParam(topic, 1, 0, false, 2, m2))]
  {
    var r := b.Init();
    var e1 := b.Publish(topic, m1, 1, 0, 0, 0);
    var e2 := b.Publish(topic, m2, 1, 0, 0, 0);
  }

  /**
   * A publish without a message followed by two DATAMODE_SEND chunks and a
   * DATAMODE_EXIT publishes each chunk, byte for byte, with the captured
   * topic, flags and a single message ID, and nothing for the exit.
   */
  method StreamedPublish(b: Bridge, topic: seq<byte>, qos: uint16, retain: uint16, c1: seq<byte>, c2: seq<byte>)
    requires b.Valid() && qos <= 2 && retain <= 1
    modifies b
    ensures var id := NextMessageId(old(b.pubMessageId));
            b.calls == old(b.calls) + [EnterDatamode,
                                       MqttPublish(PublishParam(topic, qos as nat, retain as nat, false, id, c1)),
                                       MqttPublish(PublishParam(topic, qos as nat, retain as nat, false, id, c2))]
  {
    var e := b.Publish(topic, [], qos, retain, 0, 0);
    var r1 := b.DatamodeCallback(DatamodeSend, c1, 0);
    var r2 := b.DatamodeCallback(DatamodeSend, c2, 0);
    var r3 := b.DatamodeCallback(DatamodeExit, [], 0);
  }

  /**
   * When mqtt_disconnect succeeds and the library delivers its DISCONNECT
   * event meanwhile, the session ends disconnected with the client's broker
   * cleared.
   */
  method DisconnectWithEvent(b: Bridge, d: Delivery)
    requires b.Valid() && b.connected && d.evt.kind == Disconnect
    modifies b
    ensures !b.connected && b.client.broker == NoBroker
  {
    var err := b.DoDisconnect(DisconnectReplies(0, Some(d)));
  }
}
