# MQTT bridge of the serial LTE modem, in Dafny

This project models the MQTT client bridge of the nRF serial LTE modem
application, `slm_at_mqtt.c`. The bridge turns the AT commands `AT#XMQTTCON`,
`AT#XMQTTPUB`, `AT#XMQTTSUB` and `AT#XMQTTUNSUB` into MQTT client operations.
It turns MQTT client events into `#XMQTTMSG` and `#XMQTTEVT` notifications
sent to the AT host.

The file keeps its state in file-scope variables: the session record `ctx`,
the connect parameter buffers, `pub_param`, the function-static subscribe
counter and the MQTT `client`. The model gathers them into one class,
`MqttBridge.Bridge`, whose methods update them in place.

Calls into other code are appended to the `calls` field in order. This covers
the resolver, `mqtt_connect`, `mqtt_publish`, `mqtt_subscribe`, `mqtt_input`,
`mqtt_live`, `mqtt_abort`, the payload read, the QoS 2 continuations, entering
datamode, starting the pump thread and `poll()`. What those calls return is
passed to the methods as parameters. That includes any event the library
delivers to `mqtt_evt_handler` from inside `mqtt_input`, `mqtt_abort` or
`mqtt_disconnect`. Every `rsp_send` to the AT host is appended to `sent`,
either as a formatted notification line or as raw bytes.

The event, pump, framing, message-ID and connect methods are proved against
pure functions of the old state and the inputs:

- `NextMessageId` is the uint16 increment with its reset to 1.
- `ClientInit` is `client_init`.
- `MessageFrame` and `Unframe` are the message framing and what a host reads
  back from it.
- `PayloadRead`, `PublishReaction` and `EventEffect` are the event handler.
- `AfterWait`, `PumpStep` and `PumpRun` are the background loop.

`ConnectCommand`, `StoreConnectArgs`, `DatamodeCallback` and `Uninit` state
their effect on the fields directly.

The properties the bridge promises are lemmas about these functions:

- message-ID bounds and period;
- the frame round trip;
- the connected-flag rule;
- exactly one `#XMQTTEVT` line per event;
- the QoS 2 continuations;
- how many times each iteration of the loop waits, ticks, feeds input and
  aborts.

Modules:

- `MqttTypes` (mqtt_types.dfy) holds the shared values, constants and the
  call trace.
- `MessageId` (message_id.dfy) holds the increment rule both 16-bit counters
  share and its lemmas. The counters themselves are the `pubMessageId` and
  `subMessageId` fields of `MqttBridge.Bridge`.
- `ClientSetup` (client_config.dfy) holds `client_init`.
- `Framing` (framing.dfy) holds the `#XMQTTMSG` frame.
- `Events` (events.dfy) holds `mqtt_evt_handler`, `handle_mqtt_publish_evt`
  and `publish_get_payload`.
- `Pump` (pump.dfy) holds the loop of `mqtt_thread_fn`.
- `MqttBridge` (bridge.dfy) holds the stateful class and a few end-to-end
  scenarios.

The numeric constants are those of the Zephyr build:

- `EINVAL` 22, `EMSGSIZE` 122, `EISCONN` 127, `ENOTCONN` 128;
- `MQTT_MESSAGE_BUFFER_LEN` = `NET_IPV4_MTU` = 576;
- `UINT16_MAX` = 65535;
- MQTT protocol level 4 (MQTT 3.1.1).

Behaviour of the code that a reader of the AT command set might not expect,
and which the model keeps:

- A publish, a datamode chunk or a subscribe while disconnected is not
  refused with `-ENOTCONN`: it still reaches the library.
- `do_mqtt_disconnect` does not clear `ctx.connected` itself. The flag is
  cleared by a DISCONNECT event, by a refused CONNACK, and by the `memset` of
  `slm_at_mqtt_init`.
- A connect refused with `-EISCONN` does not leave the stored arguments
  alone: the client ID, credentials, URL, port, security tag and address
  family are replaced before `do_mqtt_connect` checks the flag.
- Datamode does not collect the chunks into one message: every
  `DATAMODE_SEND` chunk is its own PUBLISH, and all of them share the message
  ID of the initiating command.
- A failed `poll()` does not abort the transport or clear the flag: the loop
  ends without `mqtt_abort` and the session still counts as connected.
- A publish refused for a retain flag above 1 is not free of effects: the
  QoS has already been stored in `pub_param`.
- `slm_at_mqtt_init` does not restart subscribe IDs: the subscribe counter
  keeps its value.
- Before `slm_at_mqtt_init` runs, the security tag is not "no tag": the
  zero-initialised tag is 0, a valid tag. Init sets it to `INVALID_SEC_TAG`,
  which the model writes `None`.
- The PUBREC branch reads the packet ID through the `pubrel` member of the
  event union, which has the same layout. The model uses the event's packet
  ID.

## Model

All source paths are under `applications/serial_lte_modem/src/mqtt_c/`.

| member | source | states |
|---|---|---|
| MessageId.NextMessageId | applications/serial_lte_modem/src/mqtt_c/slm_at_mqtt.c:614-617 | the next ID is never 65535; it is 0 exactly when the old one was 65535; below 65534 it is the old ID plus one, and at 65534 it is 1 |
| MessageId.IdAfter | applications/serial_lte_modem/src/mqtt_c/slm_at_mqtt.c:614-617 | the counter after n publishes from the 0 that `slm_at_mqtt_init` sets is never 65535, and is 0 exactly when no publish has been made |
| MessageId.IdAfterResidue | applications/serial_lte_modem/src/mqtt_c/slm_at_mqtt.c:614-617 | for the k-th advance from 0, with k - 1 = 65534 q + r and 0 <= r < 65534, the ID is r + 1 |
| MessageId.IdAfterClosedForm | applications/serial_lte_modem/src/mqtt_c/slm_at_mqtt.c:614-617 | the k-th message after init (k >= 1) carries ((k - 1) mod 65534) + 1, so it is never 0 or 65535 |
| MessageId.IdAfterPeriodic | applications/serial_lte_modem/src/mqtt_c/slm_at_mqtt.c:614-617 | message k and message k + 65534 carry the same ID |
| MessageId.IdAfterDistinct | applications/serial_lte_modem/src/mqtt_c/slm_at_mqtt.c:614-617 | any two of the first 65534 messages carry different IDs |
| ClientSetup.ClientInit | applications/serial_lte_modem/src/mqtt_c/slm_at_mqtt.c:291-342 | the broker slot is IPv4 exactly for AF_INET; the user name is set only when non-empty; the password is set only when it and the user name are non-empty, so a password never travels without a user name; protocol 3.1.1; two 576-byte buffers; TLS exactly when built in and a tag is set, with that tag and the broker URL as host name |
| Framing.MessageFrame | applications/serial_lte_modem/src/mqtt_c/slm_at_mqtt.c:102-110 | an inbound message is five sends: the header carrying topic size and payload length, then four raw sends |
| Framing.FrameBytes | applications/serial_lte_modem/src/mqtt_c/slm_at_mqtt.c:106-110 | the raw bytes after the header are the topic, CRLF, the payload and CRLF, in that order |
| Framing.FrameRoundTrip | applications/serial_lte_modem/src/mqtt_c/slm_at_mqtt.c:102-110 | a host reading the header's lengths recovers the topic and the payload exactly, whatever bytes they contain |
| Framing.UnframeOnlyFrames | applications/serial_lte_modem/src/mqtt_c/slm_at_mqtt.c:102-110 | every header and body the host accepts is exactly one frame's header and bytes |
| Events.PayloadRead | applications/serial_lte_modem/src/mqtt_c/slm_at_mqtt.c:82-89 | the payload is read exactly when its length fits the 576-byte buffer, and the read's result is returned; otherwise nothing is read and -EMSGSIZE is returned |
| Events.PublishReaction | applications/serial_lte_modem/src/mqtt_c/slm_at_mqtt.c:93-113 | a message is sent exactly when the payload fits and the read succeeded; it is then the full frame and the result is 0; otherwise nothing is sent and the result is negative; an oversized payload gives exactly -EMSGSIZE with no call |
| Events.Branch | applications/serial_lte_modem/src/mqtt_c/slm_at_mqtt.c:122-194 | the switch clears the flag exactly on a refused CONNACK or a DISCONNECT and never sets it; only the PUBLISH case sends anything; every other case makes at most its one QoS 2 continuation call |
| Events.EventEffect | applications/serial_lte_modem/src/mqtt_c/slm_at_mqtt.c:117-199 | after an event the flag is the old flag and not (a refused CONNACK or a DISCONNECT), so no event sets it and no other event clears it; the last send is the `#XMQTTEVT` line with the event's kind and the returned value |
| Events.EventEffectCalls | applications/serial_lte_modem/src/mqtt_c/slm_at_mqtt.c:133-177 | the `#XMQTTEVT` line is the only one and comes last; PUBREC and PUBREL with result 0 make exactly one release or complete carrying the event's packet ID and report its result; a non-zero result skips it; PUBLISH makes only its payload read and frame; every other event makes no call and reports its own result |
| Events.OversizedPublishDropped | applications/serial_lte_modem/src/mqtt_c/slm_at_mqtt.c:84-100 | an inbound PUBLISH longer than the buffer makes no call and leaves the flag alone; the only send is `#XMQTTEVT` with -EMSGSIZE |
| Events.DeliveredMessageRecoverable | applications/serial_lte_modem/src/mqtt_c/slm_at_mqtt.c:97-112 | a delivered message is six sends: header, four raw sends and the event line; the host recovers topic and payload from them |
| Pump.AfterWait | applications/serial_lte_modem/src/mqtt_c/slm_at_mqtt.c:230-252 | after the wait the iteration stops with InputFailed exactly when POLLIN was set and mqtt_input failed; otherwise it stops as the POLLERR, POLLHUP and POLLNVAL tests say, in that order |
| Pump.Abort | applications/serial_lte_modem/src/mqtt_c/slm_at_mqtt.c:234-252 | an aborting exit stops with its reason, and its calls are those made before it followed by mqtt_abort |
| Pump.FlagStop | applications/serial_lte_modem/src/mqtt_c/slm_at_mqtt.c:238-252 | an exit is called for exactly when one of POLLERR, POLLHUP, POLLNVAL is set; every such exit aborts; the flags are tested in the order POLLERR, POLLHUP, POLLNVAL, and the first one set decides the exit |
| Pump.CheckFlags | applications/serial_lte_modem/src/mqtt_c/slm_at_mqtt.c:238-252 | the iteration stops as FlagStop says; with no flag set nothing is called or sent and the flag is unchanged; with one set mqtt_abort directly follows the earlier calls |
| Pump.PumpStep | applications/serial_lte_modem/src/mqtt_c/slm_at_mqtt.c:218-252 | an iteration goes round again only when connected and poll() returned; it stops with NotConnected exactly when the flag is false, leaving it false; a failed poll() leaves the flag set |
| Pump.PumpStepOutcome | applications/serial_lte_modem/src/mqtt_c/slm_at_mqtt.c:217-253 | an iteration stops at once when disconnected; a failed poll() stops it after the wait only; otherwise the keepalive tick directly follows the wait; it goes round again exactly when input (if any) succeeded and no error flag is set |
| Pump.PumpStepCounts | applications/serial_lte_modem/src/mqtt_c/slm_at_mqtt.c:217-253 | an iteration waits once when connected and ticks once when the wait returned; it feeds input exactly on POLLIN, and calls mqtt_abort once on an aborting exit and never otherwise |
| Pump.AfterWaitCounts | applications/serial_lte_modem/src/mqtt_c/slm_at_mqtt.c:230-252 | after the wait there is no further wait or tick; input is fed once exactly on POLLIN; mqtt_abort is called once exactly on an aborting exit |
| Pump.PumpRunAbortsOnce | applications/serial_lte_modem/src/mqtt_c/slm_at_mqtt.c:217-253 | over a whole run mqtt_abort is called once if the loop ended on an input error or an error flag and never otherwise; every returned wait has exactly one keepalive tick |
| Pump.PumpRun | applications/serial_lte_modem/src/mqtt_c/slm_at_mqtt.c:217-253 | the loop exits on the flag only when it is false; a run that is still going is connected; after a failed poll() the flag is still set |
| Pump.DisconnectStopsNextIteration | applications/serial_lte_modem/src/mqtt_c/slm_at_mqtt.c:129-131 | a DISCONNECT delivered during input ends the loop at the next flag check, before any further wait |
| MqttBridge.Bridge.constructor | applications/serial_lte_modem/src/mqtt_c/slm_at_mqtt.c:39-58 | the zero-initialised state before init: disconnected, no family, security tag 0, both counters 0 |
| MqttBridge.Bridge.Init | applications/serial_lte_modem/src/mqtt_c/slm_at_mqtt.c:720-727 | the publish counter is 0; the session record is cleared with no security tag; the bridge invariant holds |
| MqttBridge.Bridge.Uninit | applications/serial_lte_modem/src/mqtt_c/slm_at_mqtt.c:729-734 | only the client's broker is cleared |
| MqttBridge.Bridge.DoConnect | applications/serial_lte_modem/src/mqtt_c/slm_at_mqtt.c:344-373 | while connected: -EISCONN and nothing changes; a resolver error is returned as is, with no connect; otherwise the broker address and client config are stored and mqtt_connect is called; the pump starts and the flag goes true exactly when it succeeds |
| MqttBridge.Bridge.DoDisconnect | applications/serial_lte_modem/src/mqtt_c/slm_at_mqtt.c:375-396 | while disconnected: -ENOTCONN and nothing changes; otherwise mqtt_disconnect is called and its event handled; a library error is returned with the client untouched; on success the client's broker is cleared and 0 returned |
| MqttBridge.Bridge.StoreConnectArgs | applications/serial_lte_modem/src/mqtt_c/slm_at_mqtt.c:465-498 | the connect arguments and the address family are stored into the session |
| MqttBridge.Bridge.ConnectWith | applications/serial_lte_modem/src/mqtt_c/slm_at_mqtt.c:459-499 | every argument and the family are stored first; then as DoConnect: -EISCONN while connected with broker, client and calls unchanged; a resolver error with only the resolve call; otherwise broker, client config and mqtt_connect, and success exactly when the flag goes from false to true |
| MqttBridge.Bridge.ConnectCommand | applications/serial_lte_modem/src/mqtt_c/slm_at_mqtt.c:454-505 | op 1 (IPv4) and op 2 (IPv6) do all that ConnectWith states and send nothing; op 0 leaves the arguments and broker alone and is -ENOTCONN with no change when disconnected, otherwise all that DoDisconnect states; any other op is -EINVAL with no change; the publish parameters and counters are never written |
| MqttBridge.Bridge.Publish | applications/serial_lte_modem/src/mqtt_c/slm_at_mqtt.c:600-623 | QoS > 2: -EINVAL with no change; retain > 1: -EINVAL after only the QoS was stored, ID unchanged; otherwise the topic and flags are stored, the ID advances to a value in 1..65534, and the message is published, or datamode is entered for an empty message |
| MqttBridge.Bridge.DatamodeCallback | applications/serial_lte_modem/src/mqtt_c/slm_at_mqtt.c:534-546 | DATAMODE_SEND publishes exactly the given bytes with the stored topic, QoS, retain flag and ID, and returns the publish result; DATAMODE_EXIT publishes nothing and returns 0 |
| MqttBridge.Bridge.DoSubscribe | applications/serial_lte_modem/src/mqtt_c/slm_at_mqtt.c:406-441 | the subscribe ID advances on every call; QoS > 2 or an unknown op is -EINVAL with no library call; op 1 subscribes and op 0 unsubscribes a one-topic list with the new ID |
| MqttBridge.Bridge.PublishGetPayload | applications/serial_lte_modem/src/mqtt_c/slm_at_mqtt.c:82-89 | computes PayloadRead |
| MqttBridge.Bridge.HandlePublishEvt | applications/serial_lte_modem/src/mqtt_c/slm_at_mqtt.c:93-113 | computes PublishReaction, send by send |
| MqttBridge.Bridge.HandleEvent | applications/serial_lte_modem/src/mqtt_c/slm_at_mqtt.c:117-199 | computes EventEffect on the flag, the calls and the sends |
| MqttBridge.Bridge.AbortTransport | applications/serial_lte_modem/src/mqtt_c/slm_at_mqtt.c:234 | one mqtt_abort, then the event it delivers |
| MqttBridge.Bridge.FeedInput | applications/serial_lte_modem/src/mqtt_c/slm_at_mqtt.c:231 | one mqtt_input, then the event it delivers |
| MqttBridge.Bridge.CheckPollFlags | applications/serial_lte_modem/src/mqtt_c/slm_at_mqtt.c:238-252 | the POLLERR, POLLHUP and POLLNVAL tests, each aborting and stopping, as CheckFlags |
| MqttBridge.Bridge.InputFailure | applications/serial_lte_modem/src/mqtt_c/slm_at_mqtt.c:231-236 | an input error aborts the transport and ends the iteration, as AfterWait |
| MqttBridge.Bridge.ServiceInput | applications/serial_lte_modem/src/mqtt_c/slm_at_mqtt.c:230-252 | the POLLIN branch and the flag tests, as AfterWait |
| MqttBridge.Bridge.ServiceWake | applications/serial_lte_modem/src/mqtt_c/slm_at_mqtt.c:230-252 | the rest of an iteration after the tick, as AfterWait |
| MqttBridge.Bridge.PumpIteration | applications/serial_lte_modem/src/mqtt_c/slm_at_mqtt.c:218-252 | one iteration of the loop, as PumpStep |
| MqttBridge.Bridge.IterateRun | applications/serial_lte_modem/src/mqtt_c/slm_at_mqtt.c:217-253 | one iteration keeps the state matched with the run still ahead, or ends it as PumpRun does |
| MqttBridge.Bridge.RunPump | applications/serial_lte_modem/src/mqtt_c/slm_at_mqtt.c:201-256 | the loop of mqtt_thread_fn leaves exactly the flag, calls, sends and exit of PumpRun |
| MqttBridge.PublishIdsAfterInit | applications/serial_lte_modem/src/mqtt_c/slm_at_mqtt.c:614-622 | after init, two inline publishes carry message IDs 1 and 2 |
| MqttBridge.StreamedPublish | applications/serial_lte_modem/src/mqtt_c/slm_at_mqtt.c:534-546 | an empty publish then two DATAMODE_SEND chunks and an exit: datamode is entered and each chunk is published byte for byte under one ID |
| MqttBridge.DisconnectWithEvent | applications/serial_lte_modem/src/mqtt_c/slm_at_mqtt.c:375-396 | a successful disconnect whose DISCONNECT event arrives during the call ends disconnected, with the client's broker cleared |

## Left out

- Threading: `k_thread_create` is recorded as a `StartPump` call. The pump
  runs as a separate method over a given sequence of wake-ups, not
  concurrently with the commands. The bounded `k_thread_join` in
  `do_mqtt_disconnect` is not modelled.
- `poll()`, sockets, `getaddrinfo`/`freeaddrinfo` and the TLS socket set-up
  are modelled only as the results given to the methods: poll's return value
  and `revents`, the resolver's code and address. The keepalive timeout passed
  to `poll()` is not modelled.
- The MQTT library is modelled only as recorded calls and given results:
  `mqtt_connect`, `mqtt_publish`, `mqtt_subscribe`, `mqtt_unsubscribe`,
  `mqtt_input`, `mqtt_live`, `mqtt_abort`, `mqtt_disconnect`,
  `mqtt_readall_publish_payload` and the QoS 2 calls.
- Events delivered from inside library calls are modelled for three calls
  only: `mqtt_input` and `mqtt_abort` (the `inputEvent` and `abortEvent` of a
  `Wake`) and `mqtt_disconnect` (`DisconnectReplies.delivered`), at most one
  event each. The other seven calls are assumed to deliver no event:
  `mqtt_connect`, `mqtt_publish`, `mqtt_subscribe`, `mqtt_unsubscribe`,
  `mqtt_live`, `mqtt_readall_publish_payload`, and the QoS 2 release and
  complete. A library that closes the connection on a failed write delivers
  DISCONNECT from inside such a call, and the handler then clears
  `ctx.connected` and sends an `#XMQTTEVT` line (slm_at_mqtt.c:129-131). The
  model cannot show that flag clear and line in three places:
  - during a publish, datamode chunk or subscribe command;
  - between the keepalive tick and the POLLIN test of the pump;
  - nested inside the PUBREC or PUBREL branch of the handler.
- Publish, DatamodeCallback, DoSubscribe: because their library call delivers
  no event, their frames leave out `connected` and `sent`, so they never
  change the flag or send a line. A
  transport failure on the command path does not force the session to
  disconnected here.
- PumpStep: because `mqtt_live` delivers no event, an iteration with no
  revents is exactly the wait and the tick.
- AT parameter parsing (`util_string_get`, `at_params_*_get`) is not
  modelled. The connect and publish commands start from parsed arguments.
  A parse error part-way through a command is not modelled. The argument-count
  checks of `handle_at_mqtt_subscribe` and `handle_at_mqtt_unsubscribe` are
  not modelled either. Those two handlers only call `DoSubscribe` with op 1
  and the given QoS, or with op 0 and QoS 0.
- The read and test forms of the four AT commands are left out. They only
  format text.
- Logging (`LOG_*`) is left out.
- `enter_datamode` and the AT host's datamode handling are a recorded call
  with a given result.
- Publish: the topic is parsed into the static `pub_topic` buffer before
  the QoS check, and `pub_param` points at that buffer. So a refused publish
  overwrites the topic bytes of a datamode session still in progress. The
  model keeps the stored topic as a value and does not capture this aliasing.
- Publish: the datamode branch is taken when `strlen(pub_msg) == 0`. The
  model tests for an empty message, so a message whose first byte is NUL is
  not distinguished.
- Publish: `pub_param`'s payload pointer and length are not stored fields.
  The payload travels inside each recorded `MqttPublish` call.
- The `#XMQTTEVT` line carries the numeric `evt->type`. The model keeps the
  event kind itself, in the library's enumeration order.
- RunPump: the `TraceEnded` exit exists only because a model run ends when
  its given wake-ups run out. The C loop has no such exit.
