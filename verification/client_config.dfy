/**
 * client_init: how the bridge configures the MQTT client from the session
 * record before every connect attempt.
 */
module ClientSetup {
  import opened MqttTypes

  /**
   * The credential rule of section 3.1.2.9 of MQTT 3.1.1: a password may only
   * be sent together with a user name.
   */
  predicate CredentialsWellFormed(c: ClientConfig)
  {
    c.password.Some? ==> c.userName.Some?
  }

  /**
   * The client configuration built from the session: broker slot by address
   * family, client ID, user name only when non-empty, password only when both
   * it and the user name are non-empty, protocol 3.1.1, the two 576-byte
   * buffers, and TLS exactly when the TLS library is built in and a
   * security tag is set.
   */
  function ClientInit(
    family: Family, clientId: seq<byte>, username: seq<byte>, password: seq<byte>,
    secTag: Option<nat>, brokerUrl: seq<byte>, tlsBuilt: bool): (c: ClientConfig)
    ensures CredentialsWellFormed(c)
    ensures c.broker == BrokerV4 <==> family == IPv4
    ensures c.broker != NoBroker
    ensures c.clientId == clientId
    ensures c.userName == (if |username| > 0 then Some(username) else None)
    ensures c.password.Some? <==> |username| > 0 && |password| > 0
    ensures c.password.Some? ==> c.password.value == password
    ensures c.protocolVersion == ProtocolLevel311
    ensures c.rxBufSize == MessageBufferLen && c.txBufSize == MessageBufferLen
    ensures c.transport.Secure? <==> tlsBuilt && secTag.Some?
    ensures c.transport.Secure? ==> c.transport == Secure(secTag.value, brokerUrl)
  {
    var slot := if family == IPv4 then BrokerV4 else BrokerV6;
    var user := if |username| > 0 then Some(username) else None;
    // the password is ignored when there is no user name
    var pass := if |username| > 0 && |password| > 0 then Some(password) else None;
    var transport := if tlsBuilt && secTag.Some? then Secure(secTag.value, brokerUrl) else NonSecure;
    ClientConfig(slot, clientId, user, pass, ProtocolLevel311, MessageBufferLen, MessageBufferLen, transport)
  }
}
