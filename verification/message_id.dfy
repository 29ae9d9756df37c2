/**
 * The two 16-bit message-ID counters of the bridge (pub_param.message_id for
 * publish, the function-static sub_message_id for subscribe). Both advance by
 * the same rule: a uint16_t increment, then a reset to 1 on reaching
 * UINT16_MAX, so that neither 0 nor 65535 is ever sent once the counter has
 * moved (packet identifiers must be non-zero, section 2.3.1 of MQTT 3.1.1).
 */
module MessageId {
  import opened MqttTypes

  /** The counter after one `id++; if (id == UINT16_MAX) id = 1;`. */
  function NextMessageId(id: uint16): (r: uint16)
    ensures r != Uint16Max
    ensures r == 0 <==> id == Uint16Max
    ensures id < Uint16Max - 1 ==> r == id + 1
    ensures id == Uint16Max - 1 ==> r == 1
  {
    // the increment of a uint16_t wraps modulo 2^16
    var bumped := ((id as int + 1) % 0x1_0000) as uint16;
    if bumped == Uint16Max then 1 else bumped
  }

  /** The counter after `n` advances from the zero it holds after initialisation. */
  function IdAfter(n: nat): (id: uint16)
    ensures id != Uint16Max
    ensures id == 0 <==> n == 0
  {
    if n == 0 then 0 else NextMessageId(IdAfter(n - 1))
  }

  /**
   * The k-th message after initialisation (k >= 1) carries the residue of
   * k - 1 modulo 65534, plus one.
   */
  lemma {:induction false} IdAfterResidue(n: nat, q: nat, r: nat)
    requires n >= 1 && n - 1 == 65534 * q + r && r < 65534
    ensures IdAfter(n) as int == r + 1
    decreases n
  {
    if n > 1 {
      if r == 0 {
        IdAfterResidue(n - 1, q - 1, 65533);
      } else {
        IdAfterResidue(n - 1, q, r - 1);
      }
    }
  }

  /**
   * After initialisation the k-th message (k >= 1) carries ID ((k - 1) mod 65534) + 1:
   * the IDs run 1, 2, ..., 65534, 1, 2, ... and never reach 0 or 65535.
   */
  lemma IdAfterClosedForm(n: nat)
    requires n >= 1
    ensures IdAfter(n) as int == (n - 1) % (Uint16Max as int - 1) + 1
    ensures 1 <= IdAfter(n) < Uint16Max
  {
    var q, r := (n - 1) / 65534, (n - 1) % 65534;
    IdAfterResidue(n, q, r);
  }

  /** The counter is periodic: a message and the one 65534 messages later carry the same ID. */
  lemma IdAfterPeriodic(n: nat)
    requires n >= 1
    ensures IdAfter(n + (Uint16Max as int - 1)) == IdAfter(n)
  {
    var q, r := (n - 1) / 65534, (n - 1) % 65534;
    IdAfterResidue(n, q, r);
    IdAfterResidue(n + 65534, q + 1, r);
  }

  /** Within one period the IDs are pairwise distinct. */
  lemma IdAfterDistinct(m: nat, n: nat)
    requires 1 <= m < n <= Uint16Max as int - 1
    ensures IdAfter(m) != IdAfter(n)
  {
    IdAfterResidue(m, 0, m - 1);
    IdAfterResidue(n, 0, n - 1);
  }
}
