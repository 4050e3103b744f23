/**
 * Packet framing and integrity checking (`make_pkt` and `vrfy_checksum`).
 *
 * The checksum is the upper 32 bits of a 64-bit hash of the packet with its
 * checksum field set to zero, cast to a signed 32-bit `int`. The hash itself
 * is a parameter of type `Hash`: any function of the packet's other fields.
 */
module Codec {
  import opened Wrappers

  const PAYLOAD_SIZE: nat := 20

  const TWO_32: int := 0x1_0000_0000
  const TWO_64: int := 0x1_0000_0000_0000_0000
  const INT_MIN: int := -0x8000_0000
  const INT_MAX: int := 0x7fff_ffff

  type Int32 = x: int | INT_MIN <= x <= INT_MAX
  type U64 = x: int | 0 <= x < TWO_64

  /** The 20 data bytes of a message or a packet. */
  type Payload = s: seq<bv8> | |s| == PAYLOAD_SIZE witness [0, 0, 0, 0, 0, 0, 0, 0, 0, 0, 0, 0, 0, 0, 0, 0, 0, 0, 0, 0]

  const ZERO_PAYLOAD: Payload := [0, 0, 0, 0, 0, 0, 0, 0, 0, 0, 0, 0, 0, 0, 0, 0, 0, 0, 0, 0]

  /** A 64-bit hash of (seqnum, acknum, payload), the checksum field counting as zero. */
  type Hash = (int, int, Payload) -> U64

  datatype Packet = Packet(seqnum: int, acknum: int, checksum: Int32, payload: Payload)

  /** `static_cast<int>` of an unsigned value below 2^32: two's-complement wrap-around. */
  function ToInt(x: nat): (r: Int32)
    requires x < TWO_32
    ensures (r - x) % TWO_32 == 0
    ensures 0 <= r <==> x <= INT_MAX
  {
    if x <= INT_MAX then x else x - TWO_32
  }

  /** The usual arithmetic conversion of an `int` to `size_t` (unsigned 64-bit). */
  function ToSize(x: Int32): (r: U64)
    ensures (r - x) % TWO_64 == 0
    ensures r < TWO_32 <==> 0 <= x
  {
    if x < 0 then x + TWO_64 else x
  }

  /** `hash >> 32`: the upper half of the 64-bit hash. */
  function HighWord(h: Hash, seqnum: int, acknum: int, payload: Payload): (r: nat)
    ensures r < TWO_32
    ensures r * TWO_32 <= h(seqnum, acknum, payload) < (r + 1) * TWO_32
  {
    h(seqnum, acknum, payload) / TWO_32
  }

  /** Builds a packet; without a message the payload stays zero-filled. */
  function MakePkt(h: Hash, seqnum: int, acknum: int, message: Option<Payload>): (p: Packet)
    ensures p.seqnum == seqnum && p.acknum == acknum
    ensures message.Some? ==> p.payload == message.value
    ensures message.None? ==> forall i :: 0 <= i < PAYLOAD_SIZE ==> p.payload[i] == 0
  {
    var payload := if message.Some? then message.value else ZERO_PAYLOAD;
    Packet(seqnum, acknum, ToInt(HighWord(h, seqnum, acknum, payload)), payload)
  }

  /**
   * Recomputes the hash with the checksum field zeroed and compares its upper
   * half (a `size_t`) with the stored checksum converted to `size_t`.
   */
  predicate Verify(h: Hash, p: Packet)
    ensures Verify(h, p) ==> 0 <= p.checksum
  {
    HighWord(h, p.seqnum, p.acknum, p.payload) == ToSize(p.checksum)
  }

  /**
   * Round trip: a freshly built packet verifies exactly when the upper half of
   * its hash fits in a non-negative `int`; otherwise the cast makes the stored
   * checksum negative, its conversion back to `size_t` is at least 2^64 - 2^31,
   * and the comparison fails.
   */
  lemma VerifyMakePkt(h: Hash, seqnum: int, acknum: int, message: Option<Payload>)
    ensures var p := MakePkt(h, seqnum, acknum, message);
            Verify(h, p) <==> HighWord(h, seqnum, acknum, p.payload) <= INT_MAX
  {
  }

  /**
   * The packets that verify are exactly the packets `MakePkt` builds whose
   * checksum came out non-negative.
   */
  lemma VerifyIffBuilt(h: Hash, p: Packet)
    ensures Verify(h, p) <==>
            0 <= p.checksum && p == MakePkt(h, p.seqnum, p.acknum, Some(p.payload))
  {
  }

  /**
   * A corruption that touches only the checksum field is always detected:
   * a verifying packet with any other checksum value fails verification.
   */
  lemma ChecksumCorruptionDetected(h: Hash, p: Packet, c: Int32)
    requires Verify(h, p) && c != p.checksum
    ensures !Verify(h, p.(checksum := c))
  {
  }
}
