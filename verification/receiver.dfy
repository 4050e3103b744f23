/**
 * Side B: the in-order receiver (`B_input`, `B_output`) and its one piece of
 * state, `b_rx_seq`, the number of the last message delivered in order.
 *
 * Acceptance tests the arriving packet's ACKNOWLEDGEMENT number against
 * `rxSeq + 1`, not its sequence number.
 */
module ReceiverB {
  import opened Wrappers
  import opened Params
  import opened Codec
  import opened Simulation

  /** Whether `B_input` delivers packet `p` when `b_rx_seq` is `rx`. */
  predicate Accepts(h: Hash, rx: int, p: Packet)
    ensures Accepts(h, rx, p) ==> p == MakePkt(h, p.seqnum, rx + 1, Some(p.payload))
  {
    VerifyIffBuilt(h, p);
    Verify(h, p) && p.acknum == rx + 1
  }

  /** `b_rx_seq` after one arrival: one more on acceptance, unchanged otherwise. */
  function NextRx(h: Hash, rx: int, p: Packet): (r: int)
    ensures r == rx || r == rx + 1
    ensures r == rx + 1 <==> Accepts(h, rx, p)
  {
    if Accepts(h, rx, p) then rx + 1 else rx
  }

  /** `b_rx_seq` after a run of arrivals, starting from `rx`. */
  function RxAfter(h: Hash, rx: int, ps: seq<Packet>): int
    decreases |ps|
  {
    if ps == [] then rx else RxAfter(h, NextRx(h, rx, ps[0]), ps[1..])
  }

  /** The messages handed to layer 5 during a run of arrivals, starting from `rx`. */
  function Delivered(h: Hash, rx: int, ps: seq<Packet>): seq<Payload>
    decreases |ps|
  {
    if ps == [] then []
    else (if Accepts(h, rx, ps[0]) then [ps[0].payload] else [])
         + Delivered(h, NextRx(h, rx, ps[0]), ps[1..])
  }

  /** `b_rx_seq` never decreases and grows by at most one per arrival. */
  lemma {:induction false} RxAfterBounds(h: Hash, rx: int, ps: seq<Packet>)
    decreases |ps|
    ensures rx <= RxAfter(h, rx, ps) <= rx + |ps|
  {
    if ps != [] {
      RxAfterBounds(h, NextRx(h, rx, ps[0]), ps[1..]);
    }
  }

  /** Exactly one message is delivered per step of `b_rx_seq`. */
  lemma {:induction false} DeliveredCount(h: Hash, rx: int, ps: seq<Packet>)
    decreases |ps|
    ensures |Delivered(h, rx, ps)| == RxAfter(h, rx, ps) - rx
  {
    if ps != [] {
      DeliveredCount(h, NextRx(h, rx, ps[0]), ps[1..]);
    }
  }

  /**
   * Delivery is strictly in order: the k-th message delivered is the payload
   * of some arrival that verified and carried acknowledgement number rx + k + 1.
   */
  lemma {:induction false} DeliveredInOrder(h: Hash, rx: int, ps: seq<Packet>, k: nat)
    decreases |ps|
    requires k < |Delivered(h, rx, ps)|
    ensures exists j :: 0 <= j < |ps| && Verify(h, ps[j]) && ps[j].acknum == rx + k + 1 &&
                        ps[j].payload == Delivered(h, rx, ps)[k]
  {
    var rest := ps[1..];
    var rx' := NextRx(h, rx, ps[0]);
    if Accepts(h, rx, ps[0]) {
      if k == 0 {
        assert Verify(h, ps[0]) && ps[0].payload == Delivered(h, rx, ps)[0];
      } else {
        DeliveredInOrder(h, rx', rest, k - 1);
        var j :| 0 <= j < |rest| && Verify(h, rest[j]) && rest[j].acknum == rx' + k &&
                 rest[j].payload == Delivered(h, rx', rest)[k - 1];
        assert ps[j + 1] == rest[j];
      }
    } else {
      DeliveredInOrder(h, rx', rest, k);
      var j :| 0 <= j < |rest| && Verify(h, rest[j]) && rest[j].acknum == rx' + k + 1 &&
               rest[j].payload == Delivered(h, rx', rest)[k];
      assert ps[j + 1] == rest[j];
    }
  }

  /**
   * Side A frames every data packet with acknowledgement number 0, so from
   * any non-negative `b_rx_seq` a run of such packets is never delivered and
   * leaves `b_rx_seq` where it was.
   */
  lemma {:induction false} DataPacketsNeverDelivered(h: Hash, rx: int, ps: seq<Packet>)
    decreases |ps|
    requires 0 <= rx
    requires forall j :: 0 <= j < |ps| ==> ps[j].acknum == 0
    ensures RxAfter(h, rx, ps) == rx && Delivered(h, rx, ps) == []
  {
    if ps != [] {
      assert !Accepts(h, rx, ps[0]);
      DataPacketsNeverDelivered(h, rx, ps[1..]);
    }
  }

  /** `B_output`: side B reports every message from its application as accepted and sends nothing. */
  function BOutput(message: Payload): (r: int)
    ensures r == TX_SUCCESS
  {
    1
  }

  class Receiver {
    const hash: Hash
    /** `b_rx_seq` */
    var rxSeq: int

    /** The initial value of the global `b_rx_seq` (`B_init` does nothing). */
    constructor (h: Hash)
      ensures hash == h && rxSeq == 0
    {
      hash := h;
      rxSeq := 0;
    }

    /**
     * `B_input`: on a packet that verifies and carries acknowledgement number
     * rxSeq + 1, advances rxSeq, acknowledges the new value and delivers the
     * payload; on anything else repeats the acknowledgement of rxSeq.
     */
    method BInput(packet: Packet, sim: Simulator)
      modifies this, sim
      ensures rxSeq == NextRx(hash, old(rxSeq), packet)
      ensures Accepts(hash, old(rxSeq), packet) ==>
                sim.events == old(sim.events) + [Layer3Send(B, MakePkt(hash, 0, rxSeq, None)),
                                                 Layer5Deliver(B, packet.payload)]
      ensures !Accepts(hash, old(rxSeq), packet) ==>
                sim.events == old(sim.events) + [Layer3Send(B, MakePkt(hash, 0, rxSeq, None))]
    {
      if !Verify(hash, packet) || packet.acknum != rxSeq + 1 {
        var pckt := MakePkt(hash, 0, rxSeq, None);
        sim.ToLayer3(B, pckt);
        return;
      }
      rxSeq := rxSeq + 1;
      var pckt := MakePkt(hash, 0, rxSeq, None);
      sim.ToLayer3(B, pckt);
      sim.ToLayer5(B, packet.payload);
    }
  }
}
