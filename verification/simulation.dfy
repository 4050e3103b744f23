/**
 * The emulator's services that the protocol calls (`tolayer3`, `tolayer5`,
 * `starttimer`, `stoptimer`), modelled as appends to a log of events. The
 * emulator's clock is a value handed to the handlers; nothing here reads it.
 */
module Simulation {
  import opened Codec

  /** Simulated time, a `float` in the emulator. */
  type Time = real

  /** The two entities of the emulator. */
  datatype Side = A | B

  datatype Event =
    | Layer3Send(side: Side, packet: Packet)      // tolayer3: a packet handed to the channel
    | Layer5Deliver(side: Side, message: Payload) // tolayer5: a message handed to the application
    | TimerStart(side: Side, increment: Time)     // starttimer
    | TimerStop(side: Side)                       // stoptimer

  class Simulator {
    /** Every call the protocol made, oldest first. */
    var events: seq<Event>

    constructor ()
      ensures events == []
    {
      events := [];
    }

    method ToLayer3(side: Side, packet: Packet)
      modifies this
      ensures events == old(events) + [Layer3Send(side, packet)]
    {
      events := events + [Layer3Send(side, packet)];
    }

    method ToLayer5(side: Side, message: Payload)
      modifies this
      ensures events == old(events) + [Layer5Deliver(side, message)]
    {
      events := events + [Layer5Deliver(side, message)];
    }

    method StartTimer(side: Side, increment: Time)
      modifies this
      ensures events == old(events) + [TimerStart(side, increment)]
    {
      events := events + [TimerStart(side, increment)];
    }

    method StopTimer(side: Side)
      modifies this
      ensures events == old(events) + [TimerStop(side)]
    {
      events := events + [TimerStop(side)];
    }
  }
}
