/**
 * Side A: the Go-Back-N sender (`A_init`, `A_output`, `A_input`,
 * `A_timerinterrupt`), owning a window of `MAX_WINDOW_SIZE` slots and a timer.
 * The current estimate of the retransmission timeout is a parameter `rto`.
 */
module SenderA {
  import opened Wrappers
  import opened Params
  import opened Codec
  import opened Simulation
  import opened Timers
  import opened SlidingWindow

  /** The retransmissions of a run of in-flight packets, in order. */
  function Retransmissions(ps: seq<Packet>): (es: seq<Event>)
    ensures |es| == |ps|
    ensures forall k :: 0 <= k < |ps| ==> es[k] == Layer3Send(A, ps[k])
  {
    if ps == [] then [] else Retransmissions(ps[..|ps| - 1]) + [Layer3Send(A, ps[|ps| - 1])]
  }

  /** A run of send times whose first `n` entries are replaced by `now`. */
  function Restamped(ts: seq<Time>, n: nat, now: Time): seq<Time>
    requires n <= |ts|
  {
    seq(|ts|, k requires 0 <= k < |ts| => if k < n then now else ts[k])
  }

  class Sender {
    const hash: Hash
    const window: Window
    const timer: Timer

    ghost predicate Valid()
      reads this, window, window.cache, timer
    {
      window.Valid() && window.WindowSize == MAX_WINDOW_SIZE && timer.side == A
    }

    /** `A_init` */
    constructor (h: Hash)
      ensures Valid() && hash == h
      ensures fresh(window) && fresh(window.cache) && fresh(window.times) && fresh(timer)
      ensures window.base == 1 && window.current == 1
      ensures window.Vacancy() == MAX_WINDOW_SIZE && !timer.running
    {
      hash := h;
      window := new Window(MAX_WINDOW_SIZE);
      timer := new Timer(A);
    }

    /**
     * `A_output`: refuses when the window is full; otherwise frames the
     * message with the next sequence number and acknowledgement 0, buffers
     * it with its send time, hands it to the channel and starts the timer
     * unless the flag says it runs.
     */
    method AOutput(message: Payload, now: Time, rto: Time, sim: Simulator) returns (r: int)
      requires Valid()
      modifies window, window.cache, window.times, timer, sim
      ensures Valid()
      ensures r == TX_SUCCESS || r == TX_REFUSED
      ensures r == TX_REFUSED <==> old(window.Vacancy()) == 0
      ensures r == TX_REFUSED ==>
                window.base == old(window.base) && window.current == old(window.current) &&
                window.InFlight() == old(window.InFlight()) &&
                window.times[..] == old(window.times[..]) &&
                timer.running == old(timer.running) && sim.events == old(sim.events)
      ensures r == TX_SUCCESS ==>
                var p := MakePkt(hash, old(window.current), 0, Some(message));
                window.base == old(window.base) && window.current == old(window.current) + 1 &&
                window.InFlight() == old(window.InFlight()) + [p] &&
                window.Stamps() == old(window.Stamps()) + [now] &&
                timer.running &&
                sim.events == old(sim.events) + [Layer3Send(A, p)]
                                + (if old(timer.running) then [] else [TimerStart(A, rto)])
    {
      if window.Vacancy() == 0 {
        return TX_REFUSED;
      }
      var pckt := MakePkt(hash, window.current, 0, Some(message));
      window.AddPacket(pckt, now);
      sim.ToLayer3(A, pckt);
      if !timer.running {
        timer.Start(rto, sim);
      }
      return TX_SUCCESS;
    }

    /**
     * `A_input`: drops a packet that fails verification; otherwise applies
     * its acknowledgement number to the window, then stops the timer if the
     * window is empty and restarts it if not.
     */
    method AInput(packet: Packet, rto: Time, sim: Simulator)
      requires Valid()
      modifies window, timer, sim
      ensures Valid()
      ensures !Verify(hash, packet) ==>
                window.base == old(window.base) && window.current == old(window.current) &&
                timer.running == old(timer.running) && sim.events == old(sim.events)
      ensures Verify(hash, packet) && old(window.base) < packet.acknum ==>
                window.base == packet.acknum + 1 &&
                window.current == if old(window.current) <= packet.acknum then packet.acknum + 1 else old(window.current)
      ensures Verify(hash, packet) && packet.acknum <= old(window.base) ==>
                window.base == old(window.base) && window.current == old(window.current)
      ensures Verify(hash, packet) ==>
                window.InFlight() == old(window.InFlight())[..window.current - window.base] &&
                (timer.running <==> window.base < window.current) &&
                sim.events == old(sim.events) +
                  if window.base == window.current then [TimerStop(A)]
                  else (if old(timer.running) then [TimerStop(A)] else []) + [TimerStart(A, rto)]
    {
      if !Verify(hash, packet) {
        return;
      }
      var _ := window.AckPacket(packet.acknum);
      if window.Vacancy() == window.WindowSize {
        timer.Stop(sim);
      } else {
        timer.Restart(rto, sim);
      }
    }

    /**
     * `A_timerinterrupt`: hands every in-flight packet to the channel again,
     * in ascending sequence order, stamping each slot with `now`. The window
     * counters and the timer flag are left as they were: the timer is not
     * armed again.
     */
    method ATimerInterrupt(now: Time, sim: Simulator)
      requires Valid()
      modifies window.times, sim
      ensures Valid()
      ensures window.base == old(window.base) && window.current == old(window.current)
      ensures timer.running == old(timer.running)
      ensures sim.events == old(sim.events) + Retransmissions(old(window.InFlight()))
      ensures window.times[..] == Restamped(old(window.times[..]), window.current - window.base, now)
    {
      if window.Vacancy() != window.WindowSize {
        ghost var sent := window.InFlight();
        ghost var stamped := window.times[..];
        var i := window.base;
        while i < window.current
          invariant window.base <= i <= window.current
          invariant window.Valid() && window.InFlight() == sent
          invariant sim.events == old(sim.events) + Retransmissions(sent[..i - window.base])
          invariant window.times[..] == Restamped(stamped, i - window.base, now)
        {
          var p := window.GetPacket(i, now);
          sim.ToLayer3(A, p.value);
          assert sent[..i + 1 - window.base] == sent[..i - window.base] + [p.value];
          assert Restamped(stamped, i - window.base, now)[i - window.base := now]
              == Restamped(stamped, i + 1 - window.base, now);
          i := i + 1;
        }
      }
    }
  }
}
