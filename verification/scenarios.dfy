/**
 * Short event sequences run against the model, each showing one behaviour
 * of the code as written. Every object is created inside the method.
 */
module Scenarios {
  import opened Wrappers
  import opened Params
  import opened Codec
  import opened Simulation
  import opened SlidingWindow
  import opened SenderA
  import opened ReceiverB

  /**
   * The first data packet reaches B intact, but B compares its acknowledgement
   * number (0) with 1, so it repeats the acknowledgement 0 and delivers nothing;
   * that acknowledgement does not move A's window, whose timer stays running.
   */
  method FirstExchange(h: Hash, m: Payload, rto: Time)
    returns (events: seq<Event>, rx: int, base: int, current: int, running: bool)
    ensures var data, ack := MakePkt(h, 1, 0, Some(m)), MakePkt(h, 0, 0, None);
            events == [Layer3Send(A, data), TimerStart(A, rto), Layer3Send(B, ack)]
                      + (if Verify(h, ack) then [TimerStop(A), TimerStart(A, rto)] else [])
    ensures rx == 0 && base == 1 && current == 2 && running
  {
    var sim := new Simulator();
    var a := new Sender(h);
    var b := new Receiver(h);
    var r := a.AOutput(m, 0.0, rto, sim);
    var data := MakePkt(h, 1, 0, Some(m));
    b.BInput(data, sim);
    var ack := MakePkt(h, 0, 0, None);
    a.AInput(ack, rto, sim);
    events, rx, base, current, running := sim.events, b.rxSeq, a.window.base, a.window.current, a.timer.running;
  }

  /**
   * With no acknowledgement in between, the packet just added is the one
   * `GetPacket` returns for its sequence number; a number outside the window
   * gives nothing.
   */
  method AddThenGet(p1: Packet, p2: Packet) returns (got: Option<Packet>, outside: Option<Packet>)
    ensures got == Some(p2) && outside == None
  {
    var w := new Window(MAX_WINDOW_SIZE);
    w.AddPacket(p1, 0.0);
    w.AddPacket(p2, 1.0);
    got := w.GetPacket(2, 3.0);
    outside := w.GetPacket(3, 3.0);
  }

  /** An acknowledgement equal to the base is ignored: it frees no slot. */
  method AckOfBaseIgnored(p: Packet) returns (advanced: bool, vacancy: int)
    ensures !advanced && vacancy == MAX_WINDOW_SIZE - 1
  {
    var w := new Window(MAX_WINDOW_SIZE);
    w.AddPacket(p, 0.0);
    advanced := w.AckPacket(1);
    vacancy := w.Vacancy();
  }

  /**
   * Slots are addressed relative to the base. After packets 1, 2, 3 are sent
   * and an acknowledgement of 2 moves the base to 3, sequence number 3 maps to
   * slot 0, so the timeout retransmits the packet framed with sequence number 1.
   */
  method StaleSlotRetransmission(h: Hash, m1: Payload, m2: Payload, m3: Payload, rto: Time)
    returns (base: int, resent: seq<Event>)
    requires HighWord(h, 0, 2, ZERO_PAYLOAD) <= INT_MAX
    ensures base == 3
    ensures resent == [Layer3Send(A, MakePkt(h, 1, 0, Some(m1)))]
  {
    var sim := new Simulator();
    var a := new Sender(h);
    var r1 := a.AOutput(m1, 0.0, rto, sim);
    var r2 := a.AOutput(m2, 1.0, rto, sim);
    var r3 := a.AOutput(m3, 2.0, rto, sim);
    assert a.window.InFlight() == [MakePkt(h, 1, 0, Some(m1)), MakePkt(h, 2, 0, Some(m2)),
                                   MakePkt(h, 3, 0, Some(m3))];
    var ack := MakePkt(h, 0, 2, None);
    VerifyMakePkt(h, 0, 2, None);
    a.AInput(ack, rto, sim);
    base := a.window.base;
    var before := |sim.events|;
    a.ATimerInterrupt(5.0, sim);
    resent := sim.events[before..];
  }

  /**
   * The timeout leaves the flag set without arming the emulator's timer, so a
   * packet sent after it starts no timer: the last timer event stays the first start.
   */
  method NoRearmAfterTimeout(h: Hash, m1: Payload, m2: Payload, rto: Time) returns (events: seq<Event>)
    ensures var p1 := MakePkt(h, 1, 0, Some(m1));
            events == [Layer3Send(A, p1), TimerStart(A, rto), Layer3Send(A, p1),
                       Layer3Send(A, MakePkt(h, 2, 0, Some(m2)))]
  {
    var sim := new Simulator();
    var a := new Sender(h);
    var p1 := MakePkt(h, 1, 0, Some(m1));
    var r1 := a.AOutput(m1, 0.0, rto, sim);
    assert a.window.InFlight() == [p1];
    assert sim.events == [Layer3Send(A, p1), TimerStart(A, rto)];
    a.ATimerInterrupt(rto, sim);
    assert Retransmissions([p1]) == [Layer3Send(A, p1)];
    assert sim.events == [Layer3Send(A, p1), TimerStart(A, rto), Layer3Send(A, p1)];
    assert a.window.current == 2 && a.window.Vacancy() != 0 && a.timer.running;
    ghost var log := sim.events;
    var r2 := a.AOutput(m2, rto, rto, sim);
    assert sim.events == log + [Layer3Send(A, MakePkt(h, 2, 0, Some(m2)))];
    events := sim.events;
  }
}
