/** The per-side retransmission timer (class `Timer`): a running flag over the emulator's timer. */
module Timers {
  import opened Simulation

  class Timer {
    const side: Side
    /** `running_`; `Timer::running()` is a read of this field. */
    var running: bool

    constructor (s: Side)
      ensures side == s && !running
    {
      side := s;
      running := false;
    }

    /** Arms the emulator's timer, whatever the flag says, and sets the flag. */
    method Start(increment: Time, sim: Simulator)
      modifies this, sim
      ensures running
      ensures sim.events == old(sim.events) + [TimerStart(side, increment)]
    {
      sim.StartTimer(side, increment);
      running := true;
    }

    /** Cancels the emulator's timer, whatever the flag says, and clears the flag. */
    method Stop(sim: Simulator)
      modifies this, sim
      ensures !running
      ensures sim.events == old(sim.events) + [TimerStop(side)]
    {
      sim.StopTimer(side);
      running := false;
    }

    /** Stops the timer only if the flag says it runs, then starts it: it always ends running. */
    method Restart(increment: Time, sim: Simulator)
      modifies this, sim
      ensures running
      ensures sim.events == old(sim.events)
                            + (if old(running) then [TimerStop(side)] else [])
                            + [TimerStart(side, increment)]
    {
      if running {
        Stop(sim);
      }
      Start(increment, sim);
    }
  }
}
