/**
 * The sender's sliding window (class `Window`): two N-slot arrays holding the
 * packets sent but not yet acknowledged and their send times, and the
 * counters `base` (oldest unacknowledged sequence number) and `current`
 * (next sequence number to assign).
 *
 * Slots are addressed relative to the current base: sequence number s lives
 * in slot (s - base) % N. Because the slot of every sequence number shifts
 * when the base moves, the in-flight packets after an advance are a PREFIX
 * of the ones before it (see `AckPacket`).
 */
module SlidingWindow {
  import opened Wrappers
  import opened Codec
  import opened Simulation

  class Window {
    /** `WINDOW_SIZE`, fixed by the constructor. */
    const WindowSize: nat
    /** `base_seq_` */
    var base: int
    /** `current_seq_` */
    var current: int
    /** `pckt_cache_`: None stands for a null pointer. */
    const cache: array<Option<Packet>>
    /** `times_` */
    const times: array<Time>

    /**
     * Between 0 and N packets are outstanding, and every slot in use holds
     * a packet (so the retransmission loop never dereferences a null pointer).
     */
    ghost predicate Valid()
      reads this, cache
    {
      cache.Length == WindowSize && times.Length == WindowSize &&
      0 <= current - base <= WindowSize &&
      forall k :: 0 <= k < current - base ==> cache[k].Some?
    }

    /** The packets that `GetPacket(base)`, ..., `GetPacket(current - 1)` return, in that order. */
    ghost function InFlight(): (s: seq<Packet>)
      reads this, cache
      requires Valid()
      ensures |s| == current - base
      ensures forall k :: 0 <= k < |s| ==> cache[k] == Some(s[k])
    {
      Unwrap(cache[..current - base])
    }

    /** The send times of the in-flight packets, in the same order. */
    ghost function Stamps(): (s: seq<Time>)
      reads this, cache, times
      requires Valid()
      ensures |s| == current - base
    {
      times[..current - base]
    }

    constructor (n: nat)
      ensures Valid() && WindowSize == n
      ensures base == 1 && current == 1
      ensures InFlight() == [] && Vacancy() == n
      ensures fresh(cache) && fresh(times)
      ensures forall k :: 0 <= k < n ==> cache[k] == None && times[k] == 0.0
    {
      WindowSize := n;
      base, current := 1, 1;
      cache := new Option<Packet>[n](_ => None);
      times := new Time[n](_ => 0.0);
    }

    /** `get_vacency`: how many more packets the window accepts. */
    function Vacancy(): (v: int)
      reads this, cache
      requires Valid()
      ensures 0 <= v <= WindowSize
      ensures v == WindowSize - |InFlight()|
      ensures v == 0 <==> |InFlight()| == WindowSize
    {
      WindowSize - (current - base)
    }

    /** `add_packet`: the caller has checked that the window is not full. */
    method AddPacket(p: Packet, tm: Time)
      requires Valid() && Vacancy() > 0
      modifies cache, times, this`current
      ensures Valid()
      ensures base == old(base) && current == old(current) + 1
      ensures InFlight() == old(InFlight()) + [p]
      ensures Stamps() == old(Stamps()) + [tm]
    {
      var slot := (current - base) % WindowSize;
      assert slot == current - base;
      cache[slot] := Some(p);
      times[slot] := tm;
      current := current + 1;
      assert InFlight() == old(InFlight()) + [p] by {
        forall k | 0 <= k < current - base
          ensures InFlight()[k] == (old(InFlight()) + [p])[k]
        {
          assert cache[k] == Some(InFlight()[k]);
        }
      }
    }

    /**
     * `ack_packet`: a cumulative acknowledgement of every sequence number up
     * to `s`. It counts only when strictly above the base (an ack equal to the
     * base is ignored); then the base jumps to s + 1 and `current` is raised
     * to the base if it fell below. The slots are not moved.
     */
    method AckPacket(s: int) returns (valid: bool)
      requires Valid()
      modifies this`base, this`current
      ensures Valid()
      ensures valid <==> old(base) < s
      ensures valid ==> base == s + 1 && current == if old(current) < s + 1 then s + 1 else old(current)
      ensures !valid ==> base == old(base) && current == old(current)
      ensures old(base) <= base && old(current) <= current
      ensures InFlight() == old(InFlight())[..current - base]
      ensures Stamps() == old(Stamps())[..current - base]
    {
      valid := false;
      if base < s {
        base := s + 1;
        valid := true;
      }
      if current < base {
        current := base;
      }
      assert InFlight() == old(InFlight())[..current - base] by {
        forall k | 0 <= k < current - base
          ensures InFlight()[k] == old(InFlight())[k]
        {
          assert cache[k] == Some(InFlight()[k]);
        }
      }
    }

    /**
     * `get_packet`: outside [base, current) it returns nothing and changes
     * nothing; inside, it stamps the slot with `tm` and returns its packet.
     */
    method GetPacket(s: int, tm: Time) returns (r: Option<Packet>)
      requires Valid()
      modifies times
      ensures Valid()
      ensures r == if base <= s < current then Some(InFlight()[s - base]) else None
      ensures base <= s < current ==> times[..] == old(times[..])[s - base := tm]
      ensures !(base <= s < current) ==> times[..] == old(times[..])
    {
      if s < base || s >= current {
        r := None;
      } else {
        var slot := (s - base) % WindowSize;
        assert slot == s - base;
        times[slot] := tm;
        r := cache[slot];
      }
    }
  }

  /** The packets of a run of filled slots. */
  function Unwrap(slots: seq<Option<Packet>>): seq<Packet>
    requires forall k :: 0 <= k < |slots| ==> slots[k].Some?
  {
    seq(|slots|, k requires 0 <= k < |slots| => slots[k].value)
  }
}
