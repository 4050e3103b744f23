# Go-Back-N sender and receiver, modelled in Dafny

A model of the Go-Back-N ARQ entities written against Kurose's network emulator
(`GoBackN.cc`, `GoBackN.h`). Side A is the sender. It has a sliding `Window` of
`MAX_WINDOW_SIZE` = 10 slots and a `Timer`. Its three handlers are `A_output`
(a message from the application), `A_input` (an acknowledgement from the
channel) and `A_timerinterrupt` (timeout). Side B is the receiver. Its only
state is `b_rx_seq`, and its handlers are `B_input` and `B_output`.
`make_pkt` and `vrfy_checksum` frame packets and check them.

The model follows the code as written, including where it departs from
textbook Go-Back-N:

- `ack_packet` advances only when the acknowledgement is strictly above the
  base. An acknowledgement equal to the base frees no slot
  (`Scenarios.AckOfBaseIgnored`).
- Slots are addressed relative to the current base, `(seq - base) % N`. The
  in-flight packets after an advance are therefore a prefix of the ones before
  it, so later retransmissions resend older packets in place of newer ones
  (`SlidingWindow.Window.AckPacket`, `Scenarios.StaleSlotRetransmission`).
- `B_input` compares the packet's acknowledgement number, not its sequence
  number, with `b_rx_seq + 1`. `A_output` frames every data packet with
  acknowledgement 0, so no data packet is ever delivered
  (`ReceiverB.DataPacketsNeverDelivered`, `Scenarios.FirstExchange`).
- `A_timerinterrupt` does not arm the timer again. The `running_` flag stays
  set, so a later `A_output` starts no timer (`Scenarios.NoRearmAfterTimeout`).
- `B_output` returns 1 (accepted), not a refusal.
- `make_pkt` stores `(int)(H >> 32)`. `vrfy_checksum` compares `H >> 32`, an
  unsigned 64-bit value, with the stored `int` converted to unsigned. A
  negative checksum therefore never matches. A freshly built packet verifies
  exactly when `H >> 32` fits in a non-negative `int`
  (`Codec.VerifyMakePkt`).

Where a general description of the protocol says otherwise (`ack >= base`,
`seq mod N` slots, a receiver that checks sequence numbers, a re-armed timer
after a timeout, a receiver that refuses to send), the model follows the code.

Structure: `codec.dfy` (packets, checksum), `simulation.dfy` (the emulator's
services as an event log), `timer.dfy`, `window.dfy`, `sender.dfy`,
`receiver.dfy`, `params.dfy` (constants), `wrappers.dfy` (Option) and
`scenarios.dfy` (short runs of the model showing the behaviours above).

The hash `std::hash<std::string>` over the packet's bytes is a parameter
`h: Hash`. It is any function from (seqnum, acknum, payload) to a 64-bit
value, and the checksum field counts as zero. Calls into the emulator
(`tolayer3`, `tolayer5`, `starttimer`, `stoptimer`) append to
`Simulator.events`. The clock is a `now` argument that is only stored. The
timeout value `get_rto()` is an `rto` argument.

## Model

| member | source | states |
|---|---|---|
| `Codec.ToInt` | GoBackN.cc:171 | `static_cast<int>` of a value below 2^32 is congruent to it mod 2^32, and non-negative iff the value is at most INT_MAX |
| `Codec.ToSize` | GoBackN.cc:181 | an `int` converted to `size_t` is congruent to it mod 2^64, and below 2^32 iff it was non-negative |
| `Codec.HighWord` | GoBackN.cc:168-171 | `hash >> 32` is below 2^32 and is the hash divided by 2^32, rounded down |
| `Codec.MakePkt` | GoBackN.cc:155-173 | the packet carries the given seqnum and acknum and the message bytes, or 20 zero bytes without a message |
| `Codec.Verify` | GoBackN.cc:176-182 | `vrfy_checksum` compares `H >> 32` of the zero-checksum packet with the stored checksum converted to `size_t`; a packet that passes has a non-negative checksum |
| `Codec.VerifyMakePkt` | GoBackN.cc:155-182 | `vrfy_checksum(make_pkt(...))` holds iff the upper half of the hash is at most INT_MAX |
| `Codec.VerifyIffBuilt` | GoBackN.cc:176-182 | a packet verifies iff its checksum is non-negative and it is exactly what `make_pkt` builds from its other fields |
| `Codec.ChecksumCorruptionDetected` | GoBackN.cc:176-182 | changing only the checksum of a verifying packet always makes it fail verification |
| `Timers.Timer.constructor` | GoBackN.h:76-78 | a new timer belongs to its side and is not running |
| `Timers.Timer.Start` | GoBackN.cc:250-253 | issues exactly one `starttimer` for its side with the given increment, and the flag is set afterwards |
| `Timers.Timer.Stop` | GoBackN.cc:263-266 | issues exactly one `stoptimer` whatever the flag was, and the flag is clear afterwards |
| `Timers.Timer.Restart` | GoBackN.cc:255-260 | stops first only if the flag was set, always starts, and always ends running |
| `SlidingWindow.Window.constructor` | GoBackN.cc:184-187 | a fresh window has the given constant size, base = current = 1, no packet in flight, vacancy equal to the size, and empty slots and zero times |
| `SlidingWindow.Window.InFlight` | GoBackN.cc:202-204 | the in-flight packets are slots 0 to current - base - 1, which are all filled |
| `SlidingWindow.Window.Stamps` | GoBackN.cc:206-208 | the send times in `times_` of the in-flight packets, one per packet, slot k for sequence number base + k |
| `SlidingWindow.Window.Vacancy` | GoBackN.cc:197-199 | `get_vacency` is between 0 and the window size, equals the size minus the number in flight, and is 0 iff the window is full |
| `SlidingWindow.Window.AddPacket` | GoBackN.cc:229-233 | given vacancy (the assert), appends the packet and its time to the in-flight run, raises `current` by exactly one and keeps the base and the invariant |
| `SlidingWindow.Window.AckPacket` | GoBackN.cc:211-227 | returns true iff the ack is strictly above the base; then base = ack + 1 and `current` is raised to it if below; otherwise nothing changes; neither counter decreases, and the in-flight run becomes a prefix of the old one |
| `SlidingWindow.Window.GetPacket` | GoBackN.cc:235-242 | outside [base, current) returns nothing and changes nothing; inside, returns the in-flight packet for that number and rewrites only its slot's time |
| `SenderA.Retransmissions` | GoBackN.cc:140-143 | one `tolayer3` on side A per in-flight packet, in order |
| `SenderA.Sender.constructor` | GoBackN.cc:26-29 | A's window has `MAX_WINDOW_SIZE` slots and base = current = 1, and its timer is not running |
| `SenderA.Sender.AOutput` | GoBackN.cc:44-67 | returns only `TX_SUCCESS` or `TX_REFUSED`; refuses iff the window is full, changing nothing (counters, packets, send times, timer flag, event log); otherwise sends and buffers `make_pkt(current, 0, message)` with its time, raises `current` by one, starts the timer only if it was not running, and leaves it running |
| `SenderA.Sender.AInput` | GoBackN.cc:73-89 | a packet that fails verification changes nothing; otherwise the window takes the `ack_packet` step for its acknum, and then the timer runs iff packets remain in flight, with exactly the stop/start events that implies |
| `SenderA.Sender.ATimerInterrupt` | GoBackN.cc:135-146 | sends exactly the in-flight packets in ascending order, stamps exactly their slots with `now`, and leaves both counters and the timer flag as they were |
| `ReceiverB.Accepts` | GoBackN.cc:111 | `B_input` takes a packet iff it verifies and its acknum is `b_rx_seq + 1`; such a packet is exactly what `make_pkt` builds with acknum `b_rx_seq + 1` |
| `ReceiverB.NextRx` | GoBackN.cc:111-121 | `b_rx_seq` grows by one iff the packet verifies and its acknum is `b_rx_seq + 1`, and otherwise stays the same |
| `ReceiverB.RxAfterBounds` | GoBackN.cc:106-129 | over any run of arrivals `b_rx_seq` never decreases and grows by at most one per arrival |
| `ReceiverB.DeliveredCount` | GoBackN.cc:121-128 | the number of messages delivered equals the growth of `b_rx_seq` |
| `ReceiverB.DeliveredInOrder` | GoBackN.cc:111-128 | the k-th delivered message is the payload of a verified arrival whose acknum is the initial `b_rx_seq` + k + 1 |
| `ReceiverB.DataPacketsNeverDelivered` | GoBackN.cc:111 | packets framed with acknum 0, as `A_output` frames them, are never delivered from a non-negative `b_rx_seq` |
| `ReceiverB.BOutput` | GoBackN.cc:95-100 | B reports every message from its application as accepted (`TX_SUCCESS`) |
| `ReceiverB.Receiver.constructor` | GoBackN.cc:20 | `b_rx_seq` starts at 0 |
| `ReceiverB.Receiver.BInput` | GoBackN.cc:106-129 | accepts iff the packet verifies and its acknum is `b_rx_seq + 1`; on accept, increments, acks the new value, then delivers the payload; otherwise re-acks the old value only |
| `Scenarios.FirstExchange` | GoBackN.cc:111 | the first data packet is not delivered and its acknowledgement 0 leaves A's window at base 1, current 2, with the timer running |
| `Scenarios.AddThenGet` | GoBackN.cc:229-242 | with no ack in between, `get_packet` returns the packet just added, and nothing beyond `current` |
| `Scenarios.AckOfBaseIgnored` | GoBackN.cc:214 | an ack equal to the base returns false and frees no slot |
| `Scenarios.StaleSlotRetransmission` | GoBackN.cc:202-208 | after sends 1 to 3 and an ack of 2, the timeout resends the packet framed with sequence number 1 |
| `Scenarios.NoRearmAfterTimeout` | GoBackN.cc:135-146 | after a timeout, a new send issues no `starttimer` |

## Left out

- Console output (`std::cout`) is not modelled. It is I/O only.
- The emulator itself is not part of this model. Its services are appends to an event log. `getSimulatorClock()` is the `now` argument, which is only stored.
- The RTT estimate is not modelled: the `est_rtt_` update in `ack_packet`, `get_rto`, and `ALPHA`, `BETA`, `INIT_RTT`, `MIN_RTT`, `MAX_RTT`. It is floating-point arithmetic. That update also reads `time_at_(seq)` after the base has moved, so its slot index comes from a negative value converted to `size_t`. The timeout value reaches the timer as the opaque `rto` argument. `SlidingWindow.Window.AckPacket` drops the `tm` argument, which only feeds this estimate.
- The hash is not modelled bit for bit. `std::hash` over a raw byte view of `struct pkt` is replaced by the parameter `h`, a function of (seqnum, acknum, payload). Only the `>> 32` and the `int` cast are kept. So whether a change to seqnum, acknum or payload is detected depends on `h`.
- `vrfy_checksum` also zeroes the checksum field of the packet it is given. Both callers pass their own by-value copy and afterwards read only acknum and payload. The model computes the result without that write.
- Ownership is not modelled: `shared_ptr`/`unique_ptr` and heap allocation. Window slots hold packet values, and a null pointer is `None`.
- Sequence and acknowledgement numbers are unbounded integers. The 32-bit overflow of `current_seq_`, `b_rx_seq` or `seq + 1` is not modelled, since it would take 2^31 packets or a forged acknowledgement. `get_vacency`'s `size_t` arithmetic cannot wrap under the window invariant.
- `Window::get_base`, `Window::get_seq` and `Timer::running` are read as the fields `base`, `current` and `running`.
- `B_init` and `B_timerinterrupt` are left out because they are empty. So are the unused globals `b_window`, `b_timer` and `a_rx_seq`, and `Timer::set_expired`, which is declared but never defined.
