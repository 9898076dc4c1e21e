# Missing-persons alert network: the paced report emitter

The simulation sets up a cloud node and several police stations over
point-to-point links. Its only real logic is the `MissingPersonReport`
application. This application sends a budget of fixed-size packets through a
socket. It sends the first packet as soon as it starts, and then one packet
every `packetSize * 8 / bitRate` seconds, until the budget is used up or the
application is stopped. Receive callbacks on the cloud and on the stations
take every queued packet off their socket and log it.

This project models that application and those callbacks in Dafny:

- `ns3.dfy` (module `Ns3`) holds the simulator's integer widths, virtual time
  (integer nanoseconds) and handle types.
- `report_app.dfy` (module `ReportApp`) holds two things. The first is `State`,
  a snapshot of the application's fields together with the simulator clock
  and the log of everything its socket sent. Beside it are one function per
  operation (`AfterSetup`, `AfterStart`, `AfterSend`, `AfterDispatch`,
  `AfterStop`), which say what the operation does to a snapshot. The second
  is the class `MissingPersonReport`. Its methods update the same fields step
  by step, as the C++ methods do. Each method is proved to agree with the
  matching function through `Snapshot()`.
- `report_properties.dfy` (module `ReportProperties`) proves properties of
  whole runs. An unstopped run sends `max(1, nPackets)` packets at `t0`,
  `t0 + d`, `t0 + 2d`, and so on. A stop silences the emitter for good. The
  file also covers the configurations `main` uses.
- `rx_callbacks.dfy` (module `RxCallbacks`) models a socket's receive queue
  and the drain loop of both callbacks.

The simulator's event queue is replaced by the application's own single
pending slot, `sendEvent`. `Dispatch` (and `Drive`, which repeats it) stands
for the simulator reaching that event's time and running `SendPacket`.

## Model

| member | source | states |
|---|---|---|
| `ReportApp.Initial` | caroline.cc:46-54 | a new application has no socket, all parameters 0, is not running, has sent nothing, has nothing pending, and meets both invariants |
| `ReportApp.MissingPersonReport.constructor` | caroline.cc:46-54 | the constructed object's fields are those of `Initial()`: no socket, size, budget and rate 0, not running, count 0, no pending event |
| `ReportApp.AfterSetup` | caroline.cc:61-71 | Setup stores socket, peer, packet size, budget and rate exactly as given; running flag, count, pending event, clock and sent log are untouched; consistency is kept |
| `ReportApp.MissingPersonReport.Setup` | caroline.cc:61-71 | the method's new fields are exactly `AfterSetup` of the old ones |
| `ReportApp.Delay` | caroline.cc:109-110 | the gap between sends is `packetSize * 8` bits at `bitRate` bit/s, in whole nanoseconds rounded down: `d * rate <= bits * 1e9 < (d + 1) * rate` |
| `ReportApp.Budget` | caroline.cc:107 | the number of sends of an unstopped run is at least 1 and at least `nPackets`; it is exactly 1 when `nPackets` is 0 (line 80 sends before line 107 compares) and exactly `nPackets` otherwise |
| `ReportApp.AfterSend` | caroline.cc:98-113 | SendPacket appends exactly one packet of `packetSize` bytes at the current time, raises the count by exactly 1, and leaves a follow-up pending iff running and the new count is below `nPackets`, at now + `Delay`; config, flag and clock unchanged; consistency kept |
| `ReportApp.MissingPersonReport.SendPacket` | caroline.cc:98-113 | the method's new fields are exactly `AfterSend` of the old ones |
| `ReportApp.AfterSchedule` | caroline.cc:116-123 | while running, a send event is pending `dt` after the current clock; when not running the pending slot is left as it was; configuration, running flag, count, clock and log are unchanged; consistency is kept when the count leaves room for one more send |
| `ReportApp.MissingPersonReport.ScheduleTx` | caroline.cc:116-123 | an event `dt` after now is recorded only while running; otherwise nothing changes |
| `ReportApp.AfterStart` | caroline.cc:74-81 | Start leaves the application running with count 1 and one new packet in the log at the start time; a send is pending iff `1 < nPackets`, one `Delay` later; both invariants hold afterwards |
| `ReportApp.MissingPersonReport.StartApplication` | caroline.cc:74-81 | the method's new fields are exactly `AfterStart` of the old ones, and the budget invariant holds |
| `ReportApp.AfterDispatch` | caroline.cc:120-121 | when the pending event runs, the clock is at its time and one packet goes out then; the count rises by 1; the next event is pending iff the count is below `nPackets`, one `Delay` after the last; both invariants are kept |
| `ReportApp.MissingPersonReport.Dispatch` | caroline.cc:120-121 | the method's new fields are exactly `AfterDispatch` of the old ones |
| `ReportApp.AfterStop` | caroline.cc:84-95 | Stop leaves the application not running with no pending event; count, log and clock are unchanged, so stopping after the budget is spent or stopping twice changes nothing else; both invariants are kept |
| `ReportApp.MissingPersonReport.StopApplication` | caroline.cc:84-95 | the method's new fields are exactly `AfterStop` of the old ones |
| `ReportApp.Drive` | caroline.cc:107-123 | dispatching any number of pending events keeps consistency, the configuration and the running flag, only extends the log, and keeps the budget invariant |
| `ReportProperties.Timeline` | caroline.cc:107-112 | the reference schedule: `count` entries of `size` bytes, the first at `t0`, each `d` after the previous |
| `ReportProperties.DispatchStep` | caroline.cc:107-121 | one dispatch moves a run from `j` sends on the timeline to `j + 1` |
| `ReportProperties.RunTimeline` | caroline.cc:74-123 | after Start at `t0` and `k` dispatches, exactly `min(k+1, Budget)` packets were sent at `t0 + i*d`; the next is pending at `t0 + sends*d` iff sends `< nPackets` |
| `ReportProperties.Quiescent` | caroline.cc:116-123 | with nothing pending, further dispatching changes nothing |
| `ReportProperties.CompleteRun` | caroline.cc:107-123 | an unstopped run sends exactly `Budget(nPackets)` packets on the timeline, then nothing is pending and nothing more is ever sent |
| `ReportProperties.StopSilences` | caroline.cc:84-95 | after Stop, no number of later dispatches sends anything |
| `ReportProperties.StoppedRunSends` | caroline.cc:84-123 | a run stopped after `k` dispatches sends exactly `min(k+1, Budget)` packets over its whole life, on the timeline |
| `ReportProperties.StopIdempotent` | caroline.cc:84-95 | stopping twice is the same as stopping once |
| `ReportProperties.SinglePacketRun` | caroline.cc:107 | with `nPackets <= 1` a run sends once, at its start time, and schedules nothing |
| `ReportProperties.ReportScenario` | caroline.cc:204-209 | the station's report (5120 B, budget 1, 10 Mbit/s, start 2 s) sends once at 2 s and leaves nothing pending |
| `ReportProperties.AlertScenario` | caroline.cc:223-228 | a cloud alert (2048 B, budget 1, 50 Mbit/s, start 2.1 s) sends once at 2.1 s and leaves nothing pending |
| `ReportProperties.ThreePacketScenario` | caroline.cc:107-112 | with the alert's size and rate and a budget of 3, the gap is 327680 ns; after one dispatch the third send is pending at 2.1 s + 655360 ns, which is earlier than 2.1 s + gap + 1 ms; a run stopped after the second dispatch has sent all three packets |
| `RxCallbacks.RxSocket.RecvFrom` | caroline.cc:131 | receiving takes the oldest queued packet, or gives nothing (null) when the queue is empty |
| `RxCallbacks.Logged` | caroline.cc:133-135 | the log for a batch has one entry per packet, in order, each with the current time and that packet's size |
| `RxCallbacks.LoggedAppend` | caroline.cc:131-136 | logging two batches in turn is logging them together |
| `RxCallbacks.Drain` | caroline.cc:129-136 | the loop empties the socket's queue and logs exactly `Logged` of what was queued, in arrival order |
| `RxCallbacks.CloudRxCallback` | caroline.cc:126-137 | the cloud's callback empties its socket and logs every queued report, in order, with its size |
| `RxCallbacks.StationRxCallback` | caroline.cc:139-150 | a station's callback empties its socket and logs every queued alert, in order, with its size |

## Left out

- `main` (caroline.cc:153-248) is configuration glue and is not modelled. It creates nodes and links, assigns addresses, builds subnet strings, populates routing, parses the command line and sets up FlowMonitor, PCAP and NetAnim. Only its `Setup` arguments appear, in the scenario lemmas.
- Socket behaviour is a call into ns-3 and is not modelled: `Bind`, `Connect`, `Close`, delivery, loss and delay. `Send` is modelled as an append to the `sent` log. The receive side is a given queue of packets. `StartApplication` and `StopApplication` therefore have no effect on the socket in the model.
- `ReportApp.Delay`: does not model the floating-point division `m_packetSize * 8.0 / GetBitRate()` or ns-3's `Seconds` rounding. The gap is integer nanoseconds rounded down. It is recomputed on every send, as in the source.
- The simulator's global event queue is replaced by one pending slot per application. This leaves out the queue's ordering across applications and tie-breaking, and `Simulator::Run/Stop/Destroy`. It also leaves out the destructor. The clock is a field (`clock`) that `StartApplication` and `Dispatch` advance.
- `ReportApp.MissingPersonReport.StartApplication` requires that no send event is pending. A second live event would not fit the single slot, and ns-3 starts an application once.
- `ReportApp.MissingPersonReport.Setup` requires a positive data rate. The source checks nothing, but it divides by the rate whenever a follow-up send is scheduled (caroline.cc:107-110). Size and budget may be any 32-bit values; a budget of 0 still sends one packet.
- `ReportApp.MissingPersonReport.StartApplication` and `ReportApp.MissingPersonReport.SendPacket` require a socket (`socket.Some?`). The source dereferences `m_socket` without a check (caroline.cc:78-79, 101), so starting an application that was never set up crashes there. The model does not capture that crash.
- `ReportApp.Delay`: virtual time is an unbounded count of nanoseconds. ns-3's `Time` is a signed 64-bit count, so converting a very long gap (caroline.cc:109-110) or adding it to the clock (caroline.cc:120) can overflow where the model does not. For example, 2^32 - 1 bytes at 1 bit/s is about 3.4e19 ns, which exceeds 2^63.
- The budget invariant `WithinBudget` is kept by Start, Dispatch and Stop but not by a `Setup` that lowers `nPackets` in mid-run, which the source allows. Only the weaker invariant `Consistent`, which rules out overflow of the 32-bit counter, is kept by every operation.
- `NS_LOG_INFO` text is not modelled. Only the logged (time, size) facts are kept, with the callback's role.
- The sender address filled in by `RecvFrom` is carried in each `Packet` but not logged, as in the source.
