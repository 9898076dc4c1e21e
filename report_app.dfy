/** The MissingPersonReport application: a paced packet emitter with a
    start/stop lifecycle, driven by the simulator's virtual clock.

    `State` is a snapshot of the application's fields together with the
    simulator clock it reads and what its socket has sent.  The functions
    After* say what each operation does to a snapshot; the class
    `MissingPersonReport` updates its fields in place, step by step, and
    each of its methods is proved to agree with the matching function. */
module ReportApp {
  import opened Ns3

  /** One call of the socket's Send: the virtual time and the payload size in bytes. */
  datatype Transmission = Transmission(time: Time, size: uint32)

  datatype State = State(
    socket: Option<SocketId>,
    peer: Address,
    packetSize: uint32,
    nPackets: uint32,
    bitRate: uint64,
    sendEvent: Option<Time>,   // the time of the pending send event; None when no event is pending
    running: bool,
    packetsSent: uint32,
    clock: Time,               // Simulator::Now() when the application last ran
    sent: seq<Transmission>)   // everything the socket has been asked to send, in order

  /** The gap between two sends: the time `packetSize` bytes take at `bitRate`
      bits per second, rounded down to whole nanoseconds. */
  function Delay(packetSize: uint32, bitRate: uint64): (d: Time)
    requires bitRate > 0
    ensures d * bitRate <= packetSize * 8 * NanosPerSecond < (d + 1) * bitRate
  {
    var bits := packetSize * 8 * NanosPerSecond;
    var d := bits / bitRate;
    assert bits == d * bitRate + bits % bitRate;
    d
  }

  /** How many sends a run that is never stopped performs: the first send
      happens before the budget is compared, so a budget of 0 still sends once. */
  function Budget(nPackets: uint32): (n: nat)
    ensures n >= 1 && n >= nPackets
    ensures nPackets == 0 ==> n == 1
    ensures nPackets >= 1 ==> n == nPackets
  {
    if nPackets == 0 then 1 else nPackets
  }

  predicate Ordered(log: seq<Transmission>)
  {
    forall i, j :: 0 <= i < j < |log| ==> log[i].time <= log[j].time
  }

  /** What holds of the application between any two simulator events. */
  predicate Consistent(s: State)
  {
    (s.socket.Some? ==> s.bitRate > 0) &&
    (s.running ==> s.socket.Some?) &&
    (s.sendEvent.Some? ==> s.running && s.packetsSent < UINT32_MAX && s.clock <= s.sendEvent.value) &&
    Ordered(s.sent) &&
    (forall i :: 0 <= i < |s.sent| ==> s.sent[i].time <= s.clock)
  }

  /** The budget is respected: never more sends than Budget(nPackets), and a
      follow-up send is pending only while the count is below nPackets. */
  predicate WithinBudget(s: State)
  {
    s.packetsSent <= Budget(s.nPackets) &&
    (s.sendEvent.Some? ==> s.packetsSent < s.nPackets)
  }

  predicate SameConfig(r: State, s: State)
  {
    r.socket == s.socket && r.peer == s.peer && r.packetSize == s.packetSize &&
    r.nPackets == s.nPackets && r.bitRate == s.bitRate
  }

  /** A freshly constructed application. */
  function Initial(): (r: State)
    ensures Consistent(r) && WithinBudget(r)
    ensures !r.running && r.packetsSent == 0 && r.sendEvent.None? && r.sent == []
    ensures r.socket.None? && r.peer == [] && r.packetSize == 0 && r.nPackets == 0 && r.bitRate == 0
    ensures r.clock == 0
  {
    State(None, [], 0, 0, 0, None, false, 0, 0, [])
  }

  /** Setup: store the socket, the peer and the three parameters; nothing else changes. */
  function AfterSetup(s: State, socket: SocketId, peer: Address,
                      packetSize: uint32, nPackets: uint32, dataRate: uint64): (r: State)
    requires dataRate > 0
    ensures r.socket == Some(socket) && r.peer == peer && r.packetSize == packetSize
    ensures r.nPackets == nPackets && r.bitRate == dataRate
    ensures r.running == s.running && r.packetsSent == s.packetsSent && r.sendEvent == s.sendEvent
    ensures r.clock == s.clock && r.sent == s.sent
    ensures Consistent(s) ==> Consistent(r)
  {
    s.(socket := Some(socket), peer := peer, packetSize := packetSize,
       nPackets := nPackets, bitRate := dataRate)
  }

  /** ScheduleTx: a send event `dt` from now, only while running; nothing
      else about the application changes. */
  function AfterSchedule(s: State, dt: Time): (r: State)
    ensures s.running ==> r.sendEvent == Some(s.clock + dt)
    ensures !s.running ==> r.sendEvent == s.sendEvent
    ensures SameConfig(r, s) && r.running == s.running && r.packetsSent == s.packetsSent
    ensures r.clock == s.clock && r.sent == s.sent
    ensures Consistent(s) && s.packetsSent < UINT32_MAX ==> Consistent(r)
  {
    if s.running then s.(sendEvent := Some(s.clock + dt)) else s
  }

  /** SendPacket: one packet of packetSize bytes goes out now and the count
      goes up by one; if the count is still below nPackets the next send is
      scheduled one Delay later (when running). */
  function AfterSend(s: State): (r: State)
    requires Consistent(s) && s.socket.Some? && s.sendEvent.None? && s.packetsSent < UINT32_MAX
    ensures r.sent == s.sent + [Transmission(s.clock, s.packetSize)]
    ensures r.packetsSent == s.packetsSent + 1
    ensures r.sendEvent.Some? <==> s.running && r.packetsSent < s.nPackets
    ensures r.sendEvent.Some? ==> r.sendEvent.value == s.clock + Delay(s.packetSize, s.bitRate)
    ensures SameConfig(r, s) && r.running == s.running && r.clock == s.clock
    ensures Consistent(r)
  {
    var s1 := s.(sent := s.sent + [Transmission(s.clock, s.packetSize)],
                 packetsSent := s.packetsSent + 1);
    if s1.packetsSent < s1.nPackets then AfterSchedule(s1, Delay(s1.packetSize, s1.bitRate)) else s1
  }

  /** StartApplication at virtual time `now`: running, count reset, one send at once. */
  function AfterStart(s: State, now: Time): (r: State)
    requires Consistent(s) && s.socket.Some? && s.sendEvent.None? && s.clock <= now
    ensures r.running && r.packetsSent == 1 && r.clock == now
    ensures r.sent == s.sent + [Transmission(now, s.packetSize)]
    ensures r.sendEvent.Some? <==> 1 < s.nPackets
    ensures r.sendEvent.Some? ==> r.sendEvent.value == now + Delay(s.packetSize, s.bitRate)
    ensures SameConfig(r, s)
    ensures Consistent(r) && WithinBudget(r)
  {
    AfterSend(s.(running := true, packetsSent := 0, clock := now))
  }

  /** The simulator runs the pending send event: the clock moves to its time
      and SendPacket runs. */
  function AfterDispatch(s: State): (r: State)
    requires Consistent(s) && s.sendEvent.Some?
    ensures r.running && r.clock == s.sendEvent.value
    ensures r.sent == s.sent + [Transmission(s.sendEvent.value, s.packetSize)]
    ensures r.packetsSent == s.packetsSent + 1
    ensures r.sendEvent.Some? <==> r.packetsSent < s.nPackets
    ensures r.sendEvent.Some? ==> r.sendEvent.value == s.sendEvent.value + Delay(s.packetSize, s.bitRate)
    ensures SameConfig(r, s)
    ensures Consistent(r)
    ensures WithinBudget(s) ==> WithinBudget(r)
  {
    AfterSend(s.(clock := s.sendEvent.value, sendEvent := None))
  }

  /** StopApplication: not running, and the pending event (if any) cancelled;
      the count and what was sent stay as they are. */
  function AfterStop(s: State): (r: State)
    ensures !r.running && r.sendEvent.None?
    ensures r.packetsSent == s.packetsSent && r.sent == s.sent && r.clock == s.clock
    ensures SameConfig(r, s)
    ensures Consistent(s) ==> Consistent(r)
    ensures WithinBudget(s) ==> WithinBudget(r)
  {
    s.(running := false, sendEvent := None)
  }

  /** The state after the simulator has dispatched up to `k` of this
      application's send events (fewer once none is pending). */
  function Drive(s: State, k: nat): (r: State)
    requires Consistent(s)
    ensures Consistent(r) && SameConfig(r, s) && r.running == s.running
    ensures s.sent <= r.sent && s.packetsSent <= r.packetsSent
    ensures WithinBudget(s) ==> WithinBudget(r)
    decreases k
  {
    if k == 0 then s
    else
      var p := Drive(s, k - 1);
      if p.sendEvent.Some? then AfterDispatch(p) else p
  }

  class MissingPersonReport {
    var socket: Option<SocketId>
    var peer: Address
    var packetSize: uint32
    var nPackets: uint32
    var bitRate: uint64
    var sendEvent: Option<Time>
    var running: bool
    var packetsSent: uint32
    var clock: Time
    var sent: seq<Transmission>

    ghost function Snapshot(): State
      reads this
    {
      State(socket, peer, packetSize, nPackets, bitRate, sendEvent, running, packetsSent, clock, sent)
    }

    ghost predicate Valid()
      reads this
    {
      Consistent(Snapshot())
    }

    constructor ()
      ensures Valid() && Snapshot() == Initial()
      ensures socket.None? && peer == [] && packetSize == 0 && nPackets == 0 && bitRate == 0
      ensures !running && packetsSent == 0 && sendEvent.None?
    {
      socket := None;
      peer := [];
      packetSize := 0;
      nPackets := 0;
      bitRate := 0;
      sendEvent := None;
      running := false;
      packetsSent := 0;
      clock := 0;
      sent := [];
    }

    method Setup(socket: SocketId, peer: Address, packetSize: uint32, nPackets: uint32, dataRate: uint64)
      requires Valid() && dataRate > 0
      modifies this
      ensures Valid()
      ensures Snapshot() == AfterSetup(old(Snapshot()), socket, peer, packetSize, nPackets, dataRate)
    {
      this.socket := Some(socket);
      this.peer := peer;
      this.packetSize := packetSize;
      this.nPackets := nPackets;
      this.bitRate := dataRate;
    }

    method StartApplication(now: Time)
      requires Valid() && socket.Some? && sendEvent.None? && clock <= now
      modifies this
      ensures Valid() && WithinBudget(Snapshot())
      ensures Snapshot() == AfterStart(old(Snapshot()), now)
    {
      clock := now;
      running := true;
      packetsSent := 0;
      // binding the socket and connecting it to the peer are calls into ns-3
      SendPacket();
    }

    method StopApplication()
      requires Valid()
      modifies this
      ensures Valid()
      ensures Snapshot() == AfterStop(old(Snapshot()))
    {
      running := false;
      if sendEvent.Some? {
        sendEvent := None;  // Simulator::Cancel
      }
      // closing the socket is a call into ns-3
    }

    method SendPacket()
      requires Valid() && socket.Some? && sendEvent.None? && packetsSent < UINT32_MAX
      modifies this
      ensures Valid()
      ensures Snapshot() == AfterSend(old(Snapshot()))
    {
      sent := sent + [Transmission(clock, packetSize)];
      packetsSent := packetsSent + 1;
      if packetsSent < nPackets {
        var nextTx := Delay(packetSize, bitRate);
        ScheduleTx(nextTx);
      }
    }

    method ScheduleTx(dt: Time)
      requires Valid() && sendEvent.None? && packetsSent < UINT32_MAX
      modifies this
      ensures Valid()
      ensures Snapshot() == AfterSchedule(old(Snapshot()), dt)
    {
      if running {
        sendEvent := Some(clock + dt);
      }
    }

    /** The simulator reaches the pending event's time and runs SendPacket. */
    method Dispatch()
      requires Valid() && sendEvent.Some?
      modifies this
      ensures Valid()
      ensures Snapshot() == AfterDispatch(old(Snapshot()))
    {
      clock := sendEvent.value;
      sendEvent := None;
      SendPacket();
    }
  }
}
