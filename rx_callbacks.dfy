/** The receive callbacks of the cloud and of the stations: when data
    arrives they take every queued packet off the socket, one at a time, and
    log the current time and the packet's size. */
module RxCallbacks {
  import opened Ns3

  /** A received packet: its payload size and the address it came from. */
  datatype Packet = Packet(size: uint32, from: Address)

  /** Which callback logged an entry: the cloud's report receiver or a station's alert receiver. */
  datatype Role = Cloud | Station

  /** One log line: the virtual time, the packet size and who logged it. */
  datatype RxRecord = RxRecord(time: Time, size: uint32, role: Role)

  /** The receive side of a socket: the packets it holds, oldest first. */
  class RxSocket {
    var queue: seq<Packet>

    constructor (arrived: seq<Packet>)
      ensures queue == arrived
    {
      queue := arrived;
    }

    /** Takes the oldest queued packet, or gives None when nothing is queued. */
    method RecvFrom() returns (packet: Option<Packet>)
      modifies this
      ensures old(queue) == [] ==> packet.None? && queue == []
      ensures old(queue) != [] ==> packet == Some(old(queue)[0]) && queue == old(queue)[1..]
    {
      if queue == [] {
        packet := None;
      } else {
        packet := Some(queue[0]);
        queue := queue[1..];
      }
    }
  }

  /** The log a callback writes for `packets` at time `now`: one entry per
      packet, in the same order, each with that packet's size. */
  function Logged(packets: seq<Packet>, now: Time, role: Role): (log: seq<RxRecord>)
    ensures |log| == |packets|
    ensures forall i :: 0 <= i < |packets| ==> log[i] == RxRecord(now, packets[i].size, role)
  {
    if packets == [] then [] else [RxRecord(now, packets[0].size, role)] + Logged(packets[1..], now, role)
  }

  /** Logging two batches one after the other is logging them together. */
  lemma {:induction false} LoggedAppend(a: seq<Packet>, b: seq<Packet>, now: Time, role: Role)
    ensures Logged(a + b, now, role) == Logged(a, now, role) + Logged(b, now, role)
  {
    if a != [] {
      LoggedAppend(a[1..], b, now, role);
      assert (a + b)[1..] == a[1..] + b;
    }
  }

  /** The loop both callbacks run: receive until RecvFrom gives nothing,
      logging each packet as it comes. */
  method Drain(socket: RxSocket, now: Time, role: Role) returns (log: seq<RxRecord>)
    modifies socket
    ensures socket.queue == []
    ensures log == Logged(old(socket.queue), now, role)
  {
    log := [];
    ghost var drained: seq<Packet> := [];
    while true
      invariant old(socket.queue) == drained + socket.queue
      invariant log == Logged(drained, now, role)
      decreases |socket.queue|
    {
      var packet := socket.RecvFrom();
      if packet.None? {
        break;
      }
      ghost var rest := socket.queue;
      assert drained + [packet.value] + rest == old(socket.queue);
      LoggedAppend(drained, [packet.value], now, role);
      assert Logged([packet.value], now, role) == [RxRecord(now, packet.value.size, role)];
      log := log + [RxRecord(now, packet.value.size, role)];
      drained := drained + [packet.value];
    }
  }

  method CloudRxCallback(socket: RxSocket, now: Time) returns (log: seq<RxRecord>)
    modifies socket
    ensures socket.queue == []
    ensures log == Logged(old(socket.queue), now, Cloud)
  {
    log := Drain(socket, now, Cloud);
  }

  method StationRxCallback(socket: RxSocket, now: Time) returns (log: seq<RxRecord>)
    modifies socket
    ensures socket.queue == []
    ensures log == Logged(old(socket.queue), now, Station)
  {
    log := Drain(socket, now, Station);
  }
}
