/** Properties of whole runs of the MissingPersonReport application:
    when it sends, how many times, and that stopping it silences it. */
module ReportProperties {
  import opened Ns3
  import opened ReportApp

  function Min(a: nat, b: nat): nat
  {
    if a <= b then a else b
  }

  /** The sends of an undisturbed run: `count` packets of `size` bytes, the
      first at `t0` and each one `d` after the one before. */
  function Timeline(t0: Time, d: Time, size: uint32, count: nat): (log: seq<Transmission>)
    ensures |log| == count
    ensures count > 0 ==> log[0].time == t0
    ensures forall i :: 0 < i < count ==> log[i].time == log[i - 1].time + d
    ensures forall i :: 0 <= i < count ==> log[i].size == size
    decreases count
  {
    if count == 0 then [] else Timeline(t0, d, size, count - 1) + [Transmission(t0 + (count - 1) * d, size)]
  }

  /** `r` is a run of `s`'s configuration started at `t0` that has made
      `sends` sends so far: they went out at t0, t0 + d, t0 + 2d, ..., and
      the next send is pending at t0 + sends * d exactly when the count is
      still below nPackets. */
  predicate OnTimeline(r: State, s: State, t0: Time, sends: nat)
    requires s.bitRate > 0
  {
    var d := Delay(s.packetSize, s.bitRate);
    r.running && r.packetsSent == sends && SameConfig(r, s) &&
    r.sent == s.sent + Timeline(t0, d, s.packetSize, sends) &&
    r.sendEvent == (if sends < s.nPackets then Some(t0 + sends * d) else None)
  }

  /** One dispatch moves a run one step along its timeline. */
  lemma DispatchStep(p: State, s: State, t0: Time, j: nat)
    requires s.bitRate > 0 && Consistent(p) && OnTimeline(p, s, t0, j) && p.sendEvent.Some?
    ensures OnTimeline(AfterDispatch(p), s, t0, j + 1)
  {
    var d := Delay(s.packetSize, s.bitRate);
    var at := t0 + j * d;
    assert p.sendEvent == Some(at);
    var r := AfterDispatch(p);
    assert r.sent == s.sent + Timeline(t0, d, s.packetSize, j) + [Transmission(at, s.packetSize)];
    assert r.sent == s.sent + Timeline(t0, d, s.packetSize, j + 1);
  }

  /** A run started at `t0` and never stopped: after `k` dispatches it has
      made min(k + 1, Budget(nPackets)) sends, on the timeline. */
  lemma {:induction false} RunTimeline(s: State, t0: Time, k: nat)
    requires Consistent(s) && s.socket.Some? && s.sendEvent.None? && s.clock <= t0
    ensures OnTimeline(Drive(AfterStart(s, t0), k), s, t0, Min(k + 1, Budget(s.nPackets)))
  {
    var d := Delay(s.packetSize, s.bitRate);
    var s0 := AfterStart(s, t0);
    if k == 0 {
      assert Timeline(t0, d, s.packetSize, 1) == [Transmission(t0, s.packetSize)];
    } else {
      RunTimeline(s, t0, k - 1);
      var p := Drive(s0, k - 1);
      if p.sendEvent.Some? {
        DispatchStep(p, s, t0, k);
      }
    }
  }

  /** With no event pending, the simulator has nothing of this application's to run. */
  lemma {:induction false} Quiescent(s: State, k: nat)
    requires Consistent(s) && s.sendEvent.None?
    ensures Drive(s, k) == s
  {
    if k > 0 {
      Quiescent(s, k - 1);
    }
  }

  /** A run left alone sends exactly Budget(nPackets) packets, evenly spaced
      from t0, and then nothing is pending and nothing more is ever sent. */
  lemma CompleteRun(s: State, t0: Time, j: nat)
    requires Consistent(s) && s.socket.Some? && s.sendEvent.None? && s.clock <= t0
    ensures var n := Budget(s.nPackets);
            var r := Drive(AfterStart(s, t0), n - 1);
            r.sent == s.sent + Timeline(t0, Delay(s.packetSize, s.bitRate), s.packetSize, n) &&
            r.packetsSent == n && r.sendEvent.None? && Drive(r, j) == r
  {
    var n := Budget(s.nPackets);
    RunTimeline(s, t0, n - 1);
    Quiescent(Drive(AfterStart(s, t0), n - 1), j);
  }

  /** After StopApplication no send event remains, so no further packet is ever sent. */
  lemma {:induction false} StopSilences(s: State, k: nat)
    requires Consistent(s)
    ensures Drive(AfterStop(s), k) == AfterStop(s)
  {
    Quiescent(AfterStop(s), k);
  }

  /** A run started at t0 and stopped after `k` dispatches sends
      min(k + 1, Budget) packets over its whole life, whatever the simulator
      does afterwards. */
  lemma StoppedRunSends(s: State, t0: Time, k: nat, j: nat)
    requires Consistent(s) && s.socket.Some? && s.sendEvent.None? && s.clock <= t0
    ensures var stopped := AfterStop(Drive(AfterStart(s, t0), k));
            var r := Drive(stopped, j);
            r.sent == s.sent + Timeline(t0, Delay(s.packetSize, s.bitRate), s.packetSize,
                                        Min(k + 1, Budget(s.nPackets))) &&
            !r.running && r.sendEvent.None?
  {
    RunTimeline(s, t0, k);
    StopSilences(Drive(AfterStart(s, t0), k), j);
  }

  /** Stopping twice is the same as stopping once. */
  lemma StopIdempotent(s: State)
    ensures AfterStop(AfterStop(s)) == AfterStop(s)
  {
  }

  /** With a budget of at most one packet, a run sends once, at its start
      time, and schedules nothing. */
  lemma SinglePacketRun(s: State, t0: Time, k: nat)
    requires Consistent(s) && s.socket.Some? && s.sendEvent.None? && s.clock <= t0
    requires s.nPackets <= 1
    ensures var r := Drive(AfterStart(s, t0), k);
            r.sent == s.sent + [Transmission(t0, s.packetSize)] && r.sendEvent.None? && r.packetsSent == 1
  {
    RunTimeline(s, t0, k);
    assert Timeline(t0, Delay(s.packetSize, s.bitRate), s.packetSize, 1) == [Transmission(t0, s.packetSize)];
  }

  /** The station's report: 5120 bytes, a budget of 1, 10 Mbit/s, started at
      2 s. It sends once, at 2 s, and nothing is left pending. */
  lemma ReportScenario(socket: SocketId, peer: Address, k: nat)
    ensures var s := AfterSetup(Initial(), socket, peer, 5120, 1, 10_000_000);
            var r := Drive(AfterStart(s, 2 * NanosPerSecond), k);
            r.sent == [Transmission(2_000_000_000, 5120)] && r.sendEvent.None?
  {
    var s := AfterSetup(Initial(), socket, peer, 5120, 1, 10_000_000);
    SinglePacketRun(s, 2 * NanosPerSecond, k);
  }

  /** One of the cloud's alerts: 2048 bytes, a budget of 1, 50 Mbit/s,
      started at 2.1 s. It sends once, at 2.1 s. */
  lemma AlertScenario(socket: SocketId, peer: Address, k: nat)
    ensures var s := AfterSetup(Initial(), socket, peer, 2048, 1, 50_000_000);
            var r := Drive(AfterStart(s, 2_100_000_000), k);
            r.sent == [Transmission(2_100_000_000, 2048)] && r.sendEvent.None?
  {
    var s := AfterSetup(Initial(), socket, peer, 2048, 1, 50_000_000);
    SinglePacketRun(s, 2_100_000_000, k);
  }

  /** The same alert with a budget of 3: the gap is 327680 ns. After the
      first dispatch (the second send) the third send is pending at
      2.1 s + 655360 ns, which is earlier than 2.1 s + gap + 1 ms. So a stop
      at that later time comes after the second dispatch, and by then all
      three packets have gone out. */
  lemma ThreePacketScenario(socket: SocketId, peer: Address)
    ensures var s := AfterSetup(Initial(), socket, peer, 2048, 3, 50_000_000);
            var d := Delay(2048, 50_000_000);
            var stopAt := 2_100_000_000 + d + 1_000_000;
            var started := AfterStart(s, 2_100_000_000);
            d == 327_680 &&
            Drive(started, 1).sendEvent == Some(2_100_655_360) && 2_100_655_360 < stopAt &&
            AfterStop(Drive(started, 2)).sent ==
              [Transmission(2_100_000_000, 2048), Transmission(2_100_327_680, 2048),
               Transmission(2_100_655_360, 2048)]
  {
    var s := AfterSetup(Initial(), socket, peer, 2048, 3, 50_000_000);
    var d := Delay(2048, 50_000_000);
    assert d == 327_680;
    RunTimeline(s, 2_100_000_000, 1);
    RunTimeline(s, 2_100_000_000, 2);
    var log := Timeline(2_100_000_000, d, 2048, 3);
    assert log[0].time == 2_100_000_000 && log[1].time == 2_100_327_680 && log[2].time == 2_100_655_360;
    assert log == [Transmission(2_100_000_000, 2048), Transmission(2_100_327_680, 2048),
                   Transmission(2_100_655_360, 2048)];
  }
}
