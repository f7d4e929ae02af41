/** The Ethernet transmitter of Ethernet/Ethernet_Phy.c: frames queue at a link; whoever finds the
    line busy or leaves frames behind schedules a wake-up at the end of the current transmission.
    Wake-ups can be stale. Times are microseconds. */
module EthernetPhy {
  import opened Common

  datatype Line = Line(speed: real, ifg: real, propagationDelay: real)

  ghost predicate ValidLine(l: Line) {
    l.speed > 0.0 && l.ifg >= 0.0 && l.propagationDelay >= 0.0
  }

  /** A frame and the time at which the MAC layer handed it over. */
  datatype Frame = Frame(id: nat, size: real, arrived: real)

  /** A transmission; `received` is when the frame is at the other end. */
  datatype Tx = Tx(frame: Frame, start: real, end: real, received: real)

  /** The queue, the end of the last transmission and the pending PHY_OUT wake-ups, with the clock,
      the transmissions so far and the frames handed over so far. */
  datatype Phy = Phy(now: real, queue: seq<Frame>, lastEnd: real, wakeups: multiset<real>, sent: seq<Tx>,
                     arrivals: seq<Frame>)

  /** calculate_txtime */
  function TxTime(l: Line, size: real): real
    requires l.speed > 0.0
  {
    size * 8.0 / l.speed
  }

  // ----- fn_NetSim_Ethernet_HandlePhyOut ---------------------------------------------------------

  function Transmission(l: Line, f: Frame, now: real, lastEnd: real): Tx
    requires l.speed > 0.0
  {
    var start := if lastEnd + l.ifg <= now then now else lastEnd + l.ifg;
    var tx := TxTime(l, f.size);
    Tx(f, start, start + tx, start + tx + l.propagationDelay)
  }

  function HandlePhyOut(l: Line, s: Phy, packet: Option<Frame>): Phy
    requires l.speed > 0.0
  {
    var wasEmpty := s.queue == [];
    var queue := if packet.Some? then s.queue + [packet.value] else s.queue;
    if s.lastEnd > s.now then
      s.(queue := queue,
         wakeups := if wasEmpty && queue != [] then s.wakeups + multiset{s.lastEnd} else s.wakeups)
    else if queue == [] then s
    else
      var tx := Transmission(l, queue[0], s.now, s.lastEnd);
      s.(queue := queue[1..], lastEnd := tx.end, sent := s.sent + [tx],
         wakeups := if queue[1..] != [] then s.wakeups + multiset{tx.end} else s.wakeups)
  }

  // ----- Runs ------------------------------------------------------------------------------------

  datatype Event = Arrive(id: nat, size: real, time: real) | Wake(time: real)

  /** Events come in the order of their times. */
  ghost predicate Enabled(s: Phy, ev: Event) {
    && s.now <= ev.time
    && (forall w | w in s.wakeups :: ev.time <= w)
    && (ev.Arrive? ==> ev.size >= 0.0)
    && (ev.Wake? ==> ev.time in s.wakeups)
  }

  ghost function Next(l: Line, s: Phy, ev: Event): Phy
    requires l.speed > 0.0
  {
    match ev
    case Arrive(id, size, time) =>
      var f := Frame(id, size, time);
      HandlePhyOut(l, s.(now := time, arrivals := s.arrivals + [f]), Some(f))
    case Wake(time) =>
      HandlePhyOut(l, s.(now := time, wakeups := s.wakeups - multiset{time}), None)
  }

  ghost function Init(): Phy {
    Phy(0.0, [], 0.0, multiset{}, [], [])
  }

  ghost predicate Run(l: Line, run: seq<Phy>, evs: seq<Event>)
    requires l.speed > 0.0
  {
    && |run| == |evs| + 1 && run[0] == Init()
    && forall i | 0 <= i < |evs| :: Enabled(run[i], evs[i]) && run[i + 1] == Next(l, run[i], evs[i])
  }

  // ----- The ideal link --------------------------------------------------------------------------

  /** An ideal first-in first-out link: every frame starts as soon as it is there and the gap after
      the frame before it is over. */
  ghost function IdealEnd(l: Line, arrivals: seq<Frame>, k: nat): real
    requires l.speed > 0.0 && k <= |arrivals|
    decreases k, 0
  {
    if k == 0 then 0.0 else IdealStart(l, arrivals, k - 1) + TxTime(l, arrivals[k - 1].size)
  }

  ghost function IdealStart(l: Line, arrivals: seq<Frame>, k: nat): real
    requires l.speed > 0.0 && k < |arrivals|
    decreases k, 1
  {
    MaxReal(arrivals[k].arrived, IdealEnd(l, arrivals, k) + l.ifg)
  }

  lemma {:induction false} IdealLocal(l: Line, arrivals: seq<Frame>, f: Frame, k: nat)
    requires l.speed > 0.0 && k <= |arrivals|
    ensures IdealEnd(l, arrivals + [f], k) == IdealEnd(l, arrivals, k)
  {
    if k > 0 {
      IdealLocal(l, arrivals, f, k - 1);
    }
  }

  // ----- The invariant ---------------------------------------------------------------------------

  /** A frame that waits has its wake-up: at the end of the current transmission, not in the past. */
  ghost predicate WakeupPending(s: Phy) {
    s.queue != [] ==> s.lastEnd in s.wakeups && s.now <= s.lastEnd
  }

  ghost predicate InOrder(s: Phy) {
    && |s.arrivals| == |s.sent| + |s.queue|
    && (forall k | 0 <= k < |s.sent| :: s.sent[k].frame == s.arrivals[k])
    && (forall k | 0 <= k < |s.queue| :: s.queue[k] == s.arrivals[|s.sent| + k])
    && (forall k | 0 <= k < |s.queue| :: s.queue[k].arrived <= s.now)
    && (forall k | 0 <= k < |s.arrivals| :: s.arrivals[k].size >= 0.0)
  }

  ghost predicate Ideal(l: Line, s: Phy)
    requires l.speed > 0.0
  {
    && |s.sent| <= |s.arrivals|
    && s.lastEnd == IdealEnd(l, s.arrivals, |s.sent|)
    && forall k | 0 <= k < |s.sent| ::
         && s.sent[k].start == IdealStart(l, s.arrivals, k)
         && s.sent[k].end == IdealEnd(l, s.arrivals, k + 1)
         && s.sent[k].received == s.sent[k].end + l.propagationDelay
  }

  ghost predicate Inv(l: Line, s: Phy)
    requires l.speed > 0.0
  {
    && s.now >= 0.0 && s.lastEnd >= 0.0
    && (forall w | w in s.wakeups :: s.now <= w)
    && WakeupPending(s) && InOrder(s) && Ideal(l, s)
  }

  /** What an arrival does before the handler looks at the line. */
  lemma ArriveIdeal(l: Line, s: Phy, f: Frame)
    requires l.speed > 0.0 && Ideal(l, s)
    ensures Ideal(l, s.(arrivals := s.arrivals + [f]))
  {
    IdealLocal(l, s.arrivals, f, |s.sent|);
    forall k | 0 <= k < |s.sent|
      ensures IdealStart(l, s.arrivals + [f], k) == IdealStart(l, s.arrivals, k)
      ensures IdealEnd(l, s.arrivals + [f], k + 1) == IdealEnd(l, s.arrivals, k + 1)
    {
      IdealLocal(l, s.arrivals, f, k);
      IdealLocal(l, s.arrivals, f, k + 1);
    }
  }

  lemma TxTimeNonNegative(l: Line, size: real)
    requires l.speed > 0.0 && size >= 0.0
    ensures TxTime(l, size) >= 0.0
  {
  }

  /** The head of a queue that is served now starts when it would on the ideal link: it has just
      come to an idle line, or it waited and now is the end of the transmission before it. */
  lemma ServeIdeal(l: Line, s: Phy, f: Frame)
    requires ValidLine(l) && Ideal(l, s) && |s.sent| < |s.arrivals| && s.arrivals[|s.sent|] == f
    requires s.lastEnd <= s.now && f.arrived <= s.now && (f.arrived == s.now || s.now == s.lastEnd)
    ensures var tx := Transmission(l, f, s.now, s.lastEnd);
            Ideal(l, s.(lastEnd := tx.end, sent := s.sent + [tx]))
  {
    var tx := Transmission(l, f, s.now, s.lastEnd);
    var s' := s.(lastEnd := tx.end, sent := s.sent + [tx]);
    assert tx.start == IdealStart(l, s.arrivals, |s.sent|);
    forall k | 0 <= k < |s'.sent|
      ensures && s'.sent[k].start == IdealStart(l, s'.arrivals, k)
              && s'.sent[k].end == IdealEnd(l, s'.arrivals, k + 1)
              && s'.sent[k].received == s'.sent[k].end + l.propagationDelay
    {
      if k < |s.sent| {
        assert s'.sent[k] == s.sent[k];
      }
    }
  }

  /** The state in which the handler decides: the frame, if any, is already in the queue. */
  lemma HandleInv(l: Line, s: Phy, t: Phy, packet: Option<Frame>)
    requires ValidLine(l) && s.now >= 0.0 && s.lastEnd >= 0.0 && forall w | w in s.wakeups :: s.now <= w
    requires t == s.(queue := if packet.Some? then s.queue + [packet.value] else s.queue)
    requires packet.Some? ==> packet.value.arrived == s.now
    requires s.queue != [] ==> s.now <= s.lastEnd && (s.now < s.lastEnd ==> s.lastEnd in s.wakeups)
    requires InOrder(t) && Ideal(l, t)
    ensures Inv(l, HandlePhyOut(l, s, packet))
  {
    var s' := HandlePhyOut(l, s, packet);
    if s.lastEnd <= s.now && t.queue != [] {
      var f := t.queue[0];
      ServeIdeal(l, t, f);
      TxTimeNonNegative(l, f.size);
      ServeInOrder(l, t, s');
    }
  }

  lemma ServeInOrder(l: Line, t: Phy, s': Phy)
    requires l.speed > 0.0 && InOrder(t) && t.queue != [] && s'.now == t.now && s'.arrivals == t.arrivals
    requires s'.queue == t.queue[1..] && s'.sent == t.sent + [Transmission(l, t.queue[0], t.now, t.lastEnd)]
    ensures InOrder(s')
  {
  }

  lemma NextInv(l: Line, s: Phy, ev: Event)
    requires ValidLine(l) && Inv(l, s) && Enabled(s, ev)
    ensures Inv(l, Next(l, s, ev))
  {
    match ev
    case Arrive(id, size, time) =>
      var f := Frame(id, size, time);
      var s1 := s.(now := time, arrivals := s.arrivals + [f]);
      ArriveIdeal(l, s, f);
      HandleInv(l, s1, s1.(queue := s.queue + [f]), Some(f));
    case Wake(time) =>
      var s1 := s.(now := time, wakeups := s.wakeups - multiset{time});
      HandleInv(l, s1, s1, None);
  }

  lemma {:induction false} RunInv(l: Line, run: seq<Phy>, evs: seq<Event>, i: nat)
    requires ValidLine(l) && Run(l, run, evs) && i < |run|
    ensures Inv(l, run[i])
  {
    if i > 0 {
      RunInv(l, run, evs, i - 1);
      NextInv(l, run[i - 1], evs[i - 1]);
    }
  }

  // ----- What it amounts to ----------------------------------------------------------------------

  /** Over any event sequence the transmitter is the ideal link: frames leave in the order of their
      arrival, and each at the earliest time that the gap allows. */
  lemma TransmitterIsIdeal(l: Line, run: seq<Phy>, evs: seq<Event>, i: nat, k: nat)
    requires ValidLine(l) && Run(l, run, evs) && i < |run| && k < |run[i].sent|
    ensures k < |run[i].arrivals| && run[i].sent[k].frame == run[i].arrivals[k]
    ensures run[i].sent[k].start == IdealStart(l, run[i].arrivals, k)
    ensures run[i].sent[k].end == run[i].sent[k].start + TxTime(l, run[i].arrivals[k].size)
  {
    RunInv(l, run, evs, i);
  }

  /** Transmissions do not overlap and keep the inter-frame gap. */
  lemma GapKept(l: Line, run: seq<Phy>, evs: seq<Event>, i: nat, j: nat, k: nat)
    requires ValidLine(l) && Run(l, run, evs) && i < |run| && j < k < |run[i].sent|
    ensures run[i].sent[j].end + l.ifg <= run[i].sent[k].start
  {
    RunInv(l, run, evs, i);
    forall m | 0 <= m < |run[i].sent| ensures run[i].sent[m].start <= run[i].sent[m].end {
      TransmitterIsIdeal(l, run, evs, i, m);
      TxTimeNonNegative(l, run[i].arrivals[m].size);
    }
    GapBetween(l, run[i], j, k);
  }

  lemma {:induction false} GapBetween(l: Line, s: Phy, j: nat, k: nat)
    requires ValidLine(l) && InOrder(s) && Ideal(l, s) && j < k < |s.sent|
    requires forall i | 0 <= i < |s.sent| :: s.sent[i].start <= s.sent[i].end
    ensures s.sent[j].end + l.ifg <= s.sent[k].start
    decreases k
  {
    if j < k - 1 {
      GapBetween(l, s, j, k - 1);
    }
  }

  /** The sizes of transmissions j, ..., k - 1, in bytes, and the time that the line is busy with them. */
  ghost function BytesSent(sent: seq<Tx>, j: nat, k: nat): real
    requires j <= k <= |sent|
  {
    if j == k then 0.0 else BytesSent(sent, j, k - 1) + sent[k - 1].frame.size
  }

  ghost function BusyTime(sent: seq<Tx>, j: nat, k: nat): real
    requires j <= k <= |sent|
  {
    if j == k then 0.0 else BusyTime(sent, j, k - 1) + (sent[k - 1].end - sent[k - 1].start)
  }

  /** Over any stretch of transmissions, the line carries exactly its speed's worth of bits, eight to a byte,
      in the time that it is busy. */
  lemma {:induction false} CarriesItsSpeed(l: Line, run: seq<Phy>, evs: seq<Event>, i: nat, j: nat, k: nat)
    requires ValidLine(l) && Run(l, run, evs) && i < |run| && j <= k <= |run[i].sent|
    ensures 8.0 * BytesSent(run[i].sent, j, k) == l.speed * BusyTime(run[i].sent, j, k)
    decreases k
  {
    if j < k {
      CarriesItsSpeed(l, run, evs, i, j, k - 1);
      TransmitterIsIdeal(l, run, evs, i, k - 1);
      var sent := run[i].sent;
      OneMore(l, BytesSent(sent, j, k - 1), BusyTime(sent, j, k - 1), sent[k - 1].frame.size);
      assert sent[k - 1].end - sent[k - 1].start == TxTime(l, sent[k - 1].frame.size);
    }
  }

  lemma OneMore(l: Line, bytes: real, busy: real, size: real)
    requires l.speed > 0.0 && 8.0 * bytes == l.speed * busy
    ensures 8.0 * (bytes + size) == l.speed * (busy + TxTime(l, size))
  {
    assert TxTime(l, size) * l.speed == size * 8.0;
  }

  /** Nothing is stranded: a queue that is not empty has a wake-up at the end of the current
      transmission, which is not in the past, so that without a pending wake-up everything handed
      over has been sent. */
  lemma NothingStranded(l: Line, run: seq<Phy>, evs: seq<Event>, i: nat)
    requires ValidLine(l) && Run(l, run, evs) && i < |run|
    ensures run[i].queue != [] ==> run[i].lastEnd in run[i].wakeups && run[i].now <= run[i].lastEnd
    ensures run[i].wakeups == multiset{} ==> |run[i].sent| == |run[i].arrivals|
  {
    RunInv(l, run, evs, i);
  }

  // ----- The port as the code keeps it -----------------------------------------------------------

  /** ETH_PHY with its buffer, and the events it has added. */
  class EthPhy {
    const line: Line
    var packet: seq<Frame>
    var lastPacketEndTime: real
    var phyOut: multiset<real>
    var phyIn: seq<Tx>

    constructor (line: Line)
      requires ValidLine(line)
      ensures this.line == line && packet == [] && lastPacketEndTime == 0.0 && phyOut == multiset{} && phyIn == []
    {
      this.line := line;
      packet, lastPacketEndTime, phyOut, phyIn := [], 0.0, multiset{}, [];
    }

    /** The port as a state of the model, seen at time `now`. */
    ghost function State(now: real, arrivals: seq<Frame>): Phy
      reads this
    {
      Phy(now, packet, lastPacketEndTime, phyOut, phyIn, arrivals)
    }

    /** The first frame of the buffer goes out. */
    method TransmitFirst(now: real)
      requires ValidLine(line) && packet != []
      modifies this`packet, this`phyIn, this`lastPacketEndTime
      ensures var tx := Transmission(line, old(packet)[0], now, old(lastPacketEndTime));
              packet == old(packet)[1..] && phyIn == old(phyIn) + [tx] && lastPacketEndTime == tx.end
    {
      var f := packet[0];
      packet := packet[1..];
      var start := if lastPacketEndTime + line.ifg <= now then now else lastPacketEndTime + line.ifg;
      var txtime := TxTime(line, f.size);
      phyIn := phyIn + [Tx(f, start, start + txtime, start + txtime + line.propagationDelay)];
      lastPacketEndTime := start + txtime;
    }

    /** fn_NetSim_Ethernet_HandlePhyOut for an event at time `now` that brings a frame or none. */
    method Handle(now: real, p: Option<Frame>, ghost arrivals: seq<Frame>)
      requires ValidLine(line)
      modifies this
      ensures State(now, arrivals) == HandlePhyOut(line, old(State(now, arrivals)), p)
    {
      var flag := packet == [];
      if p.Some? {
        packet := packet + [p.value];
      }
      if lastPacketEndTime > now {
        if !flag {
          return;
        }
      } else {
        if packet == [] {
          return;
        }
        TransmitFirst(now);
      }
      if packet != [] {
        phyOut := phyOut + multiset{lastPacketEndTime};
      }
    }
  }
}
