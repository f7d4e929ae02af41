/** One device of an AODV network as a whole: its route table and route timers (within the network of all
    devices), its open discoveries with their pending RREQ_TIMEOUT events, and the packets that wait. */
module AodvStation {
  import opened Common
  import opened AodvDiscovery
  import AodvRoutes

  /** A pending RREQ_TIMEOUT event. */
  datatype Alarm = Alarm(dest: Ip, at: real)

  /** The network of route tables, and the rest of the device that is looked at. */
  datatype Station = Station(net: AodvRoutes.Net, disc: State, alarms: multiset<Alarm>)

  /** An event of the route tables, where `own` says that a reply answers a request of this device; a
      packet for which there is no route; or a timeout of a discovery. */
  datatype Event = Routing(ev: AodvRoutes.Event, own: bool) | Submit(p: Packet) | Ring(a: Alarm)

  function Routes(s: Station, d: nat): AodvRoutes.Node
    requires d < |s.net.nodes|
  {
    s.net.nodes[d]
  }

  /** Time does not pass a pending event. */
  ghost predicate Enabled(s: Station, d: nat, ev: Event) {
    && d < |s.net.nodes|
    && match ev
       case Routing(ev, own) =>
         && AodvRoutes.Enabled(s.net, ev)
         && (ev.Tick? ==> forall a | a in s.alarms :: ev.now <= a.at)
       case Submit(p) => p.dest !in AodvRoutes.FoundRoutes(Routes(s, d).table, s.net.now)
       case Ring(a) => a in s.alarms && a.at == s.net.now
  }

  /** The destinations that have a route when the buffer is looked at: after the insertion that a reply
      brings, and before it prolongs routes. */
  ghost function FoundAfter(s: Station, d: nat, ev: AodvRoutes.Event): set<Ip>
    requires d < |s.net.nodes| && ev.RecvRrep?
  {
    var n := AodvRoutes.Insert(Routes(s, d), s.net.now, ev.dest, ev.seqNo, ev.hops, ev.last,
                               s.net.now + AodvRoutes.ACTIVE_ROUTE_TIMEOUT);
    AodvRoutes.FoundRoutes(n.table, s.net.now)
  }

  /** A reply that reaches the device transmits the buffer; one to its own request also closes the
      discovery. */
  ghost function AfterRouting(s: Station, d: nat, ev: AodvRoutes.Event, own: bool): State
    requires d < |s.net.nodes|
  {
    if !(ev.RecvRrep? && ev.d == d) then s.disc
    else if own then AfterReply(s.disc, ev.dest, FoundAfter(s, d, ev))
    else s.disc.(fs := Transmit(s.disc.fs, FoundAfter(s, d, ev)))
  }

  ghost function Next(s: Station, d: nat, ev: Event): Station
    requires Enabled(s, d, ev)
  {
    match ev
    case Routing(ev, own) => Station(AodvRoutes.Next(s.net, ev), AfterRouting(s, d, ev, own), s.alarms)
    case Submit(p) =>
      var disc := AfterSend(s.disc, p, s.net.now);
      Station(s.net, disc,
              if Dropped(s.disc.fs, p.dest) != [] then s.alarms
              else s.alarms + multiset{Alarm(p.dest, disc.table[p.dest].timeout)})
    case Ring(a) =>
      var disc := AfterTimeout(s.disc, a.dest, s.net.now);
      Station(s.net, disc,
              s.alarms - multiset{a}
              + (if Decide(s.disc.table, a.dest, s.net.now).Resent?
                 then multiset{Alarm(a.dest, disc.table[a.dest].timeout)} else multiset{}))
  }

  ghost function Init(devices: nat): Station {
    Station(AodvRoutes.Init(devices), State(map[], []), multiset{})
  }

  ghost predicate StateAt(run: seq<Station>, evs: seq<Event>, d: nat, i: nat)
    requires i < |run| == |evs| + 1
  {
    if i == 0 then d < |run[0].net.nodes| && run[0] == Init(|run[0].net.nodes|)
    else Enabled(run[i - 1], d, evs[i - 1]) && run[i] == Next(run[i - 1], d, evs[i - 1])
  }

  /** A run of the network in which device d is looked at. */
  ghost predicate Run(run: seq<Station>, evs: seq<Event>, d: nat) {
    |run| == |evs| + 1 && forall i | 0 <= i < |run| :: StateAt(run, evs, d, i)
  }

  // ----- Timeouts are pending --------------------------------------------------------------------

  /** Every open discovery has a timeout pending at exactly the time that its entry stores. */
  ghost predicate Alarmed(table: SentTable, alarms: multiset<Alarm>, now: real) {
    && (forall a | a in alarms :: now <= a.at)
    && (forall dest | dest in table :: Alarm(dest, table[dest].timeout) in alarms)
    && (forall dest | dest in table :: table[dest].times >= 1)
  }

  lemma TimeoutPositive(ttl: nat, count: nat)
    ensures TimeoutTime(ttl, count) >= 0.0
  {
  }

  lemma OpenAlarmed(table: SentTable, alarms: multiset<Alarm>, now: real, dest: Ip)
    requires Alarmed(table, alarms, now)
    ensures var table' := Open(table, dest, now);
            dest in table' && Alarmed(table', alarms + multiset{Alarm(dest, table'[dest].timeout)}, now)
  {
    TimeoutPositive(IncreaseTtl(table, dest) + 1, 1);
  }

  lemma RetryAlarmed(table: SentTable, alarms: multiset<Alarm>, now: real, a: Alarm)
    requires Alarmed(table, alarms, now) && a in alarms && a.at == now
    ensures var table' := Retry(table, a.dest, now);
            && (Decide(table, a.dest, now).Resent? ==> a.dest in table')
            && Alarmed(table', alarms - multiset{a}
                               + (if Decide(table, a.dest, now).Resent?
                                  then multiset{Alarm(a.dest, table'[a.dest].timeout)} else multiset{}), now)
  {
    if Decide(table, a.dest, now).Resent? {
      TimeoutPositive(IncreaseTtl(table, a.dest) + 1, table[a.dest].times);
    }
  }

  // ----- Attendance ------------------------------------------------------------------------------

  ghost predicate Inv(s: Station, d: nat) {
    && d < |s.net.nodes| && AodvRoutes.Inv(s.net) && FifoOk(s.disc.fs)
    && Alarmed(s.disc.table, s.alarms, s.net.now)
  }

  /** The one way to lose attendance: the reply to the device's own request finds packets waiting and an
      entry that refuses it and ends its life at this very time. */
  ghost predicate Strands(s: Station, d: nat, ev: Event)
    requires d < |s.net.nodes|
  {
    && ev.Routing? && ev.own && ev.ev.RecvRrep? && ev.ev.d == d
    && Waiting(s.disc.fs, ev.ev.dest) != []
    && exists e :: e in Routes(s, d).table && e.dest == ev.ev.dest && e.lifetime == s.net.now
                   && !AodvRoutes.Accepts(e, ev.ev.seqNo, ev.ev.hops)
  }

  lemma NetKept(s: Station, d: nat, ev: AodvRoutes.Event)
    requires AodvRoutes.Inv(s.net) && d < |s.net.nodes| && AodvRoutes.Enabled(s.net, ev)
    ensures AodvRoutes.Inv(AodvRoutes.Next(s.net, ev)) && d < |AodvRoutes.Next(s.net, ev).nodes|
    ensures !ev.Tick? ==> AodvRoutes.Next(s.net, ev).now == s.net.now
  {
    AodvRoutes.NextInv(s.net, ev);
  }

  lemma RoutingInv(s: Station, d: nat, ev: AodvRoutes.Event, own: bool)
    requires Inv(s, d) && Enabled(s, d, Routing(ev, own))
    ensures Inv(Next(s, d, Routing(ev, own)), d)
  {
    NetKept(s, d, ev);
    if ev.RecvRrep? && ev.d == d {
      TransmitShape(s.disc.fs, FoundAfter(s, d, ev));
    }
  }

  lemma SubmitInv(s: Station, d: nat, p: Packet)
    requires Inv(s, d) && Enabled(s, d, Submit(p))
    ensures Inv(Next(s, d, Submit(p)), d)
  {
    AddOk(s.disc.fs, p);
    OpenAlarmed(s.disc.table, s.alarms, s.net.now, p.dest);
  }

  lemma RingInv(s: Station, d: nat, a: Alarm)
    requires Inv(s, d) && Enabled(s, d, Ring(a))
    ensures Inv(Next(s, d, Ring(a)), d)
  {
    DropOk(s.disc.fs, a.dest);
    RetryAlarmed(s.disc.table, s.alarms, s.net.now, a);
  }

  lemma NextInv(s: Station, d: nat, ev: Event)
    requires Inv(s, d) && Enabled(s, d, ev)
    ensures Inv(Next(s, d, ev), d)
  {
    match ev
    case Routing(ev, own) => RoutingInv(s, d, ev, own);
    case Submit(p) => SubmitInv(s, d, p);
    case Ring(a) => RingInv(s, d, a);
  }

  /** In every reachable state: one route entry per destination with its timer; and every open discovery
      has a timeout pending at exactly its stored time, none of them in the past. */
  lemma {:induction false} RunInv(run: seq<Station>, evs: seq<Event>, d: nat, i: nat)
    requires Run(run, evs, d) && i < |run|
    ensures Inv(run[i], d)
  {
    assert StateAt(run, evs, d, i);
    if i > 0 {
      RunInv(run, evs, d, i - 1);
      NextInv(run[i - 1], d, evs[i - 1]);
    }
  }

  /** A reply that does not close a discovery only takes packets away. */
  lemma TransmitAttends(disc: State, found: set<Ip>)
    requires FifoOk(disc.fs) && Attended(disc)
    ensures Attended(disc.(fs := Transmit(disc.fs, found)))
  {
    forall dest ensures Waiting(Transmit(disc.fs, found), dest) != [] ==> dest in disc.table {
      TransmitExact(disc.fs, found, dest);
    }
  }

  lemma OwnReplyAttendsIff(s: Station, d: nat, ev: AodvRoutes.Event)
    requires Inv(s, d) && Attended(s.disc) && ev.RecvRrep? && ev.d == d
    ensures Attended(AfterReply(s.disc, ev.dest, FoundAfter(s, d, ev))) <==> !Strands(s, d, Routing(ev, true))
  {
    if Waiting(s.disc.fs, ev.dest) == [] {
      ReplyAttendsIff(s.disc, ev.dest, FoundAfter(s, d, ev));
    } else {
      assert AodvRoutes.NodeInv(Routes(s, d), s.net.now);
      ReplyStrandsIff(s.disc, Routes(s, d), s.net.now, ev.dest, ev.seqNo, ev.hops, ev.last);
    }
  }

  /** A step loses attendance exactly if it strands. */
  lemma NextAttendsIff(s: Station, d: nat, ev: Event)
    requires Inv(s, d) && Attended(s.disc) && Enabled(s, d, ev)
    ensures Attended(Next(s, d, ev).disc) <==> !Strands(s, d, ev)
  {
    match ev
    case Routing(r, own) =>
      if r.RecvRrep? && r.d == d {
        if own {
          OwnReplyAttendsIff(s, d, r);
        } else {
          TransmitAttends(s.disc, FoundAfter(s, d, r));
        }
      }
    case Submit(p) => SendAttends(s.disc, p, s.net.now);
    case Ring(a) => TimeoutAttends(s.disc, a.dest, s.net.now);
  }

  /** In every run that has not stranded a packet, every packet that waits has an open discovery. */
  lemma {:induction false} RunAttended(run: seq<Station>, evs: seq<Event>, d: nat, i: nat)
    requires Run(run, evs, d) && i < |run|
    requires forall j | 0 <= j < i :: d < |run[j].net.nodes| && !Strands(run[j], d, evs[j])
    ensures Attended(run[i].disc)
  {
    assert StateAt(run, evs, d, i);
    if i > 0 {
      RunAttended(run, evs, d, i - 1);
      RunInv(run, evs, d, i - 1);
      NextAttendsIff(run[i - 1], d, evs[i - 1]);
    }
  }

  // ----- Every packet leaves ---------------------------------------------------------------------

  /** The entry after a timeout that sends the request again. */
  ghost function Retried(e: Sent): Sent
    requires e.times <= RREQ_RETRIES
  {
    var ttl := if e.ttl >= TTL_THRESHOLD then NET_DIAMETER
               else if e.ttl + TTL_INCREMENT > TTL_THRESHOLD then TTL_THRESHOLD
               else e.ttl + TTL_INCREMENT;
    Sent(e.dest, ttl, if ttl == NET_DIAMETER then e.times + 1 else e.times, e.timeout + TimeoutTime(ttl + 1, e.times))
  }

  /** The time at which a discovery gives up if only its timeouts act on it. */
  ghost function GivesUpAt(e: Sent): real
    decreases RingLeft(e), TriesLeft(e)
  {
    if e.times > RREQ_RETRIES then e.timeout else GivesUpAt(Retried(e))
  }

  lemma {:induction false} TimeoutBeforeEnd(e: Sent)
    ensures e.timeout <= GivesUpAt(e)
    decreases RingLeft(e), TriesLeft(e)
  {
    if e.times <= RREQ_RETRIES {
      TimeoutBeforeEnd(Retried(e));
      TimeoutPositive(Retried(e).ttl + 1, e.times);
    }
  }

  ghost predicate Keyed(table: SentTable) {
    forall dest | dest in table :: table[dest].dest == dest
  }

  /** A timeout leaves the end of every discovery that stays open where it was. */
  lemma RetryKeepsEnd(table: SentTable, alarms: multiset<Alarm>, now: real, a: Alarm, dest: Ip)
    requires Alarmed(table, alarms, now) && a in alarms && a.at == now && Keyed(table) && dest in table
    ensures var table' := Retry(table, a.dest, now);
            && Keyed(table')
            && (dest in table' ==> GivesUpAt(table'[dest]) == GivesUpAt(table[dest]))
            && (dest !in table' ==> dest == a.dest && Decide(table, dest, now) == GaveUp)
  {
    if dest == a.dest && Decide(table, dest, now).Resent? {
      assert table[dest].timeout == now;
      assert Retry(table, dest, now)[dest] == Retried(table[dest]);
    }
  }

  /** While packets wait for dest and nothing strands them, their discovery stays open and its end stays
      where it is. */
  lemma NextKeepsEnd(s: Station, d: nat, ev: Event, dest: Ip)
    requires Inv(s, d) && Keyed(s.disc.table) && Attended(s.disc) && Enabled(s, d, ev) && !Strands(s, d, ev)
    requires Waiting(s.disc.fs, dest) != [] && Waiting(Next(s, d, ev).disc.fs, dest) != []
    ensures var s' := Next(s, d, ev);
            && dest in s.disc.table && dest in s'.disc.table
            && GivesUpAt(s'.disc.table[dest]) == GivesUpAt(s.disc.table[dest])
  {
    NextAttendsIff(s, d, ev);
    match ev
    case Routing(r, own) =>
    case Submit(p) => WaitingIs(s.disc.fs, p.dest);
    case Ring(a) => RetryKeepsEnd(s.disc.table, s.alarms, s.net.now, a, dest);
  }

  lemma NextKeyed(s: Station, d: nat, ev: Event)
    requires Inv(s, d) && Keyed(s.disc.table) && Enabled(s, d, ev)
    ensures Keyed(Next(s, d, ev).disc.table)
  {
  }

  lemma {:induction false} RunKeyed(run: seq<Station>, evs: seq<Event>, d: nat, i: nat)
    requires Run(run, evs, d) && i < |run|
    ensures Keyed(run[i].disc.table)
  {
    assert StateAt(run, evs, d, i);
    if i > 0 {
      RunKeyed(run, evs, d, i - 1);
      RunInv(run, evs, d, i - 1);
      NextKeyed(run[i - 1], d, evs[i - 1]);
    }
  }

  /** From state i to state j, in which packets for dest wait all the time. */
  ghost predicate WaitsThrough(run: seq<Station>, dest: Ip, i: nat, j: nat) {
    j < |run| && forall k | i <= k <= j :: Waiting(run[k].disc.fs, dest) != []
  }

  ghost predicate NeverStrands(run: seq<Station>, evs: seq<Event>, d: nat, j: nat)
    requires j <= |evs| && j <= |run|
  {
    forall k | 0 <= k < j :: d < |run[k].net.nodes| && !Strands(run[k], d, evs[k])
  }

  lemma {:induction false} EndStays(run: seq<Station>, evs: seq<Event>, d: nat, dest: Ip, i: nat, j: nat)
    requires Run(run, evs, d) && i <= j < |run| && NeverStrands(run, evs, d, j) && WaitsThrough(run, dest, i, j)
    ensures dest in run[i].disc.table && dest in run[j].disc.table
    ensures GivesUpAt(run[j].disc.table[dest]) == GivesUpAt(run[i].disc.table[dest])
    decreases j
  {
    RunAttended(run, evs, d, j);
    if i < j {
      assert StateAt(run, evs, d, j);
      EndStays(run, evs, d, dest, i, j - 1);
      RunAttended(run, evs, d, j - 1);
      RunInv(run, evs, d, j - 1);
      RunKeyed(run, evs, d, j - 1);
      NextKeepsEnd(run[j - 1], d, evs[j - 1], dest);
    }
  }

  /** Every packet leaves: packets wait for dest without a break no longer than until the time that the
      entry of their discovery tells from the start. */
  lemma WaitIsBounded(run: seq<Station>, evs: seq<Event>, d: nat, dest: Ip, i: nat, j: nat)
    requires Run(run, evs, d) && i <= j < |run| && NeverStrands(run, evs, d, j) && WaitsThrough(run, dest, i, j)
    ensures dest in run[i].disc.table && run[j].net.now <= GivesUpAt(run[i].disc.table[dest])
  {
    EndStays(run, evs, d, dest, i, j);
    RunInv(run, evs, d, j);
    assert Alarm(dest, run[j].disc.table[dest].timeout) in run[j].alarms;
    TimeoutBeforeEnd(run[j].disc.table[dest]);
  }

  /** A new discovery gives up after 8.48 seconds. */
  lemma NewDiscoveryEnds(t: SentTable, dest: Ip, now: real)
    requires dest !in t
    ensures GivesUpAt(Open(t, dest, now)[dest]) == now + 8480.0 * MILLISECOND
  {
    var e0 := Open(t, dest, now)[dest];
    assert e0 == Sent(dest, 2, 1, now + 320.0 * MILLISECOND);
    var e1 := Retried(e0);
    assert e1 == Sent(dest, 4, 1, now + 880.0 * MILLISECOND);
    var e2 := Retried(e1);
    assert e2 == Sent(dest, 6, 1, now + 1600.0 * MILLISECOND);
    var e3 := Retried(e2);
    assert e3 == Sent(dest, 7, 1, now + 2400.0 * MILLISECOND);
    var e4 := Retried(e3);
    assert e4 == Sent(dest, 35, 2, now + 5440.0 * MILLISECOND);
    var e5 := Retried(e4);
    assert e5 == Sent(dest, 35, 3, now + 8480.0 * MILLISECOND);
    assert GivesUpAt(e3) == GivesUpAt(e4) == GivesUpAt(e5) == e5.timeout;
    assert GivesUpAt(e0) == GivesUpAt(e1) == GivesUpAt(e2) == GivesUpAt(e3);
  }

  // ----- A packet is stranded --------------------------------------------------------------------

  lemma RunGrows(run: seq<Station>, evs: seq<Event>, d: nat, ev: Event)
    requires Run(run, evs, d) && Enabled(run[|evs|], d, ev)
    ensures Run(run + [Next(run[|evs|], d, ev)], evs + [ev], d)
  {
    var run', evs' := run + [Next(run[|evs|], d, ev)], evs + [ev];
    forall i | 0 <= i < |run'| ensures StateAt(run', evs', d, i) {
      if i < |run| {
        assert StateAt(run, evs, d, i);
      }
    }
  }

  /** A device that has heard of device 5 in a request, and whose packet for 5 waits with entry e. */
  ghost function Heard(now: real, timer: real, e: Sent): Station {
    var route := AodvRoutes.Entry(5, 1, true, AodvRoutes.Valid, 0, 7, 5600.0 * MILLISECOND);
    Station(AodvRoutes.Net(now, [AodvRoutes.Node([route], multiset{AodvRoutes.Timer(5, timer)})],
                           {AodvRoutes.MY_ROUTE_TIMEOUT}),
            State(map[5 := e], [Fifo(5, [Packet(0, 5)])]), multiset{Alarm(5, e.timeout)})
  }

  /** A reply is on its way and a packet for 5 waits. */
  lemma PacketWaits() returns (run: seq<Station>, evs: seq<Event>, e: Sent)
    ensures Run(run, evs, 0) && e == Sent(5, 2, 1, 320.0 * MILLISECOND)
    ensures run[|evs|] == Station(AodvRoutes.Net(0.0, [AodvRoutes.Node([], multiset{})], {AodvRoutes.MY_ROUTE_TIMEOUT}),
                                  State(map[5 := e], [Fifo(5, [Packet(0, 5)])]), multiset{Alarm(5, e.timeout)})
  {
    var s0, ev := Init(1), Routing(AodvRoutes.SendRrep, false);
    assert StateAt([s0], [], 0, 0);
    RunGrows([s0], [], 0, ev);
    var s1, p := Next(s0, 0, ev), Packet(0, 5);
    assert s1.net == AodvRoutes.Net(0.0, [AodvRoutes.Node([], multiset{})], {AodvRoutes.MY_ROUTE_TIMEOUT});
    run, evs := [s0] + [s1], [] + [ev];
    RunGrows(run, evs, 0, Submit(p));
    e := Sent(5, 2, 1, 320.0 * MILLISECOND);
    FirstSubmit(s1, p, e);
    run, evs := run + [Next(s1, 0, Submit(p))], evs + [Submit(p)];
  }

  lemma FirstSubmit(s: Station, p: Packet, e: Sent)
    requires s.disc == State(map[], []) && s.alarms == multiset{} && s.net.now == 0.0 && p.dest == 5
    requires Enabled(s, 0, Submit(p)) && e == Sent(5, 2, 1, 320.0 * MILLISECOND)
    ensures Next(s, 0, Submit(p)) == Station(s.net, State(map[5 := e], [Fifo(5, [p])]), multiset{Alarm(5, e.timeout)})
  {
    assert Open(map[], 5, 0.0) == map[5 := e];
    assert Add([], p) == [Fifo(5, [p])];
    assert multiset{} + multiset{Alarm(5, e.timeout)} == multiset{Alarm(5, e.timeout)};
  }

  /** Then a request of 5 arrives. */
  lemma HeardAtStart() returns (run: seq<Station>, evs: seq<Event>, e: Sent)
    ensures Run(run, evs, 0) && e == Sent(5, 2, 1, 320.0 * MILLISECOND)
    ensures run[|evs|] == Heard(0.0, 3000.0 * MILLISECOND, e)
  {
    run, evs, e := PacketWaits();
    var s, ev := run[|evs|], Routing(AodvRoutes.RecvRreq(0, 5, 1, 0, 7), false);
    HearRequest(s.net);
    RunGrows(run, evs, 0, ev);
    run, evs := run + [Next(s, 0, ev)], evs + [ev];
  }

  lemma HearRequest(net: AodvRoutes.Net)
    requires net == AodvRoutes.Net(0.0, [AodvRoutes.Node([], multiset{})], {AodvRoutes.MY_ROUTE_TIMEOUT})
    ensures AodvRoutes.Enabled(net, AodvRoutes.RecvRreq(0, 5, 1, 0, 7))
    ensures AodvRoutes.Next(net, AodvRoutes.RecvRreq(0, 5, 1, 0, 7))
            == Heard(0.0, 3000.0 * MILLISECOND, Sent(5, 0, 0, 0.0)).net
  {
    var ev, heard := AodvRoutes.RecvRreq(0, 5, 1, 0, 7), Heard(0.0, 3000.0 * MILLISECOND, Sent(5, 0, 0, 0.0)).net;
    var n := AodvRoutes.Handle(net.nodes[0], 0.0, ev);
    assert AodvRoutes.RequestLifetime(0.0, 0) == 5600.0 * MILLISECOND;
    assert n.table == heard.nodes[0].table;
    assert n.timers == multiset{} + multiset{AodvRoutes.Timer(5, 3000.0 * MILLISECOND)} == heard.nodes[0].timers;
    assert net.nodes[0 := n] == [n];
  }

  /** Time passes up to t. */
  lemma TickOn(run: seq<Station>, evs: seq<Event>, now: real, timer: real, e: Sent, t: real)
    returns (run': seq<Station>, evs': seq<Event>)
    requires Run(run, evs, 0) && run[|evs|] == Heard(now, timer, e) && now <= t <= timer && t <= e.timeout
    ensures Run(run', evs', 0) && run'[|evs'|] == Heard(t, timer, e)
  {
    var ev := Routing(AodvRoutes.Tick(t), false);
    RunGrows(run, evs, 0, ev);
    run', evs' := run + [Next(run[|evs|], 0, ev)], evs + [ev];
  }

  /** The discovery times out and sends its request again. */
  lemma RingOn(run: seq<Station>, evs: seq<Event>, now: real, timer: real, e: Sent)
    returns (run': seq<Station>, evs': seq<Event>)
    requires Run(run, evs, 0) && run[|evs|] == Heard(now, timer, e) && now <= e.timeout <= timer
    requires e.dest == 5 && e.times <= RREQ_RETRIES
    ensures Run(run', evs', 0) && run'[|evs'|] == Heard(e.timeout, timer, Retried(e))
  {
    run', evs' := TickOn(run, evs, now, timer, e, e.timeout);
    var s, ev := run'[|evs'|], Ring(Alarm(5, e.timeout));
    RunGrows(run', evs', 0, ev);
    assert Retry(s.disc.table, 5, e.timeout) == map[5 := Retried(e)];
    run', evs' := run' + [Next(s, 0, ev)], evs' + [ev];
  }

  /** The route timer fires and is set again for the end of the route's life. */
  lemma FireOn(run: seq<Station>, evs: seq<Event>, e: Sent)
    returns (run': seq<Station>, evs': seq<Event>)
    requires Run(run, evs, 0) && run[|evs|] == Heard(3000.0 * MILLISECOND, 3000.0 * MILLISECOND, e)
    ensures Run(run', evs', 0) && run'[|evs'|] == Heard(3000.0 * MILLISECOND, 5600.0 * MILLISECOND, e)
  {
    var s, t := run[|evs|], AodvRoutes.Timer(5, 3000.0 * MILLISECOND);
    var ev := Routing(AodvRoutes.Fire(0, t), false);
    RunGrows(run, evs, 0, ev);
    FireAgain(s.net, t);
    run', evs' := run + [Next(s, 0, ev)], evs + [ev];
  }

  lemma FireAgain(net: AodvRoutes.Net, t: AodvRoutes.Timer)
    requires net == Heard(3000.0 * MILLISECOND, 3000.0 * MILLISECOND, Sent(5, 0, 0, 0.0)).net
    requires t == AodvRoutes.Timer(5, 3000.0 * MILLISECOND)
    ensures AodvRoutes.Enabled(net, AodvRoutes.Fire(0, t))
    ensures AodvRoutes.Next(net, AodvRoutes.Fire(0, t))
            == Heard(3000.0 * MILLISECOND, 5600.0 * MILLISECOND, Sent(5, 0, 0, 0.0)).net
  {
    var n := AodvRoutes.Handle(net.nodes[0], net.now, AodvRoutes.Fire(0, t));
    assert AodvRoutes.Find(net.nodes[0].table, 5) == Some(0);
    assert n.timers == multiset{t} - multiset{t} + multiset{AodvRoutes.Timer(5, 5600.0 * MILLISECOND)};
    assert n.timers == multiset{AodvRoutes.Timer(5, 5600.0 * MILLISECOND)};
    assert net.nodes[0 := n] == [n];
  }

  /** Four rings later the route timer fires. */
  lemma RingsUntilFire() returns (run: seq<Station>, evs: seq<Event>, e: Sent)
    ensures Run(run, evs, 0) && e == Sent(5, 35, 2, 5440.0 * MILLISECOND)
    ensures run[|evs|] == Heard(3000.0 * MILLISECOND, 5600.0 * MILLISECOND, e)
  {
    var t := 3000.0 * MILLISECOND;
    run, evs, e := HeardAtStart();
    run, evs := RingOn(run, evs, 0.0, t, e);
    var e1 := Retried(e);
    assert e1 == Sent(5, 4, 1, 880.0 * MILLISECOND);
    run, evs := RingOn(run, evs, e.timeout, t, e1);
    var e2 := Retried(e1);
    assert e2 == Sent(5, 6, 1, 1600.0 * MILLISECOND);
    run, evs := RingOn(run, evs, e1.timeout, t, e2);
    var e3 := Retried(e2);
    assert e3 == Sent(5, 7, 1, 2400.0 * MILLISECOND);
    run, evs := RingOn(run, evs, e2.timeout, t, e3);
    e := Retried(e3);
    run, evs := TickOn(run, evs, e3.timeout, t, e, t);
    run, evs := FireOn(run, evs, e);
  }

  /** Stranding happens: a packet for 5 waits from the start; the route to 5 that a request brings is at
      the end of its life after 5.6 seconds; and at that time the reply, which says nothing newer, is
      refused and yet closes the discovery. */
  lemma StrandingReached() returns (run: seq<Station>, evs: seq<Event>, ev: Event)
    ensures Run(run, evs, 0) && Enabled(run[|evs|], 0, ev) && Strands(run[|evs|], 0, ev)
    ensures Attended(run[|evs|].disc) && !Attended(Next(run[|evs|], 0, ev).disc)
    ensures run[|evs|].net.now == 5600.0 * MILLISECOND
  {
    var t := 5600.0 * MILLISECOND;
    var e: Sent;
    run, evs, e := RingsUntilFire();
    run, evs := RingOn(run, evs, 3000.0 * MILLISECOND, t, e);
    var e5 := Retried(e);
    assert e5 == Sent(5, 35, 3, 8480.0 * MILLISECOND);
    run, evs := TickOn(run, evs, e.timeout, t, e5, t);
    ev := Routing(AodvRoutes.RecvRrep(0, 5, 1, 0, 7, AodvRoutes.MY_ROUTE_TIMEOUT), true);
    RunInv(run, evs, 0, |evs|);
    HeardStrands(run[|evs|], e5, ev);
    NextAttendsIff(run[|evs|], 0, ev);
  }

  lemma HeardStrands(s: Station, e: Sent, ev: Event)
    requires s == Heard(5600.0 * MILLISECOND, 5600.0 * MILLISECOND, e)
    requires ev == Routing(AodvRoutes.RecvRrep(0, 5, 1, 0, 7, AodvRoutes.MY_ROUTE_TIMEOUT), true)
    ensures Enabled(s, 0, ev) && Strands(s, 0, ev) && Attended(s.disc)
  {
    assert Routes(s, 0).table[0] in Routes(s, 0).table;
    forall dest ensures Waiting(s.disc.fs, dest) == if dest == 5 then [Packet(0, 5)] else [] {
      assert s.disc.fs == [Fifo(5, [Packet(0, 5)])] + [];
      WaitingCons(Fifo(5, [Packet(0, 5)]), [], dest);
    }
  }
}
