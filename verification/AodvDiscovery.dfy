/** Route discovery of one device: the sent table with its expanding ring (AODV/RREQ.c; section 6.4
    of RFC 3561) and the packets that wait for a route (AODV/FIFOBuffer.c). */
module AodvDiscovery {
  import opened Common
  import AodvRoutes

  const RREQ_RETRIES := 2
  const TIMEOUT_BUFFER := 2
  const TTL_START := 1
  const TTL_INCREMENT := 2
  const TTL_THRESHOLD := 7

  // ----- The sent table --------------------------------------------------------------------------

  datatype Sent = Sent(dest: Ip, ttl: nat, times: nat, timeout: real)

  /** At most one discovery per destination is open. */
  type SentTable = map<Ip, Sent>

  /** fnIncreaseTTL */
  function IncreaseTtl(t: SentTable, dest: Ip): nat {
    if dest !in t then TTL_START
    else if t[dest].ttl >= TTL_THRESHOLD then NET_DIAMETER
    else if t[dest].ttl + TTL_INCREMENT > TTL_THRESHOLD then TTL_THRESHOLD
    else t[dest].ttl + TTL_INCREMENT
  }

  /** fnGetTimeoutTime */
  function TimeoutTime(ttl: nat, count: nat): real {
    if ttl != NET_DIAMETER then 2.0 * NODE_TRAVERSAL_TIME * (ttl + TIMEOUT_BUFFER) as real
    else count as real * NET_TRAVERSAL_TIME
  }

  /** fn_NetSim_AODV_InterstInRREQSentTable */
  function Record(t: SentTable, dest: Ip, ttl: nat, timeout: real): SentTable {
    var times := if dest in t then t[dest].times else 1;
    t[dest := Sent(dest, ttl, if ttl == NET_DIAMETER then times + 1 else times, timeout)]
  }

  /** The part of fn_NetSim_AODV_GenerateRREQ that opens a discovery. */
  function Open(t: SentTable, dest: Ip, now: real): SentTable {
    var ttl := IncreaseTtl(t, dest) + 1;
    Record(t, dest, ttl, now + TimeoutTime(ttl, 1))
  }

  datatype Outcome = Stale | GaveUp | Resent(ttl: nat)

  /** What fn_NetSim_AODV_RetryRREQ decides when a timeout for dest fires. */
  function Decide(t: SentTable, dest: Ip, now: real): Outcome {
    if dest !in t || t[dest].timeout > now then Stale
    else if t[dest].times > RREQ_RETRIES then GaveUp
    else Resent(IncreaseTtl(t, dest))
  }

  function Retry(t: SentTable, dest: Ip, now: real): SentTable {
    match Decide(t, dest, now)
    case Stale => t
    case GaveUp => t - {dest}
    case Resent(ttl) => Record(t, dest, ttl, now + TimeoutTime(ttl + 1, t[dest].times))
  }

  /** How far the ring still has to grow, and how many full-network tries are left. */
  ghost function RingLeft(e: Sent): nat {
    if e.ttl >= TTL_THRESHOLD then 0 else TTL_THRESHOLD - e.ttl
  }

  ghost function TriesLeft(e: Sent): nat {
    if e.times > RREQ_RETRIES then 0 else RREQ_RETRIES + 1 - e.times
  }

  /** Every timeout that is not stale gives up or strictly lowers (ring left, tries left), however
      the entry came about. */
  lemma RetryProgress(t: SentTable, dest: Ip, now: real)
    requires Decide(t, dest, now) != Stale
    ensures var t' := Retry(t, dest, now);
            if Decide(t, dest, now) == GaveUp then dest !in t'
            else && dest in t'
                 && (|| RingLeft(t'[dest]) < RingLeft(t[dest])
                     || (RingLeft(t'[dest]) == RingLeft(t[dest]) && TriesLeft(t'[dest]) < TriesLeft(t[dest])))
    ensures forall x | x in t && x != dest :: x in Retry(t, dest, now) && Retry(t, dest, now)[x] == t[x]
  {
  }

  /** An upper bound on the number of timeouts a discovery can still live through. */
  ghost function Patience(e: Sent): nat {
    RingLeft(e) + TriesLeft(e)
  }

  /** A discovery that is retried at each of its timeouts. */
  ghost function AfterTimeouts(t: SentTable, dest: Ip, k: nat): SentTable {
    if k == 0 then t
    else
      var before := AfterTimeouts(t, dest, k - 1);
      if dest in before then Retry(before, dest, before[dest].timeout) else before
  }

  /** Driven only by timeouts, every discovery ends, within the patience of its entry. */
  lemma {:induction false} DiscoveryEnds(t: SentTable, dest: Ip, k: nat)
    ensures var e := AfterTimeouts(t, dest, k);
            dest in t && dest in e ==> Patience(e[dest]) + k <= Patience(t[dest])
    ensures dest in t && k > Patience(t[dest]) ==> dest !in AfterTimeouts(t, dest, k)
  {
    if k > 0 {
      DiscoveryEnds(t, dest, k - 1);
      var before := AfterTimeouts(t, dest, k - 1);
      if dest in before {
        RetryProgress(before, dest, before[dest].timeout);
      }
    }
  }

  /** A new discovery stores the rings 2, 4, 6, 7, 35, 35 and gives up at the next timeout. */
  lemma RingSequence(t: SentTable, dest: Ip, now: real)
    requires dest !in t
    ensures var t0 := Open(t, dest, now);
            && (forall k: nat | k < 6 :: dest in AfterTimeouts(t0, dest, k))
            && AfterTimeouts(t0, dest, 0)[dest].ttl == 2
            && AfterTimeouts(t0, dest, 1)[dest].ttl == 4
            && AfterTimeouts(t0, dest, 2)[dest].ttl == 6
            && AfterTimeouts(t0, dest, 3)[dest].ttl == 7
            && AfterTimeouts(t0, dest, 4)[dest].ttl == 35
            && AfterTimeouts(t0, dest, 5)[dest].ttl == 35
            && dest !in AfterTimeouts(t0, dest, 6)
  {
    var t0 := Open(t, dest, now);
    assert t0[dest].ttl == 2 && t0[dest].times == 1 && AfterTimeouts(t0, dest, 0) == t0;
    var t1 := Retry(t0, dest, t0[dest].timeout);
    assert t1[dest].ttl == 4 && t1[dest].times == 1 && AfterTimeouts(t0, dest, 1) == t1;
    var t2 := Retry(t1, dest, t1[dest].timeout);
    assert t2[dest].ttl == 6 && t2[dest].times == 1 && AfterTimeouts(t0, dest, 2) == t2;
    var t3 := Retry(t2, dest, t2[dest].timeout);
    assert t3[dest].ttl == 7 && t3[dest].times == 1 && AfterTimeouts(t0, dest, 3) == t3;
    var t4 := Retry(t3, dest, t3[dest].timeout);
    assert t4[dest].ttl == 35 && t4[dest].times == 2 && AfterTimeouts(t0, dest, 4) == t4;
    var t5 := Retry(t4, dest, t4[dest].timeout);
    assert t5[dest].ttl == 35 && t5[dest].times == 3 && AfterTimeouts(t0, dest, 5) == t5;
    assert AfterTimeouts(t0, dest, 6) == Retry(t5, dest, t5[dest].timeout);
    forall k: nat | k < 6 ensures dest in AfterTimeouts(t0, dest, k) {
      assert k == 0 || k == 1 || k == 2 || k == 3 || k == 4 || k == 5;
    }
  }

  // ----- Packets waiting for a route -------------------------------------------------------------

  datatype Packet = Packet(id: nat, dest: Ip)

  /** One destination's packets; the element stays in the list when its packets have left. */
  datatype Fifo = Fifo(dest: Ip, packets: seq<Packet>)

  function FindFrom(fs: seq<Fifo>, dest: Ip, i: nat): (r: Option<nat>)
    requires i <= |fs|
    ensures r.Some? ==> i <= r.value < |fs| && fs[r.value].dest == dest
    ensures r.None? ==> forall j | i <= j < |fs| :: fs[j].dest != dest
    decreases |fs| - i
  {
    if i == |fs| then None else if fs[i].dest == dest then Some(i) else FindFrom(fs, dest, i + 1)
  }

  /** fn_NetSim_AODV_AddToFIFOBuffer */
  function Add(fs: seq<Fifo>, p: Packet): seq<Fifo> {
    match FindFrom(fs, p.dest, 0)
    case None => fs + [Fifo(p.dest, [p])]
    case Some(i) => fs[i := Fifo(p.dest, fs[i].packets + [p])]
  }

  /** fnEmptyFIFOBuffer */
  function Drop(fs: seq<Fifo>, dest: Ip): seq<Fifo> {
    match FindFrom(fs, dest, 0)
    case None => fs
    case Some(i) => fs[..i] + fs[i + 1..]
  }

  function Dropped(fs: seq<Fifo>, dest: Ip): seq<Packet> {
    match FindFrom(fs, dest, 0)
    case None => []
    case Some(i) => fs[i].packets
  }

  /** fn_NetSim_AODV_TransmitFIFOBuffer: destinations in `found` have a route. */
  function Transmit(fs: seq<Fifo>, found: set<Ip>): seq<Fifo> {
    if fs == [] then []
    else [if fs[0].dest in found then fs[0].(packets := []) else fs[0]] + Transmit(fs[1..], found)
  }

  function Transmitted(fs: seq<Fifo>, found: set<Ip>): seq<Packet> {
    if fs == [] then []
    else (if fs[0].dest in found then fs[0].packets else []) + Transmitted(fs[1..], found)
  }

  ghost predicate FifoOk(fs: seq<Fifo>) {
    && (forall i, j | 0 <= i < j < |fs| :: fs[i].dest != fs[j].dest)
    && (forall i, p | 0 <= i < |fs| && p in fs[i].packets :: p.dest == fs[i].dest)
  }

  /** The packets among ps for one destination, in order. */
  ghost function For(ps: seq<Packet>, dest: Ip): seq<Packet> {
    if ps == [] then []
    else For(ps[..|ps| - 1], dest) + (if ps[|ps| - 1].dest == dest then [ps[|ps| - 1]] else [])
  }

  /** The packets that wait for dest. */
  ghost function Waiting(fs: seq<Fifo>, dest: Ip): seq<Packet> {
    if fs == [] then [] else (if fs[0].dest == dest then fs[0].packets else []) + Waiting(fs[1..], dest)
  }

  lemma ForAppend(ps: seq<Packet>, p: Packet, dest: Ip)
    ensures For(ps + [p], dest) == For(ps, dest) + (if p.dest == dest then [p] else [])
  {
    assert (ps + [p])[..|ps|] == ps;
  }

  lemma {:induction false} ForConcat(ps: seq<Packet>, qs: seq<Packet>, dest: Ip)
    ensures For(ps + qs, dest) == For(ps, dest) + For(qs, dest)
  {
    if qs == [] {
      assert ps + qs == ps;
    } else {
      var front, last := qs[..|qs| - 1], qs[|qs| - 1];
      assert ps + qs == (ps + front) + [last];
      ForAppend(ps + front, last, dest);
      ForConcat(ps, front, dest);
    }
  }

  lemma {:induction false} ForAll(ps: seq<Packet>, d: Ip, dest: Ip)
    requires forall p | p in ps :: p.dest == d
    ensures For(ps, dest) == if d == dest then ps else []
  {
    if ps != [] {
      ForAll(ps[..|ps| - 1], d, dest);
      assert ps[|ps| - 1] in ps;
      assert ps == ps[..|ps| - 1] + [ps[|ps| - 1]];
    }
  }

  lemma {:induction false} WaitingNone(fs: seq<Fifo>, dest: Ip)
    requires forall i | 0 <= i < |fs| :: fs[i].dest != dest
    ensures Waiting(fs, dest) == []
  {
    if fs != [] {
      WaitingNone(fs[1..], dest);
    }
  }

  lemma {:induction false} WaitingAt(fs: seq<Fifo>, i: nat)
    requires FifoOk(fs) && i < |fs|
    ensures Waiting(fs, fs[i].dest) == fs[i].packets
  {
    if i == 0 {
      WaitingNone(fs[1..], fs[0].dest);
    } else {
      WaitingAt(fs[1..], i - 1);
    }
  }

  /** Waiting is what the first element for dest holds. */
  lemma WaitingIs(fs: seq<Fifo>, dest: Ip)
    requires FifoOk(fs)
    ensures Waiting(fs, dest) == Dropped(fs, dest)
  {
    var r := FindFrom(fs, dest, 0);
    if r.Some? {
      WaitingAt(fs, r.value);
    } else {
      WaitingNone(fs, dest);
    }
  }

  lemma FoundAt(fs: seq<Fifo>, i: nat)
    requires FifoOk(fs) && i < |fs|
    ensures FindFrom(fs, fs[i].dest, 0) == Some(i)
  {
    assert FindFrom(fs, fs[i].dest, 0).Some?;
  }

  lemma AddOk(fs: seq<Fifo>, p: Packet)
    requires FifoOk(fs)
    ensures FifoOk(Add(fs, p))
  {
  }

  lemma AddWaiting(fs: seq<Fifo>, p: Packet, dest: Ip)
    requires FifoOk(fs)
    ensures Waiting(Add(fs, p), dest) == Waiting(fs, dest) + (if p.dest == dest then [p] else [])
  {
    var fs' := Add(fs, p);
    AddOk(fs, p);
    WaitingIs(fs, dest);
    WaitingIs(fs', dest);
    var r := FindFrom(fs, dest, 0);
    if r.Some? {
      FoundAt(fs', r.value);
    } else if p.dest == dest {
      FoundAt(fs', |fs|);
    }
  }

  lemma DropOk(fs: seq<Fifo>, dest: Ip)
    requires FifoOk(fs)
    ensures FifoOk(Drop(fs, dest))
  {
    var r := FindFrom(fs, dest, 0);
    if r.Some? {
      var fs' := Drop(fs, dest);
      forall j | 0 <= j < |fs'| ensures fs'[j] == fs[if j < r.value then j else j + 1] {
      }
    }
  }

  lemma WaitingCons(f: Fifo, rest: seq<Fifo>, dest: Ip)
    ensures Waiting([f] + rest, dest) == (if f.dest == dest then f.packets else []) + Waiting(rest, dest)
  {
    assert ([f] + rest)[1..] == rest;
  }

  lemma {:induction false} WaitingConcat(fs: seq<Fifo>, gs: seq<Fifo>, dest: Ip)
    ensures Waiting(fs + gs, dest) == Waiting(fs, dest) + Waiting(gs, dest)
  {
    if fs == [] {
      assert fs + gs == gs;
    } else {
      assert (fs + gs)[1..] == fs[1..] + gs;
      WaitingConcat(fs[1..], gs, dest);
    }
  }

  lemma DropWaiting(fs: seq<Fifo>, d: Ip, dest: Ip)
    requires FifoOk(fs)
    ensures Waiting(Drop(fs, d), dest) == if d == dest then [] else Waiting(fs, dest)
  {
    match FindFrom(fs, d, 0)
    case None =>
      WaitingNone(fs, d);
    case Some(i) =>
      var front, f, back := fs[..i], fs[i], fs[i + 1..];
      assert fs == front + ([f] + back);
      WaitingConcat(front, [f] + back, dest);
      WaitingCons(f, back, dest);
      WaitingConcat(front, back, dest);
      if d == dest {
        WaitingNone(front, d);
        WaitingNone(back, d);
      }
  }

  lemma {:induction false} TransmitShape(fs: seq<Fifo>, found: set<Ip>)
    ensures |Transmit(fs, found)| == |fs|
    ensures forall i | 0 <= i < |fs| ::
              Transmit(fs, found)[i] == if fs[i].dest in found then fs[i].(packets := []) else fs[i]
  {
    if fs != [] {
      TransmitShape(fs[1..], found);
    }
  }

  /** The elements up to i that have a route are empty. */
  ghost predicate Cleared(before: seq<Fifo>, after: seq<Fifo>, found: set<Ip>, i: nat) {
    && |after| == |before|
    && forall j | 0 <= j < |before| ::
         after[j] == if j < i && before[j].dest in found then before[j].(packets := []) else before[j]
  }

  /** The buffer and the packets handed back after i elements. */
  ghost predicate HalfWay(before: seq<Fifo>, after: seq<Fifo>, sent: seq<Packet>, found: set<Ip>, i: nat)
    requires i <= |before|
  {
    Cleared(before, after, found, i) && sent + Transmitted(before[i..], found) == Transmitted(before, found)
  }

  lemma HalfWayNext(before: seq<Fifo>, after: seq<Fifo>, sent: seq<Packet>, found: set<Ip>, i: nat)
    requires i < |before| && HalfWay(before, after, sent, found, i)
    ensures if after[i].dest in found
            then HalfWay(before, after[i := after[i].(packets := [])], sent + after[i].packets, found, i + 1)
            else HalfWay(before, after, sent, found, i + 1)
  {
    TransmittedFrom(before, found, i);
    assert after[i] == before[i];
  }

  lemma HalfWayEnd(before: seq<Fifo>, after: seq<Fifo>, sent: seq<Packet>, found: set<Ip>)
    requires HalfWay(before, after, sent, found, |before|)
    ensures after == Transmit(before, found) && sent == Transmitted(before, found)
  {
    TransmitShape(before, found);
  }

  lemma TransmittedFrom(fs: seq<Fifo>, found: set<Ip>, i: nat)
    requires i < |fs|
    ensures Transmitted(fs[i..], found)
            == (if fs[i].dest in found then fs[i].packets else []) + Transmitted(fs[i + 1..], found)
  {
    assert fs[i..][1..] == fs[i + 1..];
  }

  lemma Glue(a: seq<Packet>, r: seq<Packet>, b: seq<Packet>, w': seq<Packet>, x: seq<Packet>, w: seq<Packet>)
    requires r + w' == w && a + b == x && (r == [] || b == [])
    ensures (a + r) + (b + w') == x + w
  {
  }

  lemma FifoOkTail(fs: seq<Fifo>)
    requires FifoOk(fs) && fs != []
    ensures FifoOk(fs[1..])
  {
  }

  /** The packets of one element for dest: handed back, or still waiting. */
  lemma TransmitFirst(f: Fifo, sent: seq<Packet>, left: seq<Fifo>, rest: seq<Fifo>, found: set<Ip>, dest: Ip)
    requires For(sent, dest) + Waiting(left, dest) == Waiting(rest, dest)
    requires forall p | p in f.packets :: p.dest == f.dest
    requires f.dest == dest ==> Waiting(rest, dest) == []
    ensures var first := if f.dest in found then f.packets else [];
            var f' := if f.dest in found then f.(packets := []) else f;
            && For(first + sent, dest) == (if f.dest == dest then first else []) + For(sent, dest)
            && For(first + sent, dest) + Waiting([f'] + left, dest) == Waiting([f] + rest, dest)
  {
    var first := if f.dest in found then f.packets else [];
    var f' := if f.dest in found then f.(packets := []) else f;
    ForConcat(first, sent, dest);
    ForAll(first, f.dest, dest);
    WaitingCons(f, rest, dest);
    WaitingCons(f', left, dest);
    Glue(For(first, dest), For(sent, dest), if f.dest == dest then f'.packets else [], Waiting(left, dest),
         if f.dest == dest then f.packets else [], Waiting(rest, dest));
  }

  /** Packets for dest are handed back or stay, as a whole. */
  lemma {:induction false} TransmitWaiting(fs: seq<Fifo>, found: set<Ip>, dest: Ip)
    requires FifoOk(fs)
    ensures For(Transmitted(fs, found), dest) + Waiting(Transmit(fs, found), dest) == Waiting(fs, dest)
  {
    if fs != [] {
      var f, rest := fs[0], fs[1..];
      FifoOkTail(fs);
      TransmitWaiting(rest, found, dest);
      assert fs == [f] + rest;
      if f.dest == dest {
        FirstOnly(f, rest);
      }
      TransmitFirst(f, Transmitted(rest, found), Transmit(rest, found), rest, found, dest);
    }
  }

  lemma FirstOnly(f: Fifo, rest: seq<Fifo>)
    requires FifoOk([f] + rest)
    ensures Waiting(rest, f.dest) == []
  {
    assert ([f] + rest)[0] == f;
    forall i | 0 <= i < |rest| ensures rest[i].dest != f.dest {
      assert ([f] + rest)[i + 1] == rest[i];
    }
    WaitingNone(rest, f.dest);
  }

  /** A destination with a route keeps nothing, and one without keeps everything. */
  lemma {:induction false} TransmitExact(fs: seq<Fifo>, found: set<Ip>, dest: Ip)
    requires FifoOk(fs)
    ensures Waiting(Transmit(fs, found), dest) == if dest in found then [] else Waiting(fs, dest)
  {
    if fs != [] {
      var f, rest := fs[0], fs[1..];
      var f' := if f.dest in found then f.(packets := []) else f;
      FifoOkTail(fs);
      TransmitExact(rest, found, dest);
      assert fs == [f] + rest && Transmit(fs, found) == [f'] + Transmit(rest, found);
      WaitingCons(f, rest, dest);
      WaitingCons(f', Transmit(rest, found), dest);
    }
  }

  // ----- Conservation over runs ------------------------------------------------------------------

  /** The buffer, all packets added to it so far, and all packets that left it so far: handed back
      to be sent or dropped when a discovery gave up. */
  datatype Buffer = Buffer(fs: seq<Fifo>, added: seq<Packet>, left: seq<Packet>)

  datatype Event = AddPacket(p: Packet) | GiveUp(dest: Ip) | RoutesFound(found: set<Ip>)

  ghost function Apply(b: Buffer, ev: Event): Buffer {
    match ev
    case AddPacket(p) => Buffer(Add(b.fs, p), b.added + [p], b.left)
    case GiveUp(dest) => Buffer(Drop(b.fs, dest), b.added, b.left + Dropped(b.fs, dest))
    case RoutesFound(found) => Buffer(Transmit(b.fs, found), b.added, b.left + Transmitted(b.fs, found))
  }

  ghost function ApplyAll(b: Buffer, evs: seq<Event>): Buffer {
    if evs == [] then b else Apply(ApplyAll(b, evs[..|evs| - 1]), evs[|evs| - 1])
  }

  /** For every destination: what was added is what left, in the order of adding, followed by what
      still waits. */
  ghost predicate Conserved(b: Buffer, dest: Ip) {
    For(b.added, dest) == For(b.left, dest) + Waiting(b.fs, dest)
  }

  lemma AddConserves(b: Buffer, p: Packet, dest: Ip)
    requires FifoOk(b.fs) && Conserved(b, dest)
    ensures Conserved(Apply(b, AddPacket(p)), dest)
  {
    AddWaiting(b.fs, p, dest);
    ForAppend(b.added, p, dest);
  }

  lemma DropConserves(b: Buffer, d: Ip, dest: Ip)
    requires FifoOk(b.fs) && Conserved(b, dest)
    ensures Conserved(Apply(b, GiveUp(d)), dest)
  {
    DropWaiting(b.fs, d, dest);
    DroppedFor(b.fs, d, dest);
    ForConcat(b.left, Dropped(b.fs, d), dest);
  }

  lemma TransmitConserves(b: Buffer, found: set<Ip>, dest: Ip)
    requires FifoOk(b.fs) && Conserved(b, dest)
    ensures Conserved(Apply(b, RoutesFound(found)), dest)
  {
    TransmitWaiting(b.fs, found, dest);
    ForConcat(b.left, Transmitted(b.fs, found), dest);
  }

  lemma ApplyConserves(b: Buffer, ev: Event, dest: Ip)
    requires FifoOk(b.fs) && Conserved(b, dest)
    ensures FifoOk(Apply(b, ev).fs) && Conserved(Apply(b, ev), dest)
  {
    match ev
    case AddPacket(p) =>
      AddOk(b.fs, p);
      AddConserves(b, p, dest);
    case GiveUp(d) =>
      DropOk(b.fs, d);
      DropConserves(b, d, dest);
    case RoutesFound(found) =>
      TransmitShape(b.fs, found);
      TransmitConserves(b, found, dest);
  }

  /** Giving up on d drops exactly the packets that wait for d. */
  lemma DroppedFor(fs: seq<Fifo>, d: Ip, dest: Ip)
    requires FifoOk(fs)
    ensures For(Dropped(fs, d), dest) == if d == dest then Waiting(fs, d) else []
  {
    WaitingIs(fs, d);
    var r := FindFrom(fs, d, 0);
    if r.Some? {
      ForAll(fs[r.value].packets, d, dest);
    }
  }

  /** Over every run from the empty buffer no packet is lost, duplicated or overtaken. */
  lemma {:induction false} RunConserves(evs: seq<Event>, dest: Ip)
    ensures var b := ApplyAll(Buffer([], [], []), evs);
            FifoOk(b.fs) && Conserved(b, dest)
  {
    if evs != [] {
      RunConserves(evs[..|evs| - 1], dest);
      ApplyConserves(ApplyAll(Buffer([], [], []), evs[..|evs| - 1]), evs[|evs| - 1], dest);
    }
  }

  // ----- Discoveries and the packets that wait for them ------------------------------------------

  /** The open discoveries of a device and its buffer. */
  datatype State = State(table: SentTable, fs: seq<Fifo>)

  /** A packet without a route: it waits, and unless others wait already a request is generated. */
  function AfterSend(s: State, p: Packet, now: real): State {
    State(if Dropped(s.fs, p.dest) != [] then s.table else Open(s.table, p.dest, now), Add(s.fs, p))
  }

  function AfterTimeout(s: State, dest: Ip, now: real): State {
    State(Retry(s.table, dest, now), if Decide(s.table, dest, now) == GaveUp then Drop(s.fs, dest) else s.fs)
  }

  /** The reply to the device's own request for dest, when `found` are the destinations with a route. */
  function AfterReply(s: State, dest: Ip, found: set<Ip>): State {
    State(s.table - {dest}, Transmit(s.fs, found))
  }

  /** Every packet that waits has an open discovery. */
  ghost predicate Attended(s: State) {
    forall dest :: Waiting(s.fs, dest) != [] ==> dest in s.table
  }

  lemma SendAttends(s: State, p: Packet, now: real)
    requires FifoOk(s.fs) && Attended(s)
    ensures FifoOk(AfterSend(s, p, now).fs) && Attended(AfterSend(s, p, now))
  {
    AddOk(s.fs, p);
    WaitingIs(s.fs, p.dest);
    forall dest ensures Waiting(Add(s.fs, p), dest) != [] ==> dest in AfterSend(s, p, now).table {
      AddWaiting(s.fs, p, dest);
    }
  }

  lemma TimeoutAttends(s: State, d: Ip, now: real)
    requires FifoOk(s.fs) && Attended(s)
    ensures FifoOk(AfterTimeout(s, d, now).fs) && Attended(AfterTimeout(s, d, now))
  {
    if Decide(s.table, d, now) == GaveUp {
      DropOk(s.fs, d);
      forall dest ensures Waiting(Drop(s.fs, d), dest) != [] ==> dest in AfterTimeout(s, d, now).table {
        DropWaiting(s.fs, d, dest);
      }
    }
  }

  /** A reply leaves no packet without a discovery exactly if there is a route to its destination or
      nothing waits for it. */
  lemma ReplyAttendsIff(s: State, d: Ip, found: set<Ip>)
    requires FifoOk(s.fs) && Attended(s)
    ensures FifoOk(AfterReply(s, d, found).fs)
    ensures Attended(AfterReply(s, d, found)) <==> d in found || Waiting(s.fs, d) == []
  {
    TransmitShape(s.fs, found);
    TransmitExact(s.fs, found, d);
    forall dest | dest != d ensures Waiting(Transmit(s.fs, found), dest) != [] ==> dest in s.table {
      TransmitExact(s.fs, found, dest);
    }
  }

  /** The reply of fn_NetSim_AODV_ProcessRREP: the route is inserted before the buffer is looked at, so
      the packets stay attended unless an entry that refuses the reply is at the very end of its life. */
  lemma ReplyStrandsIff(s: State, n: AodvRoutes.Node, now: real, d: Ip, seqNo: nat, hops: nat, last: Ip)
    requires FifoOk(s.fs) && Attended(s) && AodvRoutes.NodeInv(n, now) && Waiting(s.fs, d) != []
    ensures var n' := AodvRoutes.Insert(n, now, d, seqNo, hops, last, now + AodvRoutes.ACTIVE_ROUTE_TIMEOUT);
            Attended(AfterReply(s, d, AodvRoutes.FoundRoutes(n'.table, now)))
            <==> !exists e :: e in n.table && e.dest == d && e.lifetime == now && !AodvRoutes.Accepts(e, seqNo, hops)
  {
    var n' := AodvRoutes.Insert(n, now, d, seqNo, hops, last, now + AodvRoutes.ACTIVE_ROUTE_TIMEOUT);
    AodvRoutes.InsertFinds(n, now, d, seqNo, hops, last);
    ReplyAttendsIff(s, d, AodvRoutes.FoundRoutes(n'.table, now));
  }

  /** A device whose discovery for dest is driven by its timeouts. */
  ghost function Undisturbed(s: State, dest: Ip, k: nat): State {
    if k == 0 then s
    else
      var before := Undisturbed(s, dest, k - 1);
      if dest in before.table then AfterTimeout(before, dest, before.table[dest].timeout) else before
  }

  /** The buffer stays as it is until the discovery gives up. */
  lemma {:induction false} UndisturbedIs(s: State, dest: Ip, k: nat)
    requires dest in s.table
    ensures Undisturbed(s, dest, k).table == AfterTimeouts(s.table, dest, k)
    ensures Undisturbed(s, dest, k).fs == if dest in AfterTimeouts(s.table, dest, k) then s.fs else Drop(s.fs, dest)
  {
    if k > 0 {
      UndisturbedIs(s, dest, k - 1);
    }
  }

  /** From the request to the drop: for six timeouts the rings grow and nothing is lost; then all that
      waits for dest is dropped, and nothing else. */
  lemma RingsThenDrop(t: SentTable, fs: seq<Fifo>, dest: Ip, now: real, k: nat, other: Ip)
    requires dest !in t && FifoOk(fs)
    ensures var s := State(Open(t, dest, now), fs);
            && (k < 6 ==> dest in Undisturbed(s, dest, k).table && Undisturbed(s, dest, k).fs == fs)
            && dest !in Undisturbed(s, dest, 6).table
            && Waiting(Undisturbed(s, dest, 6).fs, other) == (if other == dest then [] else Waiting(fs, other))
            && For(Dropped(fs, dest), other) == (if other == dest then Waiting(fs, dest) else [])
  {
    var s := State(Open(t, dest, now), fs);
    RingSequence(t, dest, now);
    UndisturbedIs(s, dest, k);
    UndisturbedIs(s, dest, 6);
    DropWaiting(fs, dest, other);
    DroppedFor(fs, dest, other);
  }

  // ----- The device as the code keeps it ---------------------------------------------------------

  class Discovery {
    var rreqSentTable: SentTable
    var fifo: seq<Fifo>

    constructor ()
      ensures rreqSentTable == map[] && fifo == []
    {
      rreqSentTable, fifo := map[], [];
    }

    method FindFifo(dest: Ip) returns (r: Option<nat>)
      ensures r == FindFrom(fifo, dest, 0)
    {
      var i := 0;
      while i < |fifo|
        invariant i <= |fifo| && FindFrom(fifo, dest, 0) == FindFrom(fifo, dest, i)
      {
        if fifo[i].dest == dest {
          return Some(i);
        }
        i := i + 1;
      }
      return None;
    }

    /** fn_NetSim_AODV_AddToFIFOBuffer; `pending` says that packets were waiting already, so that no
        request is generated. */
    method AddToFifo(p: Packet) returns (pending: bool)
      modifies this`fifo
      ensures fifo == Add(old(fifo), p)
      ensures pending <==> Dropped(old(fifo), p.dest) != []
    {
      var r := FindFifo(p.dest);
      if r.Some? {
        var f := fifo[r.value];
        fifo := fifo[r.value := f.(packets := f.packets + [p])];
        return f.packets != [];
      }
      fifo := fifo + [Fifo(p.dest, [p])];
      return false;
    }

    /** fnEmptyFIFOBuffer */
    method EmptyFifo(dest: Ip) returns (dropped: seq<Packet>)
      modifies this`fifo
      ensures fifo == Drop(old(fifo), dest) && dropped == Dropped(old(fifo), dest)
    {
      dropped := [];
      var r := FindFifo(dest);
      if r.Some? {
        var packets := fifo[r.value].packets;
        while packets != []
          invariant dropped + packets == fifo[r.value].packets
          decreases |packets|
        {
          dropped := dropped + [packets[0]];
          packets := packets[1..];
        }
        fifo := fifo[..r.value] + fifo[r.value + 1..];
      }
    }

    /** fn_NetSim_AODV_TransmitFIFOBuffer, which looks every destination up in the route table. */
    method TransmitFifo(device: AodvRoutes.Device, now: real) returns (sent: seq<Packet>)
      modifies this`fifo
      ensures var found := AodvRoutes.FoundRoutes(device.routeTable, now);
              fifo == Transmit(old(fifo), found) && sent == Transmitted(old(fifo), found)
    {
      ghost var found := AodvRoutes.FoundRoutes(device.routeTable, now);
      sent := [];
      assert fifo[0..] == fifo;
      for i := 0 to |fifo|
        invariant |fifo| == |old(fifo)| && HalfWay(old(fifo), fifo, sent, found, i)
      {
        HalfWayNext(old(fifo), fifo, sent, found, i);
        var f := fifo[i];
        var hasRoute := device.CheckRouteFound(f.dest, now);
        if hasRoute {
          sent := sent + f.packets;
          fifo := fifo[i := f.(packets := [])];
        }
      }
      HalfWayEnd(old(fifo), fifo, sent, found);
    }

    /** The part of fn_NetSim_AODV_GeneralPacketProcessing for a packet without a route: it waits, and
        a discovery is opened unless packets were waiting already. */
    method SendWithoutRoute(p: Packet, now: real)
      modifies this
      ensures State(rreqSentTable, fifo) == AfterSend(old(State(rreqSentTable, fifo)), p, now)
    {
      var pending := AddToFifo(p);
      if !pending {
        var ttl := IncreaseTtl(rreqSentTable, p.dest) + 1;
        rreqSentTable := Record(rreqSentTable, p.dest, ttl, now + TimeoutTime(ttl, 1));
      }
    }

    /** The part of fn_NetSim_AODV_ProcessRREP at the originator of a request for dest: what has a
        route is sent, and the discovery is closed. */
    method ReceiveReply(device: AodvRoutes.Device, dest: Ip, now: real) returns (sent: seq<Packet>)
      modifies this
      ensures var found := AodvRoutes.FoundRoutes(device.routeTable, now);
              && State(rreqSentTable, fifo) == AfterReply(old(State(rreqSentTable, fifo)), dest, found)
              && sent == Transmitted(old(fifo), found)
    {
      sent := TransmitFifo(device, now);
      rreqSentTable := rreqSentTable - {dest};
    }

    /** fn_NetSim_AODV_RetryRREQ */
    method RetryRreq(dest: Ip, now: real) returns (outcome: Outcome, dropped: seq<Packet>)
      modifies this
      ensures outcome == Decide(old(rreqSentTable), dest, now)
      ensures dropped == if outcome == GaveUp then Dropped(old(fifo), dest) else []
      ensures State(rreqSentTable, fifo) == AfterTimeout(old(State(rreqSentTable, fifo)), dest, now)
    {
      dropped := [];
      if dest !in rreqSentTable || rreqSentTable[dest].timeout > now {
        return Stale, [];
      }
      var e := rreqSentTable[dest];
      if e.times > RREQ_RETRIES {
        rreqSentTable := rreqSentTable - {dest};
        dropped := EmptyFifo(dest);
        return GaveUp, dropped;
      }
      var nTtl := IncreaseTtl(rreqSentTable, dest) + 1;
      var timeout := now + TimeoutTime(nTtl, e.times);
      rreqSentTable := Record(rreqSentTable, dest, nTtl - 1, timeout);
      return Resent(nTtl - 1), [];
    }
  }
}
