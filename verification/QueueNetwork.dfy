/** The per-link queues of FastEmulation/QUEUE.c and the threads that serve them.

    Every link has one FIFO queue and one thread. A captured packet is stamped with the
    virtual time at which the link will have sent it and appended; the thread takes the head
    in its hand, waits until the clock reaches the stamp, and then moves the packet to the
    next queue of its path or reinjects it. Each mutex-protected body is one step; steps of
    different threads interleave freely. */
module QueueNetwork {
  import opened Common

  /** A link: its rate in Mbps and its propagation delay in microseconds. */
  datatype Link = Link(rate: real, delay: nat)

  /** What is known of a packet when it is captured. */
  datatype Origin = Origin(id: nat, inst: nat, len: nat, time: nat)

  /** A packet on its way: the index of the current hop and the stamp of that hop. */
  datatype Packet = Packet(origin: Origin, hop: nat, reinject: nat)

  /** A queue and its thread: the time at which the last accepted packet will have been sent,
      the packets waiting, and the packet in the thread's hand. */
  datatype Queue = Queue(lastSent: nat, waiting: seq<Packet>, hand: Option<Packet>)

  /** Links, and for every application instance the queues its packets pass, in order. */
  datatype Config = Config(links: seq<Link>, paths: seq<seq<nat>>)

  /** The queues, the packets captured so far and the packets reinjected so far. */
  datatype Net = Net(queues: seq<Queue>, captured: seq<Origin>, out: seq<Packet>)

  ghost predicate ValidConfig(c: Config) {
    && (forall k | 0 <= k < |c.links| :: c.links[k].rate > 0.0)
    && (forall a | 0 <= a < |c.paths| :: |c.paths[a]| > 0)
    && (forall a, h | 0 <= a < |c.paths| && 0 <= h < |c.paths[a]| :: c.paths[a][h] < |c.links|)
  }

  /** The truncated transmission time of `len` bytes, in microseconds. */
  function Tx(len: nat, rate: real): (t: nat)
    requires rate > 0.0
  {
    var t := (len as real * 8.0 / rate).Floor;
    assert len as real * 8.0 / rate >= 0.0;
    t
  }

  /** The thread's hand followed by the waiting packets. */
  function Line(q: Queue): seq<Packet> {
    (if q.hand.Some? then [q.hand.value] else []) + q.waiting
  }

  // ----- Steps -----------------------------------------------------------------------------------

  /** add_packet_to_queue */
  function Enqueue(q: Queue, link: Link, p: Packet, time: nat): Queue
    requires link.rate > 0.0
  {
    var sent := Max(time, q.lastSent) + Tx(p.origin.len, link.rate);
    Queue(sent, q.waiting + [p.(reinject := sent + link.delay)], q.hand)
  }

  ghost predicate NetOk(c: Config, n: Net) {
    && |n.queues| == |c.links|
    && forall k | 0 <= k < |n.queues| :: LineOk(c, Line(n.queues[k]), k)
  }

  /** Every packet in queue k is at a hop that is queue k. */
  ghost predicate LineOk(c: Config, line: seq<Packet>, k: nat) {
    forall p | p in line :: AtQueue(c, p, k)
  }

  ghost predicate AtQueue(c: Config, p: Packet, k: nat) {
    && p.origin.inst < |c.paths|
    && p.hop < |c.paths[p.origin.inst]|
    && c.paths[p.origin.inst][p.hop] == k
  }

  /** dispatch_to_emulation for an interfering application: a new packet enters its path. */
  function Capture(c: Config, n: Net, inst: nat, len: nat, time: nat): Net
    requires ValidConfig(c) && |n.queues| == |c.links| && inst < |c.paths|
  {
    var o := Origin(|n.captured| + 1, inst, len, time);
    var k := c.paths[inst][0];
    n.(queues := n.queues[k := Enqueue(n.queues[k], c.links[k], Packet(o, 0, 0), time)],
       captured := n.captured + [o])
  }

  /** get_packet_from_queue by an idle thread. */
  function Fetch(n: Net, k: nat): Net
    requires k < |n.queues| && n.queues[k].hand.None? && n.queues[k].waiting != []
  {
    var q := n.queues[k];
    n.(queues := n.queues[k := q.(waiting := q.waiting[1..], hand := Some(q.waiting[0]))])
  }

  /** The body of run_queue once the clock has reached the stamp of the packet in hand. */
  function Serve(c: Config, n: Net, k: nat): Net
    requires ValidConfig(c) && |n.queues| == |c.links| && k < |n.queues| && n.queues[k].hand.Some?
    requires AtQueue(c, n.queues[k].hand.value, k)
  {
    var p := n.queues[k].hand.value;
    var path := c.paths[p.origin.inst];
    var freed := n.queues[k := n.queues[k].(hand := None)];
    if p.hop == |path| - 1 then
      n.(queues := freed, out := n.out + [p])
    else
      var k' := path[p.hop + 1];
      n.(queues := freed[k' := Enqueue(freed[k'], c.links[k'], p.(hop := p.hop + 1), p.reinject)])
  }

  datatype Action = DoCapture(inst: nat, len: nat, time: nat) | DoFetch(k: nat) | DoServe(k: nat, now: nat)

  ghost predicate Enabled(c: Config, n: Net, a: Action)
    requires ValidConfig(c) && NetOk(c, n)
  {
    match a
    case DoCapture(inst, len, time) => inst < |c.paths|
    case DoFetch(k) => k < |n.queues| && n.queues[k].hand.None? && n.queues[k].waiting != []
    case DoServe(k, now) => k < |n.queues| && n.queues[k].hand.Some? && n.queues[k].hand.value.reinject <= now
  }

  lemma HandOk(c: Config, n: Net, k: nat)
    requires NetOk(c, n) && k < |n.queues| && n.queues[k].hand.Some?
    ensures AtQueue(c, n.queues[k].hand.value, k)
  {
    assert Line(n.queues[k])[0] == n.queues[k].hand.value;
  }

  ghost function Act(c: Config, n: Net, a: Action): Net
    requires ValidConfig(c) && NetOk(c, n) && Enabled(c, n, a)
  {
    match a
    case DoCapture(inst, len, time) => Capture(c, n, inst, len, time)
    case DoFetch(k) => Fetch(n, k)
    case DoServe(k, now) => HandOk(c, n, k); Serve(c, n, k)
  }

  ghost predicate Step(c: Config, n: Net, n': Net)
    requires ValidConfig(c)
  {
    NetOk(c, n) && exists a | Enabled(c, n, a) :: n' == Act(c, n, a)
  }

  ghost function Init(c: Config): Net {
    Net(seq(|c.links|, _ => Queue(0, [], None)), [], [])
  }

  ghost predicate Run(c: Config, run: seq<Net>)
    requires ValidConfig(c)
  {
    && |run| > 0 && run[0] == Init(c)
    && forall i | 0 < i < |run| :: Step(c, run[i - 1], run[i])
  }

  // ----- What each step does to the lines --------------------------------------------------------

  lemma EnqueueLine(q: Queue, link: Link, p: Packet, time: nat)
    requires link.rate > 0.0
    ensures var q' := Enqueue(q, link, p, time);
            && Line(q') == Line(q) + [p.(reinject := q'.lastSent + link.delay)]
            && q'.lastSent == Max(time, q.lastSent) + Tx(p.origin.len, link.rate)
  {
  }

  lemma FetchLine(n: Net, k: nat)
    requires k < |n.queues| && n.queues[k].hand.None? && n.queues[k].waiting != []
    ensures var n' := Fetch(n, k);
            && |n'.queues| == |n.queues|
            && forall j | 0 <= j < |n.queues| :: Line(n'.queues[j]) == Line(n.queues[j])
                                                && n'.queues[j].lastSent == n.queues[j].lastSent
  {
    var q := n.queues[k];
    assert [q.waiting[0]] + q.waiting[1..] == q.waiting;
    assert Line(Fetch(n, k).queues[k]) == Line(q);
  }

  lemma ServeLine(q: Queue)
    requires q.hand.Some?
    ensures Line(q) == [q.hand.value] + Line(q.(hand := None))
  {
  }

  lemma ActNetOk(c: Config, n: Net, a: Action)
    requires ValidConfig(c) && NetOk(c, n) && Enabled(c, n, a)
    ensures NetOk(c, Act(c, n, a))
  {
    match a
    case DoCapture(inst, len, time) =>
      var k := c.paths[inst][0];
      var p := Packet(Origin(|n.captured| + 1, inst, len, time), 0, 0);
      EnqueueLine(n.queues[k], c.links[k], p, time);
    case DoFetch(k) =>
      FetchLine(n, k);
    case DoServe(k, now) =>
      HandOk(c, n, k);
  }

  // ----- Stamps never go backwards along a queue -------------------------------------------------

  ghost predicate StampsOk(link: Link, q: Queue) {
    && (forall i, j | 0 <= i <= j < |Line(q)| :: Line(q)[i].reinject <= Line(q)[j].reinject)
    && (forall i | 0 <= i < |Line(q)| :: Line(q)[i].reinject <= q.lastSent + link.delay)
  }

  lemma EnqueueStamps(link: Link, q: Queue, p: Packet, time: nat)
    requires link.rate > 0.0 && StampsOk(link, q)
    ensures StampsOk(link, Enqueue(q, link, p, time))
  {
    EnqueueLine(q, link, p, time);
  }

  lemma FreeStamps(link: Link, q: Queue)
    requires StampsOk(link, q) && q.hand.Some?
    ensures StampsOk(link, q.(hand := None))
  {
    ServeLine(q);
    var rest := Line(q.(hand := None));
    assert forall i | 0 <= i < |rest| :: rest[i] == Line(q)[i + 1];
  }

  ghost predicate QueuesStampsOk(links: seq<Link>, queues: seq<Queue>) {
    && |queues| == |links|
    && forall k | 0 <= k < |queues| :: StampsOk(links[k], queues[k])
  }

  ghost predicate AllStampsOk(c: Config, n: Net) {
    QueuesStampsOk(c.links, n.queues)
  }

  lemma ActStamps(c: Config, n: Net, a: Action)
    requires ValidConfig(c) && NetOk(c, n) && Enabled(c, n, a) && AllStampsOk(c, n)
    ensures AllStampsOk(c, Act(c, n, a))
  {
    match a
    case DoCapture(inst, len, time) =>
      var k := c.paths[inst][0];
      var p := Packet(Origin(|n.captured| + 1, inst, len, time), 0, 0);
      EnqueueStamps(c.links[k], n.queues[k], p, time);
    case DoFetch(k) =>
      FetchLine(n, k);
    case DoServe(k, now) =>
      HandOk(c, n, k);
      ServeStamps(c, n, k);
  }

  lemma ServeStamps(c: Config, n: Net, k: nat)
    requires ValidConfig(c) && NetOk(c, n) && k < |n.queues| && n.queues[k].hand.Some?
    requires AtQueue(c, n.queues[k].hand.value, k) && AllStampsOk(c, n)
    ensures AllStampsOk(c, Serve(c, n, k))
  {
    var p := n.queues[k].hand.value;
    var freed := n.queues[k := n.queues[k].(hand := None)];
    var path := c.paths[p.origin.inst];
    FreeStamps(c.links[k], n.queues[k]);
    if p.hop < |path| - 1 {
      var k' := path[p.hop + 1];
      EnqueueStamps(c.links[k'], freed[k'], p.(hop := p.hop + 1), p.reinject);
    }
  }

  // ----- Each packet is in exactly one place -----------------------------------------------------

  ghost function Origins(ps: seq<Packet>): (os: seq<Origin>)
    ensures |os| == |ps| && forall i | 0 <= i < |ps| :: os[i] == ps[i].origin
  {
    seq(|ps|, i requires 0 <= i < |ps| => ps[i].origin)
  }

  /** How often packet o occurs in ps. */
  ghost function Copies(ps: seq<Packet>, o: Origin): nat {
    if ps == [] then 0
    else Copies(ps[..|ps| - 1], o) + (if ps[|ps| - 1].origin == o then 1 else 0)
  }

  /** How often packet o occurs in the first k queues and the hands of their threads. */
  ghost function InQueues(queues: seq<Queue>, k: nat, o: Origin): nat
    requires k <= |queues|
  {
    if k == 0 then 0 else InQueues(queues, k - 1, o) + Copies(Line(queues[k - 1]), o)
  }

  ghost function Places(n: Net, o: Origin): nat {
    InQueues(n.queues, |n.queues|, o) + Copies(n.out, o)
  }

  lemma CopiesAppend(ps: seq<Packet>, p: Packet, o: Origin)
    ensures Copies(ps + [p], o) == Copies(ps, o) + (if p.origin == o then 1 else 0)
  {
    assert (ps + [p])[..|ps|] == ps;
  }

  lemma {:induction false} CopiesHead(p: Packet, ps: seq<Packet>, o: Origin)
    ensures Copies([p] + ps, o) == Copies(ps, o) + (if p.origin == o then 1 else 0)
  {
    if ps == [] {
      assert [p] + ps == [] + [p];
      CopiesAppend([], p, o);
    } else {
      var front := ps[..|ps| - 1];
      assert [p] + ps == ([p] + front) + [ps[|ps| - 1]];
      CopiesAppend([p] + front, ps[|ps| - 1], o);
      CopiesHead(p, front, o);
    }
  }

  lemma {:induction false} InQueuesSame(qs: seq<Queue>, qs': seq<Queue>, k: nat, o: Origin)
    requires k <= |qs| && |qs| == |qs'|
    requires forall j | 0 <= j < k :: Line(qs[j]) == Line(qs'[j])
    ensures InQueues(qs, k, o) == InQueues(qs', k, o)
  {
    if k > 0 {
      InQueuesSame(qs, qs', k - 1, o);
    }
  }

  /** Replacing one queue replaces its share. */
  lemma {:induction false} InQueuesUpdate(qs: seq<Queue>, j: nat, q: Queue, k: nat, o: Origin)
    requires j < k <= |qs|
    ensures InQueues(qs[j := q], k, o) == InQueues(qs, k, o) - Copies(Line(qs[j]), o) + Copies(Line(q), o)
  {
    if j < k - 1 {
      InQueuesUpdate(qs, j, q, k - 1, o);
    } else {
      InQueuesSame(qs, qs[j := q], k - 1, o);
    }
  }

  /** Appending a packet to queue j adds one copy of it. */
  lemma EnqueuePlaces(link: Link, qs: seq<Queue>, j: nat, p: Packet, time: nat, o: Origin)
    requires link.rate > 0.0 && j < |qs|
    ensures InQueues(qs[j := Enqueue(qs[j], link, p, time)], |qs|, o)
            == InQueues(qs, |qs|, o) + (if p.origin == o then 1 else 0)
  {
    var q := Enqueue(qs[j], link, p, time);
    EnqueueLine(qs[j], link, p, time);
    CopiesAppend(Line(qs[j]), p.(reinject := q.lastSent + link.delay), o);
    InQueuesUpdate(qs, j, q, |qs|, o);
  }

  /** Emptying a hand takes one copy away. */
  lemma FreePlaces(qs: seq<Queue>, k: nat, o: Origin)
    requires k < |qs| && qs[k].hand.Some?
    ensures InQueues(qs, |qs|, o) == InQueues(qs[k := qs[k].(hand := None)], |qs|, o)
                                     + (if qs[k].hand.value.origin == o then 1 else 0)
  {
    ServeLine(qs[k]);
    CopiesHead(qs[k].hand.value, Line(qs[k].(hand := None)), o);
    InQueuesUpdate(qs, k, qs[k].(hand := None), |qs|, o);
  }

  lemma ServePlaces(c: Config, n: Net, k: nat, o: Origin)
    requires ValidConfig(c) && |n.queues| == |c.links| && k < |n.queues| && n.queues[k].hand.Some?
    requires AtQueue(c, n.queues[k].hand.value, k)
    ensures Places(Serve(c, n, k), o) == Places(n, o)
  {
    var p := n.queues[k].hand.value;
    FreePlaces(n.queues, k, o);
    var freed := n.queues[k := n.queues[k].(hand := None)];
    var path := c.paths[p.origin.inst];
    if p.hop == |path| - 1 {
      CopiesAppend(n.out, p, o);
    } else {
      var k' := path[p.hop + 1];
      EnqueuePlaces(c.links[k'], freed, k', p.(hop := p.hop + 1), p.reinject, o);
    }
  }

  /** A step adds the copy of a packet it captures and otherwise moves packets around. */
  lemma ActPlaces(c: Config, n: Net, a: Action, o: Origin)
    requires ValidConfig(c) && NetOk(c, n) && Enabled(c, n, a)
    ensures var n' := Act(c, n, a);
            Places(n', o) == Places(n, o)
                             + (if a.DoCapture? && o == Origin(|n.captured| + 1, a.inst, a.len, a.time) then 1 else 0)
  {
    match a
    case DoCapture(inst, len, time) =>
      var k := c.paths[inst][0];
      var p := Packet(Origin(|n.captured| + 1, inst, len, time), 0, 0);
      EnqueuePlaces(c.links[k], n.queues, k, p, time, o);
    case DoFetch(k) =>
      FetchLine(n, k);
      InQueuesSame(n.queues, Fetch(n, k).queues, |n.queues|, o);
    case DoServe(k, now) =>
      HandOk(c, n, k);
      ServePlaces(c, n, k, o);
  }

  lemma {:induction false} InitPlaces(c: Config, k: nat, o: Origin)
    requires k <= |c.links|
    ensures InQueues(Init(c).queues, k, o) == 0
  {
    if k > 0 {
      InitPlaces(c, k - 1, o);
    }
  }

  /** Captured packets carry the numbers 1, 2, 3, ... */
  ghost predicate Numbered(n: Net) {
    forall i | 0 <= i < |n.captured| :: n.captured[i].id == i + 1
  }

  // ----- Order -----------------------------------------------------------------------------------

  /** One instance's packets: those at each hop of its path, in line, and those reinjected. */
  datatype View = View(segs: seq<seq<Packet>>, out: seq<Packet>)

  /** The packets that have reached hop h, furthest first: those reinjected, then those at the last
      hop, and so on back to those at hop h. */
  ghost function Reached(v: View, h: nat): seq<Origin>
    requires h <= |v.segs|
    decreases |v.segs| - h
  {
    if h == |v.segs| then Origins(v.out) else Reached(v, h + 1) + Origins(v.segs[h])
  }

  /** A packet enters at hop 0. */
  ghost function Enter(v: View, p: Packet): View
    requires |v.segs| > 0
  {
    v.(segs := v.segs[0 := v.segs[0] + [p]])
  }

  /** The first packet at hop h goes on, to the end of the next hop or out, as p'. */
  ghost function Advance(v: View, h: nat, p': Packet): View
    requires h < |v.segs| && v.segs[h] != []
  {
    var left := v.segs[h := v.segs[h][1..]];
    if h + 1 < |v.segs| then View(left[h + 1 := left[h + 1] + [p']], v.out) else View(left, v.out + [p'])
  }

  lemma OriginsAppend(ps: seq<Packet>, p: Packet)
    ensures Origins(ps + [p]) == Origins(ps) + [p.origin]
  {
  }

  /** What is reached from hop h on depends on the segments from hop h on. */
  lemma {:induction false} ReachedSame(v: View, v': View, top: nat, h: nat)
    requires |v.segs| == |v'.segs| && h <= top <= |v.segs| && Reached(v, top) == Reached(v', top)
    requires forall i | h <= i < top :: v.segs[i] == v'.segs[i]
    ensures Reached(v, h) == Reached(v', h)
    decreases top - h
  {
    if h < top {
      ReachedSame(v, v', top, h + 1);
    }
  }

  lemma ReachedEnter(v: View, p: Packet)
    requires |v.segs| > 0
    ensures Reached(Enter(v, p), 0) == Reached(v, 0) + [p.origin]
    ensures forall h | 1 <= h <= |v.segs| :: Reached(Enter(v, p), h) == Reached(v, h)
  {
    forall h | 1 <= h <= |v.segs| ensures Reached(Enter(v, p), h) == Reached(v, h) {
      ReachedSame(v, Enter(v, p), |v.segs|, h);
    }
    OriginsAppend(v.segs[0], p);
  }

  /** The packet that goes on is the next one to reach hop h + 1. */
  lemma ReachedAdvanceAt(v: View, h: nat, p': Packet)
    requires h < |v.segs| && v.segs[h] != [] && p'.origin == v.segs[h][0].origin
    ensures Reached(Advance(v, h, p'), h + 1) == Reached(v, h + 1) + [p'.origin]
  {
    var v' := Advance(v, h, p');
    if h + 1 == |v.segs| {
      OriginsAppend(v.out, p');
    } else {
      ReachedSame(v, v', |v.segs|, h + 2);
      OriginsAppend(v.segs[h + 1], p');
    }
  }

  lemma ReachedAdvanceHere(v: View, h: nat, p': Packet)
    requires h < |v.segs| && v.segs[h] != [] && p'.origin == v.segs[h][0].origin
    ensures Reached(Advance(v, h, p'), h) == Reached(v, h)
  {
    ReachedAdvanceAt(v, h, p');
    assert Advance(v, h, p').segs[h] == v.segs[h][1..];
  }

  /** Everywhere but at hop h + 1 the order stays. */
  lemma ReachedAdvance(v: View, h: nat, p': Packet, i: nat)
    requires h < |v.segs| && v.segs[h] != [] && p'.origin == v.segs[h][0].origin
    requires i <= |v.segs| && i != h + 1
    ensures Reached(Advance(v, h, p'), i) == Reached(v, i)
  {
    if i > h {
      ReachedSame(v, Advance(v, h, p'), |v.segs|, i);
    } else {
      ReachedAdvanceHere(v, h, p');
      ReachedSame(v, Advance(v, h, p'), h, i);
    }
  }

  lemma {:induction false} ReachedPrefix(v: View, h: nat, i: nat)
    requires i <= h <= |v.segs|
    ensures Reached(v, h) <= Reached(v, i)
    decreases h - i
  {
    if i < h {
      ReachedPrefix(v, h, i + 1);
    }
  }

  // ----- The view of an instance in a network ----------------------------------------------------

  /** The packets of instance a at hop h in a line, in order. */
  ghost function Of(line: seq<Packet>, a: nat, h: nat): seq<Packet> {
    if line == [] then []
    else
      var p := line[|line| - 1];
      Of(line[..|line| - 1], a, h) + (if p.origin.inst == a && p.hop == h then [p] else [])
  }

  ghost function OutOf(ps: seq<Packet>, a: nat): seq<Packet> {
    if ps == [] then []
    else
      var p := ps[|ps| - 1];
      OutOf(ps[..|ps| - 1], a) + (if p.origin.inst == a then [p] else [])
  }

  /** The packets of instance a captured, in order. */
  ghost function CapturedBy(os: seq<Origin>, a: nat): seq<Origin> {
    if os == [] then []
    else
      var o := os[|os| - 1];
      CapturedBy(os[..|os| - 1], a) + (if o.inst == a then [o] else [])
  }

  /** Instance a's packets at queue k as hop h. */
  ghost function Seg(queues: seq<Queue>, k: nat, a: nat, h: nat): seq<Packet> {
    if k < |queues| then Of(Line(queues[k]), a, h) else []
  }

  ghost function Segs(path: seq<nat>, queues: seq<Queue>, a: nat): (segs: seq<seq<Packet>>)
    ensures |segs| == |path| && forall h | 0 <= h < |path| :: segs[h] == Seg(queues, path[h], a, h)
  {
    seq(|path|, h requires 0 <= h < |path| => Seg(queues, path[h], a, h))
  }

  ghost function ViewOf(c: Config, n: Net, a: nat): View
    requires a < |c.paths|
  {
    View(Segs(c.paths[a], n.queues, a), OutOf(n.out, a))
  }

  /** Read from the reinjected ones back to the entry, instance a's packets are exactly those
      captured, in capture order. */
  ghost predicate InOrder(c: Config, n: Net, a: nat)
    requires a < |c.paths|
  {
    Reached(ViewOf(c, n, a), 0) == CapturedBy(n.captured, a)
  }

  lemma {:induction false} OfHead(p: Packet, line: seq<Packet>, a: nat, h: nat)
    ensures Of([p] + line, a, h) == (if p.origin.inst == a && p.hop == h then [p] else []) + Of(line, a, h)
  {
    if line == [] {
      assert [p] + line == [] + [p];
    } else {
      var last := line[|line| - 1];
      var front := line[..|line| - 1];
      assert [p] + line == ([p] + front) + [last];
      OfHead(p, front, a, h);
    }
  }

  lemma OutOfAppend(ps: seq<Packet>, p: Packet, a: nat)
    ensures OutOf(ps + [p], a) == OutOf(ps, a) + (if p.origin.inst == a then [p] else [])
  {
    assert (ps + [p])[..|ps|] == ps;
  }

  lemma CapturedByAppend(os: seq<Origin>, o: Origin, a: nat)
    ensures CapturedBy(os + [o], a) == CapturedBy(os, a) + (if o.inst == a then [o] else [])
  {
    assert (os + [o])[..|os|] == os;
  }

  /** A packet appended to queue j shows in its own instance at its own hop only. */
  lemma AppendSeg(queues: seq<Queue>, j: nat, q: Queue, p: Packet, k: nat, a: nat, h: nat)
    requires j < |queues| && Line(q) == Line(queues[j]) + [p]
    requires p.origin.inst == a && p.hop == h ==> k == j
    ensures Seg(queues[j := q], k, a, h)
            == if p.origin.inst == a && p.hop == h then Seg(queues, k, a, h) + [p] else Seg(queues, k, a, h)
  {
  }

  /** A hand emptied shows in the instance and hop of its packet only. */
  lemma FreeSeg(queues: seq<Queue>, j: nat, k: nat, a: nat, h: nat)
    requires j < |queues| && queues[j].hand.Some?
    requires var p := queues[j].hand.value; p.origin.inst == a && p.hop == h ==> k == j
    ensures var p, freed := queues[j].hand.value, queues[j := queues[j].(hand := None)];
            Seg(queues, k, a, h)
            == if p.origin.inst == a && p.hop == h then [p] + Seg(freed, k, a, h) else Seg(freed, k, a, h)
  {
    if k == j {
      ServeLine(queues[j]);
      OfHead(queues[j].hand.value, Line(queues[j].(hand := None)), a, h);
    }
  }

  /** The segments of instance a after queue j becomes q, with packet p appended. */
  lemma AppendSegs(path: seq<nat>, queues: seq<Queue>, j: nat, q: Queue, p: Packet, a: nat)
    requires j < |queues| && Line(q) == Line(queues[j]) + [p]
    requires p.origin.inst == a ==> p.hop < |path| && path[p.hop] == j
    ensures var segs := Segs(path, queues, a);
            Segs(path, queues[j := q], a)
            == if p.origin.inst == a then segs[p.hop := segs[p.hop] + [p]] else segs
  {
    forall h | 0 <= h < |path|
      ensures Seg(queues[j := q], path[h], a, h)
              == if p.origin.inst == a && p.hop == h
                 then Seg(queues, path[h], a, h) + [p] else Seg(queues, path[h], a, h)
    {
      AppendSeg(queues, j, q, p, path[h], a, h);
    }
  }

  /** The segments of instance a after the hand of queue j is emptied. */
  lemma FreeSegs(path: seq<nat>, queues: seq<Queue>, j: nat, a: nat)
    requires j < |queues| && queues[j].hand.Some?
    requires var p := queues[j].hand.value; p.origin.inst == a ==> p.hop < |path| && path[p.hop] == j
    ensures var p, segs := queues[j].hand.value, Segs(path, queues, a);
            var freed := Segs(path, queues[j := queues[j].(hand := None)], a);
            if p.origin.inst == a
            then segs[p.hop] != [] && segs[p.hop][0] == p && freed == segs[p.hop := segs[p.hop][1..]]
            else freed == segs
  {
    var p, freed := queues[j].hand.value, queues[j := queues[j].(hand := None)];
    forall h | 0 <= h < |path|
      ensures Seg(queues, path[h], a, h)
              == if p.origin.inst == a && p.hop == h then [p] + Seg(freed, path[h], a, h) else Seg(freed, path[h], a, h)
    {
      FreeSeg(queues, j, path[h], a, h);
    }
  }

  // ----- Steps seen by an instance ---------------------------------------------------------------

  lemma FetchView(c: Config, n: Net, k: nat, a: nat)
    requires k < |n.queues| && n.queues[k].hand.None? && n.queues[k].waiting != [] && a < |c.paths|
    ensures ViewOf(c, Fetch(n, k), a) == ViewOf(c, n, a)
  {
    FetchLine(n, k);
    var path, qs := c.paths[a], Fetch(n, k).queues;
    assert forall h | 0 <= h < |path| :: Seg(qs, path[h], a, h) == Seg(n.queues, path[h], a, h);
  }

  ghost function CapturedPacket(c: Config, n: Net, inst: nat, len: nat, time: nat): Packet
    requires ValidConfig(c) && |n.queues| == |c.links| && inst < |c.paths|
  {
    var k := c.paths[inst][0];
    Packet(Origin(|n.captured| + 1, inst, len, time), 0,
           Max(time, n.queues[k].lastSent) + Tx(len, c.links[k].rate) + c.links[k].delay)
  }

  lemma CaptureView(c: Config, n: Net, inst: nat, len: nat, time: nat, a: nat)
    requires ValidConfig(c) && |n.queues| == |c.links| && inst < |c.paths| && a < |c.paths|
    ensures ViewOf(c, Capture(c, n, inst, len, time), a)
            == if inst == a then Enter(ViewOf(c, n, a), CapturedPacket(c, n, inst, len, time)) else ViewOf(c, n, a)
  {
    var k := c.paths[inst][0];
    var p := Packet(Origin(|n.captured| + 1, inst, len, time), 0, 0);
    EnqueueLine(n.queues[k], c.links[k], p, time);
    AppendSegs(c.paths[a], n.queues, k, Enqueue(n.queues[k], c.links[k], p, time),
               CapturedPacket(c, n, inst, len, time), a);
  }

  lemma ServeLastView(c: Config, n: Net, k: nat)
    requires ValidConfig(c) && |n.queues| == |c.links| && k < |n.queues| && n.queues[k].hand.Some?
    requires AtQueue(c, n.queues[k].hand.value, k)
    requires var p := n.queues[k].hand.value; p.hop == |c.paths[p.origin.inst]| - 1
    ensures var p := n.queues[k].hand.value;
            var v := ViewOf(c, n, p.origin.inst);
            && v.segs[p.hop] != [] && v.segs[p.hop][0] == p
            && ViewOf(c, Serve(c, n, k), p.origin.inst) == Advance(v, p.hop, p)
  {
    var p := n.queues[k].hand.value;
    FreeSegs(c.paths[p.origin.inst], n.queues, k, p.origin.inst);
    OutOfAppend(n.out, p, p.origin.inst);
  }

  /** The hand of queue j is emptied, and queue j' becomes q with the packet appended as p', for the
      next hop of path. */
  lemma MoveSegs(path: seq<nat>, queues: seq<Queue>, j: nat, j': nat, q: Queue, p: Packet, p': Packet)
    requires j < |queues| && j' < |queues| && queues[j].hand == Some(p)
    requires p.hop + 1 < |path| && path[p.hop] == j && path[p.hop + 1] == j'
    requires p'.origin == p.origin && p'.hop == p.hop + 1
    requires Line(q) == Line(queues[j := queues[j].(hand := None)][j']) + [p']
    ensures var segs := Segs(path, queues, p.origin.inst);
            && segs[p.hop] != [] && segs[p.hop][0] == p
            && var left := segs[p.hop := segs[p.hop][1..]];
            && Segs(path, queues[j := queues[j].(hand := None)][j' := q], p.origin.inst)
               == left[p.hop + 1 := left[p.hop + 1] + [p']]
  {
    FreeSegs(path, queues, j, p.origin.inst);
    AppendSegs(path, queues[j := queues[j].(hand := None)], j', q, p', p.origin.inst);
  }

  lemma ServeOnIs(c: Config, n: Net, k: nat, p: Packet, k': nat)
    requires ValidConfig(c) && |n.queues| == |c.links| && k < |n.queues| && n.queues[k].hand == Some(p)
    requires AtQueue(c, p, k) && p.hop < |c.paths[p.origin.inst]| - 1 && k' == c.paths[p.origin.inst][p.hop + 1]
    ensures var freed := n.queues[k := n.queues[k].(hand := None)];
            && Serve(c, n, k).queues == freed[k' := Enqueue(freed[k'], c.links[k'], p.(hop := p.hop + 1), p.reinject)]
            && Serve(c, n, k).out == n.out
  {
  }

  /** A packet in hand with a next hop, served: its instance sees it move on with the stamp of that hop. */
  lemma ServeOnView(c: Config, n: Net, k: nat, p: Packet, a: nat, k': nat, sent: nat)
    requires ValidConfig(c) && |n.queues| == |c.links| && k < |n.queues| && n.queues[k].hand == Some(p)
    requires AtQueue(c, p, k) && a == p.origin.inst && p.hop < |c.paths[a]| - 1 && k' == c.paths[a][p.hop + 1]
    requires sent == Max(p.reinject, n.queues[k'].lastSent) + Tx(p.origin.len, c.links[k'].rate)
    ensures var v := ViewOf(c, n, a);
            && v.segs[p.hop] != [] && v.segs[p.hop][0] == p
            && ViewOf(c, Serve(c, n, k), a) == Advance(v, p.hop, Packet(p.origin, p.hop + 1, sent + c.links[k'].delay))
  {
    var freed := n.queues[k := n.queues[k].(hand := None)];
    var p1 := p.(hop := p.hop + 1);
    ServeOnIs(c, n, k, p, k');
    EnqueueLine(freed[k'], c.links[k'], p1, p.reinject);
    MoveSegs(c.paths[a], n.queues, k, k', Enqueue(freed[k'], c.links[k'], p1, p.reinject), p,
             Packet(p.origin, p.hop + 1, sent + c.links[k'].delay));
  }

  /** What queue j passes on to queue j' does not show in another instance. */
  lemma OtherSegs(link: Link, path: seq<nat>, queues: seq<Queue>, j: nat, j': nat, p: Packet, a: nat)
    requires link.rate > 0.0 && j < |queues| && j' < |queues| && queues[j].hand == Some(p) && p.origin.inst != a
    ensures var freed := queues[j := queues[j].(hand := None)];
            && Segs(path, freed, a) == Segs(path, queues, a)
            && Segs(path, freed[j' := Enqueue(freed[j'], link, p.(hop := p.hop + 1), p.reinject)], a)
               == Segs(path, queues, a)
  {
    var freed, p1 := queues[j := queues[j].(hand := None)], p.(hop := p.hop + 1);
    var q := Enqueue(freed[j'], link, p1, p.reinject);
    FreeSegs(path, queues, j, a);
    EnqueueLine(freed[j'], link, p1, p.reinject);
    AppendSegs(path, freed, j', q, p1.(reinject := q.lastSent + link.delay), a);
  }

  lemma ServeOtherView(c: Config, n: Net, k: nat, a: nat)
    requires ValidConfig(c) && |n.queues| == |c.links| && k < |n.queues| && n.queues[k].hand.Some?
    requires AtQueue(c, n.queues[k].hand.value, k) && a < |c.paths| && n.queues[k].hand.value.origin.inst != a
    ensures ViewOf(c, Serve(c, n, k), a) == ViewOf(c, n, a)
  {
    var p := n.queues[k].hand.value;
    var path := c.paths[p.origin.inst];
    if p.hop < |path| - 1 {
      ServeOnIs(c, n, k, p, path[p.hop + 1]);
      OtherSegs(c.links[path[p.hop + 1]], c.paths[a], n.queues, k, path[p.hop + 1], p, a);
    } else {
      FreeSegs(c.paths[a], n.queues, k, a);
      OutOfAppend(n.out, p, a);
    }
  }

  lemma CaptureInOrder(c: Config, n: Net, inst: nat, len: nat, time: nat, a: nat)
    requires ValidConfig(c) && |n.queues| == |c.links| && inst < |c.paths| && a < |c.paths| && InOrder(c, n, a)
    ensures InOrder(c, Capture(c, n, inst, len, time), a)
  {
    CaptureView(c, n, inst, len, time, a);
    CapturedByAppend(n.captured, Origin(|n.captured| + 1, inst, len, time), a);
    if inst == a {
      ReachedEnter(ViewOf(c, n, a), CapturedPacket(c, n, inst, len, time));
    }
  }

  lemma ServeInOrder(c: Config, n: Net, k: nat, a: nat)
    requires ValidConfig(c) && |n.queues| == |c.links| && k < |n.queues| && n.queues[k].hand.Some?
    requires AtQueue(c, n.queues[k].hand.value, k) && a < |c.paths| && InOrder(c, n, a)
    ensures InOrder(c, Serve(c, n, k), a)
  {
    var p := n.queues[k].hand.value;
    if p.origin.inst != a {
      ServeOtherView(c, n, k, a);
    } else if p.hop == |c.paths[a]| - 1 {
      ServeLastView(c, n, k);
      ReachedAdvance(ViewOf(c, n, a), p.hop, p, 0);
    } else {
      ServeOnInOrder(c, n, k, p, a);
    }
  }

  lemma ServeOnInOrder(c: Config, n: Net, k: nat, p: Packet, a: nat)
    requires ValidConfig(c) && |n.queues| == |c.links| && k < |n.queues| && n.queues[k].hand == Some(p)
    requires AtQueue(c, p, k) && a == p.origin.inst && p.hop < |c.paths[a]| - 1 && InOrder(c, n, a)
    ensures InOrder(c, Serve(c, n, k), a)
  {
    var k' := c.paths[a][p.hop + 1];
    var sent := Max(p.reinject, n.queues[k'].lastSent) + Tx(p.origin.len, c.links[k'].rate);
    ServeOnView(c, n, k, p, a, k', sent);
    ReachedAdvance(ViewOf(c, n, a), p.hop, Packet(p.origin, p.hop + 1, sent + c.links[k'].delay), 0);
  }

  lemma ActInOrder(c: Config, n: Net, act: Action, a: nat)
    requires ValidConfig(c) && NetOk(c, n) && Enabled(c, n, act) && a < |c.paths| && InOrder(c, n, a)
    ensures InOrder(c, Act(c, n, act), a)
  {
    match act
    case DoCapture(inst, len, time) => CaptureInOrder(c, n, inst, len, time, a);
    case DoFetch(k) => FetchView(c, n, k, a);
    case DoServe(k, now) =>
      HandOk(c, n, k);
      ServeInOrder(c, n, k, a);
  }

  lemma {:induction false} EmptyReached(v: View, h: nat)
    requires h <= |v.segs| && v.out == [] && forall i | 0 <= i < |v.segs| :: v.segs[i] == []
    ensures Reached(v, h) == []
    decreases |v.segs| - h
  {
    if h < |v.segs| {
      EmptyReached(v, h + 1);
    }
  }

  lemma InitView(c: Config, a: nat)
    requires a < |c.paths|
    ensures var v := ViewOf(c, Init(c), a); v.out == [] && forall h | 0 <= h < |v.segs| :: v.segs[h] == []
  {
  }

  // ----- The queues as the code keeps them -------------------------------------------------------

  /** All queues and threads, updated in place. */
  class Emulation {
    const c: Config
    var queues: seq<Queue>
    var captured: seq<Origin>
    var out: seq<Packet>

    ghost predicate Valid()
      reads this
    {
      ValidConfig(c) && NetOk(c, State())
    }

    ghost function State(): Net
      reads this
    {
      Net(queues, captured, out)
    }

    constructor (c: Config)
      requires ValidConfig(c)
      ensures this.c == c && State() == Init(c) && Valid()
    {
      this.c := c;
      queues := seq(|c.links|, _ => Queue(0, [], None));
      captured, out := [], [];
    }

    /** add_packet_to_queue */
    method AddPacketToQueue(p: Packet, time: nat)
      requires ValidConfig(c) && |queues| == |c.links|
      requires p.origin.inst < |c.paths| && p.hop < |c.paths[p.origin.inst]|
      modifies this`queues
      ensures var k := c.paths[p.origin.inst][p.hop];
              queues == old(queues)[k := Enqueue(old(queues)[k], c.links[k], p, time)]
    {
      var k := c.paths[p.origin.inst][p.hop];
      var q, link := queues[k], c.links[k];
      var sent := Max(time, q.lastSent);
      sent := sent + Tx(p.origin.len, link.rate);
      queues := queues[k := q.(lastSent := sent, waiting := q.waiting + [p.(reinject := sent + link.delay)])];
    }

    /** dispatch_to_emulation for an interfering application. */
    method Dispatch(inst: nat, len: nat, time: nat)
      requires Valid() && inst < |c.paths|
      modifies this
      ensures State() == Capture(c, old(State()), inst, len, time) && Valid()
    {
      ActNetOk(c, State(), DoCapture(inst, len, time));
      var o := Origin(|captured| + 1, inst, len, time);
      captured := captured + [o];
      AddPacketToQueue(Packet(o, 0, 0), time);
    }

    /** get_packet_from_queue by the thread of queue k; an empty queue gives it nothing. */
    method GetPacket(k: nat)
      requires Valid() && k < |queues| && queues[k].hand.None?
      modifies this`queues
      ensures Valid()
      ensures var n := old(State()); State() == if n.queues[k].waiting == [] then n else Fetch(n, k)
    {
      if queues[k].waiting != [] {
        ActNetOk(c, State(), DoFetch(k));
        var q := queues[k];
        queues := queues[k := q.(waiting := q.waiting[1..], hand := Some(q.waiting[0]))];
      }
    }

    /** The rest of a turn of run_queue: the packet in hand waits or moves on. */
    method ServeHand(k: nat, now: nat)
      requires Valid() && k < |queues| && queues[k].hand.Some?
      modifies this
      ensures Valid()
      ensures var n := old(State());
              State() == if n.queues[k].hand.value.reinject <= now then Act(c, n, DoServe(k, now)) else n
    {
      var p := queues[k].hand.value;
      if p.reinject <= now {
        ActNetOk(c, State(), DoServe(k, now));
        HandOk(c, State(), k);
        queues := queues[k := queues[k].(hand := None)];
        if p.hop == |c.paths[p.origin.inst]| - 1 {
          out := out + [p];
        } else {
          AddPacketToQueue(p.(hop := p.hop + 1), p.reinject);
        }
      }
    }
  }
}
