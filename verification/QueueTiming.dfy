/** When packets leave the queue network: for an application instance that shares no queue,
    the stamps are a function of its captures alone, whatever the threads' interleaving. */
module QueueTiming {
  import opened Common
  import opened QueueNetwork
  import opened QueueSafety

  /** Instance a shares no queue with another instance and passes each of its queues once. */
  ghost predicate Exclusive(c: Config, a: nat)
    requires a < |c.paths|
  {
    && (forall b, i, h | 0 <= b < |c.paths| && b != a && 0 <= i < |c.paths[b]| && 0 <= h < |c.paths[a]| ::
          c.paths[b][i] != c.paths[a][h])
    && (forall i, h | 0 <= i < h < |c.paths[a]| :: c.paths[a][i] != c.paths[a][h])
  }

  ghost predicate ValidLinks(ls: seq<Link>) {
    forall h | 0 <= h < |ls| :: ls[h].rate > 0.0
  }

  /** The links that instance a's packets pass. */
  ghost function LinksOf(c: Config, a: nat): (ls: seq<Link>)
    requires ValidConfig(c) && a < |c.paths|
    ensures |ls| == |c.paths[a]| && ValidLinks(ls)
    ensures forall h | 0 <= h < |ls| :: ls[h] == c.links[c.paths[a][h]]
  {
    seq(|c.paths[a]|, h requires 0 <= h < |c.paths[a]| => c.links[c.paths[a][h]])
  }

  /** The time at which link h has sent the i-th packet, hop by hop: a packet is sent after its
      arrival and after the packet before it. */
  ghost function Sent(os: seq<Origin>, ls: seq<Link>, i: nat, h: nat): nat
    requires ValidLinks(ls) && i < |os| && h < |ls|
    decreases i + h
  {
    var arrival := if h == 0 then os[i].time else Sent(os, ls, i, h - 1) + ls[h - 1].delay;
    var free := if i == 0 then 0 else Sent(os, ls, i - 1, h);
    Max(arrival, free) + Tx(os[i].len, ls[h].rate)
  }

  /** The stamp of the i-th packet at hop h. */
  ghost function Stamp(os: seq<Origin>, ls: seq<Link>, i: nat, h: nat): nat
    requires ValidLinks(ls) && i < |os| && h < |ls|
  {
    Sent(os, ls, i, h) + ls[h].delay
  }

  /** Later captures do not matter. */
  lemma {:induction false} SentLocal(os: seq<Origin>, o: Origin, ls: seq<Link>, i: nat, h: nat)
    requires ValidLinks(ls) && i < |os| && h < |ls|
    ensures Sent(os + [o], ls, i, h) == Sent(os, ls, i, h)
    decreases i + h
  {
    if h > 0 {
      SentLocal(os, o, ls, i, h - 1);
    }
    if i > 0 {
      SentLocal(os, o, ls, i - 1, h);
    }
  }

  /** Packets base, base + 1, ... of instance a carry the stamps of hop h. */
  ghost predicate Stamped(os: seq<Origin>, ls: seq<Link>, ps: seq<Packet>, base: nat, h: nat)
    requires ValidLinks(ls) && h < |ls|
  {
    && base + |ps| <= |os|
    && forall i | 0 <= i < |ps| :: ps[i].reinject == Stamp(os, ls, base + i, h)
  }

  /** Link h has accepted the first k packets. */
  ghost predicate Accepted(os: seq<Origin>, ls: seq<Link>, lastSent: nat, k: nat, h: nat)
    requires ValidLinks(ls) && h < |ls|
  {
    && k <= |os|
    && lastSent == if k == 0 then 0 else Sent(os, ls, k - 1, h)
  }

  /** Hop h of an instance is on time: its link has accepted the packets that have reached it, and
      those that are still there carry their stamps. */
  ghost predicate HopOnTime(os: seq<Origin>, ls: seq<Link>, v: View, sents: seq<nat>, h: nat)
    requires ValidLinks(ls) && |v.segs| == |sents| == |ls| && h < |ls|
  {
    && Accepted(os, ls, sents[h], |Reached(v, h)|, h)
    && Stamped(os, ls, v.segs[h], |Reached(v, h + 1)|, h)
  }

  ghost predicate OnTime(os: seq<Origin>, ls: seq<Link>, v: View, sents: seq<nat>)
    requires ValidLinks(ls)
  {
    && |v.segs| == |sents| == |ls| > 0
    && (forall h | 0 <= h < |ls| :: HopOnTime(os, ls, v, sents, h))
    && Stamped(os, ls, v.out, 0, |ls| - 1)
  }

  lemma StampedGrows(os: seq<Origin>, o: Origin, ls: seq<Link>, ps: seq<Packet>, base: nat, h: nat)
    requires ValidLinks(ls) && h < |ls| && Stamped(os, ls, ps, base, h)
    ensures Stamped(os + [o], ls, ps, base, h)
  {
    forall i | 0 <= i < |ps| ensures ps[i].reinject == Stamp(os + [o], ls, base + i, h) {
      SentLocal(os, o, ls, base + i, h);
    }
  }

  lemma AcceptedGrows(os: seq<Origin>, o: Origin, ls: seq<Link>, lastSent: nat, k: nat, h: nat)
    requires ValidLinks(ls) && h < |ls| && Accepted(os, ls, lastSent, k, h)
    ensures Accepted(os + [o], ls, lastSent, k, h)
  {
    if k > 0 {
      SentLocal(os, o, ls, k - 1, h);
    }
  }

  /** Link h accepts packet k, which arrives at `time`. */
  lemma AcceptNext(os: seq<Origin>, ls: seq<Link>, lastSent: nat, k: nat, h: nat, time: nat)
    requires ValidLinks(ls) && h < |ls| && k < |os| && Accepted(os, ls, lastSent, k, h)
    requires time == if h == 0 then os[k].time else Stamp(os, ls, k, h - 1)
    ensures Sent(os, ls, k, h) == Max(time, lastSent) + Tx(os[k].len, ls[h].rate)
  {
  }

  lemma StampedAppend(os: seq<Origin>, ls: seq<Link>, ps: seq<Packet>, p: Packet, base: nat, h: nat)
    requires ValidLinks(ls) && h < |ls| && Stamped(os, ls, ps, base, h)
    requires base + |ps| < |os| && p.reinject == Stamp(os, ls, base + |ps|, h)
    ensures Stamped(os, ls, ps + [p], base, h)
  {
  }

  lemma StampedTail(os: seq<Origin>, ls: seq<Link>, ps: seq<Packet>, base: nat, h: nat)
    requires ValidLinks(ls) && h < |ls| && Stamped(os, ls, ps, base, h) && ps != []
    ensures Stamped(os, ls, ps[1..], base + 1, h)
    ensures base < |os| && ps[0].reinject == Stamp(os, ls, base, h)
  {
    forall i | 0 <= i < |ps[1..]| ensures ps[1..][i].reinject == Stamp(os, ls, base + 1 + i, h) {
      assert ps[1..][i] == ps[i + 1];
    }
  }

  // ----- A packet enters -------------------------------------------------------------------------

  /** The entry link accepts packet o. */
  lemma EntryAccepts(os: seq<Origin>, o: Origin, ls: seq<Link>, lastSent: nat, sent: nat)
    requires ValidLinks(ls) && |ls| > 0 && Accepted(os, ls, lastSent, |os|, 0)
    requires sent == Max(o.time, lastSent) + Tx(o.len, ls[0].rate)
    ensures Accepted(os + [o], ls, sent, |os| + 1, 0) && Sent(os + [o], ls, |os|, 0) == sent
  {
    AcceptedGrows(os, o, ls, lastSent, |os|, 0);
    AcceptNext(os + [o], ls, lastSent, |os|, 0, o.time);
  }

  lemma EntryStamped(os: seq<Origin>, o: Origin, ls: seq<Link>, seg: seq<Packet>, base: nat, p: Packet)
    requires ValidLinks(ls) && |ls| > 0 && Stamped(os, ls, seg, base, 0) && base + |seg| == |os|
    requires p.reinject == Stamp(os + [o], ls, |os|, 0)
    ensures Stamped(os + [o], ls, seg + [p], base, 0)
  {
    StampedGrows(os, o, ls, seg, base, 0);
    StampedAppend(os + [o], ls, seg, p, base, 0);
  }

  lemma ReachedLength(v: View, h: nat)
    requires h < |v.segs|
    ensures |Reached(v, h)| == |Reached(v, h + 1)| + |v.segs[h]|
  {
  }

  /** The entry hop, after packet o was captured and appended as p. */
  lemma EntryOnTime(os: seq<Origin>, o: Origin, ls: seq<Link>, v: View, sents: seq<nat>, p: Packet, sent: nat)
    requires ValidLinks(ls) && |v.segs| == |sents| == |ls| > 0 && HopOnTime(os, ls, v, sents, 0) && Reached(v, 0) == os
    requires sent == Max(o.time, sents[0]) + Tx(o.len, ls[0].rate) && p == Packet(o, 0, sent + ls[0].delay)
    ensures HopOnTime(os + [o], ls, Enter(v, p), sents[0 := sent], 0)
  {
    ReachedEnter(v, p);
    ReachedLength(v, 0);
    EntryAccepts(os, o, ls, sents[0], sent);
    EntryStamped(os, o, ls, v.segs[0], |Reached(v, 1)|, p);
  }

  /** The hops behind the entry do not change. */
  lemma BehindOnTime(os: seq<Origin>, o: Origin, ls: seq<Link>, v: View, sents: seq<nat>, p: Packet, sent: nat, h: nat)
    requires ValidLinks(ls) && |v.segs| == |sents| == |ls| && 1 <= h < |ls| && HopOnTime(os, ls, v, sents, h)
    ensures HopOnTime(os + [o], ls, Enter(v, p), sents[0 := sent], h)
  {
    ReachedEnter(v, p);
    AcceptedGrows(os, o, ls, sents[h], |Reached(v, h)|, h);
    StampedGrows(os, o, ls, v.segs[h], |Reached(v, h + 1)|, h);
  }

  lemma EnterOnTime(os: seq<Origin>, o: Origin, ls: seq<Link>, v: View, sents: seq<nat>, p: Packet, sent: nat)
    requires ValidLinks(ls) && OnTime(os, ls, v, sents) && Reached(v, 0) == os
    requires sent == Max(o.time, sents[0]) + Tx(o.len, ls[0].rate) && p == Packet(o, 0, sent + ls[0].delay)
    ensures OnTime(os + [o], ls, Enter(v, p), sents[0 := sent])
  {
    var v', sents' := Enter(v, p), sents[0 := sent];
    forall h | 0 <= h < |ls| ensures HopOnTime(os + [o], ls, v', sents', h) {
      assert HopOnTime(os, ls, v, sents, h);
      if h == 0 {
        EntryOnTime(os, o, ls, v, sents, p, sent);
      } else {
        BehindOnTime(os, o, ls, v, sents, p, sent, h);
      }
    }
    StampedGrows(os, o, ls, v.out, 0, |ls| - 1);
  }

  // ----- A packet goes on ------------------------------------------------------------------------

  /** The first packet at hop h is the next one to reach the next hop. */
  lemma NextPacket(os: seq<Origin>, ls: seq<Link>, v: View, sents: seq<nat>, h: nat)
    requires ValidLinks(ls) && |v.segs| == |sents| == |ls| && h < |ls| && HopOnTime(os, ls, v, sents, h)
    requires Reached(v, 0) == os && v.segs[h] != []
    ensures var k, p := |Reached(v, h + 1)|, v.segs[h][0];
            k < |os| && os[k] == p.origin && p.reinject == Stamp(os, ls, k, h)
  {
    ReachedPrefix(v, h, 0);
    StampedTail(os, ls, v.segs[h], |Reached(v, h + 1)|, h);
  }

  /** The hop that the packet leaves. */
  lemma LeftOnTime(os: seq<Origin>, ls: seq<Link>, v: View, sents: seq<nat>, sents': seq<nat>, h: nat, p': Packet)
    requires ValidLinks(ls) && |v.segs| == |sents| == |sents'| == |ls| && h < |ls| && HopOnTime(os, ls, v, sents, h)
    requires v.segs[h] != [] && p'.origin == v.segs[h][0].origin && sents'[h] == sents[h]
    ensures HopOnTime(os, ls, Advance(v, h, p'), sents', h)
  {
    ReachedAdvanceAt(v, h, p');
    ReachedAdvanceHere(v, h, p');
    StampedTail(os, ls, v.segs[h], |Reached(v, h + 1)|, h);
  }

  /** The hop that the packet enters, as packet k to reach it. */
  lemma JoinedOnTime(os: seq<Origin>, ls: seq<Link>, v: View, sents: seq<nat>, h: nat, p': Packet, k: nat)
    requires ValidLinks(ls) && |v.segs| == |sents| == |ls| && h + 1 < |ls| && v.segs[h] != []
    requires HopOnTime(os, ls, v, sents, h + 1) && p'.origin == v.segs[h][0].origin
    requires k < |os| && |Reached(v, h + 1)| == k && p'.reinject == Stamp(os, ls, k, h + 1)
    ensures HopOnTime(os, ls, Advance(v, h, p'), sents[h + 1 := p'.reinject - ls[h + 1].delay], h + 1)
  {
    ReachedAdvanceAt(v, h, p');
    ReachedAdvance(v, h, p', h + 2);
    StampedAppend(os, ls, v.segs[h + 1], p', |Reached(v, h + 2)|, h + 1);
  }

  /** The stamp that it gets there. */
  lemma JoinStamp(os: seq<Origin>, ls: seq<Link>, v: View, sents: seq<nat>, h: nat)
    requires ValidLinks(ls) && OnTime(os, ls, v, sents) && Reached(v, 0) == os && h + 1 < |ls| && v.segs[h] != []
    ensures var k, p := |Reached(v, h + 1)|, v.segs[h][0];
            && k < |os|
            && Stamp(os, ls, k, h + 1)
               == Max(p.reinject, sents[h + 1]) + Tx(p.origin.len, ls[h + 1].rate) + ls[h + 1].delay
  {
    assert HopOnTime(os, ls, v, sents, h) && HopOnTime(os, ls, v, sents, h + 1);
    NextPacket(os, ls, v, sents, h);
    AcceptNext(os, ls, sents[h + 1], |Reached(v, h + 1)|, h + 1, v.segs[h][0].reinject);
  }

  lemma OtherOnTime(os: seq<Origin>, ls: seq<Link>, v: View, sents: seq<nat>, sents': seq<nat>, h: nat, p': Packet,
                    i: nat)
    requires ValidLinks(ls) && |v.segs| == |sents| == |sents'| == |ls| && h < |ls| && i < |ls| && i != h && i != h + 1
    requires v.segs[h] != [] && p'.origin == v.segs[h][0].origin
    requires HopOnTime(os, ls, v, sents, i) && sents'[i] == sents[i]
    ensures HopOnTime(os, ls, Advance(v, h, p'), sents', i)
  {
    ReachedAdvance(v, h, p', i);
    ReachedAdvance(v, h, p', i + 1);
  }

  lemma OutOnTime(os: seq<Origin>, ls: seq<Link>, v: View, sents: seq<nat>)
    requires ValidLinks(ls) && OnTime(os, ls, v, sents) && Reached(v, 0) == os && v.segs[|ls| - 1] != []
    ensures Stamped(os, ls, v.out + [v.segs[|ls| - 1][0]], 0, |ls| - 1)
  {
    assert HopOnTime(os, ls, v, sents, |ls| - 1);
    NextPacket(os, ls, v, sents, |ls| - 1);
    StampedAppend(os, ls, v.out, v.segs[|ls| - 1][0], 0, |ls| - 1);
  }

  lemma AdvanceOutOnTime(os: seq<Origin>, ls: seq<Link>, v: View, sents: seq<nat>)
    requires ValidLinks(ls) && OnTime(os, ls, v, sents) && Reached(v, 0) == os && v.segs[|ls| - 1] != []
    ensures OnTime(os, ls, Advance(v, |ls| - 1, v.segs[|ls| - 1][0]), sents)
  {
    var h := |ls| - 1;
    var p := v.segs[h][0];
    OutOnTime(os, ls, v, sents);
    forall i | 0 <= i < |ls| ensures HopOnTime(os, ls, Advance(v, h, p), sents, i) {
      assert HopOnTime(os, ls, v, sents, i);
      if i == h {
        LeftOnTime(os, ls, v, sents, sents, h, p);
      } else {
        OtherOnTime(os, ls, v, sents, sents, h, p, i);
      }
    }
  }

  lemma AdvanceOnTime(os: seq<Origin>, ls: seq<Link>, v: View, sents: seq<nat>, h: nat, p': Packet)
    requires ValidLinks(ls) && OnTime(os, ls, v, sents) && Reached(v, 0) == os && h + 1 < |ls| && v.segs[h] != []
    requires var p := v.segs[h][0];
             p' == Packet(p.origin, h + 1,
                          Max(p.reinject, sents[h + 1]) + Tx(p.origin.len, ls[h + 1].rate) + ls[h + 1].delay)
    ensures OnTime(os, ls, Advance(v, h, p'), sents[h + 1 := p'.reinject - ls[h + 1].delay])
  {
    var sents' := sents[h + 1 := p'.reinject - ls[h + 1].delay];
    JoinStamp(os, ls, v, sents, h);
    forall i | 0 <= i < |ls| ensures HopOnTime(os, ls, Advance(v, h, p'), sents', i) {
      assert HopOnTime(os, ls, v, sents, i);
      if i == h {
        LeftOnTime(os, ls, v, sents, sents', h, p');
      } else if i == h + 1 {
        JoinedOnTime(os, ls, v, sents, h, p', |Reached(v, h + 1)|);
      } else {
        OtherOnTime(os, ls, v, sents, sents', h, p', i);
      }
    }
  }

  // ----- The network -----------------------------------------------------------------------------

  /** The send times of the queues on instance a's path. */
  ghost function SendTimes(path: seq<nat>, queues: seq<Queue>): (r: seq<nat>)
    ensures |r| == |path|
    ensures forall h | 0 <= h < |path| && path[h] < |queues| :: r[h] == queues[path[h]].lastSent
  {
    seq(|path|, h requires 0 <= h < |path| => if path[h] < |queues| then queues[path[h]].lastSent else 0)
  }

  ghost predicate NetOnTime(c: Config, n: Net, a: nat)
    requires ValidConfig(c) && a < |c.paths|
  {
    OnTime(CapturedBy(n.captured, a), LinksOf(c, a), ViewOf(c, n, a), SendTimes(c.paths[a], n.queues))
  }

  lemma SameSendTimes(path: seq<nat>, queues: seq<Queue>, queues': seq<Queue>)
    requires |queues'| == |queues|
    requires forall h | 0 <= h < |path| && path[h] < |queues| :: queues'[path[h]].lastSent == queues[path[h]].lastSent
    ensures SendTimes(path, queues') == SendTimes(path, queues)
  {
  }

  /** A step that instance a does not see. */
  lemma UnseenOnTime(c: Config, n: Net, n': Net, a: nat)
    requires ValidConfig(c) && a < |c.paths| && NetOnTime(c, n, a) && |n'.queues| == |n.queues|
    requires ViewOf(c, n', a) == ViewOf(c, n, a) && CapturedBy(n'.captured, a) == CapturedBy(n.captured, a)
    requires var path := c.paths[a];
             forall h | 0 <= h < |path| && path[h] < |n.queues| ::
               n'.queues[path[h]].lastSent == n.queues[path[h]].lastSent
    ensures NetOnTime(c, n', a)
  {
    SameSendTimes(c.paths[a], n.queues, n'.queues);
  }

  lemma FetchOnTime(c: Config, n: Net, k: nat, a: nat)
    requires ValidConfig(c) && a < |c.paths| && NetOnTime(c, n, a)
    requires k < |n.queues| && n.queues[k].hand.None? && n.queues[k].waiting != []
    ensures NetOnTime(c, Fetch(n, k), a)
  {
    FetchView(c, n, k, a);
    UnseenOnTime(c, n, Fetch(n, k), a);
  }

  lemma CaptureOtherOnTime(c: Config, n: Net, inst: nat, len: nat, time: nat, a: nat)
    requires ValidConfig(c) && |n.queues| == |c.links| && a < |c.paths| && Exclusive(c, a) && NetOnTime(c, n, a)
    requires inst < |c.paths| && inst != a
    ensures NetOnTime(c, Capture(c, n, inst, len, time), a)
  {
    CaptureView(c, n, inst, len, time, a);
    CapturedByAppend(n.captured, Origin(|n.captured| + 1, inst, len, time), a);
    UnseenOnTime(c, n, Capture(c, n, inst, len, time), a);
  }

  /** The time at which the entry link will have sent packet o. */
  ghost function EntrySent(ls: seq<Link>, sents: seq<nat>, o: Origin): nat
    requires ValidLinks(ls) && |sents| == |ls| > 0
  {
    Max(o.time, sents[0]) + Tx(o.len, ls[0].rate)
  }

  ghost function Entered(ls: seq<Link>, v: View, sents: seq<nat>, o: Origin): View
    requires ValidLinks(ls) && |v.segs| == |sents| == |ls| > 0
  {
    Enter(v, Packet(o, 0, EntrySent(ls, sents, o) + ls[0].delay))
  }

  lemma EnteredOnTime(os: seq<Origin>, o: Origin, ls: seq<Link>, v: View, sents: seq<nat>)
    requires ValidLinks(ls) && OnTime(os, ls, v, sents) && Reached(v, 0) == os
    ensures OnTime(os + [o], ls, Entered(ls, v, sents, o), sents[0 := EntrySent(ls, sents, o)])
  {
    var sent := EntrySent(ls, sents, o);
    EnterOnTime(os, o, ls, v, sents, Packet(o, 0, sent + ls[0].delay), sent);
  }

  lemma EnteredIs(ls: seq<Link>, v: View, sents: seq<nat>, o: Origin, link: Link, lastSent: nat, sent: nat)
    requires ValidLinks(ls) && |v.segs| == |sents| == |ls| > 0 && ls[0] == link && sents[0] == lastSent
    requires sent == Max(o.time, lastSent) + Tx(o.len, link.rate)
    ensures EntrySent(ls, sents, o) == sent && Entered(ls, v, sents, o) == Enter(v, Packet(o, 0, sent + link.delay))
  {
  }

  /** From n to n', packet o of instance a enters. */
  ghost predicate Enters(c: Config, n: Net, n': Net, a: nat, o: Origin)
    requires ValidConfig(c) && a < |c.paths|
  {
    var ls, v, sents := LinksOf(c, a), ViewOf(c, n, a), SendTimes(c.paths[a], n.queues);
    && ViewOf(c, n', a) == Entered(ls, v, sents, o)
    && SendTimes(c.paths[a], n'.queues) == sents[0 := EntrySent(ls, sents, o)]
    && CapturedBy(n'.captured, a) == CapturedBy(n.captured, a) + [o]
  }

  lemma CaptureEnters(c: Config, n: Net, a: nat, o: Origin)
    requires ValidConfig(c) && |n.queues| == |c.links| && a < |c.paths| && Exclusive(c, a)
    requires o == Origin(|n.captured| + 1, a, o.len, o.time)
    ensures Enters(c, n, Capture(c, n, a, o.len, o.time), a, o)
  {
    var k := c.paths[a][0];
    var sent := Max(o.time, n.queues[k].lastSent) + Tx(o.len, c.links[k].rate);
    EnteredIs(LinksOf(c, a), ViewOf(c, n, a), SendTimes(c.paths[a], n.queues), o,
              c.links[k], n.queues[k].lastSent, sent);
    CaptureView(c, n, a, o.len, o.time, a);
  }

  lemma EntersOnTime(c: Config, n: Net, n': Net, a: nat, o: Origin)
    requires ValidConfig(c) && a < |c.paths| && Enters(c, n, n', a, o) && NetOnTime(c, n, a) && InOrder(c, n, a)
    ensures NetOnTime(c, n', a)
  {
    EnteredOnTime(CapturedBy(n.captured, a), o, LinksOf(c, a), ViewOf(c, n, a), SendTimes(c.paths[a], n.queues));
  }

  lemma CaptureOwnOnTime(c: Config, n: Net, a: nat, len: nat, time: nat)
    requires ValidConfig(c) && |n.queues| == |c.links| && a < |c.paths| && Exclusive(c, a)
    requires NetOnTime(c, n, a) && InOrder(c, n, a)
    ensures NetOnTime(c, Capture(c, n, a, len, time), a)
  {
    var o := Origin(|n.captured| + 1, a, len, time);
    CaptureEnters(c, n, a, o);
    EntersOnTime(c, n, Capture(c, n, a, len, time), a, o);
  }

  lemma ServeLastSends(c: Config, n: Net, k: nat)
    requires ValidConfig(c) && |n.queues| == |c.links| && k < |n.queues| && n.queues[k].hand.Some?
    requires AtQueue(c, n.queues[k].hand.value, k)
    requires var p := n.queues[k].hand.value; p.hop == |c.paths[p.origin.inst]| - 1
    ensures var n' := Serve(c, n, k);
            && |n'.queues| == |n.queues| && n'.captured == n.captured
            && forall j | 0 <= j < |n.queues| :: n'.queues[j].lastSent == n.queues[j].lastSent
  {
  }

  lemma ServeOnSends(c: Config, n: Net, k: nat)
    requires ValidConfig(c) && |n.queues| == |c.links| && k < |n.queues| && n.queues[k].hand.Some?
    requires AtQueue(c, n.queues[k].hand.value, k)
    requires var p := n.queues[k].hand.value; p.hop < |c.paths[p.origin.inst]| - 1
    ensures var n', p := Serve(c, n, k), n.queues[k].hand.value;
            var k' := c.paths[p.origin.inst][p.hop + 1];
            && |n'.queues| == |n.queues| && n'.captured == n.captured
            && n'.queues[k'].lastSent == Max(p.reinject, n.queues[k'].lastSent) + Tx(p.origin.len, c.links[k'].rate)
            && forall j | 0 <= j < |n.queues| && j != k' :: n'.queues[j].lastSent == n.queues[j].lastSent
  {
  }

  lemma ServeOtherOnTime(c: Config, n: Net, k: nat, a: nat)
    requires ValidConfig(c) && |n.queues| == |c.links| && a < |c.paths| && Exclusive(c, a) && NetOnTime(c, n, a)
    requires k < |n.queues| && n.queues[k].hand.Some? && AtQueue(c, n.queues[k].hand.value, k)
    requires n.queues[k].hand.value.origin.inst != a
    ensures NetOnTime(c, Serve(c, n, k), a)
  {
    var p := n.queues[k].hand.value;
    ServeOtherView(c, n, k, a);
    if p.hop < |c.paths[p.origin.inst]| - 1 {
      ServeOnSends(c, n, k);
    } else {
      ServeLastSends(c, n, k);
    }
    UnseenOnTime(c, n, Serve(c, n, k), a);
  }

  lemma ServeLastOnTime(c: Config, n: Net, k: nat)
    requires ValidConfig(c) && |n.queues| == |c.links| && k < |n.queues| && n.queues[k].hand.Some?
    requires AtQueue(c, n.queues[k].hand.value, k)
    requires var p := n.queues[k].hand.value;
             p.hop == |c.paths[p.origin.inst]| - 1 && NetOnTime(c, n, p.origin.inst) && InOrder(c, n, p.origin.inst)
    ensures NetOnTime(c, Serve(c, n, k), n.queues[k].hand.value.origin.inst)
  {
    var p, n' := n.queues[k].hand.value, Serve(c, n, k);
    var a := p.origin.inst;
    ServeLastView(c, n, k);
    ServeLastSends(c, n, k);
    SameSendTimes(c.paths[a], n.queues, n'.queues);
    AdvanceOutOnTime(CapturedBy(n.captured, a), LinksOf(c, a), ViewOf(c, n, a), SendTimes(c.paths[a], n.queues));
  }

  /** The time at which hop h + 1 will have sent the first packet of hop h. */
  ghost function NextSent(ls: seq<Link>, v: View, sents: seq<nat>, h: nat): nat
    requires ValidLinks(ls) && |v.segs| == |sents| == |ls| && h + 1 < |ls| && v.segs[h] != []
  {
    Max(v.segs[h][0].reinject, sents[h + 1]) + Tx(v.segs[h][0].origin.len, ls[h + 1].rate)
  }

  /** The first packet of hop h goes on. */
  ghost function MovedOn(ls: seq<Link>, v: View, sents: seq<nat>, h: nat): View
    requires ValidLinks(ls) && |v.segs| == |sents| == |ls| && h + 1 < |ls| && v.segs[h] != []
  {
    Advance(v, h, Packet(v.segs[h][0].origin, h + 1, NextSent(ls, v, sents, h) + ls[h + 1].delay))
  }

  lemma MovedOnTime(os: seq<Origin>, ls: seq<Link>, v: View, sents: seq<nat>, h: nat)
    requires ValidLinks(ls) && OnTime(os, ls, v, sents) && Reached(v, 0) == os && h + 1 < |ls| && v.segs[h] != []
    ensures OnTime(os, ls, MovedOn(ls, v, sents, h), sents[h + 1 := NextSent(ls, v, sents, h)])
  {
    AdvanceOnTime(os, ls, v, sents, h,
                  Packet(v.segs[h][0].origin, h + 1, NextSent(ls, v, sents, h) + ls[h + 1].delay));
  }

  lemma ServeOnTimes(c: Config, n: Net, k: nat, p: Packet, a: nat, k': nat, sent: nat)
    requires ValidConfig(c) && |n.queues| == |c.links| && k < |n.queues| && n.queues[k].hand == Some(p)
    requires AtQueue(c, p, k) && a == p.origin.inst && p.hop < |c.paths[a]| - 1 && k' == c.paths[a][p.hop + 1]
    requires sent == Max(p.reinject, n.queues[k'].lastSent) + Tx(p.origin.len, c.links[k'].rate) && Exclusive(c, a)
    ensures SendTimes(c.paths[a], Serve(c, n, k).queues) == SendTimes(c.paths[a], n.queues)[p.hop + 1 := sent]
    ensures Serve(c, n, k).captured == n.captured
  {
    ServeOnSends(c, n, k);
  }

  /** Moving on with the link and the send time of the next hop given. */
  lemma MovedOnIs(ls: seq<Link>, v: View, sents: seq<nat>, p: Packet, link: Link, lastSent: nat, sent: nat)
    requires ValidLinks(ls) && |v.segs| == |sents| == |ls| && p.hop + 1 < |ls| && v.segs[p.hop] != []
    requires v.segs[p.hop][0] == p && ls[p.hop + 1] == link && sents[p.hop + 1] == lastSent
    requires sent == Max(p.reinject, lastSent) + Tx(p.origin.len, link.rate)
    ensures NextSent(ls, v, sents, p.hop) == sent
    ensures MovedOn(ls, v, sents, p.hop) == Advance(v, p.hop, Packet(p.origin, p.hop + 1, sent + link.delay))
  {
  }

  /** From n to n', the first packet that instance a has at hop h moves on. */
  ghost predicate MovesOn(c: Config, n: Net, n': Net, a: nat, h: nat)
    requires ValidConfig(c) && a < |c.paths| && h + 1 < |c.paths[a]|
  {
    var ls, v, sents := LinksOf(c, a), ViewOf(c, n, a), SendTimes(c.paths[a], n.queues);
    && v.segs[h] != [] && ViewOf(c, n', a) == MovedOn(ls, v, sents, h)
    && SendTimes(c.paths[a], n'.queues) == sents[h + 1 := NextSent(ls, v, sents, h)]
    && n'.captured == n.captured
  }

  /** From n to n', packet p of instance a goes on to a hop whose link will have sent it at `sent`. */
  ghost predicate GoesOn(c: Config, n: Net, n': Net, a: nat, p: Packet, link: Link, sent: nat)
    requires a < |c.paths| && p.hop + 1 < |c.paths[a]|
  {
    var v, sents := ViewOf(c, n, a), SendTimes(c.paths[a], n.queues);
    && v.segs[p.hop] != [] && v.segs[p.hop][0] == p
    && ViewOf(c, n', a) == Advance(v, p.hop, Packet(p.origin, p.hop + 1, sent + link.delay))
    && SendTimes(c.paths[a], n'.queues) == sents[p.hop + 1 := sent]
    && n'.captured == n.captured
  }

  lemma SeenMovesOn(c: Config, n: Net, n': Net, a: nat, p: Packet, link: Link, lastSent: nat, sent: nat)
    requires ValidConfig(c) && a < |c.paths| && p.hop + 1 < |c.paths[a]| && GoesOn(c, n, n', a, p, link, sent)
    requires LinksOf(c, a)[p.hop + 1] == link && SendTimes(c.paths[a], n.queues)[p.hop + 1] == lastSent
    requires sent == Max(p.reinject, lastSent) + Tx(p.origin.len, link.rate)
    ensures MovesOn(c, n, n', a, p.hop)
  {
    MovedOnIs(LinksOf(c, a), ViewOf(c, n, a), SendTimes(c.paths[a], n.queues), p, link, lastSent, sent);
  }

  lemma ServeGoesOn(c: Config, n: Net, k: nat, p: Packet, a: nat, k': nat, sent: nat)
    requires ValidConfig(c) && |n.queues| == |c.links| && k < |n.queues| && n.queues[k].hand == Some(p)
    requires AtQueue(c, p, k) && a == p.origin.inst && p.hop < |c.paths[a]| - 1 && k' == c.paths[a][p.hop + 1]
    requires sent == Max(p.reinject, n.queues[k'].lastSent) + Tx(p.origin.len, c.links[k'].rate) && Exclusive(c, a)
    ensures GoesOn(c, n, Serve(c, n, k), a, p, c.links[k'], sent)
  {
    ServeOnView(c, n, k, p, a, k', sent);
    ServeOnTimes(c, n, k, p, a, k', sent);
  }

  /** Serving a packet that has a next hop moves it on, as its instance sees it. */
  lemma ServeMovesOn(c: Config, n: Net, k: nat, p: Packet, a: nat)
    requires ValidConfig(c) && |n.queues| == |c.links| && k < |n.queues| && n.queues[k].hand == Some(p)
    requires AtQueue(c, p, k) && a == p.origin.inst && p.hop < |c.paths[a]| - 1 && Exclusive(c, a)
    ensures MovesOn(c, n, Serve(c, n, k), a, p.hop)
  {
    var k' := c.paths[a][p.hop + 1];
    var sent := Max(p.reinject, n.queues[k'].lastSent) + Tx(p.origin.len, c.links[k'].rate);
    ServeGoesOn(c, n, k, p, a, k', sent);
    SeenMovesOn(c, n, Serve(c, n, k), a, p, c.links[k'], n.queues[k'].lastSent, sent);
  }

  lemma MovesOnOnTime(c: Config, n: Net, n': Net, a: nat, h: nat)
    requires ValidConfig(c) && a < |c.paths| && h + 1 < |c.paths[a]| && MovesOn(c, n, n', a, h)
    requires NetOnTime(c, n, a) && InOrder(c, n, a)
    ensures NetOnTime(c, n', a)
  {
    MovedOnTime(CapturedBy(n.captured, a), LinksOf(c, a), ViewOf(c, n, a), SendTimes(c.paths[a], n.queues), h);
  }

  lemma ServeOnOnTime(c: Config, n: Net, k: nat, p: Packet, a: nat)
    requires ValidConfig(c) && |n.queues| == |c.links| && k < |n.queues| && n.queues[k].hand == Some(p)
    requires AtQueue(c, p, k) && a == p.origin.inst && p.hop < |c.paths[a]| - 1 && Exclusive(c, a)
    requires NetOnTime(c, n, a) && InOrder(c, n, a)
    ensures NetOnTime(c, Serve(c, n, k), a)
  {
    ServeMovesOn(c, n, k, p, a);
    MovesOnOnTime(c, n, Serve(c, n, k), a, p.hop);
  }

  // ----- Every interleaving ----------------------------------------------------------------------

  lemma ServeOnTime(c: Config, n: Net, k: nat, a: nat)
    requires ValidConfig(c) && |n.queues| == |c.links| && k < |n.queues| && n.queues[k].hand.Some?
    requires AtQueue(c, n.queues[k].hand.value, k) && a < |c.paths| && Exclusive(c, a)
    requires NetOnTime(c, n, a) && InOrder(c, n, a)
    ensures NetOnTime(c, Serve(c, n, k), a)
  {
    var p := n.queues[k].hand.value;
    if p.origin.inst != a {
      ServeOtherOnTime(c, n, k, a);
    } else if p.hop == |c.paths[a]| - 1 {
      ServeLastOnTime(c, n, k);
    } else {
      ServeOnOnTime(c, n, k, p, a);
    }
  }

  lemma ActOnTime(c: Config, n: Net, act: Action, a: nat)
    requires ValidConfig(c) && NetOk(c, n) && Enabled(c, n, act) && a < |c.paths| && Exclusive(c, a)
    requires NetOnTime(c, n, a) && InOrder(c, n, a)
    ensures NetOnTime(c, Act(c, n, act), a)
  {
    match act
    case DoCapture(inst, len, time) =>
      if inst == a {
        CaptureOwnOnTime(c, n, a, len, time);
      } else {
        CaptureOtherOnTime(c, n, inst, len, time, a);
      }
    case DoFetch(k) =>
      FetchOnTime(c, n, k, a);
    case DoServe(k, now) =>
      HandOk(c, n, k);
      ServeOnTime(c, n, k, a);
  }

  lemma InitOnTime(c: Config, a: nat)
    requires ValidConfig(c) && a < |c.paths|
    ensures NetOnTime(c, Init(c), a)
  {
    var v, ls := ViewOf(c, Init(c), a), LinksOf(c, a);
    InitView(c, a);
    forall h | 0 <= h < |ls| ensures HopOnTime([], ls, v, SendTimes(c.paths[a], Init(c).queues), h) {
      EmptyReached(v, h);
      EmptyReached(v, h + 1);
    }
  }

  lemma StepOnTime(c: Config, n: Net, n': Net, a: nat)
    requires ValidConfig(c) && Step(c, n, n') && a < |c.paths| && Exclusive(c, a)
    requires NetOnTime(c, n, a) && InOrder(c, n, a)
    ensures NetOnTime(c, n', a)
  {
    var act :| Enabled(c, n, act) && n' == Act(c, n, act);
    ActOnTime(c, n, act, a);
  }

  lemma {:induction false} RunOnTime(c: Config, run: seq<Net>, i: nat, a: nat)
    requires ValidConfig(c) && Run(c, run) && i < |run| && a < |c.paths| && Exclusive(c, a)
    ensures NetOnTime(c, run[i], a)
  {
    if i == 0 {
      InitOnTime(c, a);
    } else {
      RunOnTime(c, run, i - 1, a);
      RunInOrder(c, run, i - 1, a);
      StepOnTime(c, run[i - 1], run[i], a);
    }
  }

  lemma OutStamped(c: Config, n: Net, a: nat, i: nat)
    requires ValidConfig(c) && a < |c.paths| && NetOnTime(c, n, a) && i < |OutOf(n.out, a)|
    requires Origins(OutOf(n.out, a)) <= CapturedBy(n.captured, a)
    ensures var os := CapturedBy(n.captured, a);
            && i < |os| && OutOf(n.out, a)[i].origin == os[i]
            && OutOf(n.out, a)[i].reinject == Stamp(os, LinksOf(c, a), i, |c.paths[a]| - 1)
  {
  }

  /** Whatever the interleaving, the i-th packet of an instance that shares no queue is
      reinjected with the stamp that its captures and links determine. */
  lemma ScheduleIndependent(c: Config, run: seq<Net>, a: nat, i: nat)
    requires ValidConfig(c) && Run(c, run) && a < |c.paths| && Exclusive(c, a)
    requires i < |OutOf(run[|run| - 1].out, a)|
    ensures var n := run[|run| - 1];
            var os := CapturedBy(n.captured, a);
            && i < |os| && OutOf(n.out, a)[i].origin == os[i]
            && OutOf(n.out, a)[i].reinject == Stamp(os, LinksOf(c, a), i, |c.paths[a]| - 1)
  {
    RunOnTime(c, run, |run| - 1, a);
    ReinjectedInOrder(c, run, |run| - 1, a);
    OutStamped(c, run[|run| - 1], a, i);
  }
}
