/** Further properties of the queue network over whole runs: what is reinjected leaves every queue in
    the order of its stamps, and without further captures the network drains. */
module QueueProgress {
  import opened Common
  import opened QueueNetwork
  import opened QueueSafety

  // ----- Reinjected stamps -----------------------------------------------------------------------

  /** Reinjected packets have made their last hop. */
  ghost predicate OutLast(c: Config, out: seq<Packet>) {
    forall i | 0 <= i < |out| ::
      out[i].origin.inst < |c.paths| && out[i].hop + 1 == |c.paths[out[i].origin.inst]|
  }

  /** Packets reinjected from one queue carry stamps that do not decrease. */
  ghost predicate OutSorted(c: Config, out: seq<Packet>) {
    forall i, j, k | 0 <= i < j < |out| && AtQueue(c, out[i], k) && AtQueue(c, out[j], k) ::
      out[i].reinject <= out[j].reinject
  }

  /** What was reinjected from queue k was not stamped later than anything that queue k holds or will
      accept. */
  ghost predicate OutBefore(c: Config, out: seq<Packet>, link: Link, q: Queue, k: nat) {
    forall i | 0 <= i < |out| && AtQueue(c, out[i], k) ::
      out[i].reinject <= q.lastSent + link.delay && forall p | p in Line(q) :: out[i].reinject <= p.reinject
  }

  ghost predicate OutOk(c: Config, n: Net) {
    && |n.queues| == |c.links| && OutLast(c, n.out) && OutSorted(c, n.out)
    && forall k | 0 <= k < |n.queues| :: OutBefore(c, n.out, c.links[k], n.queues[k], k)
  }

  /** The packet in hand is the earliest of its queue. */
  lemma HandFirst(c: Config, out: seq<Packet>, link: Link, q: Queue, k: nat)
    requires q.hand.Some? && StampsOk(link, q) && OutBefore(c, out, link, q, k)
    ensures OutBefore(c, out + [q.hand.value], link, q.(hand := None), k)
    ensures forall i | 0 <= i < |out| && AtQueue(c, out[i], k) :: out[i].reinject <= q.hand.value.reinject
  {
    ServeLine(q);
    var p, rest := q.hand.value, Line(q.(hand := None));
    assert Line(q)[0] == p;
    forall x | x in rest ensures x in Line(q) && p.reinject <= x.reinject {
      var i :| 0 <= i < |rest| && rest[i] == x;
      assert Line(q)[i + 1] == x;
    }
  }

  lemma OtherBefore(c: Config, out: seq<Packet>, link: Link, q: Queue, k: nat, p: Packet)
    requires OutBefore(c, out, link, q, k) && !AtQueue(c, p, k)
    ensures OutBefore(c, out + [p], link, q, k)
  {
  }

  lemma CaptureOutOk(c: Config, n: Net, inst: nat, len: nat, time: nat)
    requires ValidConfig(c) && OutOk(c, n) && inst < |c.paths|
    ensures OutOk(c, Capture(c, n, inst, len, time))
  {
    var k := c.paths[inst][0];
  }

  lemma FetchOutOk(c: Config, n: Net, k: nat)
    requires OutOk(c, n) && k < |n.queues| && n.queues[k].hand.None? && n.queues[k].waiting != []
    ensures OutOk(c, Fetch(n, k))
  {
    FetchLine(n, k);
    forall j | 0 <= j < |n.queues| ensures OutBefore(c, n.out, c.links[j], Fetch(n, k).queues[j], j) {
      assert OutBefore(c, n.out, c.links[j], n.queues[j], j);
    }
  }

  lemma ServeLastOutOk(c: Config, n: Net, k: nat, p: Packet)
    requires ValidConfig(c) && OutOk(c, n) && AllStampsOk(c, n) && k < |n.queues| && n.queues[k].hand == Some(p)
    requires AtQueue(c, p, k) && p.hop == |c.paths[p.origin.inst]| - 1
    ensures OutOk(c, Serve(c, n, k))
  {
    var n' := Serve(c, n, k);
    HandFirst(c, n.out, c.links[k], n.queues[k], k);
    forall j | 0 <= j < |n.queues| ensures OutBefore(c, n'.out, c.links[j], n'.queues[j], j) {
      if j != k {
        OtherBefore(c, n.out, c.links[j], n.queues[j], j, p);
      }
    }
  }

  lemma ServeOnOutOk(c: Config, n: Net, k: nat, p: Packet, k': nat)
    requires ValidConfig(c) && OutOk(c, n) && k < |n.queues| && n.queues[k].hand == Some(p)
    requires AtQueue(c, p, k) && p.hop < |c.paths[p.origin.inst]| - 1 && k' == c.paths[p.origin.inst][p.hop + 1]
    ensures OutOk(c, Serve(c, n, k))
  {
    var n', freed := Serve(c, n, k), n.queues[k := n.queues[k].(hand := None)];
    ServeOnIs(c, n, k, p, k');
    assert forall j | 0 <= j < |freed| :: OutBefore(c, n.out, c.links[j], freed[j], j);
  }

  lemma ActOutOk(c: Config, n: Net, act: Action)
    requires ValidConfig(c) && NetOk(c, n) && AllStampsOk(c, n) && OutOk(c, n) && Enabled(c, n, act)
    ensures OutOk(c, Act(c, n, act))
  {
    match act
    case DoCapture(inst, len, time) => CaptureOutOk(c, n, inst, len, time);
    case DoFetch(k) => FetchOutOk(c, n, k);
    case DoServe(k, now) =>
      HandOk(c, n, k);
      var p := n.queues[k].hand.value;
      if p.hop == |c.paths[p.origin.inst]| - 1 {
        ServeLastOutOk(c, n, k, p);
      } else {
        ServeOnOutOk(c, n, k, p, c.paths[p.origin.inst][p.hop + 1]);
      }
  }

  lemma StepOutOk(c: Config, n: Net, n': Net)
    requires ValidConfig(c) && AllStampsOk(c, n) && OutOk(c, n) && Step(c, n, n')
    ensures OutOk(c, n')
  {
    var act :| Enabled(c, n, act) && n' == Act(c, n, act);
    ActOutOk(c, n, act);
  }

  lemma RunStamps(c: Config, run: seq<Net>, i: nat)
    requires ValidConfig(c) && Run(c, run) && i < |run|
    ensures AllStampsOk(c, run[i]) && NetOk(c, run[i])
  {
    RunSafe(c, run, i);
  }

  lemma {:induction false} RunOutOk(c: Config, run: seq<Net>, i: nat)
    requires ValidConfig(c) && Run(c, run) && i < |run|
    ensures OutOk(c, run[i])
  {
    if i > 0 {
      RunOutOk(c, run, i - 1);
      RunStamps(c, run, i - 1);
      StepOutOk(c, run[i - 1], run[i]);
    }
  }

  lemma {:induction false} OutOfMembers(out: seq<Packet>, a: nat)
    ensures forall p | p in OutOf(out, a) :: p in out && p.origin.inst == a
  {
    if out != [] {
      OutOfMembers(out[..|out| - 1], a);
    }
  }

  lemma SameQueue(c: Config, out: seq<Packet>, i: nat, j: nat)
    requires OutLast(c, out) && OutSorted(c, out) && i < j < |out| && out[i].origin.inst == out[j].origin.inst
    requires ValidConfig(c)
    ensures out[i].reinject <= out[j].reinject
  {
    var path := c.paths[out[i].origin.inst];
    assert AtQueue(c, out[i], path[|path| - 1]) && AtQueue(c, out[j], path[|path| - 1]);
  }

  lemma {:induction false} OutOfSorted(c: Config, out: seq<Packet>, a: nat, x: nat, y: nat)
    requires ValidConfig(c) && OutLast(c, out) && OutSorted(c, out) && x < y < |OutOf(out, a)|
    ensures OutOf(out, a)[x].reinject <= OutOf(out, a)[y].reinject
  {
    var front, p := out[..|out| - 1], out[|out| - 1];
    assert OutSorted(c, front) by {
      assert forall i | 0 <= i < |front| :: front[i] == out[i];
    }
    if y < |OutOf(front, a)| {
      OutOfSorted(c, front, a, x, y);
    } else {
      OutOfMembers(front, a);
      var i :| 0 <= i < |front| && front[i] == OutOf(front, a)[x];
      SameQueue(c, out, i, |out| - 1);
    }
  }

  /** In every run, shared queues or not, the packets of an instance are reinjected in the order of
      their stamps. */
  lemma StampsNeverDecrease(c: Config, run: seq<Net>, i: nat, a: nat, x: nat, y: nat)
    requires ValidConfig(c) && Run(c, run) && i < |run| && x <= y < |OutOf(run[i].out, a)|
    ensures OutOf(run[i].out, a)[x].reinject <= OutOf(run[i].out, a)[y].reinject
  {
    if x < y {
      RunOutOk(c, run, i);
      OutOfSorted(c, run[i].out, a, x, y);
    }
  }

  // ----- The network drains ----------------------------------------------------------------------

  /** The steps that a waiting packet still needs: to be fetched and served at each hop. */
  ghost function Steps(c: Config, p: Packet): int {
    if p.origin.inst < |c.paths| then 2 * (|c.paths[p.origin.inst]| - p.hop) else 0
  }

  ghost function WaitWork(c: Config, ps: seq<Packet>): int {
    if ps == [] then 0 else Steps(c, ps[0]) + WaitWork(c, ps[1..])
  }

  ghost function QueueWork(c: Config, q: Queue): int {
    WaitWork(c, q.waiting) + (if q.hand.Some? then Steps(c, q.hand.value) - 1 else 0)
  }

  /** The steps that the packets in the first k queues still need. */
  ghost function Work(c: Config, queues: seq<Queue>, k: nat): int
    requires k <= |queues|
  {
    if k == 0 then 0 else Work(c, queues, k - 1) + QueueWork(c, queues[k - 1])
  }

  ghost function NetWork(c: Config, n: Net): int {
    Work(c, n.queues, |n.queues|)
  }

  lemma {:induction false} WaitAppend(c: Config, ps: seq<Packet>, p: Packet)
    ensures WaitWork(c, ps + [p]) == WaitWork(c, ps) + Steps(c, p)
  {
    if ps == [] {
      assert ps + [p] == [p];
    } else {
      assert (ps + [p])[1..] == ps[1..] + [p];
      WaitAppend(c, ps[1..], p);
    }
  }

  lemma {:induction false} WorkSame(c: Config, qs: seq<Queue>, qs': seq<Queue>, k: nat)
    requires k <= |qs| == |qs'| && forall j | 0 <= j < k :: qs[j] == qs'[j]
    ensures Work(c, qs, k) == Work(c, qs', k)
  {
    if k > 0 {
      WorkSame(c, qs, qs', k - 1);
    }
  }

  lemma {:induction false} WorkUpdate(c: Config, qs: seq<Queue>, j: nat, q: Queue, k: nat)
    requires j < k <= |qs|
    ensures Work(c, qs[j := q], k) == Work(c, qs, k) - QueueWork(c, qs[j]) + QueueWork(c, q)
  {
    if j < k - 1 {
      WorkUpdate(c, qs, j, q, k - 1);
    } else {
      WorkSame(c, qs, qs[j := q], k - 1);
    }
  }

  lemma EnqueueWork(c: Config, link: Link, qs: seq<Queue>, j: nat, p: Packet, time: nat)
    requires link.rate > 0.0 && j < |qs|
    ensures Work(c, qs[j := Enqueue(qs[j], link, p, time)], |qs|) == Work(c, qs, |qs|) + Steps(c, p)
  {
    var q := Enqueue(qs[j], link, p, time);
    WaitAppend(c, qs[j].waiting, p.(reinject := q.lastSent + link.delay));
    WorkUpdate(c, qs, j, q, |qs|);
  }

  lemma ServeWork(c: Config, n: Net, k: nat, p: Packet)
    requires ValidConfig(c) && |n.queues| == |c.links| && k < |n.queues| && n.queues[k].hand == Some(p)
    requires AtQueue(c, p, k)
    ensures NetWork(c, Serve(c, n, k)) == NetWork(c, n) - 1
  {
    var freed := n.queues[k := n.queues[k].(hand := None)];
    WorkUpdate(c, n.queues, k, n.queues[k].(hand := None), |n.queues|);
    if p.hop < |c.paths[p.origin.inst]| - 1 {
      var k' := c.paths[p.origin.inst][p.hop + 1];
      ServeOnIs(c, n, k, p, k');
      EnqueueWork(c, c.links[k'], freed, k', p.(hop := p.hop + 1), p.reinject);
    }
  }

  /** A capture brings two steps per hop, and every other step does one of them. */
  lemma ActWork(c: Config, n: Net, act: Action)
    requires ValidConfig(c) && NetOk(c, n) && Enabled(c, n, act)
    ensures NetWork(c, Act(c, n, act))
            == NetWork(c, n) + (if act.DoCapture? then 2 * |c.paths[act.inst]| else -1)
  {
    match act
    case DoCapture(inst, len, time) =>
      var k := c.paths[inst][0];
      EnqueueWork(c, c.links[k], n.queues, k, Packet(Origin(|n.captured| + 1, inst, len, time), 0, 0), time);
    case DoFetch(k) =>
      WorkUpdate(c, n.queues, k, Fetch(n, k).queues[k], |n.queues|);
    case DoServe(k, now) =>
      HandOk(c, n, k);
      ServeWork(c, n, k, n.queues[k].hand.value);
  }

  lemma StepWork(c: Config, n: Net, n': Net)
    requires ValidConfig(c) && Step(c, n, n')
    ensures |n'.captured| >= |n.captured|
    ensures |n'.captured| == |n.captured| ==> NetWork(c, n') == NetWork(c, n) - 1
  {
    var act :| Enabled(c, n, act) && n' == Act(c, n, act);
    ActWork(c, n, act);
  }

  lemma RunStepWork(c: Config, run: seq<Net>, j: nat)
    requires ValidConfig(c) && Run(c, run) && 0 < j < |run|
    ensures |run[j].captured| >= |run[j - 1].captured|
    ensures |run[j].captured| == |run[j - 1].captured| ==> NetWork(c, run[j]) == NetWork(c, run[j - 1]) - 1
  {
    StepWork(c, run[j - 1], run[j]);
  }

  /** Between captures every step, whatever thread makes it, brings the network one step closer to
      being empty. */
  lemma {:induction false} DrainsSteadily(c: Config, run: seq<Net>, i: nat, j: nat)
    requires ValidConfig(c) && Run(c, run) && i <= j < |run|
    ensures |run[j].captured| >= |run[i].captured|
    ensures |run[j].captured| == |run[i].captured| ==> j - i + NetWork(c, run[j]) == NetWork(c, run[i])
    decreases j
  {
    if i < j {
      DrainsSteadily(c, run, i, j - 1);
      RunStepWork(c, run, j);
    }
  }

  lemma {:induction false} WaitPositive(c: Config, ps: seq<Packet>, k: nat)
    requires forall p | p in ps :: AtQueue(c, p, k)
    ensures WaitWork(c, ps) >= 2 * |ps|
  {
    if ps != [] {
      assert AtQueue(c, ps[0], k);
      WaitPositive(c, ps[1..], k);
    }
  }

  /** A queue needs steps exactly if it holds a packet. */
  lemma QueuePositive(c: Config, q: Queue, k: nat)
    requires LineOk(c, Line(q), k)
    ensures QueueWork(c, q) >= |Line(q)|
    ensures QueueWork(c, q) > 0 <==> Line(q) != []
  {
    WaitPositive(c, q.waiting, k);
    if q.hand.Some? {
      assert Line(q)[0] in Line(q) && AtQueue(c, q.hand.value, k);
    }
  }

  lemma {:induction false} WorkPositive(c: Config, n: Net, k: nat)
    requires NetOk(c, n) && k <= |n.queues|
    ensures Work(c, n.queues, k) >= 0
    ensures Work(c, n.queues, k) == 0 <==> forall j | 0 <= j < k :: Line(n.queues[j]) == []
  {
    if k > 0 {
      WorkPositive(c, n, k - 1);
      QueuePositive(c, n.queues[k - 1], k - 1);
    }
  }

  /** While a packet is on its way, some thread can take a step. */
  lemma CanGoOn(c: Config, n: Net) returns (act: Action)
    requires ValidConfig(c) && NetOk(c, n) && NetWork(c, n) > 0
    ensures !act.DoCapture? && Enabled(c, n, act)
  {
    WorkPositive(c, n, |n.queues|);
    var k :| 0 <= k < |n.queues| && Line(n.queues[k]) != [];
    var q := n.queues[k];
    act := if q.hand.Some? then DoServe(k, q.hand.value.reinject) else DoFetch(k);
  }

  lemma DrainedView(c: Config, n: Net, a: nat)
    requires ValidConfig(c) && NetOk(c, n) && NetWork(c, n) == 0 && a < |c.paths|
    ensures forall h | 0 <= h < |c.paths[a]| :: ViewOf(c, n, a).segs[h] == []
  {
    WorkPositive(c, n, |n.queues|);
  }

  lemma {:induction false} OnlyOut(v: View, h: nat)
    requires h <= |v.segs| && forall i | 0 <= i < |v.segs| :: v.segs[i] == []
    ensures Reached(v, h) == Origins(v.out)
    decreases |v.segs| - h
  {
    if h < |v.segs| {
      OnlyOut(v, h + 1);
    }
  }

  /** With no step left to do, every instance has had all its packets reinjected, in capture order. */
  lemma DrainedAll(c: Config, run: seq<Net>, i: nat, a: nat)
    requires ValidConfig(c) && Run(c, run) && i < |run| && NetWork(c, run[i]) == 0 && a < |c.paths|
    ensures Origins(OutOf(run[i].out, a)) == CapturedBy(run[i].captured, a)
  {
    RunStamps(c, run, i);
    RunInOrder(c, run, i, a);
    DrainedView(c, run[i], a);
    OnlyOut(ViewOf(c, run[i], a), 0);
  }
}
