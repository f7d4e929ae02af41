/** How the election ends. Once nothing is in flight every switch holds its best root and cost; and every
    exchange of BPDUs ends: an adoption strictly lowers the pair of a switch, costs are bounded by the sum
    of all stpCosts, and every other delivery only consumes a BPDU. */
module SpanningElection {
  import opened SpanningTree
  import opened SpanningSafety

  // ----- Convergence -----------------------------------------------------------------------------

  /** With nothing in flight, the end of any path holds a pair at least as good as the path. */
  lemma {:induction false} QuietAlongPath(t: Topology, s: Net, p: seq<nat>, k: nat)
    requires ValidTopology(t) && NetOk(t, s) && OwnRootFree(s.spt) && AllCovered(t, s)
    requires s.wire == multiset{} && IsPath(t, p) && k < |p|
    ensures AtMost(s.spt[p[k]], p[0], PrefixCost(t, p, k))
  {
    if k > 0 {
      QuietAlongPath(t, s, p, k - 1);
      assert HopAt(t, p, k);
      assert Covered(t, s, p[k - 1], p[k]);
    }
  }

  /** v holds the smallest id from which it can be reached, and the least cost over all paths
      from there. */
  ghost predicate HoldsBest(t: Topology, s: Net, v: nat)
    requires ValidTopology(t) && v < |s.spt|
  {
    && RealCost(t, s.spt[v].root, s.spt[v].cost, v)
    && (forall p | IsPath(t, p) && p[|p| - 1] == v ::
          s.spt[v].root <= p[0] && (p[0] == s.spt[v].root ==> s.spt[v].cost <= PathCost(t, p)))
  }

  lemma QuietHoldsBest(t: Topology, s: Net, v: nat)
    requires ValidTopology(t) && Inv(t, s) && s.wire == multiset{} && v < |t.ports|
    ensures HoldsBest(t, s, v)
  {
    assert SoundAt(t, s.spt, v);
    forall p | IsPath(t, p) && p[|p| - 1] == v
      ensures s.spt[v].root <= p[0] && (p[0] == s.spt[v].root ==> s.spt[v].cost <= PathCost(t, p))
    {
      QuietAlongPath(t, s, p, |p| - 1);
    }
  }

  /** Whatever the topology and the delivery order, once no BPDU is in flight every switch
      holds the smallest switch id of its connected component and the shortest cost to it. */
  lemma Convergence(t: Topology, run: seq<Net>, ms: seq<Bpdu>, v: nat)
    requires ValidTopology(t) && Run(t, run, ms) && run[|run| - 1].wire == multiset{} && v < |t.ports|
    ensures |run[|run| - 1].spt| == |t.ports| && HoldsBest(t, run[|run| - 1], v)
  {
    RunInv(t, run, ms, |run| - 1);
    QuietHoldsBest(t, run[|run| - 1], v);
  }

  /** In a connected network all switches therefore agree on switch 0, the smallest id, and each holds
      the cost of a simple path from it that is no more than that of any path p. */
  lemma ConvergenceConnected(t: Topology, run: seq<Net>, ms: seq<Bpdu>, v: nat, p: seq<nat>)
    requires ValidTopology(t) && Run(t, run, ms) && run[|run| - 1].wire == multiset{} && v < |t.ports|
    requires IsPath(t, p) && p[0] == 0 && p[|p| - 1] == v
    ensures var s := run[|run| - 1];
            && v < |s.spt| && s.spt[v].root == 0 && s.spt[v].cost <= PathCost(t, p)
            && RealCost(t, 0, s.spt[v].cost, v)
  {
    Convergence(t, run, ms, v);
    assert run[|run| - 1].spt[v].root <= p[0];
  }

  // ----- Termination -----------------------------------------------------------------------------

  ghost function Total(xs: seq<nat>, k: nat): nat
    requires k <= |xs|
  {
    if k == 0 then 0 else Total(xs, k - 1) + xs[k - 1]
  }

  lemma {:induction false} TotalMonotone(xs: seq<nat>, i: nat, k: nat)
    requires i <= k <= |xs|
    ensures Total(xs, i) <= Total(xs, k)
  {
    if i < k {
      TotalMonotone(xs, i, k - 1);
    }
  }

  lemma {:induction false} TotalUpdate(xs: seq<nat>, k: nat, i: nat, x: nat)
    requires k <= |xs| && i < |xs|
    ensures Total(xs[i := x], k) == if i < k then Total(xs, k) - xs[i] + x else Total(xs, k)
  {
    if k > 0 {
      TotalUpdate(xs, k - 1, i, x);
    }
  }

  /** Distinct switches cost at most as much as all switches together: spend each cost once. */
  lemma {:induction false} DistinctCost(t: Topology, xs: seq<nat>, p: seq<nat>, k: nat)
    requires k <= |p| && Distinct(p) && |xs| == |t.stpCost|
    requires forall i | 0 <= i < |p| :: p[i] < |t.stpCost|
    requires forall i | 0 <= i < k :: xs[p[i]] == t.stpCost[p[i]]
    ensures PrefixCost(t, p, k) <= Total(xs, |xs|)
    decreases k
  {
    if k > 0 {
      var v := p[k - 1];
      DistinctCost(t, xs[v := 0], p, k - 1);
      TotalUpdate(xs, |xs|, v, 0);
    }
  }

  /** No cost that is ever held exceeds the sum of all stpCosts. */
  lemma CostBounded(t: Topology, spt: seq<Spt>, r: nat, c: nat, v: nat)
    requires ValidTopology(t) && |spt| == |t.ports| && Sound(t, spt, r, c, v)
    ensures c <= Total(t.stpCost, |t.stpCost|)
  {
    var p :| Supports(t, spt, p, r) && p[|p| - 1] == v && PathCost(t, p) == c;
    DistinctCost(t, t.stpCost, p, |p| - 1);
  }

  /** The rank of a pair in the lexicographic order, for costs up to `bound`. */
  ghost function Rank(spt: Spt, bound: nat): nat {
    spt.root * (bound + 1) + spt.cost
  }

  ghost function Ranks(spt: seq<Spt>, bound: nat): (r: seq<nat>)
    ensures |r| == |spt|
  {
    seq(|spt|, i requires 0 <= i < |spt| => Rank(spt[i], bound))
  }

  ghost function PortCounts(t: Topology): (r: seq<nat>)
    ensures |r| == |t.ports|
  {
    seq(|t.ports|, i requires 0 <= i < |t.ports| => |t.ports[i]|)
  }

  /** More than any switch can send in one step. */
  ghost function Fanout(t: Topology): nat {
    Total(PortCounts(t), |t.ports|) + 1
  }

  /** Falls with every delivery: the ranks outweigh the BPDUs an adoption sends. */
  ghost function Work(t: Topology, s: Net): nat
    requires ValidTopology(t)
  {
    Total(Ranks(s.spt, Total(t.stpCost, |t.stpCost|)), |s.spt|) * Fanout(t) + |s.wire|
  }

  lemma BetterRank(a: Spt, b: Spt, bound: nat)
    requires Better(a.root, a.cost, b.root, b.cost) && a.cost <= bound
    ensures Rank(a, bound) < Rank(b, bound)
  {
    if a.root < b.root {
      calc {
        Rank(a, bound);
      <= a.root * (bound + 1) + bound;
      <  (a.root + 1) * (bound + 1);
      <= { MulLe(a.root + 1, b.root, bound + 1); }
        b.root * (bound + 1);
      }
    }
  }

  lemma MulLe(a: nat, b: nat, c: nat)
    requires a <= b
    ensures a * c <= b * c
  {
  }

  lemma FanoutBound(t: Topology, u: nat)
    requires u < |t.ports|
    ensures |t.ports[u]| < Fanout(t)
  {
    TotalMonotone(PortCounts(t), u + 1, |t.ports|);
  }

  lemma RanksUpdate(spt: seq<Spt>, bound: nat, w: nat, x: Spt)
    requires w < |spt|
    ensures Total(Ranks(spt[w := x], bound), |spt|)
            == Total(Ranks(spt, bound), |spt|) - Rank(spt[w], bound) + Rank(x, bound)
  {
    assert Ranks(spt[w := x], bound) == Ranks(spt, bound)[w := Rank(x, bound)];
    TotalUpdate(Ranks(spt, bound), |spt|, w, Rank(x, bound));
  }

  /** Every delivery strictly lowers the work left. */
  lemma DeliverProgress(t: Topology, s: Net, m: Bpdu)
    requires ValidTopology(t) && Inv(t, s) && m in s.wire
    ensures Work(t, Deliver(t, s, m)) < Work(t, s)
  {
    var s' := Deliver(t, s, m);
    assert Linked(t, m.bridge, m.to);
    ForwardIffBetter(m, s.spt[m.to], m.to, m.port);
    if CompareBpdu(m, s.spt[m.to], m.to, m.port) == Forward {
      AdoptProgress(t, s, m, s');
    }
  }

  lemma AdoptProgress(t: Topology, s: Net, m: Bpdu, s': Net)
    requires ValidTopology(t) && NetOk(t, s) && m in s.wire && SoundBpdu(t, s.spt, m)
    requires Better(m.root, m.cost, s.spt[m.to].root, s.spt[m.to].cost)
    requires s'.spt == s.spt[m.to := Adopt(s.spt[m.to], m)]
    requires s'.wire == s.wire - multiset{m} + multiset(Offers(t, m.to, m.root, m.cost, m.port, 0))
    ensures Work(t, s') < Work(t, s)
  {
    var bound := Total(t.stpCost, |t.stpCost|);
    AdoptedSound(t, s.spt, s'.spt, m);
    CostBounded(t, s'.spt, m.root, m.cost, m.to);
    BetterRank(s'.spt[m.to], s.spt[m.to], bound);
    RanksUpdate(s.spt, bound, m.to, s'.spt[m.to]);
    FanoutBound(t, m.to);
    assert |s'.wire| <= |s.wire| - 1 + |t.ports[m.to]|;
    WorkDrops(Total(Ranks(s.spt, bound), |s.spt|), Total(Ranks(s'.spt, bound), |s'.spt|),
              Fanout(t), |s.wire|, |s'.wire|);
  }

  lemma WorkDrops(rank: nat, rank': nat, fanout: nat, wire: nat, wire': nat)
    requires rank' < rank && wire' < wire + fanout
    ensures rank' * fanout + wire' < rank * fanout + wire
  {
    MulLe(rank' + 1, rank, fanout);
  }

  lemma StepProgress(t: Topology, s: Net, m: Bpdu, s': Net)
    requires ValidTopology(t) && Inv(t, s) && Step(t, s, m, s')
    ensures Work(t, s') < Work(t, s)
  {
    DeliverProgress(t, s, m);
  }

  lemma RunProgress(t: Topology, run: seq<Net>, ms: seq<Bpdu>, i: nat)
    requires ValidTopology(t) && Run(t, run, ms) && 0 < i < |run|
    ensures Work(t, run[i]) < Work(t, run[i - 1])
  {
    RunInv(t, run, ms, i - 1);
    assert StateAt(t, run, ms, i);
    StepProgress(t, run[i - 1], ms[i - 1], run[i]);
  }

  /** Every exchange stops: a run makes at most as many deliveries as its first state has work. */
  lemma {:induction false} Termination(t: Topology, run: seq<Net>, ms: seq<Bpdu>, i: nat)
    requires ValidTopology(t) && Run(t, run, ms) && i < |run|
    ensures i + Work(t, run[i]) <= Work(t, run[0])
  {
    if i > 0 {
      Termination(t, run, ms, i - 1);
      RunProgress(t, run, ms, i);
    }
  }

  lemma RunExtends(t: Topology, run: seq<Net>, ms: seq<Bpdu>, m: Bpdu)
    requires ValidTopology(t) && Run(t, run, ms) && NetOk(t, run[|run| - 1]) && m in run[|run| - 1].wire
    ensures Run(t, run + [Deliver(t, run[|run| - 1], m)], ms + [m])
  {
    var s := run[|run| - 1];
    var run' := run + [Deliver(t, s, m)];
    forall i | 0 <= i < |run'| ensures StateAt(t, run', ms + [m], i) {
      assert i < |run| ==> StateAt(t, run, ms, i);
    }
  }

  /** An exchange that has BPDUs in flight can go on, one that goes on gets closer to its end, and
      at its end every switch holds its best root and cost: every exchange elects. */
  lemma EveryExchangeElects(t: Topology, run: seq<Net>, ms: seq<Bpdu>, m: Bpdu, v: nat)
    requires ValidTopology(t) && Run(t, run, ms) && v < |t.ports|
    ensures |ms| <= Work(t, run[0]) && NetOk(t, run[|run| - 1])
    ensures m in run[|run| - 1].wire ==> Run(t, run + [Deliver(t, run[|run| - 1], m)], ms + [m])
    ensures run[|run| - 1].wire == multiset{} ==> HoldsBest(t, run[|run| - 1], v)
  {
    Termination(t, run, ms, |run| - 1);
    RunInv(t, run, ms, |run| - 1);
    if m in run[|run| - 1].wire {
      RunExtends(t, run, ms, m);
    }
    if run[|run| - 1].wire == multiset{} {
      QuietHoldsBest(t, run[|run| - 1], v);
    }
  }
}
