/** Root ports and blocked ports. Whatever the delivery order, the root port of a switch leads to the
    neighbour that its pair came from; once nothing is in flight the root ports form a tree of shortest
    paths, and the ports that an offer blocks are the ports outside that tree. */
module SpanningPorts {
  import opened SpanningTree
  import opened SpanningSafety
  import opened SpanningElection

  // ----- The root port in every reachable state --------------------------------------------------

  /** The root port of v faces switch u, on the port where BPDUs of u come in. */
  ghost predicate RootPortFaces(t: Topology, spt: seq<Spt>, v: nat, u: nat)
    requires ValidTopology(t) && |spt| == |t.ports| && v < |spt|
  {
    && spt[v].rootPort < |t.ports[v]| && t.ports[v][spt[v].rootPort] == Trunk(u)
    && Linked(t, u, v) && t.arrival[(u, v)] == spt[v].rootPort
  }

  /** v's pair is an offer that u made, and u holds a pair at least as good as when it made it. */
  ghost predicate HeldFrom(t: Topology, spt: seq<Spt>, v: nat, u: nat)
    requires ValidTopology(t) && |spt| == |t.ports| && v < |spt| && u < |spt|
  {
    spt[v].cost >= t.stpCost[u] && AtMost(spt[u], spt[v].root, spt[v].cost - t.stpCost[u])
  }

  /** A switch that is not its own root has a root port, and the port leads to where its pair is from. */
  ghost predicate PortLeads(t: Topology, spt: seq<Spt>, v: nat)
    requires ValidTopology(t) && |spt| == |t.ports| && v < |spt|
  {
    spt[v].root != v ==>
      exists u: nat :: RootPortFaces(t, spt, v, u) && u != v && HeldFrom(t, spt, v, u)
  }

  /** The sender of m holds a pair at least as good as the one it sent. */
  lemma SenderHolds(t: Topology, spt: seq<Spt>, m: Bpdu)
    requires ValidTopology(t) && |spt| == |t.ports| && m.to < |spt| && SoundBpdu(t, spt, m)
    ensures AtMost(spt[m.bridge], m.root, m.cost - t.stpCost[m.bridge])
    ensures Better(m.root, m.cost, spt[m.to].root, spt[m.to].cost) ==> m.bridge != m.to
  {
    var p :| Supports(t, spt, p, m.root) && p[|p| - 1] == m.bridge
             && PathCost(t, p) == m.cost - t.stpCost[m.bridge];
    assert SupportsAt(t, spt, p, m.root, |p| - 1);
    if Better(m.root, m.cost, spt[m.to].root, spt[m.to].cost) {
      AdopterNotOnPath(t, spt, m, p);
    }
  }

  lemma AdoptedPortLeads(t: Topology, spt: seq<Spt>, m: Bpdu)
    requires ValidTopology(t) && |spt| == |t.ports| && SoundBpdu(t, spt, m)
    requires Linked(t, m.bridge, m.to) && m.port == t.arrival[(m.bridge, m.to)]
    requires Better(m.root, m.cost, spt[m.to].root, spt[m.to].cost)
    ensures PortLeads(t, spt[m.to := Adopt(spt[m.to], m)], m.to)
  {
    SenderHolds(t, spt, m);
    assert RootPortFaces(t, spt[m.to := Adopt(spt[m.to], m)], m.to, m.bridge);
  }

  lemma KeptPortLeads(t: Topology, spt: seq<Spt>, spt': seq<Spt>, v: nat)
    requires ValidTopology(t) && |spt| == |t.ports| && v < |t.ports| && Improves(spt, spt')
    requires PortLeads(t, spt, v) && spt'[v] == spt[v]
    ensures PortLeads(t, spt', v)
  {
    if spt[v].root != v {
      var u: nat :| RootPortFaces(t, spt, v, u) && u != v && HeldFrom(t, spt, v, u);
      assert RootPortFaces(t, spt', v, u) && HeldFrom(t, spt', v, u);
    }
  }

  lemma StepPortLeads(t: Topology, s: Net, m: Bpdu, s': Net, v: nat)
    requires ValidTopology(t) && Inv(t, s) && Step(t, s, m, s') && v < |t.ports| && PortLeads(t, s.spt, v)
    ensures |s'.spt| == |t.ports| && PortLeads(t, s'.spt, v)
  {
    StepInv(t, s, m, s');
    assert SoundBpdu(t, s.spt, m) && Linked(t, m.bridge, m.to);
    ForwardIffBetter(m, s.spt[m.to], m.to, m.port);
    if s'.spt[v] != s.spt[v] {
      AdoptedPortLeads(t, s.spt, m);
    } else {
      KeptPortLeads(t, s.spt, s'.spt, v);
    }
  }

  /** In every state of every run, a switch that is not its own root has as root port a trunk to some u
      that holds the same root at a cost lower by u's stpCost, or something better. */
  lemma {:induction false} RunPortLeads(t: Topology, run: seq<Net>, ms: seq<Bpdu>, i: nat, v: nat)
    requires ValidTopology(t) && Run(t, run, ms) && i < |run| && v < |t.ports|
    ensures |run[i].spt| == |t.ports| && PortLeads(t, run[i].spt, v)
  {
    assert StateAt(t, run, ms, i);
    if i > 0 {
      RunPortLeads(t, run, ms, i - 1, v);
      RunInv(t, run, ms, i - 1);
      StepPortLeads(t, run[i - 1], ms[i - 1], run[i], v);
    }
  }

  // ----- Root ports in a quiet network -----------------------------------------------------------

  /** The parent of v in the tree of root ports. */
  ghost predicate Parent(t: Topology, spt: seq<Spt>, v: nat, u: nat)
    requires ValidTopology(t) && |spt| == |t.ports| && v < |spt|
  {
    && RootPortFaces(t, spt, v, u) && u != v
    && spt[u].root == spt[v].root && spt[v].cost == spt[u].cost + t.stpCost[u]
  }

  lemma QuietParent(t: Topology, s: Net, v: nat, u: nat)
    requires ValidTopology(t) && Inv(t, s) && s.wire == multiset{} && v < |t.ports| && u < |t.ports|
    requires RootPortFaces(t, s.spt, v, u) && u != v && HeldFrom(t, s.spt, v, u)
    ensures Parent(t, s.spt, v, u)
  {
    assert Covered(t, s, u, v);
  }

  /** Once nothing is in flight, the neighbour at the root port holds the same root at exactly the cost
      that is lower by its own stpCost. */
  lemma QuietRootPort(t: Topology, run: seq<Net>, ms: seq<Bpdu>, v: nat)
    requires ValidTopology(t) && Run(t, run, ms) && run[|run| - 1].wire == multiset{} && v < |t.ports|
    ensures var s := run[|run| - 1];
            |s.spt| == |t.ports| && (s.spt[v].root != v ==> exists u: nat :: Parent(t, s.spt, v, u))
  {
    var s := run[|run| - 1];
    RunInv(t, run, ms, |run| - 1);
    RunPortLeads(t, run, ms, |run| - 1, v);
    if s.spt[v].root != v {
      var u: nat :| RootPortFaces(t, s.spt, v, u) && u != v && HeldFrom(t, s.spt, v, u);
      QuietParent(t, s, v, u);
    }
  }

  // ----- The tree --------------------------------------------------------------------------------

  /** The state of the run in which v took what it holds in state i. */
  ghost function AdoptedAt(run: seq<Net>, i: nat, v: nat): (j: nat)
    requires i < |run| && forall k | 0 <= k < |run| :: v < |run[k].spt|
    ensures j <= i && run[j].spt[v] == run[i].spt[v]
  {
    if i == 0 then 0
    else if run[i].spt[v] != run[i - 1].spt[v] then i
    else AdoptedAt(run, i - 1, v)
  }

  ghost predicate Sized(run: seq<Net>, n: nat) {
    forall k | 0 <= k < |run| :: |run[k].spt| == n
  }

  /** While u still holds the pair that it offered to v, it took that pair before v took its own. */
  ghost predicate TookFirst(t: Topology, run: seq<Net>, i: nat, v: nat, u: nat)
    requires ValidTopology(t) && Sized(run, |t.ports|) && i < |run| && v < |t.ports| && u < |t.ports|
  {
    run[i].spt[u].root == run[i].spt[v].root && run[i].spt[v].cost == run[i].spt[u].cost + t.stpCost[u] ==>
      AdoptedAt(run, i, u) < AdoptedAt(run, i, v)
  }

  lemma RunSized(t: Topology, run: seq<Net>, ms: seq<Bpdu>)
    requires ValidTopology(t) && Run(t, run, ms)
    ensures Sized(run, |t.ports|)
  {
    forall k | 0 <= k < |run| ensures |run[k].spt| == |t.ports| {
      RunInv(t, run, ms, k);
    }
  }

  /** A delivery changes at most the pair of the switch it goes to, and only to a better one. */
  lemma StepChanges(t: Topology, s: Net, m: Bpdu, s': Net, v: nat)
    requires ValidTopology(t) && Inv(t, s) && Step(t, s, m, s') && v < |t.ports|
    ensures |s'.spt| == |t.ports| && m.to < |t.ports|
    ensures s'.spt[v] != s.spt[v] ==>
              v == m.to && Better(s'.spt[v].root, s'.spt[v].cost, s.spt[v].root, s.spt[v].cost)
  {
    StepInv(t, s, m, s');
    assert SoundBpdu(t, s.spt, m) && Linked(t, m.bridge, m.to);
    ForwardIffBetter(m, s.spt[m.to], m.to, m.port);
  }

  lemma StepTookFirst(t: Topology, run: seq<Net>, ms: seq<Bpdu>, i: nat, v: nat, u: nat)
    requires ValidTopology(t) && Run(t, run, ms) && Sized(run, |t.ports|) && 0 < i < |run|
    requires v < |t.ports| && u < |t.ports| && u != v
    requires run[i].spt[v] == run[i - 1].spt[v] ==>
               HeldFrom(t, run[i - 1].spt, v, u) && TookFirst(t, run, i - 1, v, u)
    ensures TookFirst(t, run, i, v, u)
  {
    assert StateAt(t, run, ms, i);
    RunInv(t, run, ms, i - 1);
    StepChanges(t, run[i - 1], ms[i - 1], run[i], v);
    StepChanges(t, run[i - 1], ms[i - 1], run[i], u);
    if run[i].spt[v] != run[i - 1].spt[v] {
      assert AdoptedAt(run, i, u) == AdoptedAt(run, i - 1, u) < i;
    } else if run[i].spt[u] == run[i - 1].spt[u] {
      assert AdoptedAt(run, i, v) == AdoptedAt(run, i - 1, v);
    }
  }

  lemma {:induction false} RunTookFirst(t: Topology, run: seq<Net>, ms: seq<Bpdu>, i: nat, v: nat, u: nat)
    requires ValidTopology(t) && Run(t, run, ms) && Sized(run, |t.ports|) && i < |run|
    requires v < |t.ports| && run[i].spt[v].root != v && RootPortFaces(t, run[i].spt, v, u)
    ensures u < |t.ports| && TookFirst(t, run, i, v, u)
  {
    assert StateAt(t, run, ms, i);
    assert i > 0;
    RunPortLeads(t, run, ms, i, v);
    if run[i].spt[v] == run[i - 1].spt[v] {
      assert RootPortFaces(t, run[i - 1].spt, v, u);
      RunTookFirst(t, run, ms, i - 1, v, u);
      RunPortLeads(t, run, ms, i - 1, v);
    }
    StepTookFirst(t, run, ms, i, v, u);
  }

  ghost predicate TreeHop(t: Topology, spt: seq<Spt>, q: seq<nat>, i: nat)
    requires ValidTopology(t) && |spt| == |t.ports| && 0 < i < |q|
  {
    q[i] < |spt| && Parent(t, spt, q[i], q[i - 1])
  }

  /** q is a simple path from its first switch, a root, down to v: every switch on it has the one before
      as parent, so the way back follows root ports. Its cost is the cost that v holds. */
  ghost predicate TreePath(t: Topology, spt: seq<Spt>, q: seq<nat>, v: nat)
    requires ValidTopology(t) && |spt| == |t.ports| && v < |spt|
  {
    && IsPath(t, q) && Distinct(q) && q[|q| - 1] == v
    && q[0] == spt[v].root && spt[q[0]].root == q[0]
    && PathCost(t, q) == spt[v].cost
    && forall i | 0 < i < |q| :: TreeHop(t, spt, q, i)
  }

  ghost predicate InTree(t: Topology, spt: seq<Spt>, v: nat)
    requires ValidTopology(t) && |spt| == |t.ports| && v < |spt|
  {
    exists q :: TreePath(t, spt, q, v)
  }

  /** Nobody on q took its pair after state j. */
  ghost predicate TakenBy(t: Topology, run: seq<Net>, q: seq<nat>, j: nat)
    requires Sized(run, |t.ports|) && |run| > 0
  {
    forall i | 0 <= i < |q| :: q[i] < |t.ports| && AdoptedAt(run, |run| - 1, q[i]) <= j
  }

  lemma TreeExtends(t: Topology, spt: seq<Spt>, q: seq<nat>, u: nat, v: nat)
    requires ValidTopology(t) && |spt| == |t.ports| && u < |spt| && v < |spt| && v !in q
    requires TreePath(t, spt, q, u) && Parent(t, spt, v, u)
    ensures TreePath(t, spt, q + [v], v)
  {
    PathExtends(t, q, v);
    var q' := q + [v];
    forall i | 0 < i < |q'| ensures TreeHop(t, spt, q', i) {
      assert i < |q| ==> TreeHop(t, spt, q, i);
    }
  }

  lemma {:induction false} TreeFrom(t: Topology, run: seq<Net>, ms: seq<Bpdu>, v: nat) returns (q: seq<nat>)
    requires ValidTopology(t) && Run(t, run, ms) && Sized(run, |t.ports|)
    requires run[|run| - 1].wire == multiset{} && v < |t.ports|
    ensures TreePath(t, run[|run| - 1].spt, q, v) && TakenBy(t, run, q, AdoptedAt(run, |run| - 1, v))
    decreases AdoptedAt(run, |run| - 1, v)
  {
    var s := run[|run| - 1];
    if s.spt[v].root == v {
      RunInv(t, run, ms, |run| - 1);
      q := [v];
    } else {
      QuietRootPort(t, run, ms, v);
      var u: nat :| Parent(t, s.spt, v, u);
      RunTookFirst(t, run, ms, |run| - 1, v, u);
      q := TreeFrom(t, run, ms, u);
      TreeExtends(t, s.spt, q, u, v);
      q := q + [v];
    }
  }

  /** Once nothing is in flight the root ports form a tree: from every switch they lead, without a loop,
      to the root that it holds, and the way costs what it holds. No stpCost need be positive. */
  lemma RootPortsFormTree(t: Topology, run: seq<Net>, ms: seq<Bpdu>, v: nat)
    requires ValidTopology(t) && Run(t, run, ms) && run[|run| - 1].wire == multiset{} && v < |t.ports|
    ensures |run[|run| - 1].spt| == |t.ports| && InTree(t, run[|run| - 1].spt, v)
  {
    RunSized(t, run, ms);
    var q := TreeFrom(t, run, ms, v);
  }

  // ----- Blocked ports ---------------------------------------------------------------------------

  /** Once nothing is in flight, the current offer of a neighbour u changes nothing more: v answers it with
      BLOCK exactly if v is not the root and the port it comes in on is not v's root port, and otherwise
      with DONT_FORWARD. So the root port stays open and every redundant one is closed. */
  lemma BlocksOutsideTree(t: Topology, run: seq<Net>, ms: seq<Bpdu>, u: nat, v: nat)
    requires ValidTopology(t) && Run(t, run, ms) && run[|run| - 1].wire == multiset{} && Linked(t, u, v)
    ensures var s := run[|run| - 1];
            && |s.spt| == |t.ports|
            && v < |t.ports|
            && var o := Offer(t, u, s.spt[u].root, s.spt[u].cost, v);
               CompareBpdu(o, s.spt[v], v, o.port)
               == if s.spt[v].root != v && o.port != s.spt[v].rootPort then Block else DontForward
  {
    var s := run[|run| - 1];
    RunInv(t, run, ms, |run| - 1);
    QuietRootPort(t, run, ms, v);
    assert Covered(t, s, u, v) && Covered(t, s, v, u);
  }
}
