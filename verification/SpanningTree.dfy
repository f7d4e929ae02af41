/** The spanning-tree election of Ethernet/SpanningTree.c.

    Switches exchange configuration BPDUs. A switch adopts a BPDU that names a smaller
    root, or the same root at a smaller path cost, and then offers its own improved pair
    on every other port. The state of the protocol is what each switch holds plus the
    multiset of BPDUs in flight; a step delivers any one BPDU in flight.

    Switch ids are their ranks in the order of _stricmp, so the switches of a network
    of n switches are 0, ..., n-1. */
module SpanningTree {

  // ----- Topology --------------------------------------------------------------------------------

  /** A port leads to another switch that runs the protocol, or to anything else. */
  datatype Port = Edge | Trunk(peer: nat)

  /** `arrival[(u, v)]` is the port of v on which a frame that u addresses to v comes in. */
  datatype Topology = Topology(stpCost: seq<nat>, ports: seq<seq<Port>>, arrival: map<(nat, nat), nat>)

  ghost predicate Linked(t: Topology, u: nat, v: nat) {
    u < |t.ports| && Trunk(v) in t.ports[u]
  }

  /** Links are symmetric and arrivals are on a port that faces the sender. Parallel links
      between two switches are allowed. */
  ghost predicate ValidTopology(t: Topology) {
    && |t.stpCost| == |t.ports|
    && (forall u: nat, v: nat | Linked(t, u, v) :: v < |t.ports| && Linked(t, v, u))
    && (forall u: nat, v: nat | Linked(t, u, v) ::
          && (u, v) in t.arrival
          && t.arrival[(u, v)] < |t.ports[v]|
          && t.ports[v][t.arrival[(u, v)]] == Trunk(u))
  }

  // ----- Protocol state --------------------------------------------------------------------------

  /** What a switch believes: root id, cost to it, and the port that leads there. */
  datatype Spt = Spt(root: nat, cost: nat, rootPort: nat)

  /** A BPDU sent by `bridge`, arriving at port `port` of switch `to`. */
  datatype Bpdu = Bpdu(root: nat, cost: nat, bridge: nat, to: nat, port: nat)

  datatype Verdict = Block | Forward | DontForward

  /** compare_bpdu */
  function CompareBpdu(b: Bpdu, spt: Spt, self: nat, port: nat): Verdict {
    if b.root == spt.root then
      if spt.root == self then DontForward
      else if b.cost == spt.cost then (if spt.rootPort == port then DontForward else Block)
      else if b.cost < spt.cost then Forward
      else Block
    else if b.root < spt.root then Forward
    else DontForward
  }

  /** The strict lexicographic order on (root, cost). */
  predicate Better(r: nat, c: nat, r': nat, c': nat) {
    r < r' || (r == r' && c < c')
  }

  /** The switch holds a pair no worse than (r, c). */
  predicate AtMost(spt: Spt, r: nat, c: nat) {
    !Better(r, c, spt.root, spt.cost)
  }

  /** The BPDUs a switch u that holds (root, cost) sends from its ports i, i+1, ...,
      leaving out port `skip` (send_config_bpdu and the loop of forward_bpdu). */
  function Offers(t: Topology, u: nat, root: nat, cost: nat, skip: int, i: nat): (out: seq<Bpdu>)
    requires ValidTopology(t) && u < |t.ports| && i <= |t.ports[u]|
    ensures |out| <= |t.ports[u]| - i
    ensures forall m | m in out ::
              && m.root == root && m.cost == cost + t.stpCost[u] && m.bridge == u
              && Linked(t, u, m.to) && m.port == t.arrival[(u, m.to)]
    ensures forall k | i <= k < |t.ports[u]| && k != skip && t.ports[u][k].Trunk? ::
              Offer(t, u, root, cost, t.ports[u][k].peer) in out
    decreases |t.ports[u]| - i
  {
    if i == |t.ports[u]| then []
    else
      var rest := Offers(t, u, root, cost, skip, i + 1);
      var p := t.ports[u][i];
      if i == skip || p.Edge? then rest
      else
        assert Linked(t, u, p.peer);
        [Offer(t, u, root, cost, p.peer)] + rest
  }

  lemma Regroup(ms: seq<Bpdu>, m: Bpdu, rest: seq<Bpdu>)
    ensures (ms + [m]) + rest == ms + ([m] + rest)
  {
  }

  /** create_bpdu and copy_bpdu: the sender's own stpCost is added on the way out. */
  function Offer(t: Topology, u: nat, root: nat, cost: nat, v: nat): Bpdu
    requires ValidTopology(t) && u < |t.ports| && Linked(t, u, v)
  {
    Bpdu(root, cost + t.stpCost[u], u, v, t.arrival[(u, v)])
  }

  /** update_spt */
  function Adopt(spt: Spt, b: Bpdu): Spt {
    Spt(b.root, b.cost, b.port)
  }

  /** The network: what each switch holds and the BPDUs in flight. */
  datatype Net = Net(spt: seq<Spt>, wire: multiset<Bpdu>)

  ghost predicate WireOk(t: Topology, wire: multiset<Bpdu>)
    requires ValidTopology(t)
  {
    forall m | m in wire :: Linked(t, m.bridge, m.to) && m.port == t.arrival[(m.bridge, m.to)]
  }

  ghost predicate NetOk(t: Topology, s: Net)
    requires ValidTopology(t)
  {
    |s.spt| == |t.ports| && WireOk(t, s.wire)
  }

  /** The BPDUs sent by switches 0, ..., k-1 when every switch starts as root. */
  ghost function InitialWire(t: Topology, k: nat): (wire: multiset<Bpdu>)
    requires ValidTopology(t) && k <= |t.ports|
  {
    if k == 0 then multiset{}
    else InitialWire(t, k - 1) + multiset(Offers(t, k - 1, k - 1, 0, -1, 0))
  }

  /** start_spt_for_lan on every switch. */
  ghost function Init(t: Topology): Net
    requires ValidTopology(t)
  {
    Net(seq(|t.ports|, i requires 0 <= i => Spt(i, 0, 0)), InitialWire(t, |t.ports|))
  }

  /** process_configbpdu on BPDU m. */
  ghost function Deliver(t: Topology, s: Net, m: Bpdu): Net
    requires ValidTopology(t) && NetOk(t, s) && m in s.wire
  {
    var wire := s.wire - multiset{m};
    if CompareBpdu(m, s.spt[m.to], m.to, m.port) == Forward then
      Net(s.spt[m.to := Adopt(s.spt[m.to], m)],
          wire + multiset(Offers(t, m.to, m.root, m.cost, m.port, 0)))
    else
      Net(s.spt, wire)
  }

  /** BPDU m is delivered. */
  ghost predicate Step(t: Topology, s: Net, m: Bpdu, s': Net)
    requires ValidTopology(t)
  {
    NetOk(t, s) && m in s.wire && s' == Deliver(t, s, m)
  }

  /** State i of a run: the initial state, or one delivery after state i - 1. */
  ghost predicate StateAt(t: Topology, run: seq<Net>, ms: seq<Bpdu>, i: nat)
    requires ValidTopology(t) && i < |run| == |ms| + 1
  {
    if i == 0 then run[0] == Init(t) else Step(t, run[i - 1], ms[i - 1], run[i])
  }

  /** A run from the initial state that delivers ms in this order; every delivery order is the order
      of some run. */
  ghost predicate Run(t: Topology, run: seq<Net>, ms: seq<Bpdu>)
    requires ValidTopology(t)
  {
    |run| == |ms| + 1 && forall i | 0 <= i < |run| :: StateAt(t, run, ms, i)
  }

  // ----- Paths -----------------------------------------------------------------------------------

  ghost predicate HopAt(t: Topology, p: seq<nat>, i: nat)
    requires 0 < i < |p|
  {
    Linked(t, p[i - 1], p[i])
  }

  ghost predicate IsPath(t: Topology, p: seq<nat>) {
    && |p| > 0
    && (forall i | 0 <= i < |p| :: p[i] < |t.ports|)
    && (forall i | 0 < i < |p| :: HopAt(t, p, i))
  }

  /** The summed stpCost of the first k switches of p. */
  ghost function PrefixCost(t: Topology, p: seq<nat>, k: nat): (c: nat)
    requires k <= |p| && forall i | 0 <= i < |p| :: p[i] < |t.stpCost|
  {
    if k == 0 then 0 else PrefixCost(t, p, k - 1) + t.stpCost[p[k - 1]]
  }

  /** The summed stpCost of the bridges from the start of p up to the last but one. */
  ghost function PathCost(t: Topology, p: seq<nat>): (c: nat)
    requires ValidTopology(t) && IsPath(t, p)
  {
    PrefixCost(t, p, |p| - 1)
  }

  ghost predicate Distinct(p: seq<nat>) {
    forall i, j | 0 <= i < j < |p| :: p[i] != p[j]
  }

  lemma {:induction false} PrefixCheaper(t: Topology, p: seq<nat>, i: nat, k: nat)
    requires i <= k <= |p| && forall i | 0 <= i < |p| :: p[i] < |t.stpCost|
    ensures PrefixCost(t, p, i) <= PrefixCost(t, p, k)
  {
    if i < k {
      PrefixCheaper(t, p, i, k - 1);
    }
  }

  /** The cost of a prefix does not depend on what follows it. */
  lemma {:induction false} PrefixCostLocal(t: Topology, p: seq<nat>, q: seq<nat>, k: nat)
    requires k <= |p| <= |q| && q[..|p|] == p
    requires forall i | 0 <= i < |q| :: q[i] < |t.stpCost|
    requires forall i | 0 <= i < |p| :: p[i] < |t.stpCost|
    ensures PrefixCost(t, q, k) == PrefixCost(t, p, k)
  {
    if k > 0 {
      PrefixCostLocal(t, p, q, k - 1);
      assert q[..|p|][k - 1] == q[k - 1];
    }
  }

  // ----- The inductive invariant -----------------------------------------------------------------

  ghost predicate SupportsAt(t: Topology, spt: seq<Spt>, p: seq<nat>, r: nat, i: nat)
    requires ValidTopology(t) && |spt| == |t.ports| && IsPath(t, p) && i < |p|
  {
    AtMost(spt[p[i]], r, PrefixCost(t, p, i))
  }

  /** p is a simple path from root r along which no switch holds a pair worse than (r, the
      cost up to there). */
  ghost predicate Supports(t: Topology, spt: seq<Spt>, p: seq<nat>, r: nat)
    requires ValidTopology(t) && |spt| == |t.ports|
  {
    && IsPath(t, p) && p[0] == r && Distinct(p)
    && forall i | 0 <= i < |p| :: SupportsAt(t, spt, p, r, i)
  }

  /** (r, c) is the cost of a supported path that ends at v. */
  ghost predicate Sound(t: Topology, spt: seq<Spt>, r: nat, c: nat, v: nat)
    requires ValidTopology(t) && |spt| == |t.ports|
  {
    exists p :: Supports(t, spt, p, r) && p[|p| - 1] == v && PathCost(t, p) == c
  }

  /** The pair that v holds is sound. */
  ghost predicate SoundAt(t: Topology, spt: seq<Spt>, v: nat)
    requires ValidTopology(t) && |spt| == |t.ports| && v < |spt|
  {
    Sound(t, spt, spt[v].root, spt[v].cost, v)
  }

  ghost predicate SoundBpdu(t: Topology, spt: seq<Spt>, m: Bpdu)
    requires ValidTopology(t) && |spt| == |t.ports|
  {
    && m.bridge < |t.ports| && m.cost >= t.stpCost[m.bridge]
    && Sound(t, spt, m.root, m.cost - t.stpCost[m.bridge], m.bridge)
  }

  /** Over the link from u to v: v already holds something at least as good as u's offer,
      or that very offer is in flight. */
  ghost predicate Covered(t: Topology, s: Net, u: nat, v: nat)
    requires ValidTopology(t) && |s.spt| == |t.ports| && Linked(t, u, v)
  {
    var o := Offer(t, u, s.spt[u].root, s.spt[u].cost, v);
    AtMost(s.spt[v], o.root, o.cost) || o in s.wire
  }

  ghost predicate OwnRootFree(spt: seq<Spt>) {
    forall v | 0 <= v < |spt| :: spt[v].root <= v && (spt[v].root == v ==> spt[v].cost == 0)
  }

  ghost predicate AllSound(t: Topology, s: Net)
    requires ValidTopology(t) && |s.spt| == |t.ports|
  {
    && (forall v | 0 <= v < |s.spt| :: SoundAt(t, s.spt, v))
    && (forall m | m in s.wire :: SoundBpdu(t, s.spt, m))
  }

  ghost predicate AllCovered(t: Topology, s: Net)
    requires ValidTopology(t) && |s.spt| == |t.ports|
  {
    forall u: nat, v: nat | Linked(t, u, v) :: Covered(t, s, u, v)
  }

  ghost predicate Inv(t: Topology, s: Net)
    requires ValidTopology(t)
  {
    NetOk(t, s) && OwnRootFree(s.spt) && AllSound(t, s) && AllCovered(t, s)
  }

  /** Every switch holds in spt' a pair at least as good as in spt. */
  ghost predicate Improves(spt: seq<Spt>, spt': seq<Spt>) {
    && |spt| == |spt'|
    && forall v | 0 <= v < |spt| :: AtMost(spt'[v], spt[v].root, spt[v].cost)
  }

  /** compare_bpdu says FORWARD exactly for a strictly better pair. */
  lemma ForwardIffBetter(b: Bpdu, spt: Spt, self: nat, port: nat)
    requires spt.root == self ==> spt.cost == 0
    ensures CompareBpdu(b, spt, self, port) == Forward <==> Better(b.root, b.cost, spt.root, spt.cost)
  {
  }

  lemma OffersToAll(t: Topology, u: nat, v: nat)
    requires ValidTopology(t) && u < |t.ports| && Linked(t, u, v)
    ensures Offer(t, u, u, 0, v) in Offers(t, u, u, 0, -1, 0)
  {
    var i :| 0 <= i < |t.ports[u]| && t.ports[u][i] == Trunk(v);
    assert t.ports[u][i].peer == v;
  }

  lemma {:induction false} InitialWireHas(t: Topology, k: nat, u: nat, v: nat)
    requires ValidTopology(t) && u < k <= |t.ports| && Linked(t, u, v)
    ensures Offer(t, u, u, 0, v) in InitialWire(t, k)
  {
    if u < k - 1 {
      InitialWireHas(t, k - 1, u, v);
    } else {
      OffersToAll(t, u, v);
    }
  }

  lemma {:induction false} InitialWireOnly(t: Topology, k: nat, m: Bpdu)
    requires ValidTopology(t) && k <= |t.ports| && m in InitialWire(t, k)
    ensures m.bridge < k && Linked(t, m.bridge, m.to) && m == Offer(t, m.bridge, m.bridge, 0, m.to)
  {
    if m !in Offers(t, k - 1, k - 1, 0, -1, 0) {
      InitialWireOnly(t, k - 1, m);
    }
  }

  lemma InitSound(t: Topology, v: nat)
    requires ValidTopology(t) && v < |t.ports|
    ensures Sound(t, Init(t).spt, v, 0, v)
  {
    var p := [v];
    assert PathCost(t, p) == 0;
    assert Supports(t, Init(t).spt, p, v);
  }

  lemma InitBpdu(t: Topology, m: Bpdu)
    requires ValidTopology(t) && m in InitialWire(t, |t.ports|)
    ensures Linked(t, m.bridge, m.to) && m.port == t.arrival[(m.bridge, m.to)] && SoundBpdu(t, Init(t).spt, m)
  {
    InitialWireOnly(t, |t.ports|, m);
    InitSound(t, m.bridge);
  }

  lemma InitCovered(t: Topology, u: nat, v: nat)
    requires ValidTopology(t) && Linked(t, u, v)
    ensures Covered(t, Init(t), u, v)
  {
    InitialWireHas(t, |t.ports|, u, v);
  }

  lemma InitNetOk(t: Topology)
    requires ValidTopology(t)
    ensures NetOk(t, Init(t)) && OwnRootFree(Init(t).spt)
  {
    forall m | m in InitialWire(t, |t.ports|)
      ensures Linked(t, m.bridge, m.to) && m.port == t.arrival[(m.bridge, m.to)]
    {
      InitBpdu(t, m);
    }
  }

  lemma InitAllSound(t: Topology)
    requires ValidTopology(t)
    ensures AllSound(t, Init(t))
  {
    var spt := Init(t).spt;
    forall v | 0 <= v < |spt| ensures SoundAt(t, spt, v) {
      InitSound(t, v);
    }
    forall m | m in Init(t).wire ensures SoundBpdu(t, spt, m) {
      InitBpdu(t, m);
    }
  }

  lemma InitInv(t: Topology)
    requires ValidTopology(t)
    ensures Inv(t, Init(t))
  {
    InitNetOk(t);
    InitAllSound(t);
    forall u: nat, v: nat | Linked(t, u, v) ensures Covered(t, Init(t), u, v) {
      InitCovered(t, u, v);
    }
  }

  /** Switches only improve, so a supported path stays supported. */
  lemma SoundMonotone(t: Topology, spt: seq<Spt>, spt': seq<Spt>, r: nat, c: nat, v: nat)
    requires ValidTopology(t) && |spt| == |t.ports|
    requires Improves(spt, spt') && Sound(t, spt, r, c, v)
    ensures Sound(t, spt', r, c, v)
  {
    var p :| Supports(t, spt, p, r) && p[|p| - 1] == v && PathCost(t, p) == c;
    forall i | 0 <= i < |p| ensures SupportsAt(t, spt', p, r, i) {
      assert SupportsAt(t, spt, p, r, i);
    }
    assert Supports(t, spt', p, r);
  }

  /** A switch that adopts m is not on m's path. */
  lemma AdopterNotOnPath(t: Topology, spt: seq<Spt>, m: Bpdu, p: seq<nat>)
    requires ValidTopology(t) && |spt| == |t.ports| && m.to < |spt|
    requires Supports(t, spt, p, m.root) && PathCost(t, p) <= m.cost
    requires Better(m.root, m.cost, spt[m.to].root, spt[m.to].cost)
    ensures m.to !in p
  {
    forall i | 0 <= i < |p| ensures p[i] != m.to {
      assert SupportsAt(t, spt, p, m.root, i);
      PrefixCheaper(t, p, i, |p| - 1);
    }
  }

  lemma PathExtends(t: Topology, p: seq<nat>, v: nat)
    requires ValidTopology(t) && IsPath(t, p) && Distinct(p) && v !in p && Linked(t, p[|p| - 1], v)
    ensures IsPath(t, p + [v]) && Distinct(p + [v])
    ensures forall i | 0 <= i < |p| :: PrefixCost(t, p + [v], i) == PrefixCost(t, p, i)
    ensures PathCost(t, p + [v]) == PathCost(t, p) + t.stpCost[p[|p| - 1]]
  {
    var q := p + [v];
    forall i | 0 < i < |q| ensures HopAt(t, q, i) {
      assert i < |p| ==> HopAt(t, p, i);
    }
    forall i | 0 <= i < |p| ensures PrefixCost(t, q, i) == PrefixCost(t, p, i) {
      PrefixCostLocal(t, p, q, i);
    }
  }

  /** The path that supports an adopted BPDU, extended by its adopter, is again simple. */
  lemma AdoptedSound(t: Topology, spt: seq<Spt>, spt': seq<Spt>, m: Bpdu)
    requires ValidTopology(t) && |spt| == |t.ports| && SoundBpdu(t, spt, m)
    requires Linked(t, m.bridge, m.to)
    requires Better(m.root, m.cost, spt[m.to].root, spt[m.to].cost)
    requires spt' == spt[m.to := Adopt(spt[m.to], m)]
    ensures Sound(t, spt', m.root, m.cost, m.to)
  {
    var p :| Supports(t, spt, p, m.root) && p[|p| - 1] == m.bridge
             && PathCost(t, p) == m.cost - t.stpCost[m.bridge];
    AdopterNotOnPath(t, spt, m, p);
    PathExtends(t, p, m.to);
    var q := p + [m.to];
    forall i | 0 <= i < |q| ensures SupportsAt(t, spt', q, m.root, i) {
      assert i < |p| ==> SupportsAt(t, spt, p, m.root, i);
    }
    assert Supports(t, spt', q, m.root);
  }

  /** The bridge that sent m holds a pair that makes any echo of m to it worthless. */
  lemma SenderAhead(t: Topology, spt: seq<Spt>, m: Bpdu, c: nat)
    requires ValidTopology(t) && |spt| == |t.ports| && SoundBpdu(t, spt, m) && c >= m.cost
    ensures AtMost(spt[m.bridge], m.root, c)
  {
    var p :| Supports(t, spt, p, m.root) && p[|p| - 1] == m.bridge
             && PathCost(t, p) == m.cost - t.stpCost[m.bridge];
    assert SupportsAt(t, spt, p, m.root, |p| - 1);
  }

  /** What a delivery does to the switches' pairs. */
  lemma DeliverImproves(t: Topology, s: Net, m: Bpdu)
    requires ValidTopology(t) && NetOk(t, s) && OwnRootFree(s.spt) && m in s.wire
    ensures Improves(s.spt, Deliver(t, s, m).spt) && OwnRootFree(Deliver(t, s, m).spt)
  {
    assert Linked(t, m.bridge, m.to);
    ForwardIffBetter(m, s.spt[m.to], m.to, m.port);
  }

  lemma DeliverNetOk(t: Topology, s: Net, m: Bpdu)
    requires ValidTopology(t) && NetOk(t, s) && m in s.wire
    ensures NetOk(t, Deliver(t, s, m))
  {
    var s' := Deliver(t, s, m);
    forall x | x in s'.wire ensures Linked(t, x.bridge, x.to) && x.port == t.arrival[(x.bridge, x.to)] {
    }
  }

  /** The offers of a switch that adopts m reach all its neighbours, except that the one port left
      out faces the bridge that m came from, which is ahead already. */
  lemma AdopterCovered(t: Topology, spt: seq<Spt>, m: Bpdu, v: nat)
    requires ValidTopology(t) && |spt| == |t.ports| && SoundBpdu(t, spt, m)
    requires Linked(t, m.bridge, m.to) && m.port == t.arrival[(m.bridge, m.to)] && Linked(t, m.to, v)
    ensures var o := Offer(t, m.to, m.root, m.cost, v);
            AtMost(spt[v], o.root, o.cost) || o in Offers(t, m.to, m.root, m.cost, m.port, 0)
  {
    var k :| 0 <= k < |t.ports[m.to]| && t.ports[m.to][k] == Trunk(v);
    if k == m.port {
      SenderAhead(t, spt, m, m.cost + t.stpCost[m.to]);
    }
  }

  lemma AdoptCovered(t: Topology, s: Net, s': Net, m: Bpdu, u: nat, v: nat)
    requires ValidTopology(t) && |s.spt| == |t.ports| && Linked(t, m.bridge, m.to) && m.to < |s.spt|
    requires m.port == t.arrival[(m.bridge, m.to)] && SoundBpdu(t, s.spt, m)
    requires s'.spt == s.spt[m.to := Adopt(s.spt[m.to], m)] && Improves(s.spt, s'.spt)
    requires s'.wire == s.wire - multiset{m} + multiset(Offers(t, m.to, m.root, m.cost, m.port, 0))
    requires Linked(t, u, v) && Covered(t, s, u, v)
    ensures Covered(t, s', u, v)
  {
    if u == m.to {
      AdopterCovered(t, s.spt, m, v);
    }
  }

  lemma DeliverCovered(t: Topology, s: Net, m: Bpdu, u: nat, v: nat)
    requires ValidTopology(t) && NetOk(t, s) && OwnRootFree(s.spt) && m in s.wire && SoundBpdu(t, s.spt, m)
    requires Linked(t, u, v) && Covered(t, s, u, v)
    ensures Covered(t, Deliver(t, s, m), u, v)
  {
    assert Linked(t, m.bridge, m.to);
    ForwardIffBetter(m, s.spt[m.to], m.to, m.port);
    DeliverImproves(t, s, m);
    if CompareBpdu(m, s.spt[m.to], m.to, m.port) == Forward {
      AdoptCovered(t, s, Deliver(t, s, m), m, u, v);
    }
  }

  lemma DeliverSoundSwitch(t: Topology, s: Net, m: Bpdu, v: nat)
    requires ValidTopology(t) && NetOk(t, s) && OwnRootFree(s.spt) && m in s.wire && SoundBpdu(t, s.spt, m)
    requires v < |s.spt| && SoundAt(t, s.spt, v)
    ensures SoundAt(t, Deliver(t, s, m).spt, v)
  {
    var s' := Deliver(t, s, m);
    if s'.spt[v] == s.spt[v] {
      DeliverImproves(t, s, m);
      SoundMonotone(t, s.spt, s'.spt, s.spt[v].root, s.spt[v].cost, v);
    } else {
      ForwardIffBetter(m, s.spt[m.to], m.to, m.port);
      AdoptedSound(t, s.spt, s'.spt, m);
    }
  }

  /** A BPDU in flight stays sound while switches improve. */
  lemma StillSoundBpdu(t: Topology, spt: seq<Spt>, spt': seq<Spt>, x: Bpdu)
    requires ValidTopology(t) && |spt| == |t.ports| && Improves(spt, spt') && SoundBpdu(t, spt, x)
    ensures SoundBpdu(t, spt', x)
  {
    SoundMonotone(t, spt, spt', x.root, x.cost - t.stpCost[x.bridge], x.bridge);
  }

  lemma DeliverSoundBpdu(t: Topology, s: Net, m: Bpdu, x: Bpdu)
    requires ValidTopology(t) && Inv(t, s) && m in s.wire
    ensures x in Deliver(t, s, m).wire ==> SoundBpdu(t, Deliver(t, s, m).spt, x)
  {
    var s' := Deliver(t, s, m);
    assert SoundBpdu(t, s.spt, m);
    if x in s.wire {
      DeliverImproves(t, s, m);
      assert SoundBpdu(t, s.spt, x);
      StillSoundBpdu(t, s.spt, s'.spt, x);
    } else if x in s'.wire {
      ForwardIffBetter(m, s.spt[m.to], m.to, m.port);
      AdoptedSound(t, s.spt, s'.spt, m);
    }
  }

  /** Every delivery keeps the invariant. */
  lemma DeliverInv(t: Topology, s: Net, m: Bpdu)
    requires ValidTopology(t) && Inv(t, s) && m in s.wire
    ensures Inv(t, Deliver(t, s, m))
  {
    var s' := Deliver(t, s, m);
    DeliverNetOk(t, s, m);
    DeliverImproves(t, s, m);
    forall v: nat | v < |s'.spt| ensures SoundAt(t, s'.spt, v) {
      assert SoundAt(t, s.spt, v);
      DeliverSoundSwitch(t, s, m, v);
    }
    forall x | x in s'.wire ensures SoundBpdu(t, s'.spt, x) {
      DeliverSoundBpdu(t, s, m, x);
    }
    forall u: nat, v: nat | Linked(t, u, v) ensures Covered(t, s', u, v) {
      DeliverCovered(t, s, m, u, v);
    }
  }

  lemma StepInv(t: Topology, s: Net, m: Bpdu, s': Net)
    requires ValidTopology(t) && Inv(t, s) && Step(t, s, m, s')
    ensures Inv(t, s') && Improves(s.spt, s'.spt)
  {
    DeliverInv(t, s, m);
    DeliverImproves(t, s, m);
  }

  lemma {:induction false} RunInv(t: Topology, run: seq<Net>, ms: seq<Bpdu>, i: nat)
    requires ValidTopology(t) && Run(t, run, ms) && i < |run|
    ensures Inv(t, run[i])
  {
    if i == 0 {
      assert StateAt(t, run, ms, 0);
      InitInv(t);
    } else {
      RunInv(t, run, ms, i - 1);
      assert StateAt(t, run, ms, i);
      StepInv(t, run[i - 1], ms[i - 1], run[i]);
    }
  }
}
