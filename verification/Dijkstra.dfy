/** The route computation of FastEmulation/Dijkstra.c: Dijkstra's algorithm over an adjacency
    matrix in which 0 means no edge, with 100000 for infinity, and the path read back from the
    parent array. */
module Dijkstra {
  import opened Common

  const INFINITY := 100000
  const INT_MAX := 0x7fff_ffff

  type Graph = seq<seq<nat>>

  ghost predicate Square(g: Graph) {
    forall u | 0 <= u < |g| :: |g[u]| == |g|
  }

  ghost predicate Edge(g: Graph, u: nat, v: nat)
    requires Square(g)
  {
    u < |g| && v < |g| && g[u][v] > 0
  }

  // ----- Paths and distances ---------------------------------------------------------------------

  ghost predicate IsPath(g: Graph, p: seq<nat>)
    requires Square(g)
  {
    && |p| > 0 && p[0] < |g|
    && forall i | 0 < i < |p| :: Edge(g, p[i - 1], p[i])
  }

  /** The weight of the first k + 1 vertices of p. */
  ghost function Weight(g: Graph, p: seq<nat>, k: nat): nat
    requires Square(g) && IsPath(g, p) && k < |p|
  {
    if k == 0 then 0
    else
      assert Edge(g, p[k - 1], p[k]);
      Weight(g, p, k - 1) + g[p[k - 1]][p[k]]
  }

  ghost predicate PathFromTo(g: Graph, p: seq<nat>, u: nat, v: nat)
    requires Square(g)
  {
    IsPath(g, p) && p[0] == u && p[|p| - 1] == v
  }

  ghost function Length(g: Graph, p: seq<nat>): nat
    requires Square(g) && IsPath(g, p)
  {
    Weight(g, p, |p| - 1)
  }

  /** w is the shortest distance from u to v. */
  ghost predicate IsDistance(g: Graph, u: nat, v: nat, w: nat)
    requires Square(g)
  {
    && (exists p :: PathFromTo(g, p, u, v) && Length(g, p) == w)
    && (forall p | PathFromTo(g, p, u, v) :: w <= Length(g, p))
  }

  lemma {:induction false} WeightLocal(g: Graph, p: seq<nat>, q: seq<nat>, k: nat)
    requires Square(g) && IsPath(g, p) && IsPath(g, q) && k < |p| <= |q| && forall i | 0 <= i < |p| :: p[i] == q[i]
    ensures Weight(g, q, k) == Weight(g, p, k)
  {
    if k > 0 {
      WeightLocal(g, p, q, k - 1);
    }
  }

  lemma ExtendPath(g: Graph, p: seq<nat>, u: nat, v: nat, w: nat)
    requires Square(g) && PathFromTo(g, p, u, v) && Edge(g, v, w)
    ensures PathFromTo(g, p + [w], u, w) && Length(g, p + [w]) == Length(g, p) + g[v][w]
  {
    var q := p + [w];
    forall i | 0 < i < |q| ensures Edge(g, q[i - 1], q[i]) {
      if i < |p| {
        assert Edge(g, p[i - 1], p[i]);
      }
    }
    WeightLocal(g, p, q, |p| - 1);
  }

  // ----- What the arrays mean --------------------------------------------------------------------

  /** Every finite distance but the source's is one edge more than the distance of its parent,
      which is settled. */
  ghost predicate ParentsOk(g: Graph, src: nat, dist: seq<int>, settled: seq<bool>, parent: seq<int>)
    requires Square(g)
  {
    && |dist| == |settled| == |parent| == |g| && src < |g|
    && dist[src] == 0 && parent[src] == -1
    && (forall v: nat | v < |g| :: 0 <= dist[v] <= INFINITY)
    && (forall v: nat | v < |g| && v != src && dist[v] < INFINITY ::
          && 0 <= parent[v] < |g| && settled[parent[v]] && Edge(g, parent[v], v)
          && dist[v] == dist[parent[v]] + g[parent[v]][v])
  }

  /** Settled vertices are no farther than the others. */
  ghost predicate Ordered(g: Graph, dist: seq<int>, settled: seq<bool>)
    requires |dist| == |settled| == |g|
  {
    forall u: nat, v: nat | u < |g| && v < |g| && settled[u] && !settled[v] :: dist[u] <= dist[v]
  }

  /** Edges out of u are relaxed. */
  ghost predicate RelaxedFrom(g: Graph, dist: seq<int>, u: nat)
    requires Square(g) && |dist| == |g| && u < |g|
  {
    forall v: nat | Edge(g, u, v) :: dist[v] <= dist[u] + g[u][v]
  }

  ghost predicate Relaxed(g: Graph, dist: seq<int>, settled: seq<bool>)
    requires Square(g) && |dist| == |settled| == |g|
  {
    forall u: nat | u < |g| && settled[u] :: RelaxedFrom(g, dist, u)
  }

  ghost predicate Inv(g: Graph, src: nat, dist: seq<int>, settled: seq<bool>, parent: seq<int>)
    requires Square(g)
  {
    ParentsOk(g, src, dist, settled, parent) && Ordered(g, dist, settled) && Relaxed(g, dist, settled)
  }

  /** u, settled last, has been relaxed: every other unsettled vertex took the better of its
      distance and the one through u. */
  ghost predicate RelaxStep(g: Graph, u: nat, dist: seq<int>, parent: seq<int>, settled: seq<bool>,
                            dist': seq<int>, parent': seq<int>)
    requires Square(g) && u < |g| && |dist| == |parent| == |settled| == |dist'| == |parent'| == |g|
  {
    forall v: nat | v < |g| ::
      if !settled[v] && g[u][v] > 0 && dist[u] + g[u][v] < dist[v]
      then dist'[v] == dist[u] + g[u][v] && parent'[v] == u
      else dist'[v] == dist[v] && parent'[v] == parent[v]
  }

  lemma RelaxRelaxed(g: Graph, u: nat, dist: seq<int>, parent: seq<int>, settled: seq<bool>,
                     dist': seq<int>, parent': seq<int>)
    requires Square(g) && u < |g| && |dist| == |parent| == |settled| == |dist'| == |parent'| == |g| && settled[u]
    requires forall w: nat | w < |g| && settled[w] :: dist[w] <= dist[u]
    requires forall w: nat | w < |g| && settled[w] && w != u :: RelaxedFrom(g, dist, w)
    requires RelaxStep(g, u, dist, parent, settled, dist', parent')
    ensures Relaxed(g, dist', settled)
  {
    forall w: nat, v: nat | w < |g| && settled[w] && Edge(g, w, v)
      ensures dist'[v] <= dist'[w] + g[w][v]
    {
      if w != u {
        assert RelaxedFrom(g, dist, w);
      }
    }
  }

  /** Settling the nearest unsettled vertex and relaxing it keeps the invariant. */
  lemma SettleInv(g: Graph, src: nat, u: nat, dist: seq<int>, parent: seq<int>, settled: seq<bool>,
                  dist': seq<int>, parent': seq<int>)
    requires Square(g) && u < |g| && Inv(g, src, dist, settled, parent) && !settled[u]
    requires forall v: nat | v < |g| && !settled[v] :: dist[u] <= dist[v]
    requires |dist'| == |parent'| == |g|
    requires RelaxStep(g, u, dist, parent, settled[u := true], dist', parent')
    ensures Inv(g, src, dist', settled[u := true], parent')
  {
    var settled' := settled[u := true];
    assert ParentsOk(g, src, dist, settled', parent);
    assert Ordered(g, dist, settled');
    RelaxRelaxed(g, u, dist, parent, settled', dist', parent');
  }

  /** When at most one vertex is left unsettled, distances satisfy every edge. */
  lemma AllEdges(g: Graph, dist: seq<int>, settled: seq<bool>)
    requires Square(g) && |dist| == |settled| == |g| && Ordered(g, dist, settled) && Relaxed(g, dist, settled)
    requires forall u: nat, v: nat | u < |g| && v < |g| && !settled[u] && !settled[v] :: u == v
    ensures forall u: nat, v: nat | Edge(g, u, v) :: dist[v] <= dist[u] + g[u][v]
  {
    forall u: nat, v: nat | Edge(g, u, v) ensures dist[v] <= dist[u] + g[u][v] {
      if settled[u] {
        assert RelaxedFrom(g, dist, u);
      }
    }
  }

  /** No path is shorter than the computed distance of its end. */
  lemma {:induction false} NoShorterPath(g: Graph, src: nat, dist: seq<int>, p: seq<nat>, k: nat)
    requires Square(g) && |dist| == |g| && IsPath(g, p) && p[0] == src && k < |p| && dist[src] == 0
    requires forall u: nat, v: nat | Edge(g, u, v) :: dist[v] <= dist[u] + g[u][v]
    ensures p[k] < |g| && dist[p[k]] <= Weight(g, p, k)
  {
    if k > 0 {
      NoShorterPath(g, src, dist, p, k - 1);
      assert Edge(g, p[k - 1], p[k]);
    }
  }

  /** The vertices from the source to v along the parents. Every edge weighs something, so the
      parents get strictly nearer and the chain ends. */
  ghost function ParentPath(g: Graph, src: nat, dist: seq<int>, settled: seq<bool>, parent: seq<int>, v: nat)
    : (p: seq<nat>)
    requires Square(g) && ParentsOk(g, src, dist, settled, parent) && v < |g| && dist[v] < INFINITY
    ensures |p| > 0 && p[0] == src && p[|p| - 1] == v
    decreases dist[v]
  {
    if v == src then [v]
    else
      assert Edge(g, parent[v], v);
      ParentPath(g, src, dist, settled, parent, parent[v]) + [v]
  }

  lemma {:induction false} ParentPathReal(g: Graph, src: nat, dist: seq<int>, settled: seq<bool>, parent: seq<int>,
                                          v: nat)
    requires Square(g) && ParentsOk(g, src, dist, settled, parent) && v < |g| && dist[v] < INFINITY
    ensures var p := ParentPath(g, src, dist, settled, parent, v);
            PathFromTo(g, p, src, v) && Length(g, p) == dist[v]
    decreases dist[v]
  {
    if v != src {
      var u := parent[v];
      assert Edge(g, u, v);
      ParentPathReal(g, src, dist, settled, parent, u);
      ExtendPath(g, ParentPath(g, src, dist, settled, parent, u), src, u, v);
    }
  }

  /** d is the shortest distance to v if that is below INFINITY; otherwise it is INFINITY and
      no path to v is shorter than that. */
  ghost predicate Correct(g: Graph, src: nat, v: nat, d: int)
    requires Square(g)
  {
    && 0 <= d <= INFINITY
    && (d < INFINITY ==> IsDistance(g, src, v, d))
    && (d == INFINITY ==> forall p | PathFromTo(g, p, src, v) :: Length(g, p) >= INFINITY)
  }

  ghost predicate Shortest(g: Graph, src: nat, dist: seq<int>)
    requires Square(g)
  {
    |dist| == |g| && forall v: nat | v < |g| :: Correct(g, src, v, dist[v])
  }

  /** Put as a value: the true distance clamped at INFINITY, and INFINITY without any path. */
  lemma CorrectIsClamped(g: Graph, src: nat, v: nat, d: int)
    requires Square(g) && Correct(g, src, v, d)
    ensures forall w: nat | IsDistance(g, src, v, w) :: d == Min(w, INFINITY)
    ensures (forall p :: !PathFromTo(g, p, src, v)) ==> d == INFINITY
  {
    forall w: nat | IsDistance(g, src, v, w) ensures d == Min(w, INFINITY) {
      var p :| PathFromTo(g, p, src, v) && Length(g, p) == w;
      if d < INFINITY {
        var q :| PathFromTo(g, q, src, v) && Length(g, q) == d;
      }
    }
  }

  lemma CorrectAt(g: Graph, src: nat, dist: seq<int>, settled: seq<bool>, parent: seq<int>, v: nat)
    requires Square(g) && ParentsOk(g, src, dist, settled, parent) && v < |g|
    requires forall u: nat, v: nat | Edge(g, u, v) :: dist[v] <= dist[u] + g[u][v]
    ensures Correct(g, src, v, dist[v])
  {
    if dist[v] < INFINITY {
      ParentPathReal(g, src, dist, settled, parent, v);
    }
    forall p | PathFromTo(g, p, src, v) ensures dist[v] <= Length(g, p) {
      NoShorterPath(g, src, dist, p, |p| - 1);
    }
  }

  // ----- The algorithm ---------------------------------------------------------------------------

  /** How many of the first k vertices are unsettled. */
  ghost function Open(settled: seq<bool>, k: nat): nat
    requires k <= |settled|
  {
    if k == 0 then 0 else Open(settled, k - 1) + (if settled[k - 1] then 0 else 1)
  }

  lemma {:induction false} SettleOne(settled: seq<bool>, u: nat, k: nat)
    requires k <= |settled| && u < |settled| && !settled[u]
    ensures Open(settled[u := true], k) == Open(settled, k) - (if u < k then 1 else 0)
  {
    if k > 0 {
      SettleOne(settled, u, k - 1);
    }
  }

  lemma {:induction false} SomeOpen(settled: seq<bool>, k: nat)
    requires k <= |settled| && Open(settled, k) > 0
    ensures exists v: nat :: v < k && !settled[v]
  {
    if settled[k - 1] {
      SomeOpen(settled, k - 1);
    }
  }

  lemma {:induction false} AtLeastOpen(settled: seq<bool>, u: nat, k: nat)
    requires u < k <= |settled| && !settled[u]
    ensures Open(settled, k) >= 1
  {
    if u < k - 1 {
      AtLeastOpen(settled, u, k - 1);
    }
  }

  lemma {:induction false} TwoOpen(settled: seq<bool>, u: nat, v: nat, k: nat)
    requires u < v < k <= |settled| && !settled[u] && !settled[v]
    ensures Open(settled, k) >= 2
  {
    if v < k - 1 {
      TwoOpen(settled, u, v, k - 1);
    } else {
      AtLeastOpen(settled, u, k - 1);
    }
  }

  lemma {:induction false} AllOpen(settled: seq<bool>, k: nat)
    requires k <= |settled| && forall v | 0 <= v < k :: !settled[v]
    ensures Open(settled, k) == k
  {
    if k > 0 {
      AllOpen(settled, k - 1);
    }
  }

  /** minDistance: the last of the nearest unsettled vertices. */
  method MinDistance(dist: array<int>, sptSet: array<bool>) returns (u: nat)
    requires dist.Length == sptSet.Length
    requires forall v | 0 <= v < dist.Length :: dist[v] <= INT_MAX
    requires exists v :: 0 <= v < dist.Length && !sptSet[v]
    ensures u < dist.Length && !sptSet[u]
    ensures forall v: nat | v < dist.Length && !sptSet[v] :: dist[u] < dist[v] || (dist[u] == dist[v] && v <= u)
  {
    var min := INT_MAX;
    u := 0;
    ghost var found := false;
    for v := 0 to dist.Length
      invariant found ==> u < v && !sptSet[u] && dist[u] == min
      invariant !found ==> min == INT_MAX && u == 0
      invariant found <==> exists w :: 0 <= w < v && !sptSet[w]
      invariant forall w | 0 <= w < v && !sptSet[w] :: min < dist[w] || (min == dist[w] && w <= u)
    {
      if !sptSet[v] && dist[v] <= min {
        min, u := dist[v], v;
        found := true;
      }
    }
  }

  /** The inner loop of dijkstra_algo. */
  method Relax(g: Graph, u: nat, dist: array<int>, sptSet: array<bool>, parent: array<int>)
    requires Square(g) && dist.Length == sptSet.Length == parent.Length == |g| && u < |g| && sptSet[u]
    requires dist != parent
    modifies dist, parent
    ensures RelaxStep(g, u, old(dist[..]), old(parent[..]), sptSet[..], dist[..], parent[..])
  {
    for v := 0 to |g|
      invariant forall w: nat | w < |g| ::
                  if w < v && !sptSet[w] && g[u][w] > 0 && old(dist[u]) + g[u][w] < old(dist[w])
                  then dist[w] == old(dist[u]) + g[u][w] && parent[w] == u
                  else dist[w] == old(dist[w]) && parent[w] == old(parent[w])
    {
      if !sptSet[v] && g[u][v] != 0 && dist[u] + g[u][v] < dist[v] {
        parent[v] := u;
        dist[v] := dist[u] + g[u][v];
      }
    }
  }

  /** One turn of the outer loop: settle the nearest vertex and relax its edges. */
  method SettleNearest(g: Graph, ghost src: nat, dist: array<int>, sptSet: array<bool>, parent: array<int>)
    requires Square(g) && dist != parent && Inv(g, src, dist[..], sptSet[..], parent[..])
    requires Open(sptSet[..], |g|) > 0
    modifies dist, sptSet, parent
    ensures Inv(g, src, dist[..], sptSet[..], parent[..])
    ensures Open(sptSet[..], |g|) == old(Open(sptSet[..], |g|)) - 1
  {
    ghost var dist0, parent0, settled0 := dist[..], parent[..], sptSet[..];
    SomeOpen(settled0, |g|);
    assert forall v | 0 <= v < dist.Length :: dist[v] == dist0[v];
    var u := MinDistance(dist, sptSet);
    sptSet[u] := true;
    assert sptSet[..] == settled0[u := true];
    Relax(g, u, dist, sptSet, parent);
    SettleOne(settled0, u, |g|);
    SettleInv(g, src, u, dist0, parent0, settled0, dist[..], parent[..]);
  }

  lemma InitialInv(g: Graph, src: nat, dist: seq<int>, settled: seq<bool>, parent: seq<int>)
    requires Square(g) && src < |g| && |dist| == |settled| == |parent| == |g|
    requires forall v | 0 <= v < |g| :: dist[v] == (if v == src then 0 else INFINITY) && !settled[v] && parent[v] == -1
    ensures Inv(g, src, dist, settled, parent) && Open(settled, |g|) == |g|
  {
    AllOpen(settled, |g|);
  }

  /** dijkstra_algo up to the output of the path. */
  method ShortestPaths(g: Graph, src: nat)
    returns (dist: array<int>, parent: array<int>, ghost settled: seq<bool>)
    requires Square(g) && src < |g|
    ensures dist.Length == parent.Length == |g| && fresh(dist) && fresh(parent)
    ensures Shortest(g, src, dist[..])
    ensures ParentsOk(g, src, dist[..], settled, parent[..])
  {
    var n := |g|;
    dist := new int[n](_ => INFINITY);
    var sptSet := new bool[n](_ => false);
    parent := new int[n](_ => -1);
    dist[src] := 0;
    InitialInv(g, src, dist[..], sptSet[..], parent[..]);
    for count := 0 to n - 1
      invariant Inv(g, src, dist[..], sptSet[..], parent[..])
      invariant Open(sptSet[..], n) == n - count
    {
      SettleNearest(g, src, dist, sptSet, parent);
    }
    settled := sptSet[..];
    FinalShortest(g, src, dist[..], settled, parent[..]);
  }

  lemma FinalShortest(g: Graph, src: nat, dist: seq<int>, settled: seq<bool>, parent: seq<int>)
    requires Square(g) && Inv(g, src, dist, settled, parent) && Open(settled, |g|) <= 1
    ensures Shortest(g, src, dist)
  {
    forall u: nat, v: nat | u < |g| && v < |g| && !settled[u] && !settled[v] ensures u == v {
      if u < v {
        TwoOpen(settled, u, v, |g|);
      } else if v < u {
        TwoOpen(settled, v, u, |g|);
      }
    }
    AllEdges(g, dist, settled);
    forall v: nat | v < |g| ensures Correct(g, src, v, dist[v]) {
      CorrectAt(g, src, dist, settled, parent, v);
    }
  }

  // ----- The path as it is written out -----------------------------------------------------------

  /** Device numbers start at 1. */
  ghost function Devices(p: seq<nat>): seq<nat> {
    seq(|p|, i requires 0 <= i < |p| => p[i] + 1)
  }

  /** The parent of vertex i of p is the vertex before it; the first has none. */
  ghost predicate ChainAt(parent: seq<int>, p: seq<nat>, i: nat)
    requires i < |p|
  {
    p[i] < |parent| && parent[p[i]] == if i == 0 then -1 else p[i - 1]
  }

  /** p is the chain of parents that ends at v. */
  ghost predicate IsChain(parent: seq<int>, p: seq<nat>, v: nat) {
    |p| > 0 && p[|p| - 1] == v && forall i | 0 <= i < |p| :: ChainAt(parent, p, i)
  }

  lemma ChainFront(parent: seq<int>, p: seq<nat>, v: nat)
    requires IsChain(parent, p, v) && |p| > 1
    ensures IsChain(parent, p[..|p| - 1], p[|p| - 2])
  {
    var q := p[..|p| - 1];
    forall i | 0 <= i < |q| ensures ChainAt(parent, q, i) {
      assert ChainAt(parent, p, i);
    }
  }

  lemma ChainExtends(parent: seq<int>, p: seq<nat>, u: nat, v: nat)
    requires IsChain(parent, p, u) && v < |parent| && parent[v] == u
    ensures IsChain(parent, p + [v], v)
  {
    var q := p + [v];
    forall i | 0 <= i < |q| ensures ChainAt(parent, q, i) {
      if i < |p| {
        assert ChainAt(parent, p, i);
      }
    }
  }

  /** The parents of a vertex at finite distance form a chain back to the source. */
  lemma {:induction false} ParentPathChain(g: Graph, src: nat, dist: seq<int>, settled: seq<bool>, parent: seq<int>,
                                           v: nat)
    requires Square(g) && ParentsOk(g, src, dist, settled, parent) && v < |g| && dist[v] < INFINITY
    ensures IsChain(parent, ParentPath(g, src, dist, settled, parent, v), v)
    decreases dist[v]
  {
    if v == src {
      assert ChainAt(parent, [v], 0);
    } else {
      var u := parent[v];
      assert Edge(g, u, v);
      ParentPathChain(g, src, dist, settled, parent, u);
      ChainExtends(parent, ParentPath(g, src, dist, settled, parent, u), u, v);
    }
  }

  /** The global list that the path is appended to. */
  class RouteList {
    var list: seq<nat>

    constructor ()
      ensures list == []
    {
      list := [];
    }

    /** printPath, for the chain p of parents of j: everything after its first vertex. */
    method PrintPath(parent: array<int>, j: nat, ghost p: seq<nat>)
      requires IsChain(parent[..], p, j)
      modifies this
      ensures list == old(list) + Devices(p[1..])
      decreases |p|
    {
      assert ChainAt(parent[..], p, |p| - 1);
      if parent[j] == -1 {
        return;
      }
      ghost var q := p[..|p| - 1];
      ChainFront(parent[..], p, j);
      assert q + [j] == p;
      PrintPath(parent, parent[j], q);
      list := list + [j + 1];
    }

    /** printSolution_list: the path to dest if its distance is finite. */
    method PrintSolution(dist: array<int>, parent: array<int>, src: nat, dest: nat, ghost p: seq<nat>)
      requires dest < dist.Length
      requires dist[dest] != INFINITY ==> IsChain(parent[..], p, dest) && p[0] == src
      modifies this
      ensures list == old(list) + if dist[dest] == INFINITY then [] else Devices(p)
    {
      if dist[dest] != INFINITY {
        list := list + [src + 1];
        PrintPath(parent, dest, p);
      }
    }

    /** dijkstra_algo: the devices written out, if any, are a shortest path from src to dest. */
    method Route(g: Graph, src: nat, dest: nat) returns (found: bool, ghost p: seq<nat>)
      requires Square(g) && src < |g| && dest < |g|
      modifies this
      ensures found ==> list == old(list) + Devices(p) && PathFromTo(g, p, src, dest)
                        && IsDistance(g, src, dest, Length(g, p)) && Length(g, p) < INFINITY
      ensures !found ==> list == old(list) && forall q | PathFromTo(g, q, src, dest) :: Length(g, q) >= INFINITY
    {
      var dist, parent;
      ghost var settled;
      dist, parent, settled := ShortestPaths(g, src);
      ghost var d, ps := dist[..], parent[..];
      assert Correct(g, src, dest, d[dest]);
      found := dist[dest] != INFINITY;
      p := [];
      if found {
        p := ParentPath(g, src, d, settled, ps, dest);
        ParentPathReal(g, src, d, settled, ps, dest);
        ParentPathChain(g, src, d, settled, ps, dest);
      }
      PrintSolution(dist, parent, src, dest, p);
    }
  }
}
