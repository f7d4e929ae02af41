/** What holds in every state that the election can reach, whatever the delivery order: pairs held or in
    flight are costs of real paths, and no switch's pair gets worse. */
module SpanningSafety {
  import opened SpanningTree

  /** c is the cost of a real simple path from switch r to switch v. */
  ghost predicate RealCost(t: Topology, r: nat, c: nat, v: nat)
    requires ValidTopology(t)
  {
    exists p :: IsPath(t, p) && Distinct(p) && p[0] == r && p[|p| - 1] == v && PathCost(t, p) == c
  }

  /** A held pair is the cost of a real simple path from the switch with the root's id. */
  lemma HeldIsReal(t: Topology, run: seq<Net>, ms: seq<Bpdu>, i: nat, v: nat)
    requires ValidTopology(t) && Run(t, run, ms) && i < |run| && v < |t.ports|
    ensures |run[i].spt| == |t.ports| && RealCost(t, run[i].spt[v].root, run[i].spt[v].cost, v)
  {
    RunInv(t, run, ms, i);
    var spt := run[i].spt;
    assert SoundAt(t, spt, v);
  }

  /** A BPDU in flight carries the cost of a real simple path to its sender, plus the sender's
      own stpCost. */
  lemma InFlightIsReal(t: Topology, run: seq<Net>, ms: seq<Bpdu>, i: nat, m: Bpdu)
    requires ValidTopology(t) && Run(t, run, ms) && i < |run| && m in run[i].wire
    ensures m.bridge < |t.ports| && m.cost >= t.stpCost[m.bridge]
    ensures RealCost(t, m.root, m.cost - t.stpCost[m.bridge], m.bridge)
  {
    RunInv(t, run, ms, i);
    assert SoundBpdu(t, run[i].spt, m);
  }

  lemma RunStepImproves(t: Topology, run: seq<Net>, ms: seq<Bpdu>, j: nat)
    requires ValidTopology(t) && Run(t, run, ms) && 0 < j < |run|
    ensures Improves(run[j - 1].spt, run[j].spt)
  {
    RunInv(t, run, ms, j - 1);
    assert StateAt(t, run, ms, j);
    StepInv(t, run[j - 1], ms[j - 1], run[j]);
  }

  /** Along a run no switch's pair ever gets worse. */
  lemma {:induction false} NeverWorse(t: Topology, run: seq<Net>, ms: seq<Bpdu>, i: nat, j: nat)
    requires ValidTopology(t) && Run(t, run, ms) && i <= j < |run|
    ensures Improves(run[i].spt, run[j].spt)
    decreases j
  {
    if i < j {
      NeverWorse(t, run, ms, i, j - 1);
      RunStepImproves(t, run, ms, j);
    }
  }
}
