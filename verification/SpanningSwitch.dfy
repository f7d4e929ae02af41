/** The switch as Ethernet/SpanningTree.c keeps it: the code behind the steps of the protocol. */
module SpanningSwitch {
  import opened SpanningTree

  datatype PortType = Designated | NonDesignated | RootPort

  datatype PortState = Disabled | Listening | Learning | Forwarding | Blocking

  /** One LAN of a switch: the fields that process_configbpdu updates in place. */
  class Lan {
    const t: Topology
    const id: nat
    const stpStatus: bool
    var rootId: nat
    var rootPathCost: nat
    var rootPort: nat
    var portType: array<PortType>
    var portState: array<PortState>

    ghost predicate Valid()
      reads this
    {
      && ValidTopology(t) && id < |t.ports|
      && portType.Length == portState.Length == |t.ports[id]|
    }

    function Held(): Spt
      reads this
    {
      Spt(rootId, rootPathCost, rootPort)
    }

    /** start_spt_for_lan: every port forwards and the switch takes itself for the root. */
    constructor (t: Topology, id: nat, stpStatus: bool)
      requires ValidTopology(t) && id < |t.ports|
      ensures Valid() && this.t == t && this.id == id && this.stpStatus == stpStatus
      ensures Held() == Spt(id, 0, 0) && fresh(portType) && fresh(portState)
      ensures forall k | 0 <= k < portState.Length :: portState[k] == Forwarding
    {
      this.t, this.id, this.stpStatus := t, id, stpStatus;
      rootId, rootPathCost, rootPort := id, 0, 0;
      portType := new PortType[|t.ports[id]|](_ => Designated);
      portState := new PortState[|t.ports[id]|](_ => Forwarding);
    }

    /** mark_port */
    method MarkPort(port: nat)
      requires Valid()
      modifies this`rootPort, portType
      ensures Valid() && rootPort == port
      ensures forall k | 0 <= k < portType.Length :: portType[k] == if k == port then RootPort else Designated
    {
      rootPort := port;
      for i := 0 to portType.Length
        invariant rootPort == port
        invariant forall k | 0 <= k < i :: portType[k] == if k == port then RootPort else Designated
      {
        portType[i] := if i == port then RootPort else Designated;
      }
    }

    /** send_config_bpdu and forward_bpdu: offer (root, cost + stpCost) on every trunk but `skip`. */
    method SendOffers(root: nat, cost: nat, skip: int) returns (out: seq<Bpdu>)
      requires Valid()
      ensures out == Offers(t, id, root, cost, skip, 0)
    {
      out := [];
      for i := 0 to |t.ports[id]|
        invariant out + Offers(t, id, root, cost, skip, i) == Offers(t, id, root, cost, skip, 0)
      {
        var p := t.ports[id][i];
        if i != skip && p.Trunk? {
          assert Linked(t, id, p.peer);
          Regroup(out, Offer(t, id, root, cost, p.peer), Offers(t, id, root, cost, skip, i + 1));
          out := out + [Offer(t, id, root, cost, p.peer)];
        }
      }
    }

    /** process_configbpdu, the code behind `Deliver`. */
    method ProcessConfigBpdu(b: Bpdu) returns (out: seq<Bpdu>)
      requires Valid() && b.to == id && b.port < |t.ports[id]|
      modifies this, portType, portState
      ensures Valid() && portType == old(portType) && portState == old(portState)
      ensures var adopts := stpStatus && CompareBpdu(b, old(Held()), id, b.port) == Forward;
              && Held() == (if adopts then Adopt(old(Held()), b) else old(Held()))
              && out == (if adopts then Offers(t, id, b.root, b.cost, b.port, 0) else [])
      ensures var blocks := stpStatus && CompareBpdu(b, old(Held()), id, b.port) == Block;
              && portState[..] == (if blocks then old(portState[..])[b.port := Blocking] else old(portState[..]))
              && (blocks ==> portType[..] == old(portType[..])[b.port := NonDesignated])
      ensures var adopts := stpStatus && CompareBpdu(b, old(Held()), id, b.port) == Forward;
              adopts ==> forall k | 0 <= k < portType.Length ::
                           portType[k] == if k == b.port then RootPort else Designated
      ensures var ignores := !stpStatus || CompareBpdu(b, old(Held()), id, b.port) == DontForward;
              ignores ==> portType[..] == old(portType[..])
    {
      out := [];
      if !stpStatus {
        return;
      }
      match CompareBpdu(b, Held(), id, b.port)
      case Block =>
        portState[b.port] := Blocking;
        portType[b.port] := NonDesignated;
      case Forward =>
        MarkPort(b.port);
        rootId, rootPathCost, rootPort := b.root, b.cost, b.port;
        out := SendOffers(b.root, b.cost, b.port);
      case DontForward =>
    }
  }
}
