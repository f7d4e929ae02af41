/** The flood of AODV route requests (AODV/RREQ.c; section 6.5 of RFC 3561): every device keeps
    the requests it has seen and never drops one from that table. */
module AodvFlood {

  /** What identifies a request. Devices are 0, ..., n-1 and stand for their addresses. */
  datatype Key = Key(originator: nat, id: nat)

  /** One act of a device on one request. */
  datatype Act = Act(device: nat, key: Key)

  /** The seen tables, the global request counter, the requests put on the air (generated or
      forwarded), the requests accepted, that is, not discarded as duplicates, and those of them that
      were forwarded. */
  datatype Net = Net(seen: seq<seq<Key>>, nRreqId: nat, sent: seq<Act>, accepted: seq<Act>, relayed: seq<Act>)

  /** The branches of ProcessRREQ behind the duplicate check. */
  datatype Situation = Situation(isDestination: bool, counter: nat, routeFound: bool, destinationOnly: bool,
                                 nextHopIsSender: bool, ttl: nat)

  /** How often an accepted request is put on the air again. The forward call stands under "route
      found"; there, a route that leads back to the sender is forwarded by
      GenerateRREPByIntermediate and then once more by its caller. */
  function Forwards(w: Situation): (k: nat)
    ensures k == 0 || k == 2
    ensures k == 2 <==> Relays(w)
  {
    if w.isDestination || w.counter > 25 then 0
    else if w.routeFound && !w.destinationOnly then ForwardsByIntermediate(w)
    else 0
  }

  /** fn_NetSim_AODV_GenerateRREPByIntermediate forwards instead of replying if the route leads back;
      its caller then forwards too. */
  function ForwardsByIntermediate(w: Situation): nat {
    if !w.nextHopIsSender then 0 else ForwardOnce(w) + ForwardOnce(w)
  }

  /** fn_NetSim_AODV_ForwardRREQ drops a request at the end of its time to live. */
  function ForwardOnce(w: Situation): nat {
    if w.ttl == 1 then 0 else 1
  }

  /** Only a device that has a route back to the sender, is not the destination and is not congested
      passes a request on. */
  predicate Relays(w: Situation) {
    && !w.isDestination && w.counter <= 25 && w.routeFound && w.nextHopIsSender
    && !w.destinationOnly && w.ttl != 1
  }

  /** fn_NetSim_AODV_GenerateRREQ and RetryRREQ, as far as the flood is concerned. */
  function Generate(s: Net, d: nat): Net
    requires d < |s.seen|
  {
    var key := Key(d, s.nRreqId + 1);
    s.(seen := s.seen[d := s.seen[d] + [key]], nRreqId := s.nRreqId + 1, sent := s.sent + [Act(d, key)])
  }

  /** fn_NetSim_AODV_ProcessRREQ */
  function Receive(s: Net, d: nat, key: Key, w: Situation): Net
    requires d < |s.seen|
  {
    if key in s.seen[d] then s
    else
      var a := Act(d, key);
      s.(seen := s.seen[d := s.seen[d] + [key]],
         sent := s.sent + seq(Forwards(w), _ => a),
         accepted := s.accepted + [a],
         relayed := if Relays(w) then s.relayed + [a] else s.relayed)
  }

  datatype Event = Start(d: nat) | Arrive(d: nat, a: Act, w: Situation)

  /** A request that was ever on the air may arrive anywhere, any number of times, at any time. */
  ghost predicate Enabled(s: Net, ev: Event) {
    ev.d < |s.seen| && (ev.Arrive? ==> ev.a in s.sent)
  }

  ghost function Next(s: Net, ev: Event): Net
    requires Enabled(s, ev)
  {
    match ev
    case Start(d) => Generate(s, d)
    case Arrive(d, a, w) => Receive(s, d, a.key, w)
  }

  /** State i of a run. */
  ghost predicate StateAt(run: seq<Net>, evs: seq<Event>, i: nat)
    requires i < |run| == |evs| + 1
  {
    if i == 0 then run[0] == Net(seq(|run[0].seen|, _ => []), 0, [], [], [])
    else Enabled(run[i - 1], evs[i - 1]) && run[i] == Next(run[i - 1], evs[i - 1])
  }

  ghost predicate Run(run: seq<Net>, evs: seq<Event>) {
    |run| == |evs| + 1 && forall i | 0 <= i < |run| :: StateAt(run, evs, i)
  }

  // ----- The invariant ---------------------------------------------------------------------------

  ghost function Count(acts: seq<Act>, key: Key): nat {
    if acts == [] then 0 else Count(acts[..|acts| - 1], key) + (if acts[|acts| - 1].key == key then 1 else 0)
  }

  /** How many of the first k devices have seen the request. */
  ghost function Seers(seen: seq<seq<Key>>, key: Key, k: nat): (n: nat)
    requires k <= |seen|
    ensures n <= k
  {
    if k == 0 then 0 else Seers(seen, key, k - 1) + (if key in seen[k - 1] then 1 else 0)
  }

  /** A request was generated exactly if its number has been given out to its originator. */
  ghost predicate Generated(s: Net, key: Key) {
    key.originator < |s.seen| && key in s.seen[key.originator]
  }

  ghost predicate NoRepeats(acts: seq<Act>) {
    forall i, j | 0 <= i < j < |acts| :: acts[i] != acts[j]
  }

  ghost predicate Inv(s: Net) {
    && (forall d, key | 0 <= d < |s.seen| && key in s.seen[d] :: key.id <= s.nRreqId && Generated(s, key))
    && (forall a | a in s.sent :: Generated(s, a.key))
    && (forall a | a in s.accepted :: a.device < |s.seen| && a.key in s.seen[a.device] && a.device != a.key.originator)
    && NoRepeats(s.accepted)
  }

  /** The books balance: the devices that have seen a request are its originator and those that
      accepted it; it went on the air once and twice for every device that passed it on. */
  ghost predicate Balanced(s: Net, key: Key) {
    && Seers(s.seen, key, |s.seen|) == Count(s.accepted, key) + (if Generated(s, key) then 1 else 0)
    && Count(s.sent, key) == 2 * Count(s.relayed, key) + (if Generated(s, key) then 1 else 0)
    && Count(s.relayed, key) <= Count(s.accepted, key)
  }

  lemma CountAppend(acts: seq<Act>, a: Act, key: Key)
    ensures Count(acts + [a], key) == Count(acts, key) + (if a.key == key then 1 else 0)
  {
    assert (acts + [a])[..|acts|] == acts;
  }

  lemma {:induction false} CountRepeat(acts: seq<Act>, a: Act, n: nat, key: Key)
    ensures Count(acts + seq(n, _ => a), key) == Count(acts, key) + (if a.key == key then n else 0)
  {
    if n == 0 {
      assert acts + seq(0, _ => a) == acts;
    } else {
      CountRepeat(acts, a, n - 1, key);
      assert acts + seq(n, _ => a) == (acts + seq(n - 1, _ => a)) + [a];
      CountAppend(acts + seq(n - 1, _ => a), a, key);
    }
  }

  lemma {:induction false} SeersAppend(seen: seq<seq<Key>>, d: nat, added: Key, key: Key, k: nat)
    requires d < |seen| && k <= |seen| && added !in seen[d]
    ensures Seers(seen[d := seen[d] + [added]], key, k)
            == Seers(seen, key, k) + (if d < k && added == key then 1 else 0)
  {
    if k > 0 {
      SeersAppend(seen, d, added, key, k - 1);
    }
  }

  lemma GenerateInv(s: Net, d: nat)
    requires Inv(s) && d < |s.seen|
    ensures Inv(Generate(s, d))
  {
    var s', key := Generate(s, d), Key(d, s.nRreqId + 1);
    assert key in s'.seen[d];
    forall x | Generated(s, x) ensures Generated(s', x) {
    }
    forall e, x | 0 <= e < |s'.seen| && x in s'.seen[e] ensures x.id <= s'.nRreqId && Generated(s', x) {
      if x != key {
        assert x in s.seen[e];
      }
    }
  }

  /** The number of a new request is fresh, so nobody has seen it. */
  lemma FreshKey(s: Net, d: nat, e: nat)
    requires Inv(s) && d < |s.seen| && e < |s.seen|
    ensures Key(d, s.nRreqId + 1) !in s.seen[e]
  {
  }

  lemma SeenAppend(s: Net, s': Net, d: nat, added: Key, key: Key)
    requires d < |s.seen| && s'.seen == s.seen[d := s.seen[d] + [added]]
    ensures Generated(s', key) <==> Generated(s, key) || (key == added && d == key.originator)
  {
  }

  lemma GenerateBalanced(s: Net, d: nat, key: Key)
    requires d < |s.seen| && Balanced(s, key) && Key(d, s.nRreqId + 1) !in s.seen[d]
    ensures Balanced(Generate(s, d), key)
  {
    var added := Key(d, s.nRreqId + 1);
    SeenAppend(s, Generate(s, d), d, added, key);
    SeersAppend(s.seen, d, added, key, |s.seen|);
    CountAppend(s.sent, Act(d, added), key);
  }

  lemma ReceiveInv(s: Net, d: nat, key: Key, w: Situation)
    requires Inv(s) && d < |s.seen| && Generated(s, key)
    ensures Inv(Receive(s, d, key, w))
  {
    var s' := Receive(s, d, key, w);
    if key !in s.seen[d] {
      forall x | Generated(s, x) ensures Generated(s', x) {
      }
      assert key.id <= s.nRreqId;
      assert key in s'.seen[d];
      assert Act(d, key) !in s.accepted;
    }
  }

  lemma ReceiveBalanced(s: Net, d: nat, x: Key, w: Situation, key: Key)
    requires d < |s.seen| && Generated(s, x) && Balanced(s, key)
    ensures Balanced(Receive(s, d, x, w), key)
  {
    if x !in s.seen[d] {
      SeenAppend(s, Receive(s, d, x, w), d, x, key);
      SeersAppend(s.seen, d, x, key, |s.seen|);
      CountAppend(s.accepted, Act(d, x), key);
      CountRepeat(s.sent, Act(d, x), Forwards(w), key);
      CountAppend(s.relayed, Act(d, x), key);
    }
  }

  lemma {:induction false} InitSeers(seen: seq<seq<Key>>, key: Key, k: nat)
    requires k <= |seen| && forall d | 0 <= d < |seen| :: seen[d] == []
    ensures Seers(seen, key, k) == 0
  {
    if k > 0 {
      InitSeers(seen, key, k - 1);
    }
  }

  lemma NextInv(s: Net, ev: Event, key: Key)
    requires Inv(s) && Balanced(s, key) && Enabled(s, ev)
    ensures Inv(Next(s, ev)) && Balanced(Next(s, ev), key) && |Next(s, ev).seen| == |s.seen|
  {
    match ev
    case Start(d) =>
      FreshKey(s, d, d);
      GenerateInv(s, d);
      GenerateBalanced(s, d, key);
    case Arrive(d, a, w) =>
      ReceiveInv(s, d, a.key, w);
      ReceiveBalanced(s, d, a.key, w, key);
  }

  /** In every state of every run the tables are consistent and the books of every request balance. */
  lemma {:induction false} RunInv(run: seq<Net>, evs: seq<Event>, i: nat, key: Key)
    requires Run(run, evs) && i < |run|
    ensures Inv(run[i]) && Balanced(run[i], key) && |run[i].seen| == |run[0].seen|
  {
    assert StateAt(run, evs, i);
    if i == 0 {
      InitSeers(run[0].seen, key, |run[0].seen|);
    } else {
      RunInv(run, evs, i - 1, key);
      NextInv(run[i - 1], evs[i - 1], key);
    }
  }

  /** Whatever copies and delays there are, no device accepts a request twice and no originator
      accepts its own. */
  lemma AcceptedOnce(run: seq<Net>, evs: seq<Event>, i: nat)
    requires Run(run, evs) && i < |run|
    ensures NoRepeats(run[i].accepted)
    ensures forall a | a in run[i].accepted :: a.device != a.key.originator
  {
    RunInv(run, evs, i, Key(0, 0));
  }

  /** One request is accepted at most once per device other than its originator. It goes on the air
      once and twice more for every device that passes it on, hence at most 2n - 1 times: every flood
      dies out. */
  lemma FloodBound(run: seq<Net>, evs: seq<Event>, i: nat, key: Key)
    requires Run(run, evs) && i < |run| && Count(run[i].sent, key) > 0
    ensures Count(run[i].accepted, key) <= |run[0].seen| - 1
    ensures Count(run[i].sent, key) == 1 + 2 * Count(run[i].relayed, key)
    ensures Count(run[i].sent, key) <= 2 * |run[0].seen| - 1
  {
    RunInv(run, evs, i, key);
    SentIsGenerated(run[i], run[i].sent, key);
  }

  /** No device that receives the request before state i has a route back to its sender. */
  ghost predicate NoRouteBack(evs: seq<Event>, key: Key, i: nat)
    requires i <= |evs|
  {
    forall j | 0 <= j < i && evs[j].Arrive? && evs[j].a.key == key :: !(evs[j].w.routeFound && evs[j].w.nextHopIsSender)
  }

  lemma NextRelayed(s: Net, ev: Event, key: Key)
    requires Enabled(s, ev)
    requires ev.Arrive? && ev.a.key == key ==> !(ev.w.routeFound && ev.w.nextHopIsSender)
    ensures Count(Next(s, ev).relayed, key) == Count(s.relayed, key)
  {
    if ev.Arrive? {
      CountAppend(s.relayed, Act(ev.d, ev.a.key), key);
    }
  }

  lemma {:induction false} NeverRelayed(run: seq<Net>, evs: seq<Event>, i: nat, key: Key)
    requires Run(run, evs) && i < |run| && NoRouteBack(evs, key, i)
    ensures Count(run[i].relayed, key) == 0
  {
    assert StateAt(run, evs, i);
    if i > 0 {
      NeverRelayed(run, evs, i - 1, key);
      NextRelayed(run[i - 1], evs[i - 1], key);
    }
  }

  /** Since the forward call stands under "route found", a request that finds no route anywhere goes
      on the air exactly once: only the neighbours of its originator hear it. */
  lemma UnroutedSentOnce(run: seq<Net>, evs: seq<Event>, i: nat, key: Key)
    requires Run(run, evs) && i < |run| && NoRouteBack(evs, key, i) && Count(run[i].sent, key) > 0
    ensures Count(run[i].sent, key) == 1
  {
    NeverRelayed(run, evs, i, key);
    FloodBound(run, evs, i, key);
  }

  lemma {:induction false} SentIsGenerated(s: Net, acts: seq<Act>, key: Key)
    requires (forall a | a in acts :: Generated(s, a.key)) && Count(acts, key) > 0
    ensures Generated(s, key)
  {
    if acts[|acts| - 1].key != key {
      SentIsGenerated(s, acts[..|acts| - 1], key);
    } else {
      assert acts[|acts| - 1] in acts;
    }
  }

  // ----- The code --------------------------------------------------------------------------------

  /** One device's seen table (fn_NetSim_AODV_InsertInRREQSeenTable, fnCheckRREQSeenTable). */
  class SeenTable {
    var entries: seq<Key>

    constructor ()
      ensures entries == []
    {
      entries := [];
    }

    method Check(key: Key) returns (seen: bool)
      ensures seen <==> key in entries
    {
      for i := 0 to |entries|
        invariant key !in entries[..i]
      {
        if entries[i] == key {
          return true;
        }
      }
      assert entries[..|entries|] == entries;
      return false;
    }

    /** The duplicate check of ProcessRREQ. */
    method Accept(key: Key) returns (accepted: bool)
      modifies this
      ensures accepted <==> key !in old(entries)
      ensures entries == if accepted then old(entries) + [key] else old(entries)
    {
      var seen := Check(key);
      if seen {
        return false;
      }
      entries := entries + [key];
      return true;
    }
  }
}
