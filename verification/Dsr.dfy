/** DSR route discovery (DSR/RouteRequest.c and RouteReply.c; section 8.2 of RFC 4728): requests
    record the nodes they pass, and the reply goes back along the record. */
module Dsr {
  import opened Common

  const RREQ_OPT_LEN := 6

  /** A request in flight. The length of the record is kept only in an eight-bit field. */
  datatype Request = Request(initiator: Ip, target: Ip, id: nat, record: seq<Ip>, optLen: nat)

  /** A route reply, the node that holds it and the number of hops it has made. */
  datatype Reply = Reply(addresses: seq<Ip>, holder: Ip, hops: nat)

  datatype Seen = Seen(id: nat, target: Ip)

  /** Node v has read outside the address array of a request. */
  datatype Fault = Fault(v: Ip, r: Request)

  /** The request tables of the nodes, the requests on the air, the replies under way and the faults
      so far. */
  datatype Net = Net(tables: seq<seq<Seen>>, air: set<Request>, replies: set<Reply>, faults: seq<Fault>)

  /** DSR_RREQ_LEN: the number of addresses according to the length field. The division truncates
      toward zero. */
  function RreqLen(optLen: nat): int {
    if optLen >= 6 then (optLen - 6) / 4 else -((6 - optLen) / 4)
  }

  /** The node that transmitted the request last. */
  function Sender(r: Request): Ip {
    if r.record == [] then r.initiator else r.record[|r.record| - 1]
  }

  /** fn_NetSim_DSR_GenerateRREP: initiator, record, target. */
  function Addresses(r: Request): seq<Ip> {
    [r.initiator] + r.record + [r.target]
  }

  /** The request as node v passes it on: eight bits of length. */
  function Extend(r: Request, v: Ip): Request {
    r.(record := r.record + [v], optLen := (r.optLen + 4) % 256)
  }

  /** v hears what u sends. */
  type Links = set<(Ip, Ip)>

  // ----- Steps -----------------------------------------------------------------------------------

  datatype Event =
    | Initiate(u: Ip, target: Ip, id: nat)
    | SetTable(u: Ip, table: seq<Seen>)
    | Receive(v: Ip, r: Request, cached: bool)
    | PassReply(p: Reply)

  ghost predicate Enabled(links: Links, s: Net, ev: Event) {
    match ev
    case Initiate(u, target, id) => u < |s.tables| && u != target
    case SetTable(u, _) => u < |s.tables|
    case Receive(v, r, _) => v < |s.tables| && r in s.air && (Sender(r), v) in links
    case PassReply(p) => p in s.replies && p.addresses != [] && p.holder != p.addresses[0] && p.holder in p.addresses
  }

  /** The first position of x in a. */
  function First(a: seq<Ip>, x: Ip): (i: nat)
    requires x in a
    ensures i < |a| && a[i] == x && forall j | 0 <= j < i :: a[j] != x
  {
    if a[0] == x then 0 else 1 + First(a[1..], x)
  }

  /** fn_NetSim_DSR_ForwardRREP: the node before the holder's first position. */
  function Pass(p: Reply): Reply
    requires p.addresses != [] && p.holder in p.addresses && p.holder != p.addresses[0]
  {
    Reply(p.addresses, p.addresses[First(p.addresses, p.holder) - 1], p.hops + 1)
  }

  /** fn_NetSim_DSR_ProcessRREQ; `cached` says that the route cache answers, which is not followed
      further. A length field below that of an empty record counts minus one address: the target then
      reads before its reply's array, and any other node before the record, and what they do after
      that is not defined. */
  ghost function Process(s: Net, v: Ip, r: Request, cached: bool): Net
    requires v < |s.tables|
  {
    var entry := Seen(r.id, r.target);
    if entry in s.tables[v] then s
    else
      var once := s.tables[v := s.tables[v] + [entry]];
      if RreqLen(r.optLen) < 0 then s.(tables := once, faults := s.faults + [Fault(v, r)])
      else if r.target == v then
        var a := Addresses(r);
        s.(tables := once, replies := s.replies + {Reply(a, a[|a| - 2], 1)})
      else if v in r.record then s.(tables := once)
      else
        var twice := once[v := once[v] + [entry]];
        if cached then s.(tables := twice) else s.(tables := twice, air := s.air + {Extend(r, v)})
  }

  ghost function Next(s: Net, ev: Event): Net
    requires ev.PassReply? ==> ev.p.addresses != [] && ev.p.holder in ev.p.addresses && ev.p.holder != ev.p.addresses[0]
    requires ev.Initiate? || ev.SetTable? ==> ev.u < |s.tables|
    requires ev.Receive? ==> ev.v < |s.tables|
  {
    match ev
    case Initiate(u, target, id) =>
      s.(tables := s.tables[u := s.tables[u] + [Seen(id, target)]],
         air := s.air + {Request(u, target, id, [], RREQ_OPT_LEN)})
    case SetTable(u, table) => s.(tables := s.tables[u := table])
    case Receive(v, r, cached) => Process(s, v, r, cached)
    case PassReply(p) => s.(replies := s.replies + {Pass(p)})
  }

  /** Requests and replies stay available: they may be heard by any number of nodes at any time. */
  ghost predicate Run(links: Links, run: seq<Net>, evs: seq<Event>) {
    && |run| == |evs| + 1
    && run[0].air == {} && run[0].replies == {} && run[0].faults == []
    && forall i | 0 <= i < |evs| :: Enabled(links, run[i], evs[i]) && run[i + 1] == Next(run[i], evs[i])
  }

  // ----- The record ------------------------------------------------------------------------------

  ghost predicate Distinct(a: seq<Ip>) {
    forall i, j | 0 <= i < j < |a| :: a[i] != a[j]
  }

  /** Every node heard the one before it. */
  ghost predicate Chain(links: Links, a: seq<Ip>) {
    forall i | 0 < i < |a| :: (a[i - 1], a[i]) in links
  }

  ghost predicate RequestOk(links: Links, r: Request) {
    && Distinct(r.record) && r.target !in r.record && r.initiator != r.target
    && Chain(links, [r.initiator] + r.record)
    && |r.record| <= 63
    && r.optLen == (6 + 4 * |r.record|) % 256
  }

  /** The length field tells the length of the record up to 62 addresses and not beyond. */
  lemma LengthExact(links: Links, r: Request)
    requires RequestOk(links, r)
    ensures RreqLen(r.optLen) == |r.record| <==> |r.record| <= 62
    ensures RreqLen(r.optLen) >= 0 <==> |r.record| <= 62
  {
    if |r.record| <= 62 {
      assert r.optLen == 6 + 4 * |r.record|;
    } else {
      assert r.optLen == 2;
    }
  }

  lemma ExtendOk(links: Links, r: Request, v: Ip)
    requires RequestOk(links, r) && RreqLen(r.optLen) >= 0
    requires (Sender(r), v) in links && v != r.target && v !in r.record
    ensures RequestOk(links, Extend(r, v))
  {
    LengthExact(links, r);
    var a, b := [r.initiator] + r.record, [r.initiator] + (r.record + [v]);
    forall i | 0 < i < |b| ensures (b[i - 1], b[i]) in links {
      if i < |a| {
        assert b[i - 1] == a[i - 1] && b[i] == a[i];
      } else {
        assert b[i - 1] == Sender(r);
      }
    }
  }

  // ----- The reply -------------------------------------------------------------------------------

  /** a is the route that r has found when it is at its target: the initiator, the recorded nodes in order,
      and the target. */
  ghost predicate RouteOf(a: seq<Ip>, r: Request) {
    && |a| == |r.record| + 2
    && a[0] == r.initiator && a[|a| - 1] == r.target
    && a[1..|r.record| + 1] == r.record
  }

  ghost predicate ReplyOk(links: Links, p: Reply) {
    && |p.addresses| >= 2 && Chain(links, p.addresses)
    && p.holder in p.addresses
    && First(p.addresses, p.holder) + p.hops <= |p.addresses| - 1
  }

  lemma FreshReplyOk(links: Links, r: Request)
    requires RequestOk(links, r) && (Sender(r), r.target) in links
    ensures ReplyOk(links, Reply(Addresses(r), Sender(r), 1))
  {
    var a := Addresses(r);
    assert a[|a| - 2] in a;
  }

  /** Passing a reply on moves it strictly closer to the initiator, against a recorded link. */
  lemma PassOk(links: Links, p: Reply)
    requires ReplyOk(links, p) && p.holder != p.addresses[0]
    ensures ReplyOk(links, Pass(p))
    ensures First(p.addresses, Pass(p).holder) < First(p.addresses, p.holder)
    ensures (Pass(p).holder, p.holder) in links
  {
    var i := First(p.addresses, p.holder);
    assert p.addresses[i - 1] in p.addresses;
  }

  // ----- Runs ------------------------------------------------------------------------------------

  ghost predicate Inv(links: Links, s: Net) {
    && (forall r | r in s.air :: RequestOk(links, r))
    && (forall p | p in s.replies :: ReplyOk(links, p))
  }

  /** The reply answers a request that was on the air: its addresses are the initiator, the record
      and the target of that request. */
  ghost predicate Answers(s: Net, p: Reply) {
    exists r :: r in s.air && RouteOf(p.addresses, r)
  }

  ghost predicate AllAnswer(s: Net) {
    forall p | p in s.replies :: Answers(s, p)
  }

  lemma {:induction false} RunAnswers(links: Links, run: seq<Net>, evs: seq<Event>, i: nat)
    requires Run(links, run, evs) && i < |run|
    ensures AllAnswer(run[i])
  {
    if i > 0 {
      RunAnswers(links, run, evs, i - 1);
    }
  }

  lemma ProcessInv(links: Links, s: Net, v: Ip, r: Request, cached: bool)
    requires Inv(links, s) && v < |s.tables| && r in s.air && (Sender(r), v) in links
    ensures Inv(links, Process(s, v, r, cached))
  {
    if RreqLen(r.optLen) < 0 {
      return;
    }
    if r.target == v {
      FreshReplyOk(links, r);
    } else if v !in r.record {
      ExtendOk(links, r, v);
    }
  }

  lemma NextInv(links: Links, s: Net, ev: Event)
    requires Inv(links, s) && Enabled(links, s, ev)
    ensures Inv(links, Next(s, ev))
  {
    match ev
    case Initiate(u, target, id) =>
    case SetTable(u, table) =>
    case Receive(v, r, cached) => ProcessInv(links, s, v, r, cached);
    case PassReply(p) => PassOk(links, p);
  }

  lemma {:induction false} RunInv(links: Links, run: seq<Net>, evs: seq<Event>, i: nat)
    requires Run(links, run, evs) && i < |run|
    ensures Inv(links, run[i])
  {
    if i > 0 {
      RunInv(links, run, evs, i - 1);
      NextInv(links, run[i - 1], evs[i - 1]);
    }
  }

  /** In every run, a request in flight has recorded pairwise distinct nodes without the target, each
      of which heard the one before, and its length field is right exactly up to 62 addresses. */
  lemma RecordSound(links: Links, run: seq<Net>, evs: seq<Event>, i: nat, r: Request)
    requires Run(links, run, evs) && i < |run| && r in run[i].air
    ensures Distinct(r.record) && r.target !in r.record && Chain(links, [r.initiator] + r.record)
    ensures RreqLen(r.optLen) == |r.record| <==> |r.record| <= 62
  {
    RunInv(links, run, evs, i);
    LengthExact(links, r);
  }

  /** In every run, a reply carries the addresses of a request that was on the air, has made at most
      n - 1 hops for n addresses, and while it is not with the
      initiator its next hop exists, is strictly closer and lies against a recorded link. */
  lemma ReplyReturns(links: Links, run: seq<Net>, evs: seq<Event>, i: nat, p: Reply)
    requires Run(links, run, evs) && i < |run| && p in run[i].replies
    ensures Answers(run[i], p)
    ensures p.addresses != [] && p.holder in p.addresses && p.hops <= |p.addresses| - 1
    ensures p.hops == |p.addresses| - 1 ==> p.holder == p.addresses[0]
    ensures p.holder != p.addresses[0] ==>
              && First(p.addresses, Pass(p).holder) < First(p.addresses, p.holder)
              && (Pass(p).holder, p.holder) in links
  {
    RunInv(links, run, evs, i);
    RunAnswers(links, run, evs, i);
    assert ReplyOk(links, p);
    if p.holder != p.addresses[0] {
      PassOk(links, p);
    }
  }

  // ----- Faults ----------------------------------------------------------------------------------

  /** In every run, receiving a request faults exactly if the request is new to the node and has
      recorded 63 addresses. */
  lemma FaultsIff(links: Links, run: seq<Net>, evs: seq<Event>, i: nat)
    requires Run(links, run, evs) && i < |evs| && evs[i].Receive?
    ensures evs[i].v < |run[i].tables|
    ensures var v, r := evs[i].v, evs[i].r;
            run[i + 1].faults == if Seen(r.id, r.target) !in run[i].tables[v] && |r.record| >= 63
                                 then run[i].faults + [Fault(v, r)] else run[i].faults
  {
    RunInv(links, run, evs, i);
    assert run[i + 1] == Next(run[i], evs[i]);
    LengthExact(links, evs[i].r);
  }

  /** Distinct numbers below n are at most n. */
  lemma {:induction false} Pigeonhole(a: seq<Ip>, n: nat)
    requires Distinct(a) && forall i | 0 <= i < |a| :: a[i] < n
    ensures |a| <= n
  {
    if a == [] {
      return;
    }
    assert a[0] < n;
    if n - 1 in a {
      var k :| 0 <= k < |a| && a[k] == n - 1;
      Pigeonhole(a[..k] + a[k + 1..], n - 1);
    } else {
      forall i | 0 <= i < |a| ensures a[i] < n - 1 {
        assert a[i] in a;
      }
      Pigeonhole(a, n - 1);
    }
  }

  /** Records name nodes of the network. */
  ghost predicate RecordsNodes(s: Net) {
    forall r, k | r in s.air && 0 <= k < |r.record| :: r.record[k] < |s.tables|
  }

  lemma {:induction false} RunRecords(links: Links, run: seq<Net>, evs: seq<Event>, i: nat)
    requires Run(links, run, evs) && i < |run|
    ensures RecordsNodes(run[i]) && |run[i].tables| == |run[0].tables|
  {
    if i > 0 {
      RunRecords(links, run, evs, i - 1);
    }
  }

  lemma ShortRecords(links: Links, run: seq<Net>, evs: seq<Event>, i: nat, r: Request)
    requires Run(links, run, evs) && i < |run| && r in run[i].air
    ensures |r.record| <= |run[0].tables|
  {
    RunInv(links, run, evs, i);
    RunRecords(links, run, evs, i);
    Pigeonhole(r.record, |run[0].tables|);
  }

  lemma OnlyReceiveFaults(s: Net, ev: Event, links: Links)
    requires Enabled(links, s, ev) && !ev.Receive?
    ensures Next(s, ev).faults == s.faults
  {
  }

  /** A network of at most 62 nodes never faults. */
  lemma {:induction false} SmallNetworksNeverFault(links: Links, run: seq<Net>, evs: seq<Event>, i: nat)
    requires Run(links, run, evs) && i < |run| && |run[0].tables| <= 62
    ensures run[i].faults == []
  {
    if i > 0 {
      SmallNetworksNeverFault(links, run, evs, i - 1);
      var ev := evs[i - 1];
      assert Enabled(links, run[i - 1], ev) && run[i - 1 + 1] == Next(run[i - 1], ev);
      if ev.Receive? {
        FaultsIff(links, run, evs, i - 1);
        ShortRecords(links, run, evs, i - 1, ev.r);
      } else {
        OnlyReceiveFaults(run[i - 1], ev, links);
      }
    }
  }

  // ----- What a reception does -------------------------------------------------------------------

  /** r' is r with one more address, v. */
  ghost predicate LongerBy(r': Request, r: Request, v: Ip) {
    && r'.initiator == r.initiator && r'.target == r.target && r'.id == r.id
    && |r'.record| == |r.record| + 1 && r'.record[..|r.record|] == r.record && r'.record[|r.record|] == v
  }

  /** The request is new to v and its length field is still right. */
  ghost predicate Readable(s: Net, v: Ip, r: Request) {
    v < |s.tables| && Seen(r.id, r.target) !in s.tables[v] && |r.record| <= 62
  }

  /** The target of r answers: one reply, with the route of r, held by the node before the target. */
  ghost predicate Answered(s: Net, s': Net, r: Request) {
    && s'.air == s.air
    && exists p: Reply :: s'.replies == s.replies + {p} && RouteOf(p.addresses, r) && p.hops == 1
                          && p.holder == p.addresses[|p.addresses| - 2]
  }

  /** Node v sends r on. */
  ghost predicate SentOn(s: Net, s': Net, r: Request, v: Ip) {
    && s'.replies == s.replies
    && exists r': Request :: s'.air == s.air + {r'} && LongerBy(r', r, v)
  }

  /** In every run and on every topology: a request that is new at its target is answered with its route as
      long as it has recorded at most 62 addresses; one that is new at another node goes on the air with that
      node appended, unless the node is recorded already or has a route cached; and any other reception sends
      nothing. Whoever gets it knows the request from then on. */
  lemma ReceptionSends(links: Links, run: seq<Net>, evs: seq<Event>, i: nat)
    requires Run(links, run, evs) && i < |evs| && evs[i].Receive?
    ensures var s, s', v, r := run[i], run[i + 1], evs[i].v, evs[i].r;
            && v < |s'.tables| && Seen(r.id, r.target) in s'.tables[v]
            && if Readable(s, v, r) && v == r.target then Answered(s, s', r)
               else if Readable(s, v, r) && v !in r.record && !evs[i].cached then SentOn(s, s', r, v)
               else s'.air == s.air && s'.replies == s.replies
  {
    RunInv(links, run, evs, i);
    var s, s', v, r := run[i], run[i + 1], evs[i].v, evs[i].r;
    assert s' == Next(s, evs[i]);
    LengthExact(links, r);
    if Readable(s, v, r) {
      if v == r.target {
        var p := Reply(Addresses(r), Addresses(r)[|r.record|], 1);
        assert s'.replies == s.replies + {p} && RouteOf(p.addresses, r);
      } else if v !in r.record && !evs[i].cached {
        assert LongerBy(Extend(r, v), r, v);
      }
    }
  }

  // ----- Discovery -------------------------------------------------------------------------------

  /** The run goes on as run'. */
  ghost predicate Extends(links: Links, run: seq<Net>, evs: seq<Event>, run': seq<Net>, evs': seq<Event>) {
    && Run(links, run', evs') && |run| <= |run'| && run'[..|run|] == run && |evs| <= |evs'| && evs'[..|evs|] == evs
  }

  lemma RunGrows(links: Links, run: seq<Net>, evs: seq<Event>, ev: Event)
    requires Run(links, run, evs) && Enabled(links, run[|evs|], ev)
    ensures Extends(links, run, evs, run + [Next(run[|evs|], ev)], evs + [ev])
  {
  }

  lemma ExtendsThen(links: Links, run: seq<Net>, evs: seq<Event>, mid: seq<Net>, midEvs: seq<Event>,
                    run': seq<Net>, evs': seq<Event>)
    requires Extends(links, run, evs, mid, midEvs) && Extends(links, mid, midEvs, run', evs')
    ensures Extends(links, run, evs, run', evs')
  {
    assert run'[..|run|] == run'[..|mid|][..|run|] && evs'[..|evs|] == evs'[..|midEvs|][..|evs|];
  }

  /** The initiator holds a reply with these addresses. */
  ghost predicate Arrived(s: Net, addresses: seq<Ip>) {
    exists p :: p in s.replies && p.addresses == addresses && addresses != [] && p.holder == addresses[0]
  }

  /** From any state of any run, a reply under way can be passed on until the initiator holds it. */
  lemma {:induction false} ReplyArrives(links: Links, run: seq<Net>, evs: seq<Event>, p: Reply)
    returns (run': seq<Net>, evs': seq<Event>)
    requires Run(links, run, evs) && p in run[|evs|].replies && p.holder in p.addresses
    ensures Extends(links, run, evs, run', evs') && Arrived(run'[|evs'|], p.addresses)
    decreases First(p.addresses, p.holder)
  {
    if p.holder == p.addresses[0] {
      run', evs' := run, evs;
    } else {
      RunInv(links, run, evs, |evs|);
      PassOk(links, p);
      RunGrows(links, run, evs, PassReply(p));
      var mid, midEvs := run + [Next(run[|evs|], PassReply(p))], evs + [PassReply(p)];
      run', evs' := ReplyArrives(links, mid, midEvs, Pass(p));
      ExtendsThen(links, run, evs, mid, midEvs, run', evs');
    }
  }

  /** A simple path of the topology, from an initiator to a target, whose nodes exist. */
  ghost predicate PathOf(links: Links, a: seq<Ip>, nodes: nat) {
    |a| >= 2 && Distinct(a) && Chain(links, a) && forall k | 0 <= k < |a| :: a[k] < nodes
  }

  /** The request of a[0] for the last node of a, as it leaves a[k]. */
  ghost function OnPath(a: seq<Ip>, id: nat, k: nat): Request
    requires k + 1 < |a|
  {
    Request(a[0], a[|a| - 1], id, a[1..k + 1], (RREQ_OPT_LEN + 4 * k) % 256)
  }

  /** The request is on the air as it leaves a[k] and the nodes after a[k] do not know it. */
  ghost predicate Reached(s: Net, a: seq<Ip>, id: nat, k: nat)
    requires k + 1 < |a|
  {
    && OnPath(a, id, k) in s.air
    && forall j | k < j < |a| :: Unheard(s, a, id, j)
  }

  ghost predicate Unheard(s: Net, a: seq<Ip>, id: nat, j: nat)
    requires |a| > 0 && j < |a|
  {
    a[j] < |s.tables| && Seen(id, a[|a| - 1]) !in s.tables[a[j]]
  }

  lemma PathStep(links: Links, s: Net, a: seq<Ip>, id: nat, k: nat)
    requires PathOf(links, a, |s.tables|) && 0 < k && k + 1 < |a| && k <= 63 && Reached(s, a, id, k - 1)
    ensures var ev := Receive(a[k], OnPath(a, id, k - 1), false);
            && Enabled(links, s, ev) && Reached(Next(s, ev), a, id, k)
            && |Next(s, ev).tables| == |s.tables| && Next(s, ev).faults == s.faults
  {
    var r := OnPath(a, id, k - 1);
    assert Sender(r) == a[k - 1] && (a[k - 1], a[k]) in links;
    assert Unheard(s, a, id, k);
    assert RreqLen(r.optLen) >= 0;
    assert a[1..k] + [a[k]] == a[1..k + 1];
    assert Extend(r, a[k]) == OnPath(a, id, k);
    forall j | k < j < |a| ensures Unheard(Next(s, Receive(a[k], r, false)), a, id, j) {
      assert Unheard(s, a, id, j) && a[j] != a[k];
    }
  }

  /** A request can go along any simple path of nodes that do not know it, up to the node where the length
      field wraps. */
  lemma {:induction false} AlongPath(links: Links, run: seq<Net>, evs: seq<Event>, a: seq<Ip>, id: nat, k: nat)
    returns (run': seq<Net>, evs': seq<Event>)
    requires Run(links, run, evs) && PathOf(links, a, |run[|evs|].tables|) && k + 1 < |a| && k <= 63
    requires forall j | 0 < j < |a| :: Unheard(run[|evs|], a, id, j)
    ensures Extends(links, run, evs, run', evs') && Reached(run'[|evs'|], a, id, k)
    ensures |run'[|evs'|].tables| == |run[|evs|].tables| && run'[|evs'|].faults == run[|evs|].faults
  {
    if k == 0 {
      var ev := Initiate(a[0], a[|a| - 1], id);
      RunGrows(links, run, evs, ev);
      run', evs' := run + [Next(run[|evs|], ev)], evs + [ev];
      InitiateReaches(run[|evs|], links, a, id);
    } else {
      var mid, midEvs := AlongPath(links, run, evs, a, id, k - 1);
      var ev := Receive(a[k], OnPath(a, id, k - 1), false);
      PathStep(links, mid[|midEvs|], a, id, k);
      RunGrows(links, mid, midEvs, ev);
      run', evs' := mid + [Next(mid[|midEvs|], ev)], midEvs + [ev];
      ExtendsThen(links, run, evs, mid, midEvs, run', evs');
    }
  }

  lemma InitiateReaches(s: Net, links: Links, a: seq<Ip>, id: nat)
    requires PathOf(links, a, |s.tables|)
    requires forall j | 0 < j < |a| :: Unheard(s, a, id, j)
    ensures Reached(Next(s, Initiate(a[0], a[|a| - 1], id)), a, id, 0)
  {
    var s' := Next(s, Initiate(a[0], a[|a| - 1], id));
    assert OnPath(a, id, 0).record == [];
    forall j | 0 < j < |a| ensures Unheard(s', a, id, j) {
      assert Unheard(s, a, id, j) && a[j] != a[0];
    }
  }

  /** Discovery succeeds on every topology: whatever has happened so far, if nodes that do not know the
      request form a simple path to the target over at most 62 others, the run can go on so that the
      initiator gets exactly that path. */
  lemma RouteFound(links: Links, run: seq<Net>, evs: seq<Event>, a: seq<Ip>, id: nat)
    returns (run': seq<Net>, evs': seq<Event>)
    requires Run(links, run, evs) && PathOf(links, a, |run[|evs|].tables|) && |a| <= 64
    requires forall j | 0 < j < |a| :: Unheard(run[|evs|], a, id, j)
    ensures Extends(links, run, evs, run', evs') && Arrived(run'[|evs'|], a)
  {
    var mid, midEvs := AlongPath(links, run, evs, a, id, |a| - 2);
    var r := OnPath(a, id, |a| - 2);
    var ev := Receive(r.target, r, false);
    assert Unheard(mid[|midEvs|], a, id, |a| - 1);
    assert Sender(r) == a[|a| - 2] && (a[|a| - 2], a[|a| - 1]) in links;
    RunGrows(links, mid, midEvs, ev);
    var end, endEvs := mid + [Next(mid[|midEvs|], ev)], midEvs + [ev];
    ReceptionSends(links, end, endEvs, |midEvs|);
    var p: Reply :| p in end[|endEvs|].replies && RouteOf(p.addresses, r)
                    && p.holder == p.addresses[|p.addresses| - 2];
    RouteIs(p.addresses, a, r);
    run', evs' := ReplyArrives(links, end, endEvs, p);
    ExtendsThen(links, run, evs, mid, midEvs, end, endEvs);
    ExtendsThen(links, run, evs, end, endEvs, run', evs');
  }

  lemma RouteIs(b: seq<Ip>, a: seq<Ip>, r: Request)
    requires |a| >= 2 && RouteOf(b, r) && r.initiator == a[0] && r.target == a[|a| - 1] && r.record == a[1..|a| - 1]
    ensures b == a
  {
    forall i | 0 <= i < |a| ensures b[i] == a[i] {
      if 0 < i < |a| - 1 {
        assert b[i] == b[1..|r.record| + 1][i - 1];
      }
    }
  }

  /** The fault is reached: on every topology with a simple path of 65 nodes or more, the 65th receives a
      request with 63 recorded addresses. */
  lemma FaultReached(links: Links, n: nat, a: seq<Ip>, id: nat) returns (run: seq<Net>, evs: seq<Event>)
    requires PathOf(links, a, n) && |a| >= 65
    ensures Run(links, run, evs) && |run[0].tables| == n
    ensures exists r :: run[|evs|].faults == [Fault(a[64], r)] && |r.record| == 63
  {
    var start := Net(seq(n, _ => []), {}, {}, []);
    run, evs := AlongPath(links, [start], [], a, id, 63);
    var r := OnPath(a, id, 63);
    var ev := Receive(a[64], r, false);
    assert Unheard(run[|evs|], a, id, 64);
    assert Sender(r) == a[63] && (a[63], a[64]) in links;
    RunGrows(links, run, evs, ev);
    FaultsIff(links, run + [Next(run[|evs|], ev)], evs + [ev], |evs|);
    assert run[0] == start by { assert run[..1] == [start]; }
    run, evs := run + [Next(run[|evs|], ev)], evs + [ev];
    assert run[|evs|].faults == [Fault(a[64], r)];
  }

  // ----- The code --------------------------------------------------------------------------------

  /** fn_NetSim_DSR_CheckIPinIPList; None if it reads before the list, as it does for a negative
      length. */
  method CheckIpInList(list: array<Ip>, length: int, ip: Ip) returns (found: Option<bool>)
    requires length <= list.Length
    ensures found == if length < 0 then None else Some(ip in list[..length])
  {
    var n := length;
    while n != 0
      invariant n <= length && (length >= 0 ==> n >= 0 && ip !in list[n..length]) && (length < 0 ==> n == length)
      decreases n
    {
      n := n - 1;
      if n < 0 {
        return None;
      }
      if list[n] == ip {
        return Some(true);
      }
    }
    return Some(false);
  }

  /** fn_NetSim_DSR_CheckEntryInRREQTable */
  method CheckEntry(table: seq<Seen>, id: nat, target: Ip) returns (found: bool)
    ensures found <==> Seen(id, target) in table
  {
    for i := 0 to |table|
      invariant Seen(id, target) !in table[..i]
    {
      if table[i].id == id && table[i].target == target {
        return true;
      }
    }
    assert table[..|table|] == table;
    return false;
  }

  /** fn_NetSim_DSR_GenerateRREP: the address array of the reply, its length field and the first node
      it is sent to; not `ok` if it reads before the array. */
  method GenerateReply(links: Links, r: Request, me: Ip)
    returns (ok: bool, address: array<Ip>, optLen: nat, next: Ip)
    requires RequestOk(links, r) && me == r.target
    ensures ok <==> |r.record| <= 62
    ensures ok ==> fresh(address) && RouteOf(address[..], r) && address[..] == Addresses(r)
    ensures ok ==> optLen < 256 && optLen == (address.Length - 1) * 4 + 3 && next == Sender(r)
  {
    LengthExact(links, r);
    var count := RreqLen(r.optLen) + 2;
    optLen := (count - 1) * 4 + 3;
    address := new Ip[count](_ => 0);
    address[0] := r.initiator;
    address[count - 1] := me;
    var i := 1;
    while i < count - 1
      invariant 1 <= i && (count == 1 ==> i == 1) && (count >= 2 ==> i < count && address[0] == r.initiator)
      invariant address[count - 1] == me
      invariant forall j | 1 <= j < i :: address[j] == r.record[j - 1]
    {
      address[i] := r.record[i - 1];
      i := i + 1;
    }
    if count - 2 < 0 {
      return false, address, optLen, 0;
    }
    next := address[count - 2];
    ok := true;
  }

  /** The search of fn_NetSim_DSR_ForwardRREP; None at the initiator and at strangers. */
  method NextHop(address: seq<Ip>, me: Ip) returns (next: Option<Ip>)
    requires address != []
    ensures next == if me != address[0] && me in address then Some(address[First(address, me) - 1]) else None
  {
    if address[0] == me {
      return None;
    }
    var n := 0;
    while n < |address|
      invariant n <= |address| && me !in address[..n]
    {
      if address[n] == me {
        assert First(address, me) == n;
        return Some(address[n - 1]);
      }
      n := n + 1;
    }
    assert address[..|address|] == address;
    return None;
  }
}
