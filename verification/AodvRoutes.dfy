/** The AODV route table and its timers (AODV/RouteTable.c, AODV_RouteError.c, RREP.c and
    AODV_CheckRouteFound.c; sections 6.1, 6.2 and 6.11 of RFC 3561). Times are microseconds. */
module AodvRoutes {
  import opened Common

  const ACTIVE_ROUTE_TIMEOUT := 3000.0 * MILLISECOND
  const HELLO_INTERVAL := 1000.0 * MILLISECOND
  const DELETE_PERIOD := 5.0 * ACTIVE_ROUTE_TIMEOUT
  const MY_ROUTE_TIMEOUT := 6_000_000

  datatype Flag = Valid | Invalid

  datatype Entry = Entry(dest: Ip, seqNo: nat, validSeq: bool, flag: Flag, hops: nat, nextHop: Ip, lifetime: real)

  /** A pending ACTIVE_ROUTE_TIMEOUT event. */
  datatype Timer = Timer(dest: Ip, at: real)

  /** One device: its route table, in list order, and its pending route timers. */
  datatype Node = Node(table: seq<Entry>, timers: multiset<Timer>)

  // ----- Operations on one device ----------------------------------------------------------------

  /** The first entry for ip. */
  function Find(table: seq<Entry>, ip: Ip): (r: Option<nat>)
    ensures r.Some? ==> r.value < |table| && table[r.value].dest == ip
    ensures r.Some? ==> forall i | 0 <= i < r.value :: table[i].dest != ip
    ensures r.None? ==> forall i | 0 <= i < |table| :: table[i].dest != ip
  {
    FindFrom(table, ip, 0)
  }

  function FindFrom(table: seq<Entry>, ip: Ip, i: nat): (r: Option<nat>)
    requires i <= |table|
    ensures r.Some? ==> i <= r.value < |table| && table[r.value].dest == ip
    ensures r.Some? ==> forall j | i <= j < r.value :: table[j].dest != ip
    ensures r.None? ==> forall j | i <= j < |table| :: table[j].dest != ip
    decreases |table| - i
  {
    if i == |table| then None
    else if table[i].dest == ip then Some(i)
    else FindFrom(table, ip, i + 1)
  }

  /** Whether an existing entry takes the new information. */
  predicate Accepts(e: Entry, seqNo: nat, hops: nat) {
    || !e.validSeq
    || e.seqNo < seqNo
    || (e.seqNo == seqNo && (hops + 1 < e.hops || e.flag == Invalid))
  }

  /** The update of an entry; the next hop stays what it was. */
  function Renew(e: Entry, seqNo: nat, hops: nat, lifetime: real): Entry {
    e.(seqNo := seqNo, hops := hops, lifetime := MaxReal(e.lifetime, lifetime), flag := Valid,
       validSeq := e.validSeq || seqNo != 0)
  }

  /** fn_NetSim_AODV_InsertInRouteTable */
  function Insert(n: Node, now: real, ip: Ip, seqNo: nat, hops: nat, nextHop: Ip, lifetime: real): Node {
    match Find(n.table, ip)
    case None =>
      var due := now + ACTIVE_ROUTE_TIMEOUT;
      Node(n.table + [Entry(ip, seqNo, seqNo != 0, Valid, hops, nextHop, MaxReal(due, lifetime))],
           n.timers + multiset{Timer(ip, due)})
    case Some(i) =>
      if Accepts(n.table[i], seqNo, hops)
      then n.(table := n.table[i := Renew(n.table[i], seqNo, hops, lifetime)])
      else n
  }

  function Prolong(e: Entry, ip: Ip, lifetime: real): Entry {
    if e.nextHop == ip || e.dest == ip then e.(lifetime := MaxReal(e.lifetime, lifetime)) else e
  }

  /** fn_NetSim_AODV_UpdateRouteTable */
  function Update(n: Node, ip: Ip, lifetime: real): Node {
    n.(table := seq(|n.table|, i requires 0 <= i < |n.table| => Prolong(n.table[i], ip, lifetime)))
  }

  /** Every route to or through ip has at least this lifetime, no more than it needs, and nothing else has
      changed. */
  ghost predicate Prolonged(n: Node, n': Node, ip: Ip, lifetime: real) {
    && |n'.table| == |n.table| && n'.timers == n.timers
    && forall i | 0 <= i < |n.table| ::
         && (n.table[i].dest == ip || n.table[i].nextHop == ip ==>
               && n'.table[i].lifetime >= lifetime && n'.table[i].lifetime >= n.table[i].lifetime
               && n'.table[i].lifetime in {lifetime, n.table[i].lifetime}
               && n'.table[i] == n.table[i].(lifetime := n'.table[i].lifetime))
         && (n.table[i].dest != ip && n.table[i].nextHop != ip ==> n'.table[i] == n.table[i])
  }

  function Break(e: Entry, now: real): Entry {
    e.(flag := Invalid, lifetime := now + DELETE_PERIOD)
  }

  /** The routes that `hit` names are invalid and stay for the deletion period; all others are as before. */
  ghost predicate Broken(table: seq<Entry>, table': seq<Entry>, now: real, hit: Entry -> bool) {
    && |table'| == |table|
    && forall i | 0 <= i < |table| ::
         if hit(table[i])
         then && table'[i].flag == Invalid && table'[i].lifetime == now + DELETE_PERIOD
              && table'[i].dest == table[i].dest && table'[i].nextHop == table[i].nextHop
              && table'[i].seqNo == table[i].seqNo && table'[i].validSeq == table[i].validSeq
              && table'[i].hops == table[i].hops
         else table'[i] == table[i]
  }

  /** The loop of fn_NetSim_AODV_GenerateRERR over the route table. */
  function LinkBroken(n: Node, now: real, unreachable: Ip): Node {
    n.(table := seq(|n.table|, i requires 0 <= i < |n.table| =>
         if n.table[i].nextHop == unreachable then Break(n.table[i], now) else n.table[i]))
  }

  /** The loop of fn_NetSim_AODV_ProcessRERR over the route table. */
  function RouteError(n: Node, now: real, from: Ip, dests: seq<Ip>): Node {
    n.(table := seq(|n.table|, i requires 0 <= i < |n.table| =>
         if n.table[i].dest in dests && n.table[i].nextHop == from then Break(n.table[i], now) else n.table[i]))
  }

  function Without(table: seq<Entry>, i: nat): seq<Entry>
    requires i < |table|
  {
    table[..i] + table[i + 1..]
  }

  /** fn_NetSim_AODV_ActiveRouteTimeout for the timer t. */
  function Expire(n: Node, now: real, t: Timer): Node {
    var rest := n.timers - multiset{t};
    match Find(n.table, t.dest)
    case None => n.(timers := rest)
    case Some(i) =>
      if n.table[i].lifetime <= now then Node(Without(n.table, i), rest)
      else n.(timers := rest + multiset{Timer(t.dest, n.table[i].lifetime)})
  }

  // ----- The invariant of one device -------------------------------------------------------------

  ghost predicate Unique(table: seq<Entry>) {
    forall i, j | 0 <= i < j < |table| :: table[i].dest != table[j].dest
  }

  /** dest has one pending timer, due at `due`, and no other. */
  ghost predicate OnePending(timers: multiset<Timer>, dest: Ip, due: real) {
    && timers[Timer(dest, due)] == 1
    && forall t | t in timers && t.dest == dest :: t == Timer(dest, due)
  }

  /** The entry is timed: its only timer is due no earlier than now and no later than the
      entry's lifetime, which lies within the deletion period. */
  ghost predicate Timed(e: Entry, timers: multiset<Timer>, now: real) {
    && e.lifetime <= now + DELETE_PERIOD
    && exists due :: OnePending(timers, e.dest, due) && now <= due <= e.lifetime
  }

  ghost predicate Listed(table: seq<Entry>, dest: Ip) {
    exists i :: 0 <= i < |table| && table[i].dest == dest
  }

  ghost predicate NodeInv(n: Node, now: real) {
    && Unique(n.table)
    && (forall i | 0 <= i < |n.table| :: n.table[i].validSeq <==> n.table[i].seqNo != 0)
    && (forall i | 0 <= i < |n.table| :: Timed(n.table[i], n.timers, now))
    && (forall t | t in n.timers :: Listed(n.table, t.dest))
  }

  /** How an entry may develop while it stays in the table. */
  ghost predicate Develops(e: Entry, e': Entry) {
    && e'.dest == e.dest && e'.nextHop == e.nextHop
    && e'.lifetime >= e.lifetime
    && e'.seqNo >= e.seqNo
    && (e'.hops != e.hops ==> || e.seqNo == 0 || e'.seqNo > e.seqNo
                              || e'.hops + 1 < e.hops || e.flag == Invalid)
  }

  /** Between two states at the same time: every entry develops or, if its lifetime is over at
      exactly this time, goes away. */
  ghost predicate Evolves(n: Node, n': Node, now: real) {
    forall e | e in n.table :: Survives(e, n'.table) || (e.lifetime == now && !Listed(n'.table, e.dest))
  }

  ghost predicate Survives(e: Entry, table: seq<Entry>) {
    exists e' | e' in table :: Develops(e, e')
  }

  lemma SurvivesAs(e: Entry, table: seq<Entry>, i: nat)
    requires i < |table| && Develops(e, table[i])
    ensures Survives(e, table)
  {
    assert table[i] in table;
  }

  /** From n to n' the invariant is kept and the routes develop. */
  ghost predicate Keeps(n: Node, n': Node, now: real) {
    NodeInv(n', now) && Evolves(n, n', now)
  }

  /** Replacing entries one by one by developments of theirs keeps the invariant. */
  lemma DevelopInv(n: Node, n': Node, now: real)
    requires NodeInv(n, now) && n'.timers == n.timers && |n'.table| == |n.table|
    requires forall i | 0 <= i < |n.table| ::
               && Develops(n.table[i], n'.table[i]) && n'.table[i].lifetime <= now + DELETE_PERIOD
               && (n'.table[i].validSeq <==> n'.table[i].seqNo != 0)
    ensures Keeps(n, n', now)
  {
    forall i | 0 <= i < |n'.table| ensures Timed(n'.table[i], n'.timers, now) {
      assert Develops(n.table[i], n'.table[i]);
    }
    forall t | t in n'.timers ensures Listed(n'.table, t.dest) {
      var i :| 0 <= i < |n.table| && n.table[i].dest == t.dest;
      assert Develops(n.table[i], n'.table[i]);
    }
    forall i, j | 0 <= i < j < |n'.table| ensures n'.table[i].dest != n'.table[j].dest {
      assert Develops(n.table[i], n'.table[i]) && Develops(n.table[j], n'.table[j]);
    }
    forall e | e in n.table ensures Survives(e, n'.table) {
      var i :| 0 <= i < |n.table| && n.table[i] == e;
      SurvivesAs(e, n'.table, i);
    }
  }

  lemma UpdateInv(n: Node, now: real, ip: Ip, lifetime: real)
    requires NodeInv(n, now) && lifetime <= now + DELETE_PERIOD
    ensures Keeps(n, Update(n, ip, lifetime), now)
  {
    forall i | 0 <= i < |n.table| ensures Timed(n.table[i], n.timers, now) {
    }
    DevelopInv(n, Update(n, ip, lifetime), now);
  }

  /** Lifetimes only reach now + DELETE_PERIOD, so breaking a route does not shorten its life. */
  lemma BreakDevelops(n: Node, now: real, i: nat)
    requires NodeInv(n, now) && i < |n.table|
    ensures Develops(n.table[i], Break(n.table[i], now)) && n.table[i].lifetime <= now + DELETE_PERIOD
  {
    assert Timed(n.table[i], n.timers, now);
  }

  lemma LinkBrokenInv(n: Node, now: real, unreachable: Ip)
    requires NodeInv(n, now)
    ensures Keeps(n, LinkBroken(n, now, unreachable), now)
  {
    forall i | 0 <= i < |n.table|
      ensures Develops(n.table[i], Break(n.table[i], now)) && n.table[i].lifetime <= now + DELETE_PERIOD
    {
      BreakDevelops(n, now, i);
    }
    DevelopInv(n, LinkBroken(n, now, unreachable), now);
  }

  lemma RouteErrorInv(n: Node, now: real, from: Ip, dests: seq<Ip>)
    requires NodeInv(n, now)
    ensures Keeps(n, RouteError(n, now, from, dests), now)
  {
    forall i | 0 <= i < |n.table|
      ensures Develops(n.table[i], Break(n.table[i], now)) && n.table[i].lifetime <= now + DELETE_PERIOD
    {
      BreakDevelops(n, now, i);
    }
    DevelopInv(n, RouteError(n, now, from, dests), now);
  }

  lemma RenewInv(n: Node, now: real, i: nat, seqNo: nat, hops: nat, lifetime: real)
    requires NodeInv(n, now) && i < |n.table| && Accepts(n.table[i], seqNo, hops)
    requires lifetime <= now + DELETE_PERIOD
    ensures var n' := n.(table := n.table[i := Renew(n.table[i], seqNo, hops, lifetime)]);
            Keeps(n, n', now)
  {
    var n' := n.(table := n.table[i := Renew(n.table[i], seqNo, hops, lifetime)]);
    forall j | 0 <= j < |n.table|
      ensures && Develops(n.table[j], n'.table[j]) && n'.table[j].lifetime <= now + DELETE_PERIOD
              && (n'.table[j].validSeq <==> n'.table[j].seqNo != 0)
    {
      assert Timed(n.table[j], n.timers, now);
    }
    DevelopInv(n, n', now);
  }

  /** A table that keeps its entries evolves. */
  lemma Kept(n: Node, n': Node, now: real)
    requires forall e | e in n.table :: e in n'.table
    ensures Evolves(n, n', now)
  {
    forall e | e in n.table ensures Survives(e, n'.table) {
      assert Develops(e, e);
    }
  }

  lemma OtherTimer(timers: multiset<Timer>, t: Timer, dest: Ip, due: real)
    requires OnePending(timers, dest, due) && t.dest != dest
    ensures OnePending(timers + multiset{t}, dest, due)
    ensures OnePending(timers - multiset{t}, dest, due)
  {
  }

  lemma OtherTimed(e: Entry, timers: multiset<Timer>, timers': multiset<Timer>, t: Timer, now: real)
    requires Timed(e, timers, now) && t.dest != e.dest
    requires timers' == timers + multiset{t} || timers' == timers - multiset{t}
    ensures Timed(e, timers', now)
  {
    var due :| OnePending(timers, e.dest, due) && now <= due <= e.lifetime;
    OtherTimer(timers, t, e.dest, due);
  }

  lemma NewTimed(n: Node, now: real, e: Entry, due: real, i: nat)
    requires NodeInv(n, now) && !Listed(n.table, e.dest) && i <= |n.table|
    requires now <= due <= e.lifetime <= now + DELETE_PERIOD
    ensures Timed((n.table + [e])[i], n.timers + multiset{Timer(e.dest, due)}, now)
  {
    var t := Timer(e.dest, due);
    if i < |n.table| {
      assert Timed(n.table[i], n.timers, now);
      OtherTimed(n.table[i], n.timers, n.timers + multiset{t}, t, now);
    } else {
      assert OnePending(n.timers + multiset{t}, e.dest, due);
    }
  }

  lemma NewListed(table: seq<Entry>, e: Entry, dest: Ip)
    requires Listed(table, dest) || dest == e.dest
    ensures Listed(table + [e], dest)
  {
    if dest == e.dest {
      assert (table + [e])[|table|].dest == dest;
    } else {
      var i :| 0 <= i < |table| && table[i].dest == dest;
      assert (table + [e])[i].dest == dest;
    }
  }

  lemma NewEntryInv(n: Node, now: real, e: Entry, due: real)
    requires NodeInv(n, now) && !Listed(n.table, e.dest) && (e.validSeq <==> e.seqNo != 0)
    requires now <= due <= e.lifetime <= now + DELETE_PERIOD
    ensures NodeInv(Node(n.table + [e], n.timers + multiset{Timer(e.dest, due)}), now)
  {
    var table, timers := n.table + [e], n.timers + multiset{Timer(e.dest, due)};
    forall i | 0 <= i < |table| ensures Timed(table[i], timers, now) {
      NewTimed(n, now, e, due, i);
    }
    forall x | x in timers ensures Listed(table, x.dest) {
      NewListed(n.table, e, x.dest);
    }
  }

  lemma InsertInv(n: Node, now: real, ip: Ip, seqNo: nat, hops: nat, nextHop: Ip, lifetime: real)
    requires NodeInv(n, now) && lifetime <= now + DELETE_PERIOD
    ensures var n' := Insert(n, now, ip, seqNo, hops, nextHop, lifetime);
            Keeps(n, n', now)
  {
    var n' := Insert(n, now, ip, seqNo, hops, nextHop, lifetime);
    match Find(n.table, ip)
    case None =>
      NewEntryInv(n, now, n'.table[|n.table|], now + ACTIVE_ROUTE_TIMEOUT);
      Kept(n, n', now);
    case Some(i) =>
      if Accepts(n.table[i], seqNo, hops) {
        RenewInv(n, now, i, seqNo, hops, lifetime);
      } else {
        Kept(n, n', now);
      }
  }

  /** What an insertion must leave: other routes as they were; a new route exactly as offered; and an
      existing route keeps its next hop and takes the offer exactly if it is newer or better. */
  ghost predicate Inserted(n: Node, n': Node, now: real, ip: Ip, seqNo: nat, hops: nat, nextHop: Ip, lifetime: real) {
    && |n.table| <= |n'.table|
    && (forall i | 0 <= i < |n.table| && n.table[i].dest != ip :: n'.table[i] == n.table[i])
    && (forall i | 0 <= i < |n.table| && n.table[i].dest == ip ::
          n'.table[i] == if seqNo > n.table[i].seqNo || n.table[i].seqNo == 0
                            || (seqNo == n.table[i].seqNo
                                && (hops + 1 < n.table[i].hops || n.table[i].flag == Invalid))
                         then Entry(ip, seqNo, seqNo > 0, Valid, hops, n.table[i].nextHop,
                                    if n.table[i].lifetime < lifetime then lifetime else n.table[i].lifetime)
                         else n.table[i])
    && (if Listed(n.table, ip) then |n'.table| == |n.table| && n'.timers == n.timers
        else var due := now + ACTIVE_ROUTE_TIMEOUT;
             && n'.table == n.table + [Entry(ip, seqNo, seqNo > 0, Valid, hops, nextHop,
                                             if due < lifetime then lifetime else due)]
             && n'.timers == n.timers + multiset{Timer(ip, due)})
  }

  lemma WithoutHas(table: seq<Entry>, i: nat, k: nat)
    requires i < |table| && k < |table| && k != i
    ensures table[k] in Without(table, i)
  {
    assert Without(table, i)[if k < i then k else k - 1] == table[k];
  }

  lemma WithoutOnly(table: seq<Entry>, i: nat, j: nat)
    requires Unique(table) && i < |table| && j < |Without(table, i)|
    ensures exists k :: 0 <= k < |table| && k != i && Without(table, i)[j] == table[k]
    ensures Without(table, i)[j].dest != table[i].dest
  {
    assert Without(table, i)[j] == table[if j < i then j else j + 1];
  }

  lemma WithoutEvolves(n: Node, n': Node, now: real, i: nat)
    requires i < |n.table| && Unique(n.table) && n'.table == Without(n.table, i) && n.table[i].lifetime == now
    ensures Evolves(n, n', now)
  {
    forall e | e in n.table && e != n.table[i] ensures Survives(e, n'.table) {
      var k :| 0 <= k < |n.table| && n.table[k] == e;
      WithoutHas(n.table, i, k);
      assert Develops(e, e);
    }
  }

  lemma WithoutListed(n: Node, i: nat, x: Timer)
    requires i < |n.table| && Listed(n.table, x.dest) && x.dest != n.table[i].dest
    ensures Listed(Without(n.table, i), x.dest)
  {
    var k :| 0 <= k < |n.table| && n.table[k].dest == x.dest;
    WithoutHas(n.table, i, k);
    var j :| 0 <= j < |Without(n.table, i)| && Without(n.table, i)[j] == n.table[k];
  }

  lemma RemoveInv(n: Node, now: real, i: nat, t: Timer)
    requires NodeInv(n, now) && i < |n.table| && t in n.timers && t.dest == n.table[i].dest
    requires n.table[i].lifetime <= now
    ensures NodeInv(Node(Without(n.table, i), n.timers - multiset{t}), now) && n.table[i].lifetime == now
  {
    var e := n.table[i];
    var n' := Node(Without(n.table, i), n.timers - multiset{t});
    assert Timed(e, n.timers, now);
    var due :| OnePending(n.timers, e.dest, due) && now <= due <= e.lifetime;
    forall j | 0 <= j < |n'.table|
      ensures Timed(n'.table[j], n'.timers, now) && (n'.table[j].validSeq <==> n'.table[j].seqNo != 0)
    {
      WithoutOnly(n.table, i, j);
      OtherTimed(n'.table[j], n.timers, n'.timers, t, now);
    }
    forall x | x in n'.timers ensures Listed(n'.table, x.dest) {
      WithoutListed(n, i, x);
    }
  }

  lemma RearmInv(n: Node, now: real, i: nat, t: Timer)
    requires NodeInv(n, now) && i < |n.table| && t in n.timers && t.dest == n.table[i].dest
    requires now < n.table[i].lifetime
    ensures var n' := n.(timers := n.timers - multiset{t} + multiset{Timer(t.dest, n.table[i].lifetime)});
            Keeps(n, n', now)
  {
    var e := n.table[i];
    var t' := Timer(t.dest, e.lifetime);
    var n' := n.(timers := n.timers - multiset{t} + multiset{t'});
    var due :| OnePending(n.timers, e.dest, due) && now <= due <= e.lifetime;
    assert OnePending(n'.timers, e.dest, e.lifetime);
    forall j | 0 <= j < |n'.table| ensures Timed(n'.table[j], n'.timers, now) {
      assert Timed(n.table[j], n.timers, now);
      if j != i {
        OtherTimed(n.table[j], n.timers, n.timers - multiset{t}, t, now);
        OtherTimed(n.table[j], n.timers - multiset{t}, n'.timers, t', now);
      }
    }
    Kept(n, n', now);
  }

  lemma FirstFound(table: seq<Entry>, dest: Ip, i: nat)
    requires Unique(table) && i < |table| && table[i].dest == dest
    ensures Find(table, dest) == Some(i) && forall j | 0 <= j < |table| && j != i :: table[j].dest != dest
  {
    assert Find(table, dest).Some?;
  }

  lemma InsertTakes(n: Node, now: real, ip: Ip, seqNo: nat, hops: nat, nextHop: Ip, lifetime: real)
    requires NodeInv(n, now)
    ensures Inserted(n, Insert(n, now, ip, seqNo, hops, nextHop, lifetime), now, ip, seqNo, hops, nextHop, lifetime)
  {
    if Listed(n.table, ip) {
      var i :| 0 <= i < |n.table| && n.table[i].dest == ip;
      FirstFound(n.table, ip, i);
    }
  }

  /** After an insertion there is a route with a number at least as high as the one offered; and an offer
      with the number held that is shorter by more than one hop, or comes over an invalid route, leaves
      exactly the number and hop count offered, and a valid route. */
  lemma InsertedHolds(n: Node, n': Node, now: real, ip: Ip, seqNo: nat, hops: nat, nextHop: Ip, lifetime: real)
    requires Inserted(n, n', now, ip, seqNo, hops, nextHop, lifetime)
    ensures Listed(n'.table, ip)
    ensures forall i | 0 <= i < |n'.table| && n'.table[i].dest == ip :: n'.table[i].seqNo >= seqNo
    ensures forall i | 0 <= i < |n.table| && n.table[i].dest == ip && n.table[i].seqNo == seqNo
              && (hops + 1 < n.table[i].hops || n.table[i].flag == Invalid) ::
              n'.table[i].seqNo == seqNo && n'.table[i].hops == hops && n'.table[i].flag == Valid
  {
    if Listed(n.table, ip) {
      var i :| 0 <= i < |n.table| && n.table[i].dest == ip;
      assert n'.table[i].dest == ip;
    } else {
      assert n'.table[|n.table|].dest == ip;
    }
    forall i | 0 <= i < |n'.table| && n'.table[i].dest == ip ensures n'.table[i].seqNo >= seqNo {
      if i < |n.table| {
        assert n.table[i].dest == ip;
      }
    }
  }

  lemma ExpireRearms(n: Node, now: real, t: Timer, i: nat)
    requires NodeInv(n, now) && t in n.timers && i < |n.table| && n.table[i].dest == t.dest
    requires now < n.table[i].lifetime
    ensures var n' := Expire(n, now, t);
            && n' == n.(timers := n.timers - multiset{t} + multiset{Timer(t.dest, n.table[i].lifetime)})
            && Listed(n'.table, t.dest)
  {
    FirstFound(n.table, n.table[i].dest, i);
  }

  /** A timer that fires at its time removes its entry exactly when the entry's lifetime has come. */
  lemma ExpireInv(n: Node, now: real, t: Timer, i: nat)
    requires NodeInv(n, now) && t in n.timers && t.at == now && i < |n.table| && n.table[i].dest == t.dest
    ensures Keeps(n, Expire(n, now, t), now)
    ensures Listed(Expire(n, now, t).table, t.dest) <==> n.table[i].lifetime > now
  {
    if n.table[i].lifetime <= now {
      RemoveInv(n, now, i, t);
      WithoutEvolves(n, Expire(n, now, t), now, i);
    } else {
      ExpireRearms(n, now, t, i);
      RearmInv(n, now, i, t);
    }
  }

  /** The clock may advance up to the earliest pending timer. */
  lemma TickInv(n: Node, now: real, now': real)
    requires NodeInv(n, now) && now <= now' && forall t | t in n.timers :: now' <= t.at
    ensures NodeInv(n, now')
  {
    forall i | 0 <= i < |n.table| ensures Timed(n.table[i], n.timers, now') {
      var due :| OnePending(n.timers, n.table[i].dest, due) && now <= due <= n.table[i].lifetime;
      assert Timer(n.table[i].dest, due) in n.timers;
    }
  }

  // ----- The network -----------------------------------------------------------------------------

  /** All devices, the clock, and the lifetimes carried by the route replies sent so far; a reply
      may arrive any number of times, at any later time, at any device. */
  datatype Net = Net(now: real, nodes: seq<Node>, replies: set<nat>)

  datatype Event =
    | Tick(now: real)
    | RecvRreq(d: nat, originator: Ip, seqNo: nat, hops: nat, last: Ip)
    | RecvRrep(d: nat, dest: Ip, seqNo: nat, hops: nat, last: Ip, life: nat)
    | UseRoute(d: nat, ip: Ip)
    | BreakLink(d: nat, unreachable: Ip)
    | RecvRerr(d: nat, from: Ip, dests: seq<Ip>)
    | Fire(d: nat, t: Timer)
    | SendRrep
    | SendRrepFor(d: nat, i: nat)
    | SendHello

  ghost predicate Enabled(s: Net, ev: Event) {
    match ev
    case Tick(now) => s.now <= now && forall d, t | 0 <= d < |s.nodes| && t in s.nodes[d].timers :: now <= t.at
    case RecvRreq(d, _, _, _, _) => d < |s.nodes|
    case RecvRrep(d, _, _, _, _, life) => d < |s.nodes| && life in s.replies
    case UseRoute(d, _) => d < |s.nodes|
    case BreakLink(d, _) => d < |s.nodes|
    case RecvRerr(d, _, _) => d < |s.nodes|
    case Fire(d, t) => d < |s.nodes| && t in s.nodes[d].timers && t.at == s.now
    case SendRrep => true
    case SendRrepFor(d, i) => d < |s.nodes| && i < |s.nodes[d].table| && s.nodes[d].table[i].lifetime > s.now
    case SendHello => s.now >= 0.0
  }

  /** What an event does to the device it happens at: fn_NetSim_AODV_Run, dispatching to
      ProcessRREQ, ProcessRREP, the packet handlers, the route errors and the timer. */
  ghost function Handle(n: Node, now: real, ev: Event): Node {
    match ev
    case RecvRreq(_, originator, seqNo, hops, last) =>
      Insert(n, now, originator, seqNo, hops, last, RequestLifetime(now, hops))
    case RecvRrep(_, dest, seqNo, hops, last, life) =>
      Update(Insert(n, now, dest, seqNo, hops, last, now + ACTIVE_ROUTE_TIMEOUT), last, life as real)
    case UseRoute(_, ip) => Update(n, ip, now + ACTIVE_ROUTE_TIMEOUT)
    case BreakLink(_, unreachable) => LinkBroken(n, now, unreachable)
    case RecvRerr(_, from, dests) => RouteError(n, now, from, dests)
    case Fire(_, t) => Expire(n, now, t)
    case _ => n
  }

  /** The lifetime that ProcessRREQ asks for the reverse route. */
  function RequestLifetime(now: real, hops: nat): (life: real)
    ensures life <= now + DELETE_PERIOD
  {
    now + 2.0 * NET_TRAVERSAL_TIME - 2.0 * hops as real * NODE_TRAVERSAL_TIME
  }

  ghost function Next(s: Net, ev: Event): Net
    requires Enabled(s, ev)
  {
    match ev
    case Tick(now) => s.(now := now)
    case SendRrep => s.(replies := s.replies + {MY_ROUTE_TIMEOUT})
    case SendRrepFor(d, i) => s.(replies := s.replies + {(s.nodes[d].table[i].lifetime - s.now).Floor})
    case SendHello => s.(replies := s.replies + {s.now.Floor + (2.0 * HELLO_INTERVAL).Floor})
    case _ => s.(nodes := s.nodes[ev.d := Handle(s.nodes[ev.d], s.now, ev)])
  }

  ghost predicate Inv(s: Net) {
    && s.now >= 0.0
    && (forall d | 0 <= d < |s.nodes| :: NodeInv(s.nodes[d], s.now))
    && (forall r | r in s.replies :: r as real <= s.now + DELETE_PERIOD)
  }

  /** Evolution composes within one instant when nothing expires in the second part. */
  lemma EvolvesThen(a: Node, b: Node, c: Node, now: real)
    requires Evolves(a, b, now) && |c.table| == |b.table|
    requires forall i | 0 <= i < |b.table| :: Develops(b.table[i], c.table[i]) && c.table[i].hops == b.table[i].hops
    ensures Evolves(a, c, now)
  {
    forall e | e in a.table
      ensures Survives(e, c.table) || (e.lifetime == now && !Listed(c.table, e.dest))
    {
      if Survives(e, b.table) {
        var e' :| e' in b.table && Develops(e, e');
        var i :| 0 <= i < |b.table| && b.table[i] == e';
        SurvivesAs(e, c.table, i);
      } else {
        assert forall i | 0 <= i < |c.table| :: c.table[i].dest == b.table[i].dest;
      }
    }
  }

  lemma ReplyInv(n: Node, now: real, dest: Ip, seqNo: nat, hops: nat, last: Ip, life: real)
    requires NodeInv(n, now) && life <= now + DELETE_PERIOD
    ensures var n' := Update(Insert(n, now, dest, seqNo, hops, last, now + ACTIVE_ROUTE_TIMEOUT), last, life);
            Keeps(n, n', now)
  {
    InsertInv(n, now, dest, seqNo, hops, last, now + ACTIVE_ROUTE_TIMEOUT);
    var mid := Insert(n, now, dest, seqNo, hops, last, now + ACTIVE_ROUTE_TIMEOUT);
    AfterInsert(n, mid, now, last, life);
  }

  lemma AfterInsert(n: Node, mid: Node, now: real, last: Ip, life: real)
    requires NodeInv(mid, now) && Evolves(n, mid, now) && life <= now + DELETE_PERIOD
    ensures Keeps(n, Update(mid, last, life), now)
  {
    UpdateInv(mid, now, last, life);
    EvolvesThen(n, mid, Update(mid, last, life), now);
  }

  lemma FireInv(n: Node, now: real, t: Timer)
    requires NodeInv(n, now) && t in n.timers && t.at == now
    ensures Keeps(n, Expire(n, now, t), now)
  {
    assert Listed(n.table, t.dest);
    var i :| 0 <= i < |n.table| && n.table[i].dest == t.dest;
    ExpireInv(n, now, t, i);
  }

  /** Every event keeps the invariant of its device and lets its routes develop. */
  lemma HandleInv(n: Node, now: real, ev: Event)
    requires NodeInv(n, now)
    requires ev.RecvRrep? ==> ev.life as real <= now + DELETE_PERIOD
    requires ev.Fire? ==> ev.t in n.timers && ev.t.at == now
    ensures Keeps(n, Handle(n, now, ev), now)
  {
    match ev
    case RecvRreq(_, originator, seqNo, hops, last) =>
      InsertInv(n, now, originator, seqNo, hops, last, RequestLifetime(now, hops));
    case RecvRrep(_, dest, seqNo, hops, last, life) => ReplyInv(n, now, dest, seqNo, hops, last, life as real);
    case UseRoute(_, ip) => UpdateInv(n, now, ip, now + ACTIVE_ROUTE_TIMEOUT);
    case BreakLink(_, unreachable) => LinkBrokenInv(n, now, unreachable);
    case RecvRerr(_, from, dests) => RouteErrorInv(n, now, from, dests);
    case Fire(_, t) => FireInv(n, now, t);
    case _ => Kept(n, n, now);
  }

  lemma DeviceInv(s: Net, ev: Event)
    requires Inv(s) && Enabled(s, ev)
    requires ev.RecvRreq? || ev.RecvRrep? || ev.UseRoute? || ev.BreakLink? || ev.RecvRerr? || ev.Fire?
    ensures Inv(Next(s, ev))
  {
    HandleInv(s.nodes[ev.d], s.now, ev);
    var s' := Next(s, ev);
    forall d | 0 <= d < |s'.nodes| ensures NodeInv(s'.nodes[d], s'.now) {
      assert d != ev.d ==> NodeInv(s.nodes[d], s.now);
    }
  }

  lemma NextInv(s: Net, ev: Event)
    requires Inv(s) && Enabled(s, ev)
    ensures Inv(Next(s, ev))
  {
    match ev
    case Tick(now) =>
      forall d | 0 <= d < |s.nodes| ensures NodeInv(s.nodes[d], now) {
        TickInv(s.nodes[d], s.now, now);
      }
    case SendRrep =>
    case SendRrepFor(d, i) =>
      assert Timed(s.nodes[d].table[i], s.nodes[d].timers, s.now);
    case SendHello =>
    case _ =>
      DeviceInv(s, ev);
  }

  ghost function Init(devices: nat): Net {
    Net(0.0, seq(devices, _ => Node([], multiset{})), {})
  }

  ghost predicate Run(run: seq<Net>, evs: seq<Event>) {
    && |run| == |evs| + 1
    && run[0] == Init(|run[0].nodes|)
    && forall i | 0 <= i < |evs| :: Enabled(run[i], evs[i]) && run[i + 1] == Next(run[i], evs[i])
  }

  /** In every reachable state: at most one entry per destination; the valid-sequence flag says
      whether the number is nonzero; every entry has exactly one pending timeout, due between now
      and its lifetime, and its lifetime is at most now + DELETE_PERIOD. */
  lemma {:induction false} ReachableInv(run: seq<Net>, evs: seq<Event>, i: nat)
    requires Run(run, evs) && i < |run|
    ensures Inv(run[i])
  {
    if i > 0 {
      ReachableInv(run, evs, i - 1);
      NextInv(run[i - 1], evs[i - 1]);
    }
  }

  /** Along every run, an entry's lifetime and sequence number never decrease and an equal nonzero
      number changes the hop count only for a smaller one or over an invalid entry; and an entry
      goes away only at the very time of its lifetime. */
  lemma RoutesEvolve(run: seq<Net>, evs: seq<Event>, i: nat, d: nat)
    requires Run(run, evs) && i < |evs| && d < |run[i].nodes|
    ensures |run[i + 1].nodes| == |run[i].nodes|
    ensures Evolves(run[i].nodes[d], run[i + 1].nodes[d], run[i].now)
  {
    ReachableInv(run, evs, i);
    var s, ev := run[i], evs[i];
    assert run[i + 1] == Next(s, ev);
    Kept(s.nodes[d], s.nodes[d], s.now);
    if run[i + 1].nodes[d] != s.nodes[d] {
      HandleInv(s.nodes[d], s.now, ev);
    }
  }

  /** No entry outlives its lifetime: the clock never passes it while the entry is there. */
  lemma NeverOverdue(run: seq<Net>, evs: seq<Event>, i: nat, d: nat, k: nat)
    requires Run(run, evs) && i < |run| && d < |run[i].nodes| && k < |run[i].nodes[d].table|
    ensures run[i].now <= run[i].nodes[d].table[k].lifetime <= run[i].now + DELETE_PERIOD
  {
    ReachableInv(run, evs, i);
    assert NodeInv(run[i].nodes[d], run[i].now);
    assert Timed(run[i].nodes[d].table[k], run[i].nodes[d].timers, run[i].now);
  }

  // ----- Lookups ---------------------------------------------------------------------------------

  /** The destinations for which a table has a route: the invalid flag is not looked at. */
  ghost function FoundRoutes(table: seq<Entry>, now: real): set<Ip> {
    set e | e in table && e.lifetime > now :: e.dest
  }

  /** Inserting what a reply says gives a route to its destination, except that an entry which
      refuses the reply may be at the very end of its life. */
  lemma InsertFinds(n: Node, now: real, ip: Ip, seqNo: nat, hops: nat, nextHop: Ip)
    requires NodeInv(n, now)
    ensures var table := Insert(n, now, ip, seqNo, hops, nextHop, now + ACTIVE_ROUTE_TIMEOUT).table;
            ip in FoundRoutes(table, now)
            <==> !exists e :: e in n.table && e.dest == ip && e.lifetime == now && !Accepts(e, seqNo, hops)
  {
    var n' := Insert(n, now, ip, seqNo, hops, nextHop, now + ACTIVE_ROUTE_TIMEOUT);
    match Find(n.table, ip)
    case None =>
      assert n'.table[|n.table|] in n'.table;
    case Some(i) =>
      FirstFound(n.table, ip, i);
      assert Timed(n.table[i], n.timers, now);
      assert n'.table[i] in n'.table && n.table[i] in n.table;
      forall e | e in n'.table && e.dest == ip ensures e == n'.table[i] {
        var j :| 0 <= j < |n'.table| && n'.table[j] == e;
      }
  }

  /** The entries through a next hop, in the order of the table. */
  ghost function Through(table: seq<Entry>, hop: Ip): seq<Entry> {
    if table == [] then []
    else
      var e := table[|table| - 1];
      Through(table[..|table| - 1], hop) + (if e.nextHop == hop then [e] else [])
  }

  ghost function Dests(es: seq<Entry>): seq<Ip> {
    seq(|es|, i requires 0 <= i < |es| => es[i].dest)
  }

  ghost function SeqNos(es: seq<Entry>): seq<nat> {
    seq(|es|, i requires 0 <= i < |es| => es[i].seqNo)
  }

  lemma ThroughNext(table: seq<Entry>, hop: Ip, i: nat)
    requires i < |table|
    ensures var es, e := Through(table[..i], hop), table[i];
            && Dests(Through(table[..i + 1], hop)) == Dests(es) + (if e.nextHop == hop then [e.dest] else [])
            && SeqNos(Through(table[..i + 1], hop)) == SeqNos(es) + (if e.nextHop == hop then [e.seqNo] else [])
  {
    assert table[..i + 1][..i] == table[..i];
  }

  // ----- The table as the code keeps it ----------------------------------------------------------

  class Device {
    var routeTable: seq<Entry>
    var timers: multiset<Timer>

    ghost function State(): Node
      reads this
    {
      Node(routeTable, timers)
    }

    constructor ()
      ensures State() == Node([], multiset{})
    {
      routeTable, timers := [], multiset{};
    }

    /** fnFindRouteTable and the scans that share its loop. */
    method FindRoute(ip: Ip) returns (r: Option<nat>)
      ensures r == Find(routeTable, ip)
    {
      var i := 0;
      while i < |routeTable|
        invariant i <= |routeTable| && Find(routeTable, ip) == FindFrom(routeTable, ip, i)
      {
        if routeTable[i].dest == ip {
          return Some(i);
        }
        i := i + 1;
      }
      return None;
    }

    /** fn_NetSim_AODV_FindNextHop */
    method FindNextHop(dest: Ip) returns (r: Option<Ip>)
      ensures r == match Find(routeTable, dest) case None => None case Some(i) => Some(routeTable[i].nextHop)
    {
      var i := FindRoute(dest);
      r := if i.None? then None else Some(routeTable[i.value].nextHop);
    }

    /** fn_NetSim_AODV_CheckRouteFound: unlike the other scans it does not stop at the first entry
        for ip. */
    method CheckRouteFound(ip: Ip, now: real) returns (found: bool)
      ensures found <==> ip in FoundRoutes(routeTable, now)
    {
      for i := 0 to |routeTable|
        invariant forall j | 0 <= j < i :: !(routeTable[j].dest == ip && routeTable[j].lifetime > now)
      {
        if routeTable[i].dest == ip {
          if routeTable[i].lifetime > now {
            assert routeTable[i] in routeTable;
            return true;
          }
        }
      }
      return false;
    }

    /** fn_NetSim_AODV_InsertInRouteTable */
    method InsertRoute(ip: Ip, seqNo: nat, hops: nat, nextHop: Ip, lifetime: real, now: real)
      modifies this
      ensures State() == Insert(old(State()), now, ip, seqNo, hops, nextHop, lifetime)
      ensures NodeInv(old(State()), now) ==>
                Inserted(old(State()), State(), now, ip, seqNo, hops, nextHop, lifetime)
    {
      if NodeInv(State(), now) {
        InsertTakes(State(), now, ip, seqNo, hops, nextHop, lifetime);
      }
      var i := FindRoute(ip);
      if i.Some? {
        var e := routeTable[i.value];
        if e.validSeq {
          if e.seqNo > seqNo {
            return;
          }
          if e.seqNo == seqNo && !(hops + 1 < e.hops || e.flag == Invalid) {
            return;
          }
        }
        e := e.(seqNo := seqNo, hops := hops, lifetime := MaxReal(e.lifetime, lifetime), flag := Valid);
        if e.seqNo != 0 {
          e := e.(validSeq := true);
        }
        routeTable := routeTable[i.value := e];
      } else {
        var due := now + ACTIVE_ROUTE_TIMEOUT;
        routeTable := routeTable + [Entry(ip, seqNo, seqNo != 0, Valid, hops, nextHop, MaxReal(due, lifetime))];
        timers := timers + multiset{Timer(ip, due)};
      }
    }

    /** fn_NetSim_AODV_UpdateRouteTable */
    method UpdateRoutes(ip: Ip, lifetime: real)
      modifies this
      ensures State() == Update(old(State()), ip, lifetime)
      ensures Prolonged(old(State()), State(), ip, lifetime)
    {
      for i := 0 to |routeTable|
        invariant |routeTable| == |old(routeTable)| && timers == old(timers)
        invariant forall j | 0 <= j < |routeTable| ::
                    routeTable[j] == if j < i then Prolong(old(routeTable)[j], ip, lifetime) else old(routeTable)[j]
      {
        var e := routeTable[i];
        if e.nextHop == ip || e.dest == ip {
          routeTable := routeTable[i := e.(lifetime := MaxReal(e.lifetime, lifetime))];
        }
      }
    }

    /** The loop of fn_NetSim_AODV_GenerateRERR, with the lists of destinations and of their sequence
        numbers that it collects. */
    method GenerateRouteError(unreachable: Ip, now: real) returns (dests: seq<Ip>, seqNos: seq<nat>)
      modifies this
      ensures State() == LinkBroken(old(State()), now, unreachable)
      ensures Broken(old(routeTable), routeTable, now, (e: Entry) => e.nextHop == unreachable)
      ensures dests == Dests(Through(old(routeTable), unreachable))
      ensures seqNos == SeqNos(Through(old(routeTable), unreachable))
    {
      dests, seqNos := [], [];
      for i := 0 to |routeTable|
        invariant |routeTable| == |old(routeTable)| && timers == old(timers)
        invariant forall j | 0 <= j < |routeTable| ::
                    routeTable[j] == if j < i && old(routeTable)[j].nextHop == unreachable
                                     then Break(old(routeTable)[j], now) else old(routeTable)[j]
        invariant dests == Dests(Through(old(routeTable)[..i], unreachable))
        invariant seqNos == SeqNos(Through(old(routeTable)[..i], unreachable))
      {
        var e := routeTable[i];
        ThroughNext(old(routeTable), unreachable, i);
        if e.nextHop == unreachable {
          routeTable := routeTable[i := e.(flag := Invalid, lifetime := now + DELETE_PERIOD)];
          dests, seqNos := dests + [e.dest], seqNos + [e.seqNo];
        }
      }
      assert old(routeTable)[..|routeTable|] == old(routeTable);
    }

    /** The loops of fn_NetSim_AODV_ProcessRERR; `forward` says whether the error is passed on. */
    method ProcessRouteError(from: Ip, dests: seq<Ip>, now: real) returns (forward: bool)
      modifies this
      ensures State() == RouteError(old(State()), now, from, dests)
      ensures Broken(old(routeTable), routeTable, now, (e: Entry) => e.dest in dests && e.nextHop == from)
      ensures forward <==> exists i :: 0 <= i < |old(routeTable)| && old(routeTable)[i].dest in dests
                                       && old(routeTable)[i].nextHop == from
    {
      forward := false;
      for i := 0 to |routeTable|
        invariant |routeTable| == |old(routeTable)| && timers == old(timers)
        invariant forall j | 0 <= j < |routeTable| ::
                    routeTable[j] == if j < i && old(routeTable)[j].dest in dests && old(routeTable)[j].nextHop == from
                                     then Break(old(routeTable)[j], now) else old(routeTable)[j]
        invariant forward <==> exists j :: 0 <= j < i && old(routeTable)[j].dest in dests
                                           && old(routeTable)[j].nextHop == from
      {
        var e := routeTable[i];
        var listed := false;
        for k := 0 to |dests|
          invariant listed <==> e.dest in dests[..k]
        {
          listed := listed || dests[k] == e.dest;
        }
        assert dests[..|dests|] == dests;
        if listed && e.nextHop == from {
          forward := true;
          routeTable := routeTable[i := e.(flag := Invalid, lifetime := now + DELETE_PERIOD)];
        }
      }
    }

    /** fn_NetSim_AODV_ActiveRouteTimeout for the timer t that has just fired. The scan does not stop
        at the first entry, but in a table without duplicates there is no second one. */
    method ActiveRouteTimeout(t: Timer, now: real)
      requires t in timers && Unique(routeTable)
      modifies this
      ensures State() == Expire(old(State()), now, t)
    {
      timers := timers - multiset{t};
      ghost var rest, done := timers, false;
      var i := 0;
      while i < |routeTable|
        invariant i <= |routeTable|
        invariant !done ==> routeTable == old(routeTable) && timers == rest
        invariant !done ==> forall j | 0 <= j < i :: routeTable[j].dest != t.dest
        invariant done ==> State() == Expire(old(State()), now, t)
        invariant done ==> forall j | i <= j < |routeTable| :: routeTable[j].dest != t.dest
        decreases |routeTable| - i
      {
        if routeTable[i].dest == t.dest {
          FirstFound(routeTable, t.dest, i);
          done := true;
          if routeTable[i].lifetime <= now {
            routeTable := Without(routeTable, i);
            continue;
          }
          timers := timers + multiset{Timer(t.dest, routeTable[i].lifetime)};
        }
        i := i + 1;
      }
    }

    /** fn_NetSim_AODV_GeneralPacketProcessing for a packet to ip: a route reported found is the one
        whose next hop is used, and its use prolongs it and the routes through ip. */
    method UseRouteIfFound(ip: Ip, now: real) returns (r: Option<Ip>)
      requires NodeInv(State(), now)
      modifies this
      ensures r.Some? <==> ip in FoundRoutes(old(routeTable), now)
      ensures forall e | e in old(routeTable) && e.dest == ip && e.lifetime > now :: r == Some(e.nextHop)
      ensures State() == if r.Some? then Update(old(State()), ip, now + ACTIVE_ROUTE_TIMEOUT) else old(State())
      ensures r.Some? ==> Prolonged(old(State()), State(), ip, now + ACTIVE_ROUTE_TIMEOUT)
    {
      var found := CheckRouteFound(ip, now);
      if !found {
        return None;
      }
      r := FindNextHop(ip);
      forall i | 0 <= i < |routeTable| && routeTable[i].dest == ip ensures Find(routeTable, ip) == Some(i) {
        FirstFound(routeTable, ip, i);
      }
      UpdateRoutes(ip, now + ACTIVE_ROUTE_TIMEOUT);
    }
  }
}
