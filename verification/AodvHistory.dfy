/** Where the routes of a table come from, over whole runs of the network of AodvRoutes: every next hop was
    heard when its entry was made, every number and hop count was heard together, nothing newer was refused,
    and a broken route stays broken until news of its destination replaces it. */
module AodvHistory {
  import opened Common
  import opened AodvRoutes

  // ----- What an event tells ---------------------------------------------------------------------

  /** What a request says of its originator, or a reply of its destination, to the device that takes it. */
  datatype News = News(dest: Ip, seqNo: nat, hops: nat, last: Ip)

  function Heard(ev: Event): Option<News> {
    match ev
    case RecvRreq(_, originator, seqNo, hops, last) => Some(News(originator, seqNo, hops, last))
    case RecvRrep(_, dest, seqNo, hops, last, _) => Some(News(dest, seqNo, hops, last))
    case _ => None
  }

  /** ev brings device d news of dest. */
  predicate Tells(ev: Event, d: nat, dest: Ip) {
    Heard(ev).Some? && Heard(ev).value.dest == dest && ev.d == d
  }

  /** How entry e' comes out of the entry e that the table had: by what it held or by the news. */
  predicate Follows(e: Entry, e': Entry, news: Option<News>) {
    && e'.dest == e.dest && e'.nextHop == e.nextHop && e'.seqNo >= e.seqNo
    && if news.Some? && news.value.dest == e.dest
       then && e'.seqNo >= news.value.seqNo
            && ((e'.seqNo == news.value.seqNo && e'.hops == news.value.hops)
                || (e'.seqNo == e.seqNo && e'.hops == e.hops))
       else e'.seqNo == e.seqNo && e'.hops == e.hops && (e.flag == Invalid ==> e'.flag == Invalid)
  }

  ghost predicate FollowsSome(table: seq<Entry>, e': Entry, news: Option<News>) {
    exists i :: 0 <= i < |table| && Follows(table[i], e', news)
  }

  predicate MadeBy(e': Entry, news: Option<News>) {
    news == Some(News(e'.dest, e'.seqNo, e'.hops, e'.nextHop))
  }

  /** Every entry follows one that was there, or there was none and it is exactly the news. */
  ghost predicate Accounted(n: Node, n': Node, news: Option<News>) {
    forall k | 0 <= k < |n'.table| ::
      FollowsSome(n.table, n'.table[k], news)
      || (!Listed(n.table, n'.table[k].dest) && MadeBy(n'.table[k], news))
  }

  lemma InsertAccounted(n: Node, now: real, w: News, lifetime: real)
    requires NodeInv(n, now)
    ensures Accounted(n, Insert(n, now, w.dest, w.seqNo, w.hops, w.last, lifetime), Some(w))
  {
    var n' := Insert(n, now, w.dest, w.seqNo, w.hops, w.last, lifetime);
    InsertTakes(n, now, w.dest, w.seqNo, w.hops, w.last, lifetime);
    forall k | 0 <= k < |n.table| ensures FollowsSome(n.table, n'.table[k], Some(w)) {
      assert n.table[k].dest == w.dest || n.table[k].dest != w.dest;
      assert Follows(n.table[k], n'.table[k], Some(w));
    }
  }

  /** Changing lifetimes and breaking routes is accounted for by any news. */
  lemma PointwiseAccounted(n: Node, mid: Node, n': Node, news: Option<News>)
    requires Accounted(n, mid, news) && |n'.table| == |mid.table|
    requires forall k | 0 <= k < |mid.table| ::
               && n'.table[k].dest == mid.table[k].dest && n'.table[k].nextHop == mid.table[k].nextHop
               && n'.table[k].seqNo == mid.table[k].seqNo && n'.table[k].hops == mid.table[k].hops
               && (n'.table[k].flag == mid.table[k].flag || n'.table[k].flag == Invalid)
    ensures Accounted(n, n', news)
  {
    forall k | 0 <= k < |n'.table| && FollowsSome(n.table, mid.table[k], news)
      ensures FollowsSome(n.table, n'.table[k], news)
    {
      var i :| 0 <= i < |n.table| && Follows(n.table[i], mid.table[k], news);
      assert Follows(n.table[i], n'.table[k], news);
    }
  }

  lemma SameAccounted(n: Node, n': Node)
    requires forall k | 0 <= k < |n'.table| :: n'.table[k] in n.table
    ensures Accounted(n, n', None)
  {
    forall k | 0 <= k < |n'.table| ensures FollowsSome(n.table, n'.table[k], None) {
      var i :| 0 <= i < |n.table| && n.table[i] == n'.table[k];
      assert Follows(n.table[i], n'.table[k], None);
    }
  }

  lemma ReplyAccounted(n: Node, now: real, w: News, life: real)
    requires NodeInv(n, now)
    ensures Accounted(n, Update(Insert(n, now, w.dest, w.seqNo, w.hops, w.last, now + ACTIVE_ROUTE_TIMEOUT), w.last,
                                life), Some(w))
  {
    var mid := Insert(n, now, w.dest, w.seqNo, w.hops, w.last, now + ACTIVE_ROUTE_TIMEOUT);
    InsertAccounted(n, now, w, now + ACTIVE_ROUTE_TIMEOUT);
    PointwiseAccounted(n, mid, Update(mid, w.last, life), Some(w));
  }

  lemma ChangeAccounted(n: Node, now: real, ip: Ip, dests: seq<Ip>, lifetime: real)
    ensures Accounted(n, n, None)
    ensures Accounted(n, Update(n, ip, lifetime), None)
    ensures Accounted(n, LinkBroken(n, now, ip), None)
    ensures Accounted(n, RouteError(n, now, ip, dests), None)
  {
    SameAccounted(n, n);
    PointwiseAccounted(n, n, Update(n, ip, lifetime), None);
    PointwiseAccounted(n, n, LinkBroken(n, now, ip), None);
    PointwiseAccounted(n, n, RouteError(n, now, ip, dests), None);
  }

  lemma ExpireAccounted(n: Node, now: real, t: Timer)
    ensures Accounted(n, Expire(n, now, t), None)
  {
    SameAccounted(n, Expire(n, now, t));
  }

  lemma HandleAccounted(n: Node, now: real, ev: Event)
    requires NodeInv(n, now)
    ensures Accounted(n, Handle(n, now, ev), Heard(ev))
  {
    match ev
    case RecvRreq(_, originator, seqNo, hops, last) =>
      InsertAccounted(n, now, News(originator, seqNo, hops, last), RequestLifetime(now, hops));
    case RecvRrep(_, dest, seqNo, hops, last, life) =>
      ReplyAccounted(n, now, News(dest, seqNo, hops, last), life as real);
    case UseRoute(_, ip) => ChangeAccounted(n, now, ip, [], now + ACTIVE_ROUTE_TIMEOUT);
    case BreakLink(_, ip) => ChangeAccounted(n, now, ip, [], now);
    case RecvRerr(_, ip, dests) => ChangeAccounted(n, now, ip, dests, now);
    case Fire(_, t) => ExpireAccounted(n, now, t);
    case _ => ChangeAccounted(n, now, 0, [], now);
  }

  // ----- Along a run -----------------------------------------------------------------------------

  /** Device d of state i lists dest. */
  ghost predicate ListedAt(run: seq<Net>, i: nat, d: nat, dest: Ip) {
    i < |run| && d < |run[i].nodes| && Listed(run[i].nodes[d].table, dest)
  }

  /** Event i of the run leaves device d with what the news it brings d, if any, makes of its table. */
  ghost predicate AccountedAt(run: seq<Net>, evs: seq<Event>, i: nat, d: nat)
    requires i + 1 < |run| && i < |evs| && d < |run[i].nodes| && d < |run[i + 1].nodes|
  {
    Accounted(run[i].nodes[d], run[i + 1].nodes[d],
              if Heard(evs[i]).Some? && evs[i].d == d then Heard(evs[i]) else None)
  }

  lemma StepAccounted(run: seq<Net>, evs: seq<Event>, i: nat, d: nat)
    requires Run(run, evs) && i < |evs| && d < |run[i].nodes|
    ensures |run[i + 1].nodes| == |run[i].nodes| && AccountedAt(run, evs, i, d)
  {
    ReachableInv(run, evs, i);
    var s, ev := run[i], evs[i];
    assert run[i + 1] == Next(s, ev);
    SameAccounted(s.nodes[d], s.nodes[d]);
    assert NodeInv(s.nodes[d], s.now);
    if run[i + 1].nodes[d] != s.nodes[d] || Heard(ev).Some? {
      HandleAccounted(s.nodes[d], s.now, ev);
    }
  }

  /** Event j brought device d the news of e's destination that made the entry: d had no entry for it, the
      news came from e's next hop, and d has had an entry for it ever since, up to state i. */
  ghost predicate CreatedBy(run: seq<Net>, evs: seq<Event>, i: nat, d: nat, e: Entry, j: nat) {
    && j < |evs| && j < i
    && Tells(evs[j], d, e.dest) && Heard(evs[j]).value.last == e.nextHop && !ListedAt(run, j, d, e.dest)
    && forall x: nat | j < x <= i :: ListedAt(run, x, d, e.dest)
  }

  /** Event m, since event j, brought device d exactly the number and hop count that e holds, and no event
      since then brought a higher number. */
  ghost predicate TaughtBy(evs: seq<Event>, i: nat, d: nat, e: Entry, j: nat, m: nat)
    requires i <= |evs|
  {
    && j <= m < i
    && Tells(evs[m], d, e.dest) && Heard(evs[m]).value.seqNo == e.seqNo && Heard(evs[m]).value.hops == e.hops
    && forall x: nat | j <= x < i && Tells(evs[x], d, e.dest) :: Heard(evs[x]).value.seqNo <= e.seqNo
  }

  /** Entry e was made by one event and got its number and hop count from one that came no earlier. */
  ghost predicate HasHistory(run: seq<Net>, evs: seq<Event>, i: nat, d: nat, e: Entry)
    requires i <= |evs|
  {
    exists j: nat, m: nat :: CreatedBy(run, evs, i, d, e, j) && TaughtBy(evs, i, d, e, j, m)
  }

  lemma NewHistory(run: seq<Net>, evs: seq<Event>, i: nat, d: nat, k: nat)
    requires |run| == |evs| + 1 && i < |evs| && d < |run[i + 1].nodes| && k < |run[i + 1].nodes[d].table|
    requires var e := run[i + 1].nodes[d].table[k];
             !ListedAt(run, i, d, e.dest) && Heard(evs[i]).Some? && evs[i].d == d && MadeBy(e, Heard(evs[i]))
    ensures HasHistory(run, evs, i + 1, d, run[i + 1].nodes[d].table[k])
  {
    var e := run[i + 1].nodes[d].table[k];
    assert ListedAt(run, i + 1, d, e.dest);
    assert CreatedBy(run, evs, i + 1, d, e, i) && TaughtBy(evs, i + 1, d, e, i, i);
  }

  lemma NextHistory(run: seq<Net>, evs: seq<Event>, i: nat, d: nat, e: Entry, k: nat)
    requires |run| == |evs| + 1 && i < |evs| && d < |run[i + 1].nodes| && k < |run[i + 1].nodes[d].table|
    requires HasHistory(run, evs, i, d, e)
    requires Follows(e, run[i + 1].nodes[d].table[k],
                     if Heard(evs[i]).Some? && evs[i].d == d then Heard(evs[i]) else None)
    ensures HasHistory(run, evs, i + 1, d, run[i + 1].nodes[d].table[k])
  {
    var e' := run[i + 1].nodes[d].table[k];
    var j: nat, m: nat :| CreatedBy(run, evs, i, d, e, j) && TaughtBy(evs, i, d, e, j, m);
    assert ListedAt(run, i + 1, d, e'.dest);
    assert CreatedBy(run, evs, i + 1, d, e', j);
    var m' := if e'.seqNo == e.seqNo && e'.hops == e.hops then m else i;
    assert TaughtBy(evs, i + 1, d, e', j, m');
  }

  /** In every state of every run, the next hop of every entry is the neighbour that the request or reply
      which made the entry came from; its number and hop count came together in one request or reply heard
      since; and its number is the highest heard since. */
  lemma {:induction false} RoutesWereHeard(run: seq<Net>, evs: seq<Event>, i: nat, d: nat, k: nat)
    requires Run(run, evs) && i < |run| && d < |run[i].nodes| && k < |run[i].nodes[d].table|
    ensures HasHistory(run, evs, i, d, run[i].nodes[d].table[k])
  {
    if i > 0 {
      assert run[i] == Next(run[i - 1], evs[i - 1]);
      assert d < |run[i - 1].nodes|;
      StepAccounted(run, evs, i - 1, d);
      var news := if Heard(evs[i - 1]).Some? && evs[i - 1].d == d then Heard(evs[i - 1]) else None;
      var e' := run[i].nodes[d].table[k];
      if FollowsSome(run[i - 1].nodes[d].table, e', news) {
        var p :| 0 <= p < |run[i - 1].nodes[d].table| && Follows(run[i - 1].nodes[d].table[p], e', news);
        RoutesWereHeard(run, evs, i - 1, d, p);
        NextHistory(run, evs, i - 1, d, run[i - 1].nodes[d].table[p], k);
      } else {
        NewHistory(run, evs, i - 1, d, k);
      }
    }
  }

  // ----- Broken routes ---------------------------------------------------------------------------

  /** Every entry that device d has for dest is invalid. */
  ghost predicate Dead(table: seq<Entry>, dest: Ip) {
    forall k | 0 <= k < |table| && table[k].dest == dest :: table[k].flag == Invalid
  }

  /** A route is broken for its destination when the link to its next hop breaks, or when the next hop lists
      the destination in a route error. */
  lemma BreakKills(n: Node, now: real, ev: Event, i: nat)
    requires NodeInv(n, now) && i < |n.table|
    requires || (ev.BreakLink? && n.table[i].nextHop == ev.unreachable)
             || (ev.RecvRerr? && n.table[i].nextHop == ev.from && n.table[i].dest in ev.dests)
    ensures Dead(Handle(n, now, ev).table, n.table[i].dest)
  {
    assert forall k | 0 <= k < |n.table| && n.table[k].dest == n.table[i].dest :: k == i;
  }

  /** A dead destination stays dead until there is news of it. */
  lemma {:induction false} StaysDead(run: seq<Net>, evs: seq<Event>, i: nat, j: nat, d: nat, dest: Ip)
    requires Run(run, evs) && i <= j < |run| && d < |run[i].nodes| && Dead(run[i].nodes[d].table, dest)
    requires forall x | i <= x < j :: !Tells(evs[x], d, dest)
    ensures d < |run[j].nodes| && Dead(run[j].nodes[d].table, dest)
    decreases j
  {
    if i < j {
      StaysDead(run, evs, i, j - 1, d, dest);
      StepAccounted(run, evs, j - 1, d);
      var news := if Heard(evs[j - 1]).Some? && evs[j - 1].d == d then Heard(evs[j - 1]) else None;
      forall k | 0 <= k < |run[j].nodes[d].table| && run[j].nodes[d].table[k].dest == dest
        ensures run[j].nodes[d].table[k].flag == Invalid
      {
        var e' := run[j].nodes[d].table[k];
        assert FollowsSome(run[j - 1].nodes[d].table, e', news);
      }
    }
  }

  /** News of a dead destination with the number held, or a newer one, is taken whatever its hop count: it
      leaves a valid route of exactly that number and hop count. For a live route with a known number, the
      same number is taken only if the route gets shorter by more than one hop. */
  lemma NewsReplaces(n: Node, now: real, w: News, lifetime: real, i: nat)
    requires NodeInv(n, now) && i < |n.table| && n.table[i].dest == w.dest && n.table[i].seqNo == w.seqNo > 0
    ensures var table := Insert(n, now, w.dest, w.seqNo, w.hops, w.last, lifetime).table;
            && |table| == |n.table|
            && (Dead(n.table, w.dest) ==> table[i].hops == w.hops && table[i].flag == Valid)
            && (!Dead(n.table, w.dest) ==>
                  table[i] == n.table[i] || (table[i].hops == w.hops && w.hops + 1 < n.table[i].hops))
            && table[i].seqNo == w.seqNo && table[i].nextHop == n.table[i].nextHop
  {
    InsertTakes(n, now, w.dest, w.seqNo, w.hops, w.last, lifetime);
    assert forall k | 0 <= k < |n.table| && n.table[k].dest == w.dest :: k == i;
  }

  /** So in every run: a route broken at event i, with no news of its destination until event j brings its
      number again, is replaced by what event j says, unless it has been removed by then. */
  lemma BrokenRouteReplaced(run: seq<Net>, evs: seq<Event>, i: nat, j: nat, d: nat, k: nat, p: nat)
    requires Run(run, evs) && i < j < |evs| && d < |run[i].nodes| && k < |run[i].nodes[d].table|
    requires var e := run[i].nodes[d].table[k];
             || (evs[i].BreakLink? && evs[i].d == d && e.nextHop == evs[i].unreachable)
             || (evs[i].RecvRerr? && evs[i].d == d && e.nextHop == evs[i].from && e.dest in evs[i].dests)
    requires forall x | i < x < j :: !Tells(evs[x], d, run[i].nodes[d].table[k].dest)
    requires Tells(evs[j], d, run[i].nodes[d].table[k].dest)
    requires d < |run[j].nodes| && p < |run[j].nodes[d].table|
    requires run[j].nodes[d].table[p].dest == run[i].nodes[d].table[k].dest
    requires run[j].nodes[d].table[p].seqNo == Heard(evs[j]).value.seqNo
    ensures d < |run[j + 1].nodes| && p < |run[j + 1].nodes[d].table|
    ensures var e', w := run[j + 1].nodes[d].table[p], Heard(evs[j]).value;
            && e'.dest == w.dest && e'.seqNo == w.seqNo && e'.hops == w.hops && e'.flag == Valid
            && e'.nextHop == run[j].nodes[d].table[p].nextHop
  {
    var dest := run[i].nodes[d].table[k].dest;
    ReachableInv(run, evs, i);
    assert NodeInv(run[i].nodes[d], run[i].now);
    BreakKills(run[i].nodes[d], run[i].now, evs[i], k);
    assert run[i + 1] == Next(run[i], evs[i]);
    StaysDead(run, evs, i + 1, j, d, dest);
    ReachableInv(run, evs, j);
    assert NodeInv(run[j].nodes[d], run[j].now);
    DeadTaken(run[j].nodes[d], run[j].now, evs[j], d, p);
    assert run[j + 1] == Next(run[j], evs[j]);
  }

  lemma DeadTaken(n: Node, now: real, ev: Event, d: nat, p: nat)
    requires NodeInv(n, now) && p < |n.table| && Dead(n.table, n.table[p].dest)
    requires Tells(ev, d, n.table[p].dest) && Heard(ev).value.seqNo == n.table[p].seqNo
    ensures p < |Handle(n, now, ev).table|
    ensures var e', w := Handle(n, now, ev).table[p], Heard(ev).value;
            && e'.dest == w.dest && e'.seqNo == w.seqNo && e'.hops == w.hops && e'.flag == Valid
            && e'.nextHop == n.table[p].nextHop
  {
    var w := Heard(ev).value;
    if ev.RecvRreq? {
      InsertTakes(n, now, w.dest, w.seqNo, w.hops, w.last, RequestLifetime(now, w.hops));
    } else {
      InsertTakes(n, now, w.dest, w.seqNo, w.hops, w.last, now + ACTIVE_ROUTE_TIMEOUT);
    }
  }
}
