/** The interference test of FastEmulation/ApplicaionMap.c, which decides whether an application
    takes the shortcut. */
module Interference {
  import opened Common
  import opened QueueNetwork
  import opened QueueSafety
  import opened QueueTiming
  import opened Shortcut

  /** An entry of the application map: the application and the queues of its path. */
  datatype App = App(id: nat, hops: seq<nat>)

  /** isTwoAppInterfering */
  method TwoAppsInterfere(m1: App, m2: App) returns (shared: bool)
    ensures shared <==> exists q :: q in m1.hops && q in m2.hops
  {
    for i := 0 to |m1.hops|
      invariant forall l | 0 <= l < i :: m1.hops[l] !in m2.hops
    {
      for j := 0 to |m2.hops|
        invariant forall l | 0 <= l < j :: m1.hops[i] != m2.hops[l]
      {
        if m1.hops[i] == m2.hops[j] {
          assert m1.hops[i] in m1.hops && m1.hops[i] in m2.hops;
          return true;
        }
      }
    }
    return false;
  }

  /** No map of another application uses a queue of this one. */
  ghost predicate Alone(maps: seq<App>, me: nat)
    requires me < |maps|
  {
    forall j | 0 <= j < |maps| && maps[j].id != maps[me].id :: Apart(maps[me].hops, maps[j].hops)
  }

  /** No other map of the same application uses a queue of this one. */
  ghost predicate AloneInApp(maps: seq<App>, me: nat)
    requires me < |maps|
  {
    forall j | 0 <= j < |maps| && j != me && maps[j].id == maps[me].id :: Apart(maps[me].hops, maps[j].hops)
  }

  ghost predicate Apart(hops: seq<nat>, hops': seq<nat>) {
    forall q | q in hops :: q !in hops'
  }

  ghost predicate NoRepeat(hops: seq<nat>) {
    forall i, h | 0 <= i < h < |hops| :: hops[i] != hops[h]
  }

  lemma ApartIs(hops: seq<nat>, hops': seq<nat>)
    ensures Apart(hops, hops') <==> forall i, h | 0 <= i < |hops'| && 0 <= h < |hops| :: hops'[i] != hops[h]
  {
    if Apart(hops, hops') {
      forall i, h | 0 <= i < |hops'| && 0 <= h < |hops| ensures hops'[i] != hops[h] {
        assert hops[h] in hops;
      }
    } else {
      var q :| q in hops && q in hops';
      var h :| 0 <= h < |hops| && hops[h] == q;
      var i :| 0 <= i < |hops'| && hops'[i] == q;
      assert hops'[i] == hops[h];
    }
  }

  /** The interference test gives what the shortcut needs exactly if, besides, no other map of the
      same application uses a queue of this one and its path passes each queue once. */
  lemma AloneIsExclusive(c: Config, maps: seq<App>, me: nat)
    requires |c.paths| == |maps| && me < |maps| && forall j | 0 <= j < |maps| :: c.paths[j] == maps[j].hops
    ensures Exclusive(c, me) <==> Alone(maps, me) && AloneInApp(maps, me) && NoRepeat(maps[me].hops)
  {
    forall j | 0 <= j < |maps|
      ensures Apart(maps[me].hops, maps[j].hops)
              <==> forall i, h | 0 <= i < |c.paths[j]| && 0 <= h < |c.paths[me]| :: c.paths[j][i] != c.paths[me][h]
    {
      ApartIs(maps[me].hops, maps[j].hops);
    }
  }

  /** Two maps of one application over one link. */
  ghost function OneLinkTwice(): Config {
    Config([Link(8.0, 0)], [[0], [0]])
  }

  ghost function FirstByte(): Origin {
    Origin(1, 0, 1, 0)
  }

  ghost function SecondByte(): Origin {
    Origin(2, 1, 1, 0)
  }

  /** One more byte is captured at time 0 by map a, when the link is busy until `busy`. */
  lemma CaptureByte(run: seq<Net>, a: nat, busy: nat, waiting: seq<Packet>) returns (run': seq<Net>)
    requires ValidConfig(OneLinkTwice()) && Run(OneLinkTwice(), run) && a < 2
    requires run[|run| - 1].queues == [Queue(busy, waiting, None)]
    ensures Run(OneLinkTwice(), run')
    ensures var n := run[|run| - 1];
            var o := Origin(|n.captured| + 1, a, 1, 0);
            var q := Queue(busy + 1, waiting + [Packet(o, 0, busy + 1)], None);
            run'[|run'| - 1] == Net([q], n.captured + [o], n.out)
  {
    var c, n := OneLinkTwice(), run[|run| - 1];
    assert Tx(1, 8.0) == 1;
    RunSafe(c, run, |run| - 1);
    run' := run + [Act(c, n, DoCapture(a, 1, 0))];
  }

  /** Each map has captured one byte at time 0, and both wait for the link. */
  lemma BothWait() returns (run: seq<Net>)
    ensures ValidConfig(OneLinkTwice()) && Run(OneLinkTwice(), run)
    ensures run[|run| - 1] == Net([Queue(2, [Packet(FirstByte(), 0, 1)] + [Packet(SecondByte(), 0, 2)], None)],
                                  [FirstByte()] + [SecondByte()], [])
  {
    run := [Init(OneLinkTwice())];
    assert Init(OneLinkTwice()) == Net([Queue(0, [], None)], [], []);
    run := CaptureByte(run, 0, 0, []);
    assert [] + [Packet(FirstByte(), 0, 1)] == [Packet(FirstByte(), 0, 1)] && [] + [FirstByte()] == [FirstByte()];
    run := CaptureByte(run, 1, 1, [Packet(FirstByte(), 0, 1)]);
  }

  /** The thread of queue 0 takes the first packet that waits and reinjects it. */
  lemma ServeFirst(run: seq<Net>, p: Packet, rest: seq<Packet>) returns (run': seq<Net>)
    requires ValidConfig(OneLinkTwice()) && Run(OneLinkTwice(), run) && p.hop == 0 && p.origin.inst < 2
    requires var n := run[|run| - 1]; n.queues == [Queue(2, [p] + rest, None)]
    ensures Run(OneLinkTwice(), run')
    ensures var n := run[|run| - 1];
            run'[|run'| - 1] == Net([Queue(2, rest, None)], n.captured, n.out + [p])
  {
    var c, n := OneLinkTwice(), run[|run| - 1];
    RunSafe(c, run, |run| - 1);
    var n1 := Net([Queue(2, rest, Some(p))], n.captured, n.out);
    assert Act(c, n, DoFetch(0)) == n1;
    run' := run + [n1];
    RunSafe(c, run', |run|);
    HandOk(c, n1, 0);
    run' := run' + [Act(c, n1, DoServe(0, p.reinject))];
  }

  /** Maps of one application that share a link pass the test, and yet the shortcut is early: the
      second byte is reinjected at 2 and the closed form says 1. */
  lemma SameAppInterferes() returns (run: seq<Net>)
    ensures var c, maps := OneLinkTwice(), [App(7, [0]), App(7, [0])];
            && Alone(maps, 0) && Alone(maps, 1) && !Exclusive(c, 1)
            && ValidConfig(c) && Run(c, run) && Slowest(LinksOf(c, 1), 0)
            && var n := run[|run| - 1];
            && CapturedBy(n.captured, 1) == [SecondByte()] && OutOf(n.out, 1) == [Packet(SecondByte(), 0, 2)]
            && ShortcutTime(CapturedBy(n.captured, 1), LinksOf(c, 1), 0, 0) == 1
  {
    var c := OneLinkTwice();
    var p, p' := Packet(FirstByte(), 0, 1), Packet(SecondByte(), 0, 2);
    assert c.paths[0][0] == c.paths[1][0];
    run := BothWait();
    run := ServeFirst(run, p, [p']);
    assert [p'] + [] == [p'] && [] + [p] == [p];
    run := ServeFirst(run, p', []);
    OutOfAppend([p], p', 1);
    CapturedByAppend([FirstByte()], SecondByte(), 1);
    assert Tx(1, 8.0) == 1 && LinksOf(c, 1) == [Link(8.0, 0)];
    ExactOnOneLink([SecondByte()], [Link(8.0, 0)], 0);
  }

  /** check_for_interfering_app: maps of the same application are not compared. */
  method IsNonInterfering(maps: seq<App>, me: nat) returns (alone: bool)
    requires me < |maps|
    ensures alone <==> Alone(maps, me)
  {
    for i := 0 to |maps|
      invariant forall j | 0 <= j < i && maps[j].id != maps[me].id ::
                  forall q | q in maps[me].hops :: q !in maps[j].hops
    {
      if i == me || maps[i].id == maps[me].id {
        continue;
      }
      var shared := TwoAppsInterfere(maps[me], maps[i]);
      if shared {
        return false;
      }
    }
    return true;
  }
}
