/** The future event list of FastEmulation/EventHandler.c: a singly linked list from head to tail,
    kept in the order of the event times. The list must not look at the next pointer of its last
    node, since add_event copies that pointer from its caller. */
module EventList {
  /** An event; `id` numbers the events in the order in which they are added. */
  datatype Item = Item(time: nat, id: nat)

  // ----- The abstract list -----------------------------------------------------------------------

  /** The place of a new event: behind all events that are not later. */
  function Place(s: seq<Item>, time: nat): (i: nat)
    ensures i <= |s| && (forall j | 0 <= j < i :: s[j].time <= time) && (i < |s| ==> s[i].time > time)
  {
    if s == [] || s[0].time > time then 0 else 1 + Place(s[1..], time)
  }

  function Splice<T>(s: seq<T>, k: nat, e: T): (r: seq<T>)
    requires k <= |s|
    ensures |r| == |s| + 1
    ensures forall i | 0 <= i < |r| :: r[i] == if i < k then s[i] else if i == k then e else s[i - 1]
  {
    s[..k] + [e] + s[k..]
  }

  function Insert(s: seq<Item>, e: Item): seq<Item> {
    Splice(s, Place(s, e.time), e)
  }

  /** By time, and among equal times in the order of adding. */
  ghost predicate Before(a: Item, b: Item) {
    a.time < b.time || (a.time == b.time && a.id < b.id)
  }

  ghost predicate Ordered(s: seq<Item>) {
    forall i, j | 0 <= i < j < |s| :: Before(s[i], s[j])
  }

  lemma SpliceMultiset(s: seq<Item>, k: nat, e: Item)
    requires k <= |s|
    ensures multiset(Splice(s, k, e)) == multiset(s) + multiset{e}
  {
    assert s == s[..k] + s[k..];
  }

  /** Inserting an event younger than all others keeps the list sorted and stable and adds just the
      event. */
  lemma InsertOrdered(s: seq<Item>, e: Item)
    requires Ordered(s) && forall i | 0 <= i < |s| :: s[i].id < e.id
    ensures Ordered(Insert(s, e))
    ensures multiset(Insert(s, e)) == multiset(s) + multiset{e}
  {
    var p := Place(s, e.time);
    forall i | p <= i < |s| ensures Before(e, s[i]) {
      assert i == p || Before(s[p], s[i]);
    }
    SpliceMultiset(s, p, e);
  }

  /** In a sorted list, the place is where the first later event is. */
  lemma PlaceIs(s: seq<Item>, time: nat, k: nat)
    requires Ordered(s) && k <= |s|
    requires (k > 0 ==> s[k - 1].time <= time) && (k < |s| ==> s[k].time > time)
    ensures Place(s, time) == k
  {
    var p := Place(s, time);
    assert p < k - 1 ==> Before(s[p], s[k - 1]);
  }

  // ----- Runs ------------------------------------------------------------------------------------

  /** The list, everything added so far and everything released so far. */
  datatype Fel = Fel(list: seq<Item>, added: seq<Item>, released: seq<Item>)

  datatype Op = Add(time: nat) | Get(now: nat)

  ghost function Apply(f: Fel, op: Op): Fel {
    match op
    case Add(time) =>
      var e := Item(time, |f.added|);
      Fel(Insert(f.list, e), f.added + [e], f.released)
    case Get(now) =>
      if f.list == [] || now < f.list[0].time then f
      else Fel(f.list[1..], f.added, f.released + [f.list[0]])
  }

  ghost function ApplyAll(ops: seq<Op>): Fel {
    if ops == [] then Fel([], [], []) else Apply(ApplyAll(ops[..|ops| - 1]), ops[|ops| - 1])
  }

  ghost predicate Inv(f: Fel) {
    && Ordered(f.list)
    && (forall i | 0 <= i < |f.list| :: f.list[i].id < |f.added|)
    && multiset(f.added) == multiset(f.released) + multiset(f.list)
  }

  lemma AddInv(f: Fel, e: Item)
    requires Inv(f) && e.id == |f.added|
    ensures Inv(Fel(Insert(f.list, e), f.added + [e], f.released))
  {
    var list := Insert(f.list, e);
    InsertOrdered(f.list, e);
    forall i | 0 <= i < |list| ensures list[i].id < |f.added| + 1 {
      assert list[i] in multiset(list);
    }
  }

  lemma GetInv(f: Fel)
    requires Inv(f) && f.list != []
    ensures Inv(Fel(f.list[1..], f.added, f.released + [f.list[0]]))
  {
    assert f.list == [f.list[0]] + f.list[1..];
  }

  lemma ApplyInv(f: Fel, op: Op)
    requires Inv(f)
    ensures Inv(Apply(f, op))
  {
    match op
    case Add(time) => AddInv(f, Item(time, |f.added|));
    case Get(now) =>
      if f.list != [] && now >= f.list[0].time {
        GetInv(f);
      }
  }

  /** Under any mix of add_event and get_event the list is sorted by time, stable for equal times, and
      holds exactly the events that were added and not yet released. */
  lemma {:induction false} RunInv(ops: seq<Op>)
    ensures Inv(ApplyAll(ops))
  {
    if ops != [] {
      RunInv(ops[..|ops| - 1]);
      ApplyInv(ApplyAll(ops[..|ops| - 1]), ops[|ops| - 1]);
    }
  }

  /** What is released is due, and no event still in the list comes before it. */
  lemma ReleasedIsNext(ops: seq<Op>, now: nat)
    requires var f := ApplyAll(ops); f.list != [] && now >= f.list[0].time
    ensures var f := ApplyAll(ops);
            var f' := Apply(f, Get(now));
            && f'.released == f.released + [f.list[0]] && f.list[0].time <= now
            && forall e | e in f'.list :: Before(f.list[0], e)
  {
    RunInv(ops);
    var f := ApplyAll(ops);
    forall e | e in f.list[1..] ensures Before(f.list[0], e) {
      var k :| 0 <= k < |f.list[1..]| && f.list[1..][k] == e;
      assert e == f.list[k + 1];
    }
  }

  // ----- The linked list -------------------------------------------------------------------------

  class Event {
    var time: nat
    var id: nat
    var next: Event?

    constructor (time: nat, id: nat, next: Event?)
      ensures this.time == time && this.id == id && this.next == next
    {
      this.time, this.id, this.next := time, id, next;
    }
  }

  ghost function Items(spine: seq<Event>): (s: seq<Item>)
    reads spine
    ensures |s| == |spine| && forall i | 0 <= i < |s| :: s[i] == Item(spine[i].time, spine[i].id)
  {
    seq(|spine|, i requires 0 <= i < |spine| reads spine => Item(spine[i].time, spine[i].id))
  }

  lemma ItemsSplice(spine: seq<Event>, k: nat, e: Event)
    requires k <= |spine|
    ensures Items(Splice(spine, k, e)) == Splice(Items(spine), k, Item(e.time, e.id))
  {
  }

  class FutureEventList {
    var head: Event?
    var tail: Event?
    ghost var spine: seq<Event>

    /** The nodes from head to tail; nothing is said of the last node's next pointer. */
    ghost predicate Linked()
      reads this, spine
    {
      && (head == null <==> spine == []) && (tail == null <==> spine == [])
      && (spine != [] ==> head == spine[0] && tail == spine[|spine| - 1])
      && (forall i {:trigger spine[i].next} | 0 <= i < |spine| - 1 :: spine[i].next == spine[i + 1])
      && (forall i, j | 0 <= i < j < |spine| :: spine[i] != spine[j])
    }

    ghost function Contents(): (s: seq<Item>)
      reads this, spine
    {
      Items(spine)
    }

    ghost predicate Valid()
      reads this, spine
    {
      Linked() && Ordered(Contents())
    }

    constructor ()
      ensures Valid() && Contents() == []
    {
      head, tail, spine := null, null, [];
    }

    method LinkFirst(e: Event)
      requires Linked() && spine != [] && e !in spine
      modifies this`spine, this`head, e`next
      ensures Linked() && spine == Splice(old(spine), 0, e)
    {
      e.next := head;
      head := e;
      spine := Splice(spine, 0, e);
    }

    /** add_event before the head. */
    method InsertFirst(e: Event)
      requires Valid() && spine != [] && e !in spine && head.time > e.time
      modifies this`spine, this`head, e`next
      ensures Linked() && Contents() == Insert(old(Contents()), Item(e.time, e.id))
    {
      ghost var before, nodes := Contents(), spine;
      LinkFirst(e);
      assert Items(nodes) == before;
      ItemsSplice(nodes, 0, e);
      PlaceIs(before, e.time, 0);
    }

    method LinkLast(e: Event)
      requires Linked() && spine != [] && e !in spine
      modifies this`spine, this`tail, tail`next
      ensures Linked() && spine == Splice(old(spine), |old(spine)|, e)
    {
      tail.next := e;
      tail := e;
      spine := Splice(spine, |spine|, e);
    }

    /** add_event behind the tail. */
    method InsertLast(e: Event)
      requires Valid() && spine != [] && e !in spine && tail.time <= e.time
      modifies this`spine, this`tail, tail`next
      ensures Linked() && Contents() == Insert(old(Contents()), Item(e.time, e.id))
    {
      ghost var before, nodes := Contents(), spine;
      LinkLast(e);
      assert Items(nodes) == before;
      ItemsSplice(nodes, |nodes|, e);
      PlaceIs(before, e.time, |nodes|);
    }

    method LinkAfter(e: Event, t: Event, ghost k: nat)
      requires Linked() && 0 < k < |spine| && t == spine[k - 1] && e !in spine
      modifies this`spine, e`next, t`next
      ensures Linked() && spine == Splice(old(spine), k, e)
    {
      assert t.next == spine[k - 1 + 1];
      e.next := t.next;
      t.next := e;
      spine := Splice(spine, k, e);
    }

    /** The walk of add_event: the last node that is not later than `time`. It ends before the tail,
        so the tail's next pointer is not read. */
    method Walk(time: nat) returns (t: Event, ghost k: nat)
      requires Linked() && spine != [] && head.time <= time < tail.time
      ensures 0 < k < |spine| && t == spine[k - 1] && t.time <= time < spine[k].time
    {
      t, k := head, 1;
      assert spine[0].next == spine[0 + 1];
      while t.next != null
        invariant 0 < k < |spine| && t == spine[k - 1] && t.time <= time && t.next == spine[k]
        decreases |spine| - k
      {
        if t.next.time > time {
          return;
        }
        assert spine[k].next == spine[k + 1];
        t, k := t.next, k + 1;
      }
    }

    /** add_event between head and tail. */
    method InsertBetween(e: Event)
      requires Valid() && spine != [] && e !in spine && head.time <= e.time < tail.time
      modifies this`spine, e`next, spine
      ensures Linked() && Contents() == Insert(old(Contents()), Item(e.time, e.id))
    {
      ghost var before, nodes := Contents(), spine;
      var t;
      ghost var k;
      t, k := Walk(e.time);
      LinkAfter(e, t, k);
      assert Items(nodes) == before;
      ItemsSplice(nodes, k, e);
      PlaceIs(before, e.time, k);
    }

    /** add_event to the empty list. */
    method InsertOnly(e: Event)
      requires Valid() && head == null
      modifies this
      ensures Linked() && Contents() == Insert(old(Contents()), Item(e.time, e.id))
    {
      head, tail, spine := e, e, [e];
    }

    method InsertNode(e: Event)
      requires Valid() && e !in spine && forall i | 0 <= i < |Contents()| :: Contents()[i].id < e.id
      modifies this, e`next, spine
      ensures Valid() && Contents() == Insert(old(Contents()), Item(e.time, e.id))
    {
      InsertOrdered(Contents(), Item(e.time, e.id));
      if head == null {
        InsertOnly(e);
      } else if head.time > e.time {
        InsertFirst(e);
      } else if tail.time <= e.time {
        InsertLast(e);
      } else {
        InsertBetween(e);
      }
    }

    /** add_event; the new node starts with the caller's next pointer. */
    method AddEvent(time: nat, id: nat, callersNext: Event?)
      requires Valid() && forall i | 0 <= i < |Contents()| :: Contents()[i].id < id
      modifies this, spine
      ensures Valid() && Contents() == Insert(old(Contents()), Item(time, id))
    {
      ghost var before := Contents();
      var e := new Event(time, id, callersNext);
      assert Contents() == before && Linked();
      InsertNode(e);
    }

    method UnlinkFirst()
      requires Linked() && head != tail
      modifies this`head, this`spine, head`next
      ensures Linked() && spine == old(spine)[1..]
    {
      var t := head;
      assert t.next == spine[0 + 1];
      head := t.next;
      t.next := null;
      spine := spine[1..];
    }

    /** get_event */
    method GetEvent(now: nat) returns (e: Event?)
      requires Valid()
      modifies this, spine
      ensures Valid()
      ensures var s := old(Contents());
              if s == [] || now < s[0].time then e == null && Contents() == s
              else e != null && Item(e.time, e.id) == s[0] && Contents() == s[1..]
    {
      if head == null {
        return null;
      }
      if now < head.time {
        return null;
      }
      e := head;
      if head == tail {
        head, tail, spine := null, null, [];
        return;
      }
      UnlinkFirst();
    }
  }
}
