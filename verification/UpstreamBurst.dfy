/** The grants that the stations of IEEE 802.22 take from the upstream map (CognitiveRadio/USMAP.c) and
    the packing of the upstream burst (CognitiveRadio/USFrame.c). */
module UpstreamBurst {
  import opened Common
  import opened UpstreamMap

  // ----- What a window grants --------------------------------------------------------------------

  /** Slots per symbol, bits per slot and the duration of a symbol. */
  datatype Symbol = Symbol(ofdmSlots: nat, bitsPerSlot: nat, duration: real)

  ghost predicate ValidSymbol(sym: Symbol) {
    sym.ofdmSlots > 0 && sym.duration > 0.0
  }

  /** dBytesAllocated and dStartTime. */
  datatype Grant = Grant(bytes: real, start: real)

  function BytesIn(slots: nat, sym: Symbol): real {
    (slots * sym.bitsPerSlot) as real / 8.0
  }

  function SlotTime(slot: int, sym: Symbol): real
    requires sym.ofdmSlots > 0
  {
    slot as real * sym.duration / sym.ofdmSlots as real
  }

  /** The grant of a window in an upstream frame that begins at `base`. */
  function GrantOf(w: Window, sym: Symbol, base: real): Grant
    requires sym.ofdmSlots > 0
  {
    Grant(BytesIn(w.slots, sym), base + SlotTime(w.start, sym))
  }

  lemma SlotTimeMonotone(i: int, j: int, sym: Symbol)
    requires ValidSymbol(sym) && i <= j
    ensures SlotTime(i, sym) <= SlotTime(j, sym)
  {
    MulMonotone(i as real, j as real, sym.duration);
    DivMonotone(i as real * sym.duration, j as real * sym.duration, sym.ofdmSlots as real);
  }

  /** What a station is granted after a map: what its window grants, or, if the map does not name it,
      what it was granted before. */
  ghost function AfterMap(g: Grant, m: seq<Element>, sym: Symbol, base: real, sid: nat): Grant
    requires ValidMap(m) && ValidSymbol(sym)
  {
    var w := WindowOf(m, sym.ofdmSlots, sid);
    if w.Some? then GrantOf(w.value, sym, base) else g
  }

  lemma MapGrants(allocs: seq<Alloc>, uiuc: nat, sym: Symbol, base: real, sid: nat, g: Grant)
    requires DataUiuc(uiuc) && ValidSymbol(sym) && 1 <= sid < MAX_SID
    ensures ValidMap(Map(allocs, uiuc))
    ensures var g' := AfterMap(g, Map(allocs, uiuc), sym, base, sid);
            if Named(allocs, |allocs|, sid)
            then g'.bytes == BytesIn(Slots(allocs, |allocs|, sid) % DURATION_RANGE, sym)
            else g' == g
  {
    if Named(allocs, |allocs|, sid) {
      WindowOfNamed(allocs, uiuc, sym.ofdmSlots, sid);
    } else {
      WindowOfUnnamed(allocs, uiuc, sym.ofdmSlots, sid);
    }
  }

  // ----- Times -----------------------------------------------------------------------------------

  /** How long the bytes of a grant take. */
  ghost function Length(bytes: real, sym: Symbol): real
    requires sym.ofdmSlots > 0 && sym.bitsPerSlot > 0
  {
    bytes * 8.0 / sym.bitsPerSlot as real * sym.duration / sym.ofdmSlots as real
  }

  /** The times of two grants do not overlap. */
  ghost predicate Apart(g: Grant, h: Grant, sym: Symbol)
    requires sym.ofdmSlots > 0 && sym.bitsPerSlot > 0
  {
    g.start + Length(g.bytes, sym) <= h.start || h.start + Length(h.bytes, sym) <= g.start
  }

  lemma MulDiv(x: real, y: real)
    requires y != 0.0
    ensures x * y / y == x
  {
    assert (x * y / y) * y == x * y;
  }

  /** The bytes of some slots take the time of those slots. */
  lemma LengthOfSlots(slots: nat, sym: Symbol)
    requires ValidSymbol(sym) && sym.bitsPerSlot > 0
    ensures Length(BytesIn(slots, sym), sym) == SlotTime(slots, sym)
  {
    var bits := (slots * sym.bitsPerSlot) as real;
    assert bits == slots as real * sym.bitsPerSlot as real;
    assert bits / 8.0 * 8.0 == bits;
    MulDiv(slots as real, sym.bitsPerSlot as real);
  }

  lemma SlotTimeAdds(i: int, j: int, sym: Symbol)
    requires sym.ofdmSlots > 0
    ensures SlotTime(i + j, sym) == SlotTime(i, sym) + SlotTime(j, sym)
  {
    var x, y, n := i as real * sym.duration, j as real * sym.duration, sym.ofdmSlots as real;
    assert (i + j) as real * sym.duration == x + y;
    MulDiv(x / n + y / n, n);
    assert (x / n + y / n) * n == x + y;
  }

  /** Some bytes take exactly two units of time. */
  lemma BytesForTwo(sym: Symbol) returns (bytes: real)
    requires ValidSymbol(sym) && sym.bitsPerSlot > 0
    ensures bytes >= 0.0 && Length(bytes, sym) == 2.0
  {
    var n, bits := sym.ofdmSlots as real, sym.bitsPerSlot as real;
    var slots := 2.0 * n / sym.duration;
    bytes := slots * bits / 8.0;
    assert bytes * 8.0 == slots * bits;
    MulDiv(slots, bits);
    MulDiv(2.0, n);
  }

  /** The grant of a named station lies in its own upstream frame: it starts no earlier than one symbol
      after the frame's base and is over when the time of all slots allocated is over. */
  lemma {:induction false} GrantWithinFrame(allocs: seq<Alloc>, uiuc: nat, sym: Symbol, base: real, sid: nat, g: Grant)
    requires ValidAllocs(allocs) && DataUiuc(uiuc) && ValidSymbol(sym) && sym.bitsPerSlot > 0
    requires 1 <= sid < MAX_SID && Named(allocs, |allocs|, sid)
    ensures ValidMap(Map(allocs, uiuc))
    ensures var g' := AfterMap(g, Map(allocs, uiuc), sym, base, sid);
            && base + sym.duration <= g'.start
            && g'.start + Length(g'.bytes, sym)
               <= base + sym.duration + Total(allocs, |allocs|) as real * (sym.duration / sym.ofdmSlots as real)
  {
    WindowStart(allocs, uiuc, sym.ofdmSlots, sid);
    WindowTimes(WindowOf(Map(allocs, uiuc), sym.ofdmSlots, sid).value, sym, Total(allocs, |allocs|));
  }

  /** When no field overflows it starts exactly after the slots of the stations with smaller ids. */
  lemma GrantStart(allocs: seq<Alloc>, uiuc: nat, sym: Symbol, base: real, sid: nat, g: Grant)
    requires ValidAllocs(allocs) && DataUiuc(uiuc) && ValidSymbol(sym) && Fits(allocs, MAX_SID)
    requires 1 <= sid < MAX_SID && Named(allocs, |allocs|, sid)
    ensures ValidMap(Map(allocs, uiuc))
    ensures AfterMap(g, Map(allocs, uiuc), sym, base, sid).start
            == base + (sym.duration
                       + TotalBelow(allocs, |allocs|, sid) as real * (sym.duration / sym.ofdmSlots as real))
  {
    WindowStart(allocs, uiuc, sym.ofdmSlots, sid);
    SlotTimeAfter(TotalBelow(allocs, |allocs|, sid), sym);
  }

  lemma WindowTimes(w: Window, sym: Symbol, total: nat)
    requires ValidSymbol(sym) && sym.bitsPerSlot > 0
    requires sym.ofdmSlots <= w.start && w.start + w.slots <= sym.ofdmSlots + total
    ensures sym.duration <= SlotTime(w.start, sym)
    ensures SlotTime(w.start, sym) + Length(BytesIn(w.slots, sym), sym)
            <= sym.duration + total as real * (sym.duration / sym.ofdmSlots as real)
  {
    LengthOfSlots(w.slots, sym);
    SlotTimeAdds(w.start, w.slots, sym);
    SlotTimeMonotone(sym.ofdmSlots, w.start, sym);
    SlotTimeMonotone(w.start + w.slots, sym.ofdmSlots + total, sym);
    SlotTimeAfter(total, sym);
    SymbolTime(sym);
  }

  lemma SlotTimeAfter(slots: nat, sym: Symbol)
    requires ValidSymbol(sym)
    ensures SlotTime(sym.ofdmSlots + slots, sym)
            == sym.duration + slots as real * (sym.duration / sym.ofdmSlots as real)
  {
    SlotTimeAdds(sym.ofdmSlots, slots, sym);
    SymbolTime(sym);
    SlotTimeIs(slots, sym);
  }

  /** The slots of one symbol take its duration. */
  lemma SymbolTime(sym: Symbol)
    requires sym.ofdmSlots > 0
    ensures SlotTime(sym.ofdmSlots, sym) == sym.duration
  {
    MulDiv(sym.duration, sym.ofdmSlots as real);
  }

  lemma SlotTimeIs(slots: nat, sym: Symbol)
    requires sym.ofdmSlots > 0
    ensures SlotTime(slots, sym) == slots as real * (sym.duration / sym.ofdmSlots as real)
  {
    var x, y, n := slots as real, sym.duration, sym.ofdmSlots as real;
    assert y == y / n * n;
    assert x * y == x * (y / n) * n;
    MulDiv(x * (y / n), n);
  }

  /** Stations that one map names do not send at the same time. */
  lemma NamedApart(allocs: seq<Alloc>, uiuc: nat, sym: Symbol, base: real, a: nat, b: nat, ga: Grant, gb: Grant)
    requires ValidAllocs(allocs) && DataUiuc(uiuc) && ValidSymbol(sym) && sym.bitsPerSlot > 0
    requires 1 <= a < MAX_SID && 1 <= b < MAX_SID && a != b
    requires Named(allocs, |allocs|, a) && Named(allocs, |allocs|, b)
    ensures var m := Map(allocs, uiuc);
            ValidMap(m) && Apart(AfterMap(ga, m, sym, base, a), AfterMap(gb, m, sym, base, b), sym)
  {
    StationsDisjoint(allocs, uiuc, sym.ofdmSlots, a, b);
    var m := Map(allocs, uiuc);
    var wa, wb := WindowOf(m, sym.ofdmSlots, a).value, WindowOf(m, sym.ofdmSlots, b).value;
    LengthOfSlots(wa.slots, sym);
    LengthOfSlots(wb.slots, sym);
    SlotTimeAdds(wa.start, wa.slots, sym);
    SlotTimeAdds(wb.start, wb.slots, sym);
    if wa.start + wa.slots <= wb.start {
      SlotTimeMonotone(wa.start + wa.slots, wb.start, sym);
    } else {
      SlotTimeMonotone(wb.start + wb.slots, wa.start, sym);
    }
  }

  /** Whatever grant one station has, some old grant of another overlaps it. */
  lemma SomeOverlap(g: Grant, sym: Symbol) returns (h: Grant)
    requires ValidSymbol(sym) && sym.bitsPerSlot > 0 && g.bytes >= 0.0
    ensures h.bytes >= 0.0 && !Apart(g, h, sym) && !Apart(h, g, sym)
  {
    var bytes := BytesForTwo(sym);
    h := Grant(bytes, g.start - 1.0);
  }

  lemma MapGrantNonNegative(allocs: seq<Alloc>, uiuc: nat, sym: Symbol, base: real, sid: nat, g: Grant)
    requires DataUiuc(uiuc) && ValidSymbol(sym) && 1 <= sid < MAX_SID && g.bytes >= 0.0
    ensures ValidMap(Map(allocs, uiuc)) && AfterMap(g, Map(allocs, uiuc), sym, base, sid).bytes >= 0.0
  {
    MapGrants(allocs, uiuc, sym, base, sid, g);
  }

  /** From the allocation list to the air: the times of two stations are apart, whatever they were
      granted before, exactly if the list names both. */
  lemma GrantsApartIff(allocs: seq<Alloc>, uiuc: nat, sym: Symbol, base: real, a: nat, b: nat)
    requires ValidAllocs(allocs) && DataUiuc(uiuc) && ValidSymbol(sym) && sym.bitsPerSlot > 0
    requires 1 <= a < MAX_SID && 1 <= b < MAX_SID && a != b
    ensures ValidMap(Map(allocs, uiuc))
    ensures var m := Map(allocs, uiuc);
            (forall ga: Grant, gb: Grant | ga.bytes >= 0.0 && gb.bytes >= 0.0 ::
               Apart(AfterMap(ga, m, sym, base, a), AfterMap(gb, m, sym, base, b), sym))
            <==> Named(allocs, |allocs|, a) && Named(allocs, |allocs|, b)
  {
    var m, g0 := Map(allocs, uiuc), Grant(0.0, 0.0);
    MapOk(allocs, uiuc);
    if Named(allocs, |allocs|, a) && Named(allocs, |allocs|, b) {
      forall ga: Grant, gb: Grant | ga.bytes >= 0.0 && gb.bytes >= 0.0
        ensures Apart(AfterMap(ga, m, sym, base, a), AfterMap(gb, m, sym, base, b), sym)
      {
        NamedApart(allocs, uiuc, sym, base, a, b, ga, gb);
      }
    } else if !Named(allocs, |allocs|, b) {
      MapGrantNonNegative(allocs, uiuc, sym, base, a, g0);
      var gb := SomeOverlap(AfterMap(g0, m, sym, base, a), sym);
      MapGrants(allocs, uiuc, sym, base, b, gb);
      assert !Apart(AfterMap(g0, m, sym, base, a), AfterMap(gb, m, sym, base, b), sym);
    } else {
      MapGrantNonNegative(allocs, uiuc, sym, base, b, g0);
      var ga := SomeOverlap(AfterMap(g0, m, sym, base, b), sym);
      MapGrants(allocs, uiuc, sym, base, a, ga);
      assert !Apart(AfterMap(ga, m, sym, base, a), AfterMap(g0, m, sym, base, b), sym);
    }
  }

  // ----- The burst -------------------------------------------------------------------------------

  datatype Packet = Packet(id: nat, size: real)

  ghost function Bytes(ps: seq<Packet>): real {
    if ps == [] then 0.0 else Bytes(ps[..|ps| - 1]) + ps[|ps| - 1].size
  }

  /** The packets of queues nId, nId + 1, ... in the order in which the burst takes them. */
  ghost function Backlog(queues: seq<seq<Packet>>, nId: nat): seq<Packet>
    requires nId <= |queues|
    decreases |queues| - nId
  {
    if nId == |queues| then [] else queues[nId] + Backlog(queues, nId + 1)
  }

  ghost predicate ValidQueues(queues: seq<seq<Packet>>) {
    |queues| == 8 && forall i, p | 0 <= i < 8 && p in queues[i] :: p.size > 0.0
  }

  /** The burst so far and the queues make up the backlog, and the bytes add up. */
  ghost predicate Packing(all: seq<Packet>, granted: real, burst: seq<Packet>, queues: seq<seq<Packet>>, bytes: real) {
    && ValidQueues(queues) && bytes >= 0.0
    && Bytes(burst) + bytes == granted
    && burst + Backlog(queues, 1) == all
  }

  lemma TakeStep(all: seq<Packet>, granted: real, burst: seq<Packet>, queues: seq<seq<Packet>>, bytes: real, nId: nat)
    requires Packing(all, granted, burst, queues, bytes) && 1 <= nId < 8 && queues[nId] != []
    requires (forall i | 1 <= i < nId :: queues[i] == []) && queues[nId][0].size <= bytes
    ensures var p := queues[nId][0];
            Packing(all, granted, burst + [p], queues[nId := queues[nId][1..]], bytes - p.size)
  {
    var p := queues[nId][0];
    TakeHead(queues, nId);
    var rest := Backlog(queues[nId := queues[nId][1..]], 1);
    assert burst + ([p] + rest) == (burst + [p]) + rest;
  }

  /** The longest front of a backlog that fits into `bytes`. */
  function Fill(backlog: seq<Packet>, bytes: real): seq<Packet> {
    if backlog == [] || backlog[0].size > bytes then []
    else [backlog[0]] + Fill(backlog[1..], bytes - backlog[0].size)
  }

  ghost predicate AllPositive(ps: seq<Packet>) {
    forall i | 0 <= i < |ps| :: ps[i].size > 0.0
  }

  lemma {:induction false} BytesHead(p: Packet, ps: seq<Packet>)
    ensures Bytes([p] + ps) == p.size + Bytes(ps)
  {
    if ps == [] {
      assert [p] + ps == [] + [p];
    } else {
      var front, last := ps[..|ps| - 1], ps[|ps| - 1];
      assert [p] + ps == ([p] + front) + [last];
      BytesHead(p, front);
    }
  }

  lemma {:induction false} FillFits(backlog: seq<Packet>, bytes: real)
    requires bytes >= 0.0
    ensures Bytes(Fill(backlog, bytes)) <= bytes && Fill(backlog, bytes) <= backlog
  {
    if backlog != [] && backlog[0].size <= bytes {
      FillFits(backlog[1..], bytes - backlog[0].size);
      BytesHead(backlog[0], Fill(backlog[1..], bytes - backlog[0].size));
    }
  }

  lemma {:induction false} BytesNonNegative(ps: seq<Packet>)
    requires AllPositive(ps)
    ensures Bytes(ps) >= 0.0
  {
    if ps != [] {
      BytesNonNegative(ps[..|ps| - 1]);
    }
  }

  /** A front that fits and could not take the next packet is the longest that fits. */
  lemma {:induction false} FillIs(front: seq<Packet>, rest: seq<Packet>, bytes: real)
    requires AllPositive(front) && Bytes(front) <= bytes
    requires rest != [] ==> Bytes(front) + rest[0].size > bytes
    ensures Fill(front + rest, bytes) == front
  {
    if front == [] {
      assert front + rest == rest;
    } else {
      var p, front' := front[0], front[1..];
      assert front == [p] + front' && (front + rest)[1..] == front' + rest;
      BytesHead(p, front');
      BytesNonNegative(front');
      FillIs(front', rest, bytes - p.size);
    }
  }

  // ----- From the allocation list to the burst ---------------------------------------------------

  /** What is packed for `granted` bytes fits into the slots that the list allocates to the station, as
      many as its field holds. */
  ghost predicate BurstFits(allocs: seq<Alloc>, sym: Symbol, sid: nat, granted: real, backlog: seq<Packet>) {
    Bytes(Fill(backlog, granted)) * 8.0
    <= (Slots(allocs, |allocs|, sid) % DURATION_RANGE * sym.bitsPerSlot) as real
  }

  ghost predicate AlwaysFits(allocs: seq<Alloc>, sym: Symbol, sid: nat, granted: real) {
    forall backlog | AllPositive(backlog) :: BurstFits(allocs, sym, sid, granted, backlog)
  }

  /** Without allocation only the empty grant is harmless. */
  lemma StaleFitsIff(allocs: seq<Alloc>, sym: Symbol, sid: nat, granted: real)
    requires granted >= 0.0 && Slots(allocs, |allocs|, sid) % DURATION_RANGE * sym.bitsPerSlot == 0
    ensures AlwaysFits(allocs, sym, sid, granted) <==> granted == 0.0
  {
    if granted == 0.0 {
      forall backlog | AllPositive(backlog) ensures BurstFits(allocs, sym, sid, granted, backlog) {
        FillFits(backlog, granted);
      }
    } else {
      var p := Packet(0, granted);
      assert AllPositive([p]);
      FillIs([p], [], granted);
      assert [p] + [] == [p] && [p] == [] + [p];
      assert !BurstFits(allocs, sym, sid, granted, [p]);
    }
  }

  lemma OwnGrantFits(allocs: seq<Alloc>, sym: Symbol, sid: nat)
    ensures AlwaysFits(allocs, sym, sid, BytesIn(Slots(allocs, |allocs|, sid) % DURATION_RANGE, sym))
  {
    var granted := BytesIn(Slots(allocs, |allocs|, sid) % DURATION_RANGE, sym);
    forall backlog | AllPositive(backlog) ensures BurstFits(allocs, sym, sid, granted, backlog) {
      FillFits(backlog, granted);
    }
  }

  /** What a station packs after a map fits, whatever waits, exactly if the list names the station or it
      had no grant before. */
  lemma BurstFitsIff(allocs: seq<Alloc>, uiuc: nat, sym: Symbol, base: real, sid: nat, g: Grant)
    requires ValidAllocs(allocs) && DataUiuc(uiuc) && ValidSymbol(sym) && 1 <= sid < MAX_SID && g.bytes >= 0.0
    ensures ValidMap(Map(allocs, uiuc))
    ensures AlwaysFits(allocs, sym, sid, AfterMap(g, Map(allocs, uiuc), sym, base, sid).bytes)
            <==> Named(allocs, |allocs|, sid) || g.bytes == 0.0
  {
    MapGrants(allocs, uiuc, sym, base, sid, g);
    if Named(allocs, |allocs|, sid) {
      OwnGrantFits(allocs, sym, sid);
    } else {
      UnnamedHasNone(allocs, |allocs|, sid);
      StaleFitsIff(allocs, sym, sid, g.bytes);
    }
  }

  // ----- Frame after frame -----------------------------------------------------------------------

  /** What determines the map of one frame and the grants it gives. */
  datatype Frame = Frame(allocs: seq<Alloc>, uiuc: nat, sym: Symbol, base: real)

  ghost predicate ValidFrame(f: Frame) {
    ValidAllocs(f.allocs) && DataUiuc(f.uiuc) && ValidSymbol(f.sym)
  }

  ghost predicate ValidFrames(frames: seq<Frame>) {
    forall i | 0 <= i < |frames| :: ValidFrame(frames[i])
  }

  ghost predicate NamedIn(f: Frame, sid: nat) {
    Named(f.allocs, |f.allocs|, sid)
  }

  /** The grant that a station starts with. */
  ghost const NO_GRANT := Grant(0.0, 0.0)

  /** The grant in force after the maps of all frames. */
  ghost function InForce(frames: seq<Frame>, sid: nat): Grant
    requires ValidFrames(frames)
  {
    if frames == [] then NO_GRANT
    else
      var f := frames[|frames| - 1];
      MapOk(f.allocs, f.uiuc);
      AfterMap(InForce(frames[..|frames| - 1], sid), Map(f.allocs, f.uiuc), f.sym, f.base, sid)
  }

  /** How many frames there are up to the last one that names the station; 0 if none does. */
  ghost function LastNaming(frames: seq<Frame>, sid: nat): (k: nat)
    ensures k <= |frames|
    ensures k > 0 ==> NamedIn(frames[k - 1], sid)
    ensures forall i | k <= i < |frames| :: !NamedIn(frames[i], sid)
  {
    if frames == [] then 0
    else if NamedIn(frames[|frames| - 1], sid) then |frames|
    else LastNaming(frames[..|frames| - 1], sid)
  }

  /** The bytes that frame f grants to a station that it names. */
  ghost function GrantedBy(f: Frame, sid: nat): real {
    BytesIn(Slots(f.allocs, |f.allocs|, sid) % DURATION_RANGE, f.sym)
  }

  /** The grant in force is that of the last map that named the station. */
  lemma {:induction false} InForceIs(frames: seq<Frame>, sid: nat)
    requires ValidFrames(frames) && 1 <= sid < MAX_SID
    ensures var k := LastNaming(frames, sid);
            InForce(frames, sid).bytes == if k == 0 then 0.0 else GrantedBy(frames[k - 1], sid)
  {
    if frames != [] {
      var front, f := frames[..|frames| - 1], frames[|frames| - 1];
      InForceIs(front, sid);
      MapGrants(f.allocs, f.uiuc, f.sym, f.base, sid, InForce(front, sid));
    }
  }

  /** Over any sequence of frames: what a station packs in the last one fits, whatever waits, exactly if
      that frame names it, or no frame did, or the last one that did granted it nothing. */
  lemma FramesFitIff(frames: seq<Frame>, sid: nat)
    requires ValidFrames(frames) && frames != [] && 1 <= sid < MAX_SID
    ensures var f, k := frames[|frames| - 1], LastNaming(frames, sid);
            AlwaysFits(f.allocs, f.sym, sid, InForce(frames, sid).bytes)
            <==> k == |frames| || k == 0 || GrantedBy(frames[k - 1], sid) == 0.0
  {
    var f, k := frames[|frames| - 1], LastNaming(frames, sid);
    InForceIs(frames, sid);
    if k == |frames| {
      OwnGrantFits(f.allocs, f.sym, sid);
    } else {
      assert !NamedIn(f, sid);
      UnnamedHasNone(f.allocs, |f.allocs|, sid);
      StaleFitsIff(f.allocs, f.sym, sid, InForce(frames, sid).bytes);
    }
  }

  /** A station that the first map gives a slot of eight bits and the second does not name sends a byte
      in both frames. */
  lemma StaleGrantUsed()
    ensures var sym := Symbol(6, 8, 1.0);
            var frames := [Frame([Alloc(1, 1)], 13, sym, 0.0), Frame([], 13, sym, 10.0)];
            && ValidFrames(frames) && !NamedIn(frames[1], 1)
            && Fill([Packet(0, 1.0)], InForce(frames, 1).bytes) == [Packet(0, 1.0)]
            && !BurstFits([], sym, 1, InForce(frames, 1).bytes, [Packet(0, 1.0)])
  {
    var sym := Symbol(6, 8, 1.0);
    var first, second := Frame([Alloc(1, 1)], 13, sym, 0.0), Frame([], 13, sym, 10.0);
    var frames := [first, second];
    assert first.allocs[0].sid == 1;
    assert frames[..1] == [first];
    assert LastNaming(frames, 1) == LastNaming([first], 1) == 1;
    assert Slots(first.allocs, 1, 1) == Slots(first.allocs, 0, 1) + 1;
    InForceIs(frames, 1);
    var p := Packet(0, 1.0);
    FillIs([p], [], 1.0);
    assert [p] + [] == [p] && [p] == [] + [p];
  }

  // ----- The station as the code keeps it --------------------------------------------------------

  /** A station's MAC: its id, what the last map granted it, its packet queues and the burst it will
      send. */
  class CpeMac {
    const sid: nat
    var bytesAllocated: real
    var startTime: real
    var queued: seq<seq<Packet>>
    var burst: seq<Packet>

    constructor (sid: nat, queues: seq<seq<Packet>>)
      ensures this.sid == sid && bytesAllocated == 0.0 && startTime == 0.0 && queued == queues && burst == []
    {
      this.sid, bytesAllocated, startTime := sid, 0.0, 0.0;
      queued, burst := queues, [];
    }

    /** fn_NetSim_CR_CPE_ProcessUSMAP for a station that is not the broadcast station. A map without
        an element for the station leaves its grant as it was. */
    method ProcessMap(m: seq<Element>, sym: Symbol, base: real)
      requires ValidMap(m) && sid >= 1 && ValidSymbol(sym)
      modifies this`bytesAllocated, this`startTime
      ensures Grant(bytesAllocated, startTime)
              == AfterMap(old(Grant(bytesAllocated, startTime)), m, sym, base, sid)
    {
      ghost var w: Option<Window> := None;
      var slot := sym.ofdmSlots - m[0].channels;
      for i := 0 to |m|
        invariant Locate(m, sid, i, slot, w) == WindowOf(m, sym.ofdmSlots, sid)
        invariant Grant(bytesAllocated, startTime)
                  == if w.Some? then GrantOf(w.value, sym, base) else old(Grant(bytesAllocated, startTime))
      {
        var e := m[i];
        if e.Share? && e.sid == sid {
          if DataUiuc(e.uiuc) {
            bytesAllocated := (e.duration * sym.bitsPerSlot) as real / 8.0;
            startTime := base + slot as real * sym.duration / sym.ofdmSlots as real;
            w := Some(Window(slot, e.duration));
          }
        } else {
          slot := slot + Width(e);
        }
      }
    }

    /** The packing loop of fn_NetSim_CR_FormUSBurst: queue by queue from 1 to 7, until a packet does
        not fit or the bytes are used up. What it appends to the burst is the longest front of the
        backlog that fits. */
    method FormBurst()
      requires ValidQueues(queued) && bytesAllocated >= 0.0
      modifies this`queued, this`burst
      ensures ValidQueues(queued)
      ensures var taken := Fill(old(Backlog(queued, 1)), bytesAllocated);
              burst == old(burst) + taken && taken + Backlog(queued, 1) == old(Backlog(queued, 1))
    {
      ghost var all, taken := Backlog(queued, 1), [];
      var bytes := bytesAllocated;
      var nId := 1;
      assert [] + all == all;
      BacklogAllPositive(queued, 1);
      while bytes != 0.0 && nId < 8
        invariant 1 <= nId <= 8 && Packing(all, bytesAllocated, taken, queued, bytes)
        invariant burst == old(burst) + taken
        invariant forall i | 1 <= i < nId :: queued[i] == []
        decreases 8 - nId, if nId < 8 then |queued[nId]| else 0
      {
        if queued[nId] != [] {
          var p := queued[nId][0];
          if p.size > bytes {
            break;
          }
          TakeStep(all, bytesAllocated, taken, queued, bytes, nId);
          bytes := bytes - p.size;
          queued := queued[nId := queued[nId][1..]];
          burst, taken := burst + [p], taken + [p];
        } else {
          nId := nId + 1;
        }
      }
      PackedIs(all, bytesAllocated, taken, queued, bytes, nId);
    }
  }

  /** When the loop ends, what was taken is the longest front that fits. */
  lemma PackedIs(all: seq<Packet>, granted: real, taken: seq<Packet>, queues: seq<seq<Packet>>, bytes: real, nId: nat)
    requires Packing(all, granted, taken, queues, bytes) && 1 <= nId <= 8 && AllPositive(all)
    requires forall i | 1 <= i < nId :: queues[i] == []
    requires bytes == 0.0 || nId == 8 || (queues[nId] != [] && queues[nId][0].size > bytes)
    ensures taken == Fill(all, granted)
  {
    SkipEmptyFrom(queues, 1, nId);
    if bytes == 0.0 {
      BacklogPositive(queues, nId);
    } else if nId < 8 {
      BacklogHead(queues, nId);
    }
    FrontPositive(taken, Backlog(queues, 1));
    FillIs(taken, Backlog(queues, 1), granted);
  }

  lemma FrontPositive(front: seq<Packet>, rest: seq<Packet>)
    requires AllPositive(front + rest)
    ensures AllPositive(front)
  {
    assert forall i | 0 <= i < |front| :: front[i] == (front + rest)[i];
  }

  lemma {:induction false} BacklogAllPositive(queues: seq<seq<Packet>>, i: nat)
    requires ValidQueues(queues) && i <= 8
    ensures AllPositive(Backlog(queues, i))
    decreases 8 - i
  {
    if i < 8 {
      BacklogAllPositive(queues, i + 1);
      forall k | 0 <= k < |queues[i]| ensures queues[i][k].size > 0.0 {
        assert queues[i][k] in queues[i];
      }
    }
  }

  lemma {:induction false} BacklogPositive(queues: seq<seq<Packet>>, i: nat)
    requires ValidQueues(queues) && i <= 8
    ensures Backlog(queues, i) != [] ==> Backlog(queues, i)[0].size > 0.0
    decreases 8 - i
  {
    if i < 8 {
      BacklogPositive(queues, i + 1);
      if queues[i] != [] {
        assert queues[i][0] in queues[i];
      } else {
        assert Backlog(queues, i) == Backlog(queues, i + 1);
      }
    }
  }

  lemma {:induction false} SkipEmptyFrom(queues: seq<seq<Packet>>, i: nat, nId: nat)
    requires i <= nId <= |queues| && forall j | i <= j < nId :: queues[j] == []
    ensures Backlog(queues, i) == Backlog(queues, nId)
    decreases nId - i
  {
    if i < nId {
      SkipEmptyFrom(queues, i + 1, nId);
    }
  }

  lemma BacklogHead(queues: seq<seq<Packet>>, nId: nat)
    requires nId < |queues| && queues[nId] != []
    ensures Backlog(queues, nId) != [] && Backlog(queues, nId)[0] == queues[nId][0]
  {
  }

  lemma {:induction false} BacklogSame(queues: seq<seq<Packet>>, queues': seq<seq<Packet>>, i: nat)
    requires i <= |queues| == |queues'| && queues[i..] == queues'[i..]
    ensures Backlog(queues, i) == Backlog(queues', i)
    decreases |queues| - i
  {
    if i < |queues| {
      assert queues[i] == queues[i..][0] && queues'[i] == queues'[i..][0];
      assert queues[i + 1..] == queues[i..][1..] && queues'[i + 1..] == queues'[i..][1..];
      BacklogSame(queues, queues', i + 1);
    }
  }

  lemma Regroup(ps: seq<Packet>, rest: seq<Packet>)
    requires ps != []
    ensures ps + rest == [ps[0]] + (ps[1..] + rest)
  {
  }

  /** Taking the head of the first queue that is not empty takes the head of the backlog. */
  lemma TakeHead(queues: seq<seq<Packet>>, nId: nat)
    requires |queues| == 8 && 1 <= nId < 8 && queues[nId] != []
    requires forall i | 1 <= i < nId :: queues[i] == []
    ensures Backlog(queues, 1) == [queues[nId][0]] + Backlog(queues[nId := queues[nId][1..]], 1)
  {
    var queues' := queues[nId := queues[nId][1..]];
    SkipEmptyFrom(queues, 1, nId);
    SkipEmptyFrom(queues', 1, nId);
    BacklogSame(queues, queues', nId + 1);
    Regroup(queues[nId], Backlog(queues, nId + 1));
  }
}
