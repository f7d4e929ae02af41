/** The upstream map of IEEE 802.22 (CognitiveRadio/USMAP.c). The base station turns its allocation list
    into one information element per station, and every station works out its own window from the
    broadcast map. */
module UpstreamMap {
  import opened Common

  const MAX_SID := 512
  const DURATION_RANGE := 4096
  const REQUEST_CHANNELS := 6

  /** One element of the allocation list. */
  datatype Alloc = Alloc(sid: nat, slots: nat)

  /** A map element: the contention window for requests, or a station's share in a field of twelve
      bits. */
  datatype Element = Contention(channels: nat) | Share(sid: nat, uiuc: nat, duration: nat)

  ghost predicate ValidAllocs(allocs: seq<Alloc>) {
    forall i | 0 <= i < |allocs| :: 1 <= allocs[i].sid < MAX_SID
  }

  /** UIUC values that stand for data. */
  predicate DataUiuc(uiuc: nat) {
    13 <= uiuc <= 61
  }

  // ----- The map ---------------------------------------------------------------------------------

  /** The slots allocated to sid by the first k elements. */
  ghost function Slots(allocs: seq<Alloc>, k: nat, sid: nat): nat
    requires k <= |allocs|
  {
    if k == 0 then 0 else Slots(allocs, k - 1, sid) + (if allocs[k - 1].sid == sid then allocs[k - 1].slots else 0)
  }

  ghost predicate Named(allocs: seq<Alloc>, k: nat, sid: nat)
    requires k <= |allocs|
  {
    exists i :: 0 <= i < k && allocs[i].sid == sid
  }

  /** The elements for stations 1, ..., sid - 1 that have an allocation, in order. */
  ghost function Shares(allocs: seq<Alloc>, uiuc: nat, sid: nat): seq<Element>
    requires sid <= MAX_SID
  {
    if sid <= 1 then []
    else
      var below := Shares(allocs, uiuc, sid - 1);
      if Named(allocs, |allocs|, sid - 1)
      then below + [Share(sid - 1, uiuc, Slots(allocs, |allocs|, sid - 1) % DURATION_RANGE)]
      else below
  }

  /** fn_NetSim_CR_FormUSMAP */
  ghost function Map(allocs: seq<Alloc>, uiuc: nat): seq<Element> {
    [Contention(REQUEST_CHANNELS)] + Shares(allocs, uiuc, MAX_SID)
  }

  // ----- A station's window ----------------------------------------------------------------------

  /** The slots by which an element that is not the station's own moves the window. */
  function Width(e: Element): nat {
    match e
    case Contention(channels) => channels
    case Share(_, _, duration) => duration
  }

  /** A window of slots: first slot and number of slots. */
  datatype Window = Window(start: int, slots: nat)

  /** fn_NetSim_CR_CPE_ProcessUSMAP from element i on, with the running slot counter. */
  function Locate(m: seq<Element>, sid: nat, i: nat, slot: int, w: Option<Window>): Option<Window>
    requires i <= |m|
    decreases |m| - i
  {
    if i == |m| then w
    else
      var e := m[i];
      if e.Share? && e.sid == sid then
        Locate(m, sid, i + 1, slot, if DataUiuc(e.uiuc) then Some(Window(slot, e.duration)) else w)
      else Locate(m, sid, i + 1, slot + Width(e), w)
  }

  function WindowOf(m: seq<Element>, ofdmSlots: nat, sid: nat): Option<Window>
    requires m != [] && m[0].Contention?
  {
    Locate(m, sid, 0, ofdmSlots - m[0].channels, None)
  }

  /** The slots of the first k elements. */
  ghost function Offset(m: seq<Element>, k: nat): nat
    requires k <= |m|
  {
    if k == 0 then 0 else Offset(m, k - 1) + Width(m[k - 1])
  }

  ghost predicate ValidMap(m: seq<Element>) {
    && m != [] && m[0].Contention?
    && (forall i | 1 <= i < |m| :: m[i].Share? && DataUiuc(m[i].uiuc))
    && (forall i, j | 1 <= i < j < |m| :: m[i].sid < m[j].sid)
  }

  /** A station that finds its element at k gets the slots that come after all elements before k. */
  lemma {:induction false} LocateAt(m: seq<Element>, sid: nat, k: nat, i: nat, slot: int, w: Option<Window>)
    requires ValidMap(m) && 1 <= k < |m| && m[k].sid == sid && i <= k
    ensures Locate(m, sid, i, slot, w) == Some(Window(slot + Offset(m, k) - Offset(m, i), m[k].duration))
    decreases k - i
  {
    if i < k {
      assert !(m[i].Share? && m[i].sid == sid);
      LocateAt(m, sid, k, i + 1, slot + Width(m[i]), w);
    } else {
      LocateNone(m, sid, k + 1, slot, Some(Window(slot, m[k].duration)));
    }
  }

  lemma {:induction false} LocateNone(m: seq<Element>, sid: nat, i: nat, slot: int, w: Option<Window>)
    requires i <= |m| && forall j | i <= j < |m| :: !(m[j].Share? && m[j].sid == sid)
    ensures Locate(m, sid, i, slot, w) == w
    decreases |m| - i
  {
    if i < |m| {
      LocateNone(m, sid, i + 1, slot + Width(m[i]), w);
    }
  }

  lemma {:induction false} OffsetMonotone(m: seq<Element>, i: nat, k: nat)
    requires i <= k <= |m|
    ensures Offset(m, i) <= Offset(m, k)
  {
    if i < k {
      OffsetMonotone(m, i, k - 1);
    }
  }

  ghost predicate Disjoint(a: Window, b: Window) {
    a.start + a.slots <= b.start || b.start + b.slots <= a.start
  }

  /** Windows that two stations work out independently from one map do not overlap, and none lies
      before the first slot after the contention window. */
  lemma WindowsDisjoint(m: seq<Element>, ofdmSlots: nat, a: nat, b: nat)
    requires ValidMap(m) && a != b && a >= 1 && b >= 1
    ensures var wa, wb := WindowOf(m, ofdmSlots, a), WindowOf(m, ofdmSlots, b);
            && (wa.Some? && wb.Some? ==> Disjoint(wa.value, wb.value))
            && (wa.Some? ==> wa.value.start >= ofdmSlots)
  {
    WindowAt(m, ofdmSlots, a);
    WindowAt(m, ofdmSlots, b);
    if i, j :| 1 <= i < |m| && m[i].sid == a && 1 <= j < |m| && m[j].sid == b {
      if i < j {
        OffsetMonotone(m, i + 1, j);
      } else {
        OffsetMonotone(m, j + 1, i);
      }
    }
  }

  /** Where a station's window is: after the shares of all stations before it in the map. */
  lemma WindowAt(m: seq<Element>, ofdmSlots: nat, sid: nat)
    requires ValidMap(m)
    ensures forall k | 1 <= k < |m| && m[k].sid == sid ::
              && Offset(m, k) >= m[0].channels
              && WindowOf(m, ofdmSlots, sid)
                 == Some(Window(ofdmSlots + Offset(m, k) - m[0].channels, m[k].duration))
    ensures (forall k | 1 <= k < |m| :: m[k].sid != sid) ==> WindowOf(m, ofdmSlots, sid) == None
  {
    forall k | 1 <= k < |m| && m[k].sid == sid
      ensures && Offset(m, k) >= m[0].channels
              && WindowOf(m, ofdmSlots, sid)
                 == Some(Window(ofdmSlots + Offset(m, k) - m[0].channels, m[k].duration))
    {
      LocateAt(m, sid, k, 0, ofdmSlots - m[0].channels, None);
      assert Offset(m, 1) == m[0].channels;
      OffsetMonotone(m, 1, k);
    }
    if forall k | 1 <= k < |m| :: m[k].sid != sid {
      LocateNone(m, sid, 0, ofdmSlots - m[0].channels, None);
    }
  }

  // ----- The map that the base station sends -----------------------------------------------------

  ghost predicate SharesBelow(s: seq<Element>, uiuc: nat, sid: nat) {
    && (forall i | 0 <= i < |s| :: s[i].Share? && s[i].uiuc == uiuc && 1 <= s[i].sid < sid)
    && (forall i, j | 0 <= i < j < |s| :: s[i].sid < s[j].sid)
  }

  lemma {:induction false} SharesOk(allocs: seq<Alloc>, uiuc: nat, sid: nat)
    requires sid <= MAX_SID
    ensures SharesBelow(Shares(allocs, uiuc, sid), uiuc, sid)
  {
    if sid > 1 {
      SharesOk(allocs, uiuc, sid - 1);
      var below, s := Shares(allocs, uiuc, sid - 1), Shares(allocs, uiuc, sid);
      assert forall i | 0 <= i < |below| :: s[i] == below[i];
    }
  }

  lemma MapOk(allocs: seq<Alloc>, uiuc: nat)
    requires DataUiuc(uiuc)
    ensures ValidMap(Map(allocs, uiuc))
  {
    SharesOk(allocs, uiuc, MAX_SID);
    var m, s := Map(allocs, uiuc), Shares(allocs, uiuc, MAX_SID);
    assert forall i | 1 <= i < |m| :: m[i] == s[i - 1];
  }

  lemma {:induction false} ShareListed(allocs: seq<Alloc>, uiuc: nat, sid: nat, top: nat) returns (i: nat)
    requires 1 <= sid < top <= MAX_SID && Named(allocs, |allocs|, sid)
    ensures i < |Shares(allocs, uiuc, top)|
    ensures Shares(allocs, uiuc, top)[i] == Share(sid, uiuc, Slots(allocs, |allocs|, sid) % DURATION_RANGE)
  {
    if sid == top - 1 {
      i := |Shares(allocs, uiuc, top - 1)|;
    } else {
      i := ShareListed(allocs, uiuc, sid, top - 1);
    }
  }

  lemma {:induction false} SharesNamed(allocs: seq<Alloc>, uiuc: nat, sid: nat)
    requires sid <= MAX_SID
    ensures forall i | 0 <= i < |Shares(allocs, uiuc, sid)| ::
              Shares(allocs, uiuc, sid)[i].Share? && Named(allocs, |allocs|, Shares(allocs, uiuc, sid)[i].sid)
  {
    if sid > 1 {
      SharesNamed(allocs, uiuc, sid - 1);
    }
  }

  /** A station without an allocation finds no window. */
  lemma WindowOfUnnamed(allocs: seq<Alloc>, uiuc: nat, ofdmSlots: nat, sid: nat)
    requires DataUiuc(uiuc) && !Named(allocs, |allocs|, sid)
    ensures ValidMap(Map(allocs, uiuc)) && WindowOf(Map(allocs, uiuc), ofdmSlots, sid) == None
  {
    var m, shares := Map(allocs, uiuc), Shares(allocs, uiuc, MAX_SID);
    MapOk(allocs, uiuc);
    SharesNamed(allocs, uiuc, MAX_SID);
    forall k | 1 <= k < |m| ensures m[k].sid != sid {
      assert m[k] == shares[k - 1];
    }
    WindowAt(m, ofdmSlots, sid);
  }

  lemma WindowOfNamed(allocs: seq<Alloc>, uiuc: nat, ofdmSlots: nat, sid: nat)
    requires DataUiuc(uiuc) && 1 <= sid < MAX_SID && Named(allocs, |allocs|, sid)
    ensures var m := Map(allocs, uiuc);
            && ValidMap(m)
            && var w := WindowOf(m, ofdmSlots, sid);
            && w.Some? && w.value.slots == Slots(allocs, |allocs|, sid) % DURATION_RANGE
  {
    var m := Map(allocs, uiuc);
    MapOk(allocs, uiuc);
    var i := ShareListed(allocs, uiuc, sid, MAX_SID);
    assert m[i + 1] == Shares(allocs, uiuc, MAX_SID)[i];
    WindowAt(m, ofdmSlots, sid);
  }

  /** Every station with an allocation finds a window of its slots in the map, and the windows of
      different stations are disjoint. */
  lemma StationsDisjoint(allocs: seq<Alloc>, uiuc: nat, ofdmSlots: nat, a: nat, b: nat)
    requires ValidAllocs(allocs) && DataUiuc(uiuc) && 1 <= a < MAX_SID && 1 <= b < MAX_SID && a != b
    requires Named(allocs, |allocs|, a) && Named(allocs, |allocs|, b)
    ensures var m := Map(allocs, uiuc);
            && ValidMap(m)
            && var wa, wb := WindowOf(m, ofdmSlots, a), WindowOf(m, ofdmSlots, b);
            && wa.Some? && wb.Some? && Disjoint(wa.value, wb.value)
            && wa.value.slots == Slots(allocs, |allocs|, a) % DURATION_RANGE
  {
    WindowOfNamed(allocs, uiuc, ofdmSlots, a);
    WindowOfNamed(allocs, uiuc, ofdmSlots, b);
    WindowsDisjoint(Map(allocs, uiuc), ofdmSlots, a, b);
  }

  ghost function Total(allocs: seq<Alloc>, k: nat): nat
    requires k <= |allocs|
  {
    if k == 0 then 0 else Total(allocs, k - 1) + allocs[k - 1].slots
  }

  /** The slots of stations 1, ..., sid - 1 among the first k elements. */
  ghost function TotalBelow(allocs: seq<Alloc>, k: nat, sid: nat): nat
    requires k <= |allocs|
  {
    if sid <= 1 then 0 else TotalBelow(allocs, k, sid - 1) + Slots(allocs, k, sid - 1)
  }

  lemma {:induction false} TotalBelowNone(allocs: seq<Alloc>, sid: nat)
    ensures TotalBelow(allocs, 0, sid) == 0
  {
    if sid > 1 {
      TotalBelowNone(allocs, sid - 1);
    }
  }

  lemma {:induction false} TotalBelowStep(allocs: seq<Alloc>, k: nat, sid: nat)
    requires 0 < k <= |allocs|
    ensures TotalBelow(allocs, k, sid)
            == TotalBelow(allocs, k - 1, sid)
               + (if 1 <= allocs[k - 1].sid < sid then allocs[k - 1].slots else 0)
  {
    if sid > 1 {
      TotalBelowStep(allocs, k, sid - 1);
    }
  }

  /** Sorted by station or in list order, the slots are the same. */
  lemma {:induction false} TotalByStation(allocs: seq<Alloc>, k: nat)
    requires ValidAllocs(allocs) && k <= |allocs|
    ensures TotalBelow(allocs, k, MAX_SID) == Total(allocs, k)
  {
    if k == 0 {
      TotalBelowNone(allocs, MAX_SID);
    } else {
      TotalByStation(allocs, k - 1);
      TotalBelowStep(allocs, k, MAX_SID);
    }
  }

  ghost function ShareSum(s: seq<Element>): nat {
    if s == [] then 0 else ShareSum(s[..|s| - 1]) + Width(s[|s| - 1])
  }

  lemma ShareSumAppend(s: seq<Element>, e: Element)
    ensures ShareSum(s + [e]) == ShareSum(s) + Width(e)
  {
    assert (s + [e])[..|s|] == s;
  }

  lemma {:induction false} UnnamedHasNone(allocs: seq<Alloc>, k: nat, sid: nat)
    requires k <= |allocs| && !Named(allocs, k, sid)
    ensures Slots(allocs, k, sid) == 0
  {
    if k > 0 {
      assert allocs[k - 1].sid != sid;
      UnnamedHasNone(allocs, k - 1, sid);
    }
  }

  /** Every station's slots fit into the twelve bits of its field. */
  ghost predicate Fits(allocs: seq<Alloc>, sid: nat) {
    forall s | 1 <= s < sid :: Slots(allocs, |allocs|, s) < DURATION_RANGE
  }

  /** Station sid - 1 adds what its field can hold. */
  lemma ShareStep(allocs: seq<Alloc>, uiuc: nat, sid: nat)
    requires 1 < sid <= MAX_SID
    ensures ShareSum(Shares(allocs, uiuc, sid))
            == ShareSum(Shares(allocs, uiuc, sid - 1)) + Slots(allocs, |allocs|, sid - 1) % DURATION_RANGE
  {
    var n := Slots(allocs, |allocs|, sid - 1);
    if Named(allocs, |allocs|, sid - 1) {
      ShareSumAppend(Shares(allocs, uiuc, sid - 1), Share(sid - 1, uiuc, n % DURATION_RANGE));
    } else {
      UnnamedHasNone(allocs, |allocs|, sid - 1);
    }
  }

  /** The durations of the map sum to at most the slots allocated, and to exactly these if and only
      if no station's slots overflow its field. */
  lemma {:induction false} SharesSum(allocs: seq<Alloc>, uiuc: nat, sid: nat)
    requires sid <= MAX_SID
    ensures ShareSum(Shares(allocs, uiuc, sid)) <= TotalBelow(allocs, |allocs|, sid)
    ensures ShareSum(Shares(allocs, uiuc, sid)) == TotalBelow(allocs, |allocs|, sid) <==> Fits(allocs, sid)
  {
    if sid > 1 {
      SharesSum(allocs, uiuc, sid - 1);
      ShareStep(allocs, uiuc, sid);
    }
  }

  lemma DurationsSum(allocs: seq<Alloc>, uiuc: nat)
    requires ValidAllocs(allocs)
    ensures ShareSum(Shares(allocs, uiuc, MAX_SID)) <= Total(allocs, |allocs|)
    ensures ShareSum(Shares(allocs, uiuc, MAX_SID)) == Total(allocs, |allocs|) <==> Fits(allocs, MAX_SID)
  {
    SharesSum(allocs, uiuc, MAX_SID);
    TotalByStation(allocs, |allocs|);
  }

  lemma {:induction false} SharesPrefix(allocs: seq<Alloc>, uiuc: nat, sid: nat, top: nat)
    requires sid <= top <= MAX_SID
    ensures Shares(allocs, uiuc, sid) <= Shares(allocs, uiuc, top)
  {
    if sid < top {
      SharesPrefix(allocs, uiuc, sid, top - 1);
    }
  }

  /** In a map, what lies before an element is the contention window and the shares before it. */
  lemma {:induction false} OffsetIs(s: seq<Element>, n: nat)
    requires n <= |s|
    ensures Offset([Contention(REQUEST_CHANNELS)] + s, n + 1) == REQUEST_CHANNELS + ShareSum(s[..n])
  {
    var m := [Contention(REQUEST_CHANNELS)] + s;
    if n == 0 {
      assert Offset(m, 1) == Offset(m, 0) + Width(m[0]);
    } else {
      OffsetIs(s, n - 1);
      assert s[..n] == s[..n - 1] + [s[n - 1]];
      ShareSumAppend(s[..n - 1], s[n - 1]);
    }
  }

  /** A named station's window begins after the first symbol and the shares of the stations with smaller
      ids, and ends before the end of all slots allocated. When no field overflows it begins exactly after
      the slots of those stations. */
  lemma WindowStart(allocs: seq<Alloc>, uiuc: nat, ofdmSlots: nat, sid: nat)
    requires ValidAllocs(allocs) && DataUiuc(uiuc) && 1 <= sid < MAX_SID && Named(allocs, |allocs|, sid)
    ensures ValidMap(Map(allocs, uiuc)) && WindowOf(Map(allocs, uiuc), ofdmSlots, sid).Some?
    ensures var w := WindowOf(Map(allocs, uiuc), ofdmSlots, sid).value;
            && ofdmSlots <= w.start && w.start + w.slots <= ofdmSlots + Total(allocs, |allocs|)
            && (Fits(allocs, MAX_SID) ==> w.start == ofdmSlots + TotalBelow(allocs, |allocs|, sid))
  {
    var m, below, shares := Map(allocs, uiuc), Shares(allocs, uiuc, sid), Shares(allocs, uiuc, MAX_SID);
    var n := |below|;
    MapOk(allocs, uiuc);
    SharesPrefix(allocs, uiuc, sid, sid + 1);
    SharesPrefix(allocs, uiuc, sid + 1, MAX_SID);
    assert shares[..n] == below;
    assert m[n + 1] == shares[n] == Shares(allocs, uiuc, sid + 1)[n];
    OffsetIs(shares, n);
    WindowAt(m, ofdmSlots, sid);
    SharesSum(allocs, uiuc, sid);
    SharesSum(allocs, uiuc, sid + 1);
    ShareStep(allocs, uiuc, sid + 1);
    TotalBelowMonotone(allocs, |allocs|, sid + 1, MAX_SID);
    TotalByStation(allocs, |allocs|);
  }

  lemma {:induction false} TotalBelowMonotone(allocs: seq<Alloc>, k: nat, sid: nat, top: nat)
    requires k <= |allocs| && sid <= top
    ensures TotalBelow(allocs, k, sid) <= TotalBelow(allocs, k, top)
  {
    if sid < top {
      TotalBelowMonotone(allocs, k, sid, top - 1);
    }
  }

  /** A list of 4096 slots for one station disappears from the map. */
  lemma OverflowLosesSlots(uiuc: nat)
    ensures var allocs := [Alloc(1, 4096)];
            ValidAllocs(allocs) && ShareSum(Shares(allocs, uiuc, MAX_SID)) < Total(allocs, |allocs|)
  {
    var allocs := [Alloc(1, 4096)];
    assert Slots(allocs, 0, 1) == 0;
    assert Slots(allocs, 1, 1) == 4096;
    DurationsSum(allocs, uiuc);
  }

  // ----- The code for the map --------------------------------------------------------------------

  /** The duration that FormUSMAP has accumulated for sid after the first k elements. */
  ghost function Accumulated(allocs: seq<Alloc>, k: nat, sid: nat): Option<nat>
    requires k <= |allocs|
  {
    if Named(allocs, k, sid) then Some(Slots(allocs, k, sid) % DURATION_RANGE) else None
  }

  lemma AccumulateStep(allocs: seq<Alloc>, k: nat, sid: nat)
    requires k < |allocs|
    ensures Accumulated(allocs, k + 1, sid)
            == if allocs[k].sid != sid then Accumulated(allocs, k, sid)
               else Some(((if Accumulated(allocs, k, sid).Some? then Accumulated(allocs, k, sid).value else 0)
                          + allocs[k].slots) % DURATION_RANGE)
  {
    if allocs[k].sid == sid {
      assert Named(allocs, k + 1, sid);
      if Named(allocs, k, sid) {
        ModAdd(Slots(allocs, k, sid), allocs[k].slots);
      } else {
        UnnamedHasNone(allocs, k, sid);
      }
    } else {
      assert Named(allocs, k + 1, sid) <==> Named(allocs, k, sid);
    }
  }

  lemma ModAdd(a: nat, b: nat)
    ensures (a % DURATION_RANGE + b) % DURATION_RANGE == (a + b) % DURATION_RANGE
  {
  }

  /** fn_NetSim_CR_FormUSMAP: durations are accumulated in an array indexed by station and then
      listed. */
  method FormMap(allocs: seq<Alloc>, uiuc: nat) returns (m: seq<Element>)
    requires ValidAllocs(allocs)
    ensures m == Map(allocs, uiuc)
  {
    var durations := new Option<nat>[MAX_SID](_ => None);
    for k := 0 to |allocs|
      invariant forall sid | 1 <= sid < MAX_SID :: durations[sid] == Accumulated(allocs, k, sid)
    {
      var a := allocs[k];
      forall sid | 1 <= sid < MAX_SID
        ensures Accumulated(allocs, k + 1, sid)
                == if a.sid != sid then Accumulated(allocs, k, sid)
                   else Some(((if Accumulated(allocs, k, sid).Some? then Accumulated(allocs, k, sid).value else 0)
                              + a.slots) % DURATION_RANGE)
      {
        AccumulateStep(allocs, k, sid);
      }
      var before := if durations[a.sid].Some? then durations[a.sid].value else 0;
      durations[a.sid] := Some((before + a.slots) % DURATION_RANGE);
    }
    m := [Contention(REQUEST_CHANNELS)];
    for sid := 1 to MAX_SID
      invariant m == [Contention(REQUEST_CHANNELS)] + Shares(allocs, uiuc, sid)
    {
      if durations[sid].Some? {
        m := m + [Share(sid, uiuc, durations[sid].value)];
      }
    }
  }
}
