/** The closed-form shortcut of FastEmulation/ApplicaionMap.c: an application whose path no
    other application uses is not simulated hop by hop; its reinject times are computed from
    the slowest link's rate, the harmonic sum of the other rates and the total delay. */
module Shortcut {
  import opened Common
  import opened QueueNetwork
  import opened QueueTiming

  /** The rate of the links other than the slowest; 1/0 for a path of one link. */
  datatype Rate = Finite(mbps: real) | Infinite

  ghost predicate Positive(r: Rate) {
    r.Finite? ==> r.mbps > 0.0
  }

  function TxAt(len: nat, rate: Rate): nat
    requires Positive(rate)
  {
    match rate
    case Finite(mbps) => Tx(len, mbps)
    case Infinite => 0
  }

  // ----- The closed form -------------------------------------------------------------------------

  /** The sum of 1/rate over the first k links, leaving out link `id`. */
  ghost function InverseSum(ls: seq<Link>, id: nat, k: nat): (s: real)
    requires ValidLinks(ls) && k <= |ls|
    ensures s >= 0.0
  {
    if k == 0 then 0.0
    else InverseSum(ls, id, k - 1) + (if k - 1 == id then 0.0 else 1.0 / ls[k - 1].rate)
  }

  ghost function NonQueuingRate(ls: seq<Link>, id: nat): (r: Rate)
    requires ValidLinks(ls)
    ensures Positive(r)
  {
    var s := InverseSum(ls, id, |ls|);
    if s == 0.0 then Infinite else Finite(1.0 / s)
  }

  ghost function DelaySum(ls: seq<Link>, k: nat): nat
    requires k <= |ls|
  {
    if k == 0 then 0 else DelaySum(ls, k - 1) + ls[k - 1].delay
  }

  /** lastReinjectTime after the first i + 1 packets: a single queue served at `rate`. */
  ghost function LastReinject(os: seq<Origin>, rate: real, i: nat): nat
    requires rate > 0.0 && i < |os|
  {
    Max(os[i].time, if i == 0 then 0 else LastReinject(os, rate, i - 1)) + Tx(os[i].len, rate)
  }

  /** The slowest link that find_min_rate picks: the first of the least rate. */
  ghost predicate Slowest(ls: seq<Link>, id: nat) {
    && id < |ls|
    && (forall l | 0 <= l < |ls| :: ls[id].rate <= ls[l].rate)
    && (forall l | 0 <= l < id :: ls[id].rate < ls[l].rate)
  }

  /** The reinject time that dispatch_to_emulation gives the i-th packet. */
  ghost function ShortcutTime(os: seq<Origin>, ls: seq<Link>, id: nat, i: nat): nat
    requires ValidLinks(ls) && id < |ls| && i < |os|
  {
    LastReinject(os, ls[id].rate, i) + DelaySum(ls, |ls|) + TxAt(os[i].len, NonQueuingRate(ls, id))
  }

  // ----- Hop by hop against a single queue -------------------------------------------------------

  /** Packets 0, ..., i are at most `len` bytes long. */
  ghost predicate AtMostLong(os: seq<Origin>, i: nat, len: nat)
    requires i < |os|
  {
    forall j | 0 <= j <= i :: os[j].len <= len
  }

  /** Packets 0, ..., i are at least `len` bytes long. */
  ghost predicate AtLeastLong(os: seq<Origin>, i: nat, len: nat)
    requires i < |os|
  {
    forall j | 0 <= j <= i :: os[j].len >= len
  }

  ghost function TxSum(ls: seq<Link>, len: nat, k: nat): nat
    requires ValidLinks(ls) && k <= |ls|
  {
    if k == 0 then 0 else TxSum(ls, len, k - 1) + Tx(len, ls[k - 1].rate)
  }

  /** The least rate among links 0, ..., h. */
  ghost function MinRate(ls: seq<Link>, h: nat): (r: real)
    requires ValidLinks(ls) && h < |ls|
    ensures r > 0.0
  {
    if h == 0 then ls[0].rate
    else if ls[h].rate < MinRate(ls, h - 1) then ls[h].rate
    else MinRate(ls, h - 1)
  }

  /** The time at which the i-th packet would have been sent by link h if links 0, ..., h were one
      queue of the least rate, behind which a packet of `len` bytes passes the other links. */
  ghost function Merged(os: seq<Origin>, ls: seq<Link>, len: nat, i: nat, h: nat): int
    requires ValidLinks(ls) && i < |os| && h < |ls|
  {
    LastReinject(os, MinRate(ls, h), i) + DelaySum(ls, h) + TxSum(ls, len, h + 1) - Tx(len, MinRate(ls, h))
  }

  /** Slower links take longer, also after truncation. */
  lemma TxAntitone(len: nat, r: real, r': real)
    requires 0.0 < r <= r'
    ensures Tx(len, r') <= Tx(len, r)
  {
    var x := len as real * 8.0;
    DivAntitone(x, r, r');
  }

  lemma DivAntitone(x: real, r: real, r': real)
    requires x >= 0.0 && 0.0 < r <= r'
    ensures x / r' <= x / r
  {
    var q, q' := x / r, x / r';
    assert q * r == x && q' * r' == x;
    if q < q' {
      MulLess(q, q', r, r');
    }
  }

  lemma MulLess(q: real, q': real, r: real, r': real)
    requires 0.0 <= q < q' && 0.0 < r <= r'
    ensures q * r < q' * r'
  {
    assert q * r < q' * r;
    assert q' * r <= q' * r';
  }

  /** Longer packets take longer. */
  lemma TxMonotone(len: nat, len': nat, r: real)
    requires len <= len' && r > 0.0
    ensures Tx(len, r) <= Tx(len', r)
  {
    DivMonotone(len as real * 8.0, len' as real * 8.0, r);
  }

  /** A slower single queue starts every packet later. */
  lemma {:induction false} SlowerStartsLater(os: seq<Origin>, r: real, r': real, i: nat)
    requires 0.0 < r' <= r && i < |os|
    ensures LastReinject(os, r, i) - Tx(os[i].len, r) <= LastReinject(os, r', i) - Tx(os[i].len, r')
  {
    if i > 0 {
      SlowerStartsLater(os, r, r', i - 1);
      TxAntitone(os[i - 1].len, r', r);
    }
  }

  lemma {:induction false} FirstHop(os: seq<Origin>, ls: seq<Link>, i: nat)
    requires ValidLinks(ls) && i < |os| && 0 < |ls|
    ensures Sent(os, ls, i, 0) == LastReinject(os, ls[0].rate, i)
  {
    if i > 0 {
      FirstHop(os, ls, i - 1);
    }
  }

  lemma MergedFirst(os: seq<Origin>, ls: seq<Link>, len: nat, i: nat)
    requires ValidLinks(ls) && i < |os| && 0 < |ls|
    ensures Merged(os, ls, len, i, 0) == LastReinject(os, ls[0].rate, i)
  {
    assert TxSum(ls, len, 1) == TxSum(ls, len, 0) + Tx(len, ls[0].rate);
  }

  /** A further link that is not slower than all before it adds one transmission time. */
  lemma MergeFaster(os: seq<Origin>, ls: seq<Link>, len: nat, i: nat, h: nat)
    requires ValidLinks(ls) && i < |os| && 0 < h < |ls| && ls[h].rate >= MinRate(ls, h - 1)
    ensures Merged(os, ls, len, i, h) == Merged(os, ls, len, i, h - 1) + ls[h - 1].delay + Tx(len, ls[h].rate)
  {
  }

  /** A packet follows the one before it at the least rate. */
  lemma MergedAfter(os: seq<Origin>, ls: seq<Link>, len: nat, i: nat, h: nat)
    requires ValidLinks(ls) && 0 < i < |os| && h < |ls|
    ensures Merged(os, ls, len, i - 1, h) + Tx(os[i].len, ls[h].rate) <= Merged(os, ls, len, i, h)
  {
    TxAntitone(os[i].len, MinRate(ls, h), ls[h].rate);
  }

  lemma MergedArrival(os: seq<Origin>, ls: seq<Link>, len: nat, i: nat, h: nat)
    requires ValidLinks(ls) && i < |os| && 0 < h < |ls| && os[i].len <= len
    ensures Merged(os, ls, len, i, h - 1) + ls[h - 1].delay + Tx(os[i].len, ls[h].rate) <= Merged(os, ls, len, i, h)
  {
    var r, r' := MinRate(ls, h - 1), ls[h].rate;
    TxMonotone(os[i].len, len, r);
    TxMonotone(os[i].len, len, r');
    if r' < r {
      SlowerStartsLater(os, r, r', i);
    } else {
      MergeFaster(os, ls, len, i, h);
    }
  }

  /** If no packet is longer than `len`, the chain is not slower than the merged queue. */
  lemma {:induction false} ChainWithin(os: seq<Origin>, ls: seq<Link>, len: nat, i: nat, h: nat)
    requires ValidLinks(ls) && i < |os| && h < |ls| && AtMostLong(os, i, len)
    ensures Sent(os, ls, i, h) <= Merged(os, ls, len, i, h)
    decreases i + h
  {
    if h == 0 {
      FirstHop(os, ls, i);
      MergedFirst(os, ls, len, i);
    } else {
      ChainWithin(os, ls, len, i, h - 1);
      MergedArrival(os, ls, len, i, h);
      if i > 0 {
        ChainWithin(os, ls, len, i - 1, h);
        MergedAfter(os, ls, len, i, h);
      }
    }
  }

  /** The merged queue starts a packet at its arrival or behind the packet before it. */
  lemma MergedSlowerIs(os: seq<Origin>, ls: seq<Link>, len: nat, i: nat, h: nat)
    requires ValidLinks(ls) && i < |os| && 0 < h < |ls| && ls[h].rate < MinRate(ls, h - 1) && os[i].len >= len
    ensures var tx := Tx(os[i].len, ls[h].rate);
            || Merged(os, ls, len, i, h) <= Merged(os, ls, len, i, h - 1) + ls[h - 1].delay + tx
            || (i > 0 && Merged(os, ls, len, i, h) == Merged(os, ls, len, i - 1, h) + tx)
  {
    var r, r' := MinRate(ls, h - 1), ls[h].rate;
    TxMonotone(len, os[i].len, r);
    assert LastReinject(os, r, i) >= os[i].time + Tx(os[i].len, r);
  }

  lemma MergedWithin(os: seq<Origin>, ls: seq<Link>, len: nat, i: nat, h: nat)
    requires ValidLinks(ls) && i < |os| && 0 < h < |ls| && os[i].len >= len
    ensures var tx := Tx(os[i].len, ls[h].rate);
            || Merged(os, ls, len, i, h) <= Merged(os, ls, len, i, h - 1) + ls[h - 1].delay + tx
            || (i > 0 && Merged(os, ls, len, i, h) == Merged(os, ls, len, i - 1, h) + tx)
  {
    if ls[h].rate < MinRate(ls, h - 1) {
      MergedSlowerIs(os, ls, len, i, h);
    } else {
      MergeFaster(os, ls, len, i, h);
      TxMonotone(len, os[i].len, ls[h].rate);
    }
  }

  /** If no packet is shorter than `len`, the chain is not faster than the merged queue. */
  lemma {:induction false} ChainBeyond(os: seq<Origin>, ls: seq<Link>, len: nat, i: nat, h: nat)
    requires ValidLinks(ls) && i < |os| && h < |ls| && AtLeastLong(os, i, len)
    ensures Merged(os, ls, len, i, h) <= Sent(os, ls, i, h)
    decreases i + h
  {
    if h == 0 {
      FirstHop(os, ls, i);
      MergedFirst(os, ls, len, i);
    } else {
      ChainBeyond(os, ls, len, i, h - 1);
      if i > 0 {
        ChainBeyond(os, ls, len, i - 1, h);
      }
      MergedWithin(os, ls, len, i, h);
    }
  }

  /** For packets of one size a chain of queues is its slowest queue: the other links add their
      transmission times and delays once. */
  lemma HopByHop(os: seq<Origin>, ls: seq<Link>, len: nat, i: nat, h: nat)
    requires ValidLinks(ls) && i < |os| && h < |ls| && AtMostLong(os, i, len) && AtLeastLong(os, i, len)
    ensures Sent(os, ls, i, h) == Merged(os, ls, len, i, h)
  {
    ChainWithin(os, ls, len, i, h);
    ChainBeyond(os, ls, len, i, h);
  }

  // ----- The shortcut against the chain ----------------------------------------------------------

  lemma {:induction false} MinRateIsSlowest(ls: seq<Link>, id: nat, h: nat)
    requires ValidLinks(ls) && Slowest(ls, id) && h < |ls|
    ensures MinRate(ls, h) >= ls[id].rate && (id <= h ==> MinRate(ls, h) == ls[id].rate)
  {
    if h > 0 {
      MinRateIsSlowest(ls, id, h - 1);
    }
  }

  /** The truncated times of the first k links other than `id`. */
  ghost function OtherTx(ls: seq<Link>, len: nat, id: nat, k: nat): nat
    requires ValidLinks(ls) && k <= |ls|
  {
    if k == 0 then 0
    else OtherTx(ls, len, id, k - 1) + (if k - 1 == id then 0 else Tx(len, ls[k - 1].rate))
  }

  lemma {:induction false} TxSumSplit(ls: seq<Link>, len: nat, id: nat, k: nat)
    requires ValidLinks(ls) && k <= |ls| && id < |ls|
    ensures TxSum(ls, len, k) == OtherTx(ls, len, id, k) + (if id < k then Tx(len, ls[id].rate) else 0)
  {
    if k > 0 {
      TxSumSplit(ls, len, id, k - 1);
    }
  }

  /** The number of links other than `id` among the first k. */
  ghost function Others(id: nat, k: nat): nat {
    if id < k then k - 1 else k
  }

  lemma OverInverse(x: real, s: real)
    requires s > 0.0
    ensures x / (1.0 / s) == x * s
  {
    assert (x * s) * (1.0 / s) == x;
  }

  /** The exact times of the first k links other than `id`, summed before truncation. */
  ghost function OtherTime(ls: seq<Link>, len: nat, id: nat, k: nat): real
    requires ValidLinks(ls) && k <= |ls|
  {
    if k == 0 then 0.0
    else OtherTime(ls, len, id, k - 1) + (if k - 1 == id then 0.0 else len as real * 8.0 / ls[k - 1].rate)
  }

  lemma {:induction false} NoOtherTime(ls: seq<Link>, len: nat, id: nat, k: nat)
    requires ValidLinks(ls) && k <= |ls| && Others(id, k) == 0
    ensures OtherTime(ls, len, id, k) == 0.0
  {
    if k > 0 {
      NoOtherTime(ls, len, id, k - 1);
    }
  }

  /** Truncating the sum once loses less than truncating every term: by at most one unit per
      term after the first. */
  lemma {:induction false} TruncateOnce(ls: seq<Link>, len: nat, id: nat, k: nat)
    requires ValidLinks(ls) && k <= |ls|
    ensures var whole := OtherTime(ls, len, id, k).Floor;
            && OtherTx(ls, len, id, k) <= whole
            && whole <= OtherTx(ls, len, id, k) + Max(Others(id, k) - 1, 0)
  {
    if k > 0 {
      TruncateOnce(ls, len, id, k - 1);
      if k - 1 != id {
        if Others(id, k - 1) == 0 {
          NoOtherTime(ls, len, id, k - 1);
        }
      }
    }
  }

  lemma Distribute(x: real, a: real, b: real)
    ensures x * (a + b) == x * a + x * b
  {
  }

  lemma {:induction false} ScaledInverseSum(ls: seq<Link>, len: nat, id: nat, k: nat)
    requires ValidLinks(ls) && k <= |ls|
    ensures len as real * 8.0 * InverseSum(ls, id, k) == OtherTime(ls, len, id, k)
  {
    if k > 0 {
      ScaledInverseSum(ls, len, id, k - 1);
      if k - 1 != id {
        Distribute(len as real * 8.0, InverseSum(ls, id, k - 1), 1.0 / ls[k - 1].rate);
      }
    }
  }

  /** The non-queuing term of the shortcut truncates the exact sum. */
  lemma NonQueuingTx(ls: seq<Link>, len: nat, id: nat)
    requires ValidLinks(ls)
    ensures TxAt(len, NonQueuingRate(ls, id)) == OtherTime(ls, len, id, |ls|).Floor
  {
    ScaledInverseSum(ls, len, id, |ls|);
    var s := InverseSum(ls, id, |ls|);
    if s > 0.0 {
      OverInverse(len as real * 8.0, s);
    }
  }

  /** Merged over the whole path, and the closed form: they differ in how often they truncate. */
  lemma MergedPath(os: seq<Origin>, ls: seq<Link>, id: nat, i: nat)
    requires ValidLinks(ls) && Slowest(ls, id) && i < |os|
    ensures var base := LastReinject(os, ls[id].rate, i) + DelaySum(ls, |ls|);
            && Merged(os, ls, os[i].len, i, |ls| - 1) + ls[|ls| - 1].delay == base + OtherTx(ls, os[i].len, id, |ls|)
            && ShortcutTime(os, ls, id, i) == base + OtherTime(ls, os[i].len, id, |ls|).Floor
  {
    MinRateIsSlowest(ls, id, |ls| - 1);
    TxSumSplit(ls, os[i].len, id, |ls|);
    NonQueuingTx(ls, os[i].len, id);
  }

  /** The shortcut is never earlier than the hop-by-hop stamp for a packet that no earlier packet
      exceeds in length. */
  lemma NotEarly(os: seq<Origin>, ls: seq<Link>, id: nat, i: nat)
    requires ValidLinks(ls) && Slowest(ls, id) && i < |os| && AtMostLong(os, i, os[i].len)
    ensures Stamp(os, ls, i, |ls| - 1) <= ShortcutTime(os, ls, id, i)
  {
    ChainWithin(os, ls, os[i].len, i, |ls| - 1);
    MergedPath(os, ls, id, i);
    TruncateOnce(ls, os[i].len, id, |ls|);
  }

  /** It is at most m - 2 microseconds late (not at all if m is 1) for a packet that exceeds no
      earlier packet in length. */
  lemma NotLate(os: seq<Origin>, ls: seq<Link>, id: nat, i: nat)
    requires ValidLinks(ls) && Slowest(ls, id) && i < |os| && AtLeastLong(os, i, os[i].len)
    ensures ShortcutTime(os, ls, id, i) <= Stamp(os, ls, i, |ls| - 1) + Max(|ls| - 2, 0)
  {
    ChainBeyond(os, ls, os[i].len, i, |ls| - 1);
    MergedPath(os, ls, id, i);
    TruncateOnce(ls, os[i].len, id, |ls|);
  }

  /** A packet leaves link h at the earliest after it has left the first link and passed the others. */
  lemma {:induction false} AfterFirstHop(os: seq<Origin>, ls: seq<Link>, i: nat, h: nat)
    requires ValidLinks(ls) && i < |os| && h < |ls|
    ensures LastReinject(os, ls[0].rate, i) + DelaySum(ls, h) + OtherTx(ls, os[i].len, 0, h + 1) <= Sent(os, ls, i, h)
  {
    if h == 0 {
      FirstHop(os, ls, i);
    } else {
      AfterFirstHop(os, ls, i, h - 1);
    }
  }

  /** Behind a slowest first link, packets of any sizes are not late. */
  lemma NotLateBehindSlowest(os: seq<Origin>, ls: seq<Link>, i: nat)
    requires ValidLinks(ls) && Slowest(ls, 0) && i < |os|
    ensures ShortcutTime(os, ls, 0, i) <= Stamp(os, ls, i, |ls| - 1) + Max(|ls| - 2, 0)
  {
    AfterFirstHop(os, ls, i, |ls| - 1);
    MergedPath(os, ls, 0, i);
    TruncateOnce(ls, os[i].len, 0, |ls|);
  }

  /** On one link the shortcut is exact for packets of any sizes. */
  lemma ExactOnOneLink(os: seq<Origin>, ls: seq<Link>, i: nat)
    requires ValidLinks(ls) && |ls| == 1 && i < |os|
    ensures Slowest(ls, 0) && ShortcutTime(os, ls, 0, i) == Stamp(os, ls, i, 0)
  {
    FirstHop(os, ls, i);
    MergedPath(os, ls, 0, i);
    TruncateOnce(ls, os[i].len, 0, 1);
    AfterFirstHop(os, ls, i, 0);
  }

  /** How the closed form for the i-th packet relates to its stamp: it is not early if no earlier
      packet is longer; it is at most m - 2 microseconds late if no earlier packet is shorter or the
      first link is a slowest one; on one link it is exact. */
  ghost predicate Matches(os: seq<Origin>, ls: seq<Link>, id: nat, i: nat, stamp: nat)
    requires ValidLinks(ls) && id < |ls| && i < |os|
  {
    var time := ShortcutTime(os, ls, id, i);
    && (AtMostLong(os, i, os[i].len) ==> stamp <= time)
    && (AtLeastLong(os, i, os[i].len) || id == 0 ==> time <= stamp + Max(|ls| - 2, 0))
    && (|ls| == 1 ==> time == stamp)
  }

  lemma ShortcutBound(os: seq<Origin>, ls: seq<Link>, id: nat, i: nat)
    requires ValidLinks(ls) && Slowest(ls, id) && i < |os|
    ensures Matches(os, ls, id, i, Stamp(os, ls, i, |ls| - 1))
  {
    if AtMostLong(os, i, os[i].len) {
      NotEarly(os, ls, id, i);
    }
    if AtLeastLong(os, i, os[i].len) {
      NotLate(os, ls, id, i);
    }
    if id == 0 {
      NotLateBehindSlowest(os, ls, i);
    }
    if |ls| == 1 {
      ExactOnOneLink(os, ls, i);
    }
  }

  // ----- Which paths the shortcut is right for, whatever is captured -----------------------------

  ghost predicate NeverEarly(ls: seq<Link>, id: nat)
    requires ValidLinks(ls) && id < |ls|
  {
    forall os: seq<Origin>, i: nat | i < |os| :: Stamp(os, ls, i, |ls| - 1) <= ShortcutTime(os, ls, id, i)
  }

  ghost predicate NeverLate(ls: seq<Link>, id: nat)
    requires ValidLinks(ls) && id < |ls|
  {
    forall os: seq<Origin>, i: nat | i < |os| ::
      ShortcutTime(os, ls, id, i) <= Stamp(os, ls, i, |ls| - 1) + Max(|ls| - 2, 0)
  }

  /** Some packet takes n microseconds and more. */
  lemma LongPacket(rate: real, n: nat) returns (len: nat)
    requires rate > 0.0
    ensures Tx(len, rate) >= n
  {
    var x := n as real * rate;
    len := x.Floor + 1;
    DivMonotone(x, len as real * 8.0, rate);
    assert x / rate == n as real;
  }

  /** Two captures at time 0. */
  ghost function Pair(first: nat, second: nat): seq<Origin> {
    [Origin(1, 0, first, 0), Origin(2, 0, second, 0)]
  }

  /** The first packet finds all links idle. */
  lemma {:induction false} FirstPacket(os: seq<Origin>, ls: seq<Link>, h: nat)
    requires ValidLinks(ls) && h < |ls| && os != [] && os[0].time == 0
    ensures Sent(os, ls, 0, h) == DelaySum(ls, h) + TxSum(ls, os[0].len, h + 1)
  {
    if h > 0 {
      FirstPacket(os, ls, h - 1);
    }
  }

  /** On two links or more a one-byte packet behind a long one overtakes it by the shortcut. */
  lemma EarlyWitness(ls: seq<Link>, id: nat) returns (len: nat)
    requires ValidLinks(ls) && Slowest(ls, id) && |ls| >= 2
    ensures ShortcutTime(Pair(len, 1), ls, id, 1) < Stamp(Pair(len, 1), ls, 1, |ls| - 1)
  {
    var m := |ls|;
    var other := if id == 0 then 1 else 0;
    var small := Tx(1, ls[id].rate) + OtherTime(ls, 1, id, m).Floor;
    TruncateOnce(ls, 1, id, m);
    len := LongPacket(ls[other].rate, small + 1);
    var os := Pair(len, 1);
    FirstPacket(os, ls, m - 1);
    TxSumSplit(ls, len, id, m);
    OneOfOthers(ls, len, id, other, m);
    MergedPath(os, ls, id, 1);
    assert LastReinject(os, ls[id].rate, 0) == Tx(len, ls[id].rate);
  }

  lemma {:induction false} OneOfOthers(ls: seq<Link>, len: nat, id: nat, other: nat, k: nat)
    requires ValidLinks(ls) && other < k <= |ls| && other != id
    ensures Tx(len, ls[other].rate) <= OtherTx(ls, len, id, k)
  {
    if other < k - 1 {
      OneOfOthers(ls, len, id, other, k - 1);
    }
  }

  /** The shortcut is never early, whatever is captured, exactly on paths of one link. */
  lemma NeverEarlyIff(ls: seq<Link>, id: nat)
    requires ValidLinks(ls) && Slowest(ls, id)
    ensures NeverEarly(ls, id) <==> |ls| == 1
  {
    if |ls| == 1 {
      forall os: seq<Origin>, i: nat | i < |os| ensures Stamp(os, ls, i, |ls| - 1) <= ShortcutTime(os, ls, id, i) {
        ExactOnOneLink(os, ls, i);
      }
    } else {
      var len := EarlyWitness(ls, id);
      assert !(Stamp(Pair(len, 1), ls, 1, |ls| - 1) <= ShortcutTime(Pair(len, 1), ls, id, 1));
    }
  }

  /** Multiples of a positive number pass every bound. */
  lemma Archimedes(gain: real, n: nat) returns (k: nat)
    requires gain > 0.0
    ensures k as real * gain >= n as real
  {
    var x := n as real / gain;
    assert x * gain == n as real;
    k := x.Floor + 1;
    MulMonotone(x, k as real, gain);
  }

  lemma Scaled(x: real, r: real)
    requires r > 0.0
    ensures x * (8.0 / r) == x * 8.0 / r
  {
    assert (x * (8.0 / r)) * r == x * 8.0;
  }

  /** A link that is faster than another is faster by n microseconds for some packet. */
  lemma FasterBy(slow: real, fast: real, n: nat) returns (len: nat)
    requires 0.0 < slow < fast
    ensures Tx(len, fast) + n <= Tx(len, slow)
  {
    len := Archimedes(8.0 / slow - 8.0 / fast, n + 1);
    Scaled(len as real, slow);
    Scaled(len as real, fast);
  }

  /** Behind a faster first link, a long packet behind a short one is delayed by the shortcut as if
      the short one still held it up. */
  lemma {:induction false} SecondPacket(ls: seq<Link>, short: nat, long: nat, h: nat)
    requires ValidLinks(ls) && h < |ls| && TxSum(ls, short, |ls|) <= Tx(long, ls[0].rate)
    ensures Sent(Pair(short, long), ls, 1, h) <= Tx(short, ls[0].rate) + DelaySum(ls, h) + TxSum(ls, long, h + 1)
  {
    var os := Pair(short, long);
    FirstPacket(os, ls, h);
    if h > 0 {
      SecondPacket(ls, short, long, h - 1);
      TxSumMonotone(ls, short, h + 1, |ls|);
      TxSumMonotone(ls, long, 1, h);
      assert TxSum(ls, long, 1) == Tx(long, ls[0].rate);
    }
  }

  lemma {:induction false} TxSumMonotone(ls: seq<Link>, len: nat, j: nat, k: nat)
    requires ValidLinks(ls) && j <= k <= |ls|
    ensures TxSum(ls, len, j) <= TxSum(ls, len, k)
  {
    if j < k {
      TxSumMonotone(ls, len, j, k - 1);
    }
  }

  lemma LateWitness(ls: seq<Link>, id: nat) returns (short: nat, long: nat)
    requires ValidLinks(ls) && Slowest(ls, id) && id > 0
    ensures var os := Pair(short, long); Stamp(os, ls, 1, |ls| - 1) + |ls| - 2 < ShortcutTime(os, ls, id, 1)
  {
    var m := |ls|;
    short := FasterBy(ls[id].rate, ls[0].rate, m);
    long := LongPacket(ls[0].rate, TxSum(ls, short, m));
    var os := Pair(short, long);
    SecondPacket(ls, short, long, m - 1);
    MergedPath(os, ls, id, 1);
    TruncateOnce(ls, long, id, m);
    TxSumSplit(ls, long, id, m);
    assert LastReinject(os, ls[id].rate, 0) == Tx(short, ls[id].rate);
  }

  /** The shortcut is never more than m - 2 microseconds late, whatever is captured, exactly on
      paths whose first link is a slowest one. */
  lemma NeverLateIff(ls: seq<Link>, id: nat)
    requires ValidLinks(ls) && Slowest(ls, id)
    ensures NeverLate(ls, id) <==> id == 0
  {
    if id == 0 {
      forall os: seq<Origin>, i: nat | i < |os|
        ensures ShortcutTime(os, ls, id, i) <= Stamp(os, ls, i, |ls| - 1) + Max(|ls| - 2, 0)
      {
        NotLateBehindSlowest(os, ls, i);
      }
    } else {
      var short, long := LateWitness(ls, id);
      var os := Pair(short, long);
      assert !(ShortcutTime(os, ls, id, 1) <= Stamp(os, ls, 1, |ls| - 1) + Max(|ls| - 2, 0));
    }
  }

  // ----- The shortcut against the network --------------------------------------------------------

  /** The shortcut refines the simulation: for an instance that shares no queue, the closed form
      matches the reinject times of every interleaving of the queue network. */
  lemma ShortcutRefinesNetwork(c: Config, run: seq<Net>, a: nat, id: nat, i: nat)
    requires ValidConfig(c) && Run(c, run) && a < |c.paths| && Exclusive(c, a)
    requires Slowest(LinksOf(c, a), id) && i < |OutOf(run[|run| - 1].out, a)|
    ensures var n := run[|run| - 1];
            var os, p := CapturedBy(n.captured, a), OutOf(n.out, a)[i];
            && i < |os| && p.origin == os[i]
            && Matches(os, LinksOf(c, a), id, i, p.reinject)
  {
    ScheduleIndependent(c, run, a, i);
    ShortcutBound(CapturedBy(run[|run| - 1].captured, a), LinksOf(c, a), id, i);
  }

  /** The bound is met: on three links of 8, 16 and 16 Mbps a one-byte packet is reinjected one
      microsecond late. */
  lemma BoundIsMet()
    ensures var ls := [Link(8.0, 0), Link(16.0, 0), Link(16.0, 0)];
            var os := [Origin(1, 0, 1, 0)];
            && Slowest(ls, 0)
            && ShortcutTime(os, ls, 0, 0) == Stamp(os, ls, 0, 2) + 1
  {
    var ls := [Link(8.0, 0), Link(16.0, 0), Link(16.0, 0)];
    var os := [Origin(1, 0, 1, 0)];
    assert Tx(1, 8.0) == 1 && Tx(1, 16.0) == 0;
    assert OtherTime(ls, 1, 0, 1) == 0.0;
    assert OtherTime(ls, 1, 0, 2) == 0.5;
    assert OtherTime(ls, 1, 0, 3) == 1.0;
    NonQueuingTx(ls, 1, 0);
    assert Sent(os, ls, 0, 0) == 1 && Sent(os, ls, 0, 1) == 1 && Sent(os, ls, 0, 2) == 1;
    assert DelaySum(ls, 1) == 0 && DelaySum(ls, 2) == 0 && DelaySum(ls, 3) == 0;
  }

  /** Where sizes differ: behind a large packet, a small one waits at the fast second link for longer
      than the shortcut accounts for. */
  lemma SizesMatter()
    ensures var ls := [Link(8.0, 0), Link(16.0, 0)];
            var os := [Origin(1, 0, 10, 0), Origin(2, 0, 1, 0)];
            && Slowest(ls, 0)
            && ShortcutTime(os, ls, 0, 1) < Stamp(os, ls, 1, 1)
  {
    var ls := [Link(8.0, 0), Link(16.0, 0)];
    var os := [Origin(1, 0, 10, 0), Origin(2, 0, 1, 0)];
    assert Tx(10, 8.0) == 10 && Tx(1, 8.0) == 1 && Tx(10, 16.0) == 5 && Tx(1, 16.0) == 0;
    assert OtherTime(ls, 1, 0, 1) == 0.0;
    assert OtherTime(ls, 1, 0, 2) == 0.5;
    NonQueuingTx(ls, 1, 0);
    assert LastReinject(os, 8.0, 0) == 10;
    assert Sent(os, ls, 0, 0) == 10 && Sent(os, ls, 0, 1) == 15;
    assert DelaySum(ls, 1) == 0 && DelaySum(ls, 2) == 0;
  }

  // ----- The application map as the code keeps it ------------------------------------------------

  /** An application's path and parameters (struct stru_app_map). */
  class AppMap {
    const hops: seq<Link>
    var queuingRate: real
    var nonQueuingRate: Rate
    var totalFixedDelay: nat
    var lastReinjectTime: nat
    ghost var slowest: nat
    ghost var dispatched: seq<Origin>

    ghost predicate Valid()
      reads this
    {
      && ValidLinks(hops) && Slowest(hops, slowest)
      && queuingRate == hops[slowest].rate
      && nonQueuingRate == NonQueuingRate(hops, slowest)
      && totalFixedDelay == DelaySum(hops, |hops|)
      && lastReinjectTime == if dispatched == [] then 0
                             else LastReinject(dispatched, queuingRate, |dispatched| - 1)
    }

    /** find_min_rate */
    static method FindMinRate(hops: seq<Link>) returns (m: real, id: nat)
      requires |hops| > 0
      ensures Slowest(hops, id) && m == hops[id].rate
    {
      m, id := hops[0].rate, 0;
      for i := 0 to |hops|
        invariant id < |hops| && m == hops[id].rate && (i == 0 ==> id == 0) && (i > 0 ==> id < i)
        invariant forall l | 0 <= l < i :: m <= hops[l].rate
        invariant forall l | 0 <= l < id :: m < hops[l].rate
      {
        if m > hops[i].rate {
          m, id := hops[i].rate, i;
        }
      }
    }

    /** appmap_update_parameters on a map with a path, as set up before any capture. */
    constructor (hops: seq<Link>)
      requires ValidLinks(hops) && |hops| > 0
      ensures Valid() && this.hops == hops && dispatched == []
    {
      var m, id := FindMinRate(hops);
      var inverse, delay := 0.0, 0;
      for i := 0 to |hops|
        invariant inverse == InverseSum(hops, id, i) && delay == DelaySum(hops, i)
      {
        delay := delay + hops[i].delay;
        if i == id {
          continue;
        }
        inverse := inverse + 1.0 / hops[i].rate;
      }
      this.hops, queuingRate, totalFixedDelay := hops, m, delay;
      nonQueuingRate := if inverse == 0.0 then Infinite else Finite(1.0 / inverse);
      lastReinjectTime, slowest, dispatched := 0, id, [];
    }

    /** dispatch_to_emulation for a non-interfering application. */
    method Dispatch(o: Origin) returns (reinject: nat)
      requires Valid()
      modifies this`lastReinjectTime, this`dispatched
      ensures Valid() && dispatched == old(dispatched) + [o]
      ensures reinject == ShortcutTime(dispatched, hops, slowest, |dispatched| - 1)
    {
      var ls := Max(lastReinjectTime, o.time);
      lastReinjectTime := Tx(o.len, queuingRate) + ls;
      reinject := lastReinjectTime + totalFixedDelay + TxAt(o.len, nonQueuingRate);
      if dispatched != [] {
        LastReinjectLocal(dispatched, o, queuingRate, |dispatched| - 1);
      }
      dispatched := dispatched + [o];
    }
  }

  lemma {:induction false} LastReinjectLocal(os: seq<Origin>, o: Origin, rate: real, i: nat)
    requires rate > 0.0 && i < |os|
    ensures LastReinject(os + [o], rate, i) == LastReinject(os, rate, i)
  {
    if i > 0 {
      LastReinjectLocal(os, o, rate, i - 1);
    }
  }
}
