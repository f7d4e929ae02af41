/** The key schedule of FIPS 46-3, bit by bit: every bit of every subkey that Application/des.c computes is
    the bit of the key that PC-1, the shifts and PC-2 name. */
module DesStandard {
  import opened Des
  import opened DesBits

  // ----- Permuted choice 1 -----------------------------------------------------------------------

  /** PC-1, with bits counted from 0: the key bits of the two halves. */
  function PcOneC(i: nat): (k: nat)
    requires i < 28
    ensures k < 64 && k % 8 != 7
  {
    56 + i / 8 - 8 * (i % 8)
  }

  function PcOneD(i: nat): (k: nat)
    requires i < 28
    ensures k < 64 && k % 8 != 7
  {
    if i < 24 then 62 - i / 8 - 8 * (i % 8) else 27 - 8 * (i - 24)
  }

  lemma KeyPermC(i: nat)
    requires i < 28
    ensures KEY_PERM_C[i] == PcOneC(i)
  {
    if i == 0 {} else if i == 1 {} else if i == 2 {} else if i == 3 {} else if i == 4 {} else if i == 5 {}
      else if i == 6 {} else if i == 7 {} else if i == 8 {} else if i == 9 {} else if i == 10 {}
      else if i == 11 {} else if i == 12 {} else if i == 13 {} else if i == 14 {} else if i == 15 {}
      else if i == 16 {} else if i == 17 {} else if i == 18 {} else if i == 19 {} else if i == 20 {}
      else if i == 21 {} else if i == 22 {} else if i == 23 {} else if i == 24 {} else if i == 25 {}
      else if i == 26 {} else {}
  }

  lemma KeyPermD(i: nat)
    requires i < 28
    ensures KEY_PERM_D[i] == PcOneD(i)
  {
    if i == 0 {} else if i == 1 {} else if i == 2 {} else if i == 3 {} else if i == 4 {} else if i == 5 {}
      else if i == 6 {} else if i == 7 {} else if i == 8 {} else if i == 9 {} else if i == 10 {}
      else if i == 11 {} else if i == 12 {} else if i == 13 {} else if i == 14 {} else if i == 15 {}
      else if i == 16 {} else if i == 17 {} else if i == 18 {} else if i == 19 {} else if i == 20 {}
      else if i == 21 {} else if i == 22 {} else if i == 23 {} else if i == 24 {} else if i == 25 {}
      else if i == 26 {} else {}
  }

  /** A selected bit goes to its place and nowhere else. */
  lemma SelectBitIs(key: Block, perm: seq<KeyBit>, n: nat, i: nat)
    requires n < |perm| == 28 && i < 32
    ensures Bit32(SelectBit(key, perm, n), i) <==> i == n && BlockBit(key, perm[n])
  {
    BlockBitIs(key, perm[n]);
    BitNumBit(key[perm[n] / 8], perm[n] % 8, n, i);
  }

  lemma HalfKeyStep(key: Block, perm: seq<KeyBit>, n: nat, i: nat)
    requires 0 < n <= |perm| == 28 && i < 32
    ensures Bit32(HalfKey(key, perm, n), i)
            <==> Bit32(HalfKey(key, perm, n - 1), i) || Bit32(SelectBit(key, perm, n - 1), i)
  {
    OrBit32(HalfKey(key, perm, n - 1), SelectBit(key, perm, n - 1), HalfKey(key, perm, n), i);
  }

  lemma {:induction false} HalfKeyBit(key: Block, perm: seq<KeyBit>, n: nat, i: nat)
    requires n <= |perm| == 28 && i < 32
    ensures Bit32(HalfKey(key, perm, n), i) <==> i < n && BlockBit(key, perm[i])
  {
    if n == 0 {
      ZeroBit(i);
    } else {
      HalfKeyBit(key, perm, n - 1, i);
      HalfKeyStep(key, perm, n, i);
      SelectBitIs(key, perm, n - 1, i);
    }
  }

  /** 28 bits of a word, and the same bits turned left by n places. */
  function Bits28(c: bv32): (s: seq<bool>)
    ensures |s| == 28
  {
    seq(28, i requires 0 <= i < 28 => Bit32(c, i))
  }

  function Turn(s: seq<bool>, n: nat): (t: seq<bool>)
    requires |s| == 28
    ensures |t| == 28
  {
    seq(28, i requires 0 <= i < 28 => s[(i + n) % 28])
  }

  /** The key bits that a table names. */
  function Picked(key: Block, perm: seq<KeyBit>): (s: seq<bool>)
    requires |perm| == 28
    ensures |s| == 28
  {
    seq(28, i requires 0 <= i < 28 => BlockBit(key, perm[i]))
  }

  lemma HalfKeyPicked(key: Block, perm: seq<KeyBit>)
    requires |perm| == 28
    ensures Bits28(HalfKey(key, perm, 28)) == Picked(key, perm)
  {
    forall i | 0 <= i < 28 ensures Bits28(HalfKey(key, perm, 28))[i] == Picked(key, perm)[i] {
      HalfKeyBit(key, perm, 28, i);
    }
  }

  // ----- Rotations -------------------------------------------------------------------------------

  /** The 28 bits of a half stand at the left of a word. */
  predicate Half(c: bv32) {
    c & 0xf == 0
  }

  lemma OneBitHalf(d: bv5)
    requires d >= 4
    ensures Half((1 as bv32) << d)
  {
  }

  lemma MaskHalf(n: nat)
    requires 4 <= n < 32
    ensures Half(Mask(n))
  {
    MaskIs(n);
    Index5Is(n);
    OneBitHalf(Index5(n));
  }

  lemma OrHalf(x: bv32, y: bv32)
    requires Half(x) && Half(y)
    ensures Half(x | y)
  {
  }

  lemma {:induction false} HalfKeyHalf(key: Block, perm: seq<KeyBit>, n: nat)
    requires n <= |perm| == 28
    ensures Half(HalfKey(key, perm, n))
  {
    if n > 0 {
      HalfKeyHalf(key, perm, n - 1);
      BitNumMask(key[perm[n - 1] / 8], perm[n - 1] % 8, 32 - n);
      MaskHalf(32 - n);
      OrHalf(HalfKey(key, perm, n - 1), SelectBit(key, perm, n - 1));
    }
  }

  lemma RotateHalf(c: bv32, shift: bv5)
    ensures Half(Rotate(c, shift))
  {
  }

  /** One bit moves to the left, the leftmost to the right end of the half. */
  lemma RotateInner(c: bv32, c': bv32, m: bv32, m': bv32)
    requires Half(c) && c' == Rotate(c, 1) && m & 0x8000_000f == 0 && m' == m << 1
    ensures At(c', m') <==> At(c, m)
  {
  }

  lemma RotateOuter(c: bv32, c': bv32)
    requires Half(c) && c' == Rotate(c, 1)
    ensures At(c', 0x10) <==> At(c, 0x8000_0000)
  {
  }

  lemma OneBitInner(d: bv5)
    requires 4 <= d < 31
    ensures ((1 as bv32) << d) & 0x8000_000f == 0
  {
  }

  lemma MaskInner(n: nat)
    requires 4 <= n < 31
    ensures Mask(n) & 0x8000_000f == 0
  {
    MaskIs(n);
    Index5Is(n);
    OneBitInner(Index5(n));
  }

  lemma MaskEnds()
    ensures Mask(4) == 0x10 && Mask(31) == 0x8000_0000
  {
    TopMask();
    assert Mask(2) == 4;
  }

  lemma RotateInnerBit(c: bv32, c': bv32, i: nat)
    requires Half(c) && c' == Rotate(c, 1) && i < 27
    ensures Bit32(c', i) <==> Bit32(c, i + 1)
  {
    Bit32Is(c', i);
    Bit32Is(c, i + 1);
    MaskInner(30 - i);
    RotateInner(c, c', Mask(30 - i), Mask(31 - i));
  }

  lemma RotateOuterBit(c: bv32, c': bv32)
    requires Half(c) && c' == Rotate(c, 1)
    ensures Bit32(c', 27) <==> Bit32(c, 0)
  {
    Bit32Is(c', 27);
    Bit32Is(c, 0);
    RotateOuter(c, c');
    MaskEnds();
  }

  lemma RotateNext(c: bv32, c': bv32)
    requires Half(c) && c' == Rotate(c, 1)
    ensures forall i | 0 <= i < 27 :: Bits28(c')[i] == Bits28(c)[i + 1]
    ensures Bits28(c')[27] == Bits28(c)[0]
  {
    forall i | 0 <= i < 27 ensures Bits28(c')[i] == Bits28(c)[i + 1] {
      RotateInnerBit(c, c', i);
    }
    RotateOuterBit(c, c');
  }

  lemma NextTurned(s: seq<bool>, t: seq<bool>)
    requires |s| == |t| == 28 && t[27] == s[0] && forall i | 0 <= i < 27 :: t[i] == s[i + 1]
    ensures t == Turn(s, 1)
  {
  }

  lemma TurnedOne(c: bv32, c': bv32)
    requires Half(c) && c' == Rotate(c, 1)
    ensures Bits28(c') == Turn(Bits28(c), 1)
  {
    RotateNext(c, c');
    NextTurned(Bits28(c), Bits28(c'));
  }

  lemma ModAdds(x: nat, m: nat)
    ensures (x % 28 + m) % 28 == (x + m) % 28
  {
    assert x + m == x % 28 + m + 28 * (x / 28);
  }

  lemma TurnThen(s: seq<bool>, m: nat, n: nat)
    requires |s| == 28
    ensures Turn(Turn(s, m), n) == Turn(s, m + n)
  {
    forall i | 0 <= i < 28 ensures Turn(Turn(s, m), n)[i] == Turn(s, m + n)[i] {
      ModAdds(i + n, m);
    }
  }

  lemma RotateTwice(c: bv32)
    requires Half(c)
    ensures Rotate(c, 2) == Rotate(Rotate(c, 1), 1)
  {
  }

  /** The left shifts of FIPS 46-3: one place in rounds 1, 2, 9 and 16, else two. */
  function Shift(round: nat): (n: nat)
    requires round < 16
    ensures n == 1 || n == 2
  {
    if round == 0 || round == 1 || round == 8 || round == 15 then 1 else 2
  }

  /** All shifts of the first rounds. */
  function Turns(rounds: nat): nat
    requires rounds <= 16
  {
    if rounds == 0 then 0 else Turns(rounds - 1) + Shift(rounds - 1)
  }

  lemma RoundShift(r: nat)
    requires r < 16
    ensures KEY_ROUND_SHIFT[r] == if Shift(r) == 1 then 1 else 2
  {
  }

  lemma TurnedBy(c: bv32, c': bv32, r: nat)
    requires Half(c) && r < 16 && c' == Rotate(c, KEY_ROUND_SHIFT[r])
    ensures Bits28(c') == Turn(Bits28(c), Shift(r))
  {
    RoundShift(r);
    if Shift(r) == 1 {
      TurnedOne(c, c');
    } else {
      TurnedTwo(c, c');
    }
  }

  lemma TurnedTwo(c: bv32, c': bv32)
    requires Half(c) && c' == Rotate(c, 2)
    ensures Bits28(c') == Turn(Bits28(c), 2)
  {
    var mid := Rotate(c, 1);
    RotateTwice(c);
    RotateHalf(c, 1);
    TurnedOne(c, mid);
    TurnedOne(mid, c');
    TurnThen(Bits28(c), 1, 1);
  }

  lemma {:induction false} HalfAfterHalf(c: bv32, r: nat)
    requires Half(c) && r <= 16
    ensures Half(HalfAfter(c, r))
  {
    if r > 0 {
      RotateHalf(HalfAfter(c, r - 1), KEY_ROUND_SHIFT[r - 1]);
    }
  }

  lemma TurnNone(s: seq<bool>)
    requires |s| == 28
    ensures Turn(s, 0) == s
  {
  }

  ghost predicate TurnsAt(bits: seq<seq<bool>>, i: nat)
    requires |bits| == 17 && i < 16
  {
    |bits[i]| == 28 && bits[i + 1] == Turn(bits[i], Shift(i))
  }

  /** Turns add up. */
  lemma {:induction false} TurnsAdd(bits: seq<seq<bool>>, r: nat)
    requires |bits| == 17 && |bits[0]| == 28 && r <= 16 && forall i | 0 <= i < 16 :: TurnsAt(bits, i)
    ensures bits[r] == Turn(bits[0], Turns(r))
  {
    if r == 0 {
      TurnNone(bits[0]);
    } else {
      TurnsAdd(bits, r - 1);
      assert TurnsAt(bits, r - 1);
      TurnThen(bits[0], Turns(r - 1), Shift(r - 1));
    }
  }

  lemma HalfAfterNext(c: bv32, r: nat)
    requires Half(c) && r < 16
    ensures Bits28(HalfAfter(c, r + 1)) == Turn(Bits28(HalfAfter(c, r)), Shift(r))
  {
    HalfAfterHalf(c, r);
    TurnedBy(HalfAfter(c, r), HalfAfter(c, r + 1), r);
  }

  /** After r rounds a half has been turned by all shifts so far. */
  lemma HalfAfterTurned(c: bv32, r: nat)
    requires Half(c) && r <= 16
    ensures Bits28(HalfAfter(c, r)) == Turn(Bits28(c), Turns(r))
  {
    var bits := seq(17, i requires 0 <= i < 17 => Bits28(HalfAfter(c, i)));
    forall i | 0 <= i < 16 ensures TurnsAt(bits, i) {
      HalfAfterNext(c, i);
    }
    TurnsAdd(bits, r);
  }

  // ----- Permuted choice 2 -----------------------------------------------------------------------

  /** PC-2 of FIPS 46-3, with bits counted from 1. */
  const PC2: seq<nat> :=
    [14, 17, 11, 24, 1, 5]
    + [3, 28, 15, 6, 21, 10]
    + [23, 19, 12, 4, 26, 8]
    + [16, 7, 27, 20, 13, 2]
    + [41, 52, 31, 37, 47, 55]
    + [30, 40, 51, 45, 33, 48]
    + [44, 49, 39, 56, 34, 53]
    + [46, 42, 50, 36, 29, 32]

  lemma CompressionC(j: nat)
    requires j < 24
    ensures KEY_COMPRESSION_C[j] as int + 1 == PC2[j]
  {
    if j == 0 {} else if j == 1 {} else if j == 2 {} else if j == 3 {} else if j == 4 {} else if j == 5 {}
      else if j == 6 {} else if j == 7 {} else if j == 8 {} else if j == 9 {} else if j == 10 {}
      else if j == 11 {} else if j == 12 {} else if j == 13 {} else if j == 14 {} else if j == 15 {}
      else if j == 16 {} else if j == 17 {} else if j == 18 {} else if j == 19 {} else if j == 20 {}
      else if j == 21 {} else if j == 22 {} else {}
  }

  lemma CompressionD(j: nat)
    requires j < 24
    ensures KEY_COMPRESSION_D[j] as int + 1 == PC2[24 + j]
  {
    if j == 0 {} else if j == 1 {} else if j == 2 {} else if j == 3 {} else if j == 4 {} else if j == 5 {}
      else if j == 6 {} else if j == 7 {} else if j == 8 {} else if j == 9 {} else if j == 10 {}
      else if j == 11 {} else if j == 12 {} else if j == 13 {} else if j == 14 {} else if j == 15 {}
      else if j == 16 {} else if j == 17 {} else if j == 18 {} else if j == 19 {} else if j == 20 {}
      else if j == 21 {} else if j == 22 {} else {}
  }

  lemma PC2Range(j: nat)
    requires j < 48
    ensures if j < 24 then 1 <= PC2[j] <= 28 else 29 <= PC2[j] <= 56
  {
    if j < 24 {
      CompressionC(j);
    } else {
      CompressionD(j - 24);
    }
  }

  /** The bit of the two halves that the code puts at place j. */
  predicate Chosen(c: bv32, d: bv32, j: nat)
    requires j < 48
  {
    if j < 24 then Bit32(c, KEY_COMPRESSION_C[j]) else Bit32(d, PlaceD(j))
  }

  lemma CompressLeft(c: bv32, d: bv32, j: nat, i: nat)
    requires j < 24 && i < 8
    ensures Bit8(CompressBit(c, d, j), i) <==> i == j % 8 && Bit32(c, KEY_COMPRESSION_C[j])
  {
    BitNumIntRBit(c, KEY_COMPRESSION_C[j], j % 8, i);
  }

  lemma CompressRight(c: bv32, d: bv32, j: nat, i: nat)
    requires 24 <= j < 48 && i < 8
    ensures Bit8(CompressBit(c, d, j), i) <==> i == j % 8 && Bit32(d, PlaceD(j))
  {
    BitNumIntRBit(d, PlaceD(j), j % 8, i);
  }

  /** A chosen bit goes to its place in its byte and nowhere else. */
  lemma CompressBitIs(c: bv32, d: bv32, j: nat, i: nat)
    requires j < 48 && i < 8
    ensures Bit8(CompressBit(c, d, j), i) <==> i == j % 8 && Chosen(c, d, j)
  {
    if j < 24 {
      CompressLeft(c, d, j, i);
    } else {
      CompressRight(c, d, j, i);
    }
  }

  /** The bits that go to byte b. */
  function ChosenFor(c: bv32, d: bv32, b: nat): (s: seq<bool>)
    requires b < 6
    ensures |s| == 8
  {
    seq(8, i requires 0 <= i < 8 => Chosen(c, d, 8 * b + i))
  }

  lemma CompressByteBit(c: bv32, d: bv32, b: nat, n: nat, i: nat)
    requires b < 6 && n < 8 && i < 8
    ensures Bit8(CompressBit(c, d, 8 * b + n), i) <==> i == n && ChosenFor(c, d, b)[n]
  {
    assert (8 * b + n) % 8 == n;
    CompressBitIs(c, d, 8 * b + n, i);
  }

  /** Byte n of ys has at most bit n, which says whether bit n is chosen. */
  ghost predicate OneBitAt(ys: seq<bv8>, chosen: seq<bool>, n: nat)
    requires |ys| == |chosen| == 8 && n < 8
  {
    forall i | 0 <= i < 8 :: Bit8(ys[n], i) <==> i == n && chosen[n]
  }

  /** Byte n + 1 of zs is byte n with byte n of ys added. */
  ghost predicate AddsAt(ys: seq<bv8>, zs: seq<bv8>, n: nat)
    requires |ys| == 8 && |zs| == 9 && n < 8
  {
    zs[n + 1] == zs[n] | ys[n]
  }

  lemma {:induction false} AddedBit(ys: seq<bv8>, zs: seq<bv8>, chosen: seq<bool>, n: nat, i: nat)
    requires |ys| == |chosen| == 8 && |zs| == 9 && zs[0] == 0 && n <= 8 && i < 8
    requires forall m | 0 <= m < 8 :: OneBitAt(ys, chosen, m) && AddsAt(ys, zs, m)
    ensures Bit8(zs[n], i) <==> i < n && chosen[i]
  {
    if n == 0 {
      ZeroBit8(i);
    } else {
      AddedBit(ys, zs, chosen, n - 1, i);
      assert OneBitAt(ys, chosen, n - 1) && AddsAt(ys, zs, n - 1);
      OrBit8(zs[n - 1], ys[n - 1], zs[n], i);
    }
  }

  lemma ChosenBits(c: bv32, d: bv32, b: nat, ys: seq<bv8>, n: nat)
    requires b < 6 && n < 8 && |ys| == 8 && ys[n] == CompressBit(c, d, 8 * b + n)
    ensures OneBitAt(ys, ChosenFor(c, d, b), n)
  {
    forall i | 0 <= i < 8 ensures Bit8(ys[n], i) <==> i == n && ChosenFor(c, d, b)[n] {
      CompressByteBit(c, d, b, n, i);
    }
  }

  lemma CompressedByte(c: bv32, d: bv32, b: nat, i: nat)
    requires b < 6 && i < 8
    ensures Bit8(CompressByte(c, d, b, 8), i) <==> ChosenFor(c, d, b)[i]
  {
    var ys := seq(8, n requires 0 <= n < 8 => CompressBit(c, d, 8 * b + n));
    var zs := seq(9, n requires 0 <= n < 9 => CompressByte(c, d, b, n));
    forall n | 0 <= n < 8 ensures OneBitAt(ys, ChosenFor(c, d, b), n) && AddsAt(ys, zs, n) {
      ChosenBits(c, d, b, ys, n);
    }
    AddedBit(ys, zs, ChosenFor(c, d, b), 8, i);
  }

  lemma SelectedBit(c: bv32, d: bv32, j: nat)
    requires j < 48
    ensures BlockBit(Selected(c, d), j) <==> Chosen(c, d, j)
  {
    BlockBitIs(Selected(c, d), j);
    CompressedByte(c, d, j / 8, j % 8);
  }

  // ----- The subkeys -----------------------------------------------------------------------------

  /** The key bits that PC-1 and the shifts have brought to places i of the halves by the end of round r. */
  function KeyBitC(r: nat, i: nat): (k: nat)
    requires r < 16 && i < 28
    ensures k < 64 && k % 8 != 7
  {
    PcOneC((i + Turns(r + 1)) % 28)
  }

  function KeyBitD(r: nat, i: nat): (k: nat)
    requires r < 16 && i < 28
    ensures k < 64 && k % 8 != 7
  {
    PcOneD((i + Turns(r + 1)) % 28)
  }

  /** The key bit that PC-1, the shifts and PC-2 put at place j of the subkey of round r. */
  function ScheduledBit(r: nat, j: nat): (k: nat)
    requires r < 16 && j < 48
    ensures k < 64 && k % 8 != 7
  {
    PC2Range(j);
    if j < 24 then KeyBitC(r, PC2[j] - 1) else KeyBitD(r, PC2[j] - 29)
  }

  /** A half after r rounds is what PC-1 selects, turned by all shifts so far. */
  lemma HalfBits(key: Block, perm: seq<KeyBit>, r: nat)
    requires |perm| == 28 && r <= 16
    ensures Bits28(HalfAfter(HalfKey(key, perm, 28), r)) == Turn(Picked(key, perm), Turns(r))
  {
    HalfKeyHalf(key, perm, 28);
    HalfKeyPicked(key, perm);
    HalfAfterTurned(HalfKey(key, perm, 28), r);
  }

  lemma HalfBit(key: Block, perm: seq<KeyBit>, c: bv32, r: nat, i: nat, q: nat)
    requires |perm| == 28 && r <= 16 && i < 28 && q == (i + Turns(r)) % 28
    requires Bits28(c) == Turn(Picked(key, perm), Turns(r))
    ensures Bit32(c, i) <==> BlockBit(key, perm[q])
  {
    TurnAt(Picked(key, perm), Bits28(c), Turns(r), i, q);
  }

  lemma TurnAt(s: seq<bool>, t: seq<bool>, n: nat, i: nat, q: nat)
    requires |s| == 28 && t == Turn(s, n) && i < 28 && q == (i + n) % 28
    ensures t[i] == s[q]
  {
  }

  lemma HalfCIs(key: Block, r: nat)
    requires r <= 16
    ensures Bits28(HalfC(key, r)) == Turn(Picked(key, KEY_PERM_C), Turns(r))
  {
    HalfBits(key, KEY_PERM_C, r);
  }

  lemma HalfDIs(key: Block, r: nat)
    requires r <= 16
    ensures Bits28(HalfD(key, r)) == Turn(Picked(key, KEY_PERM_D), Turns(r))
  {
    HalfBits(key, KEY_PERM_D, r);
  }

  lemma HalfCBit(key: Block, r: nat, i: nat, q: nat)
    requires r <= 16 && i < 28 && q == (i + Turns(r)) % 28
    ensures Bit32(HalfC(key, r), i) <==> BlockBit(key, PcOneC(q))
  {
    KeyPermC(q);
    HalfCIs(key, r);
    HalfBit(key, KEY_PERM_C, HalfC(key, r), r, i, q);
  }

  lemma HalfDBit(key: Block, r: nat, i: nat, q: nat)
    requires r <= 16 && i < 28 && q == (i + Turns(r)) % 28
    ensures Bit32(HalfD(key, r), i) <==> BlockBit(key, PcOneD(q))
  {
    KeyPermD(q);
    HalfDIs(key, r);
    HalfBit(key, KEY_PERM_D, HalfD(key, r), r, i, q);
  }

  lemma ChosenAfter(key: Block, r: nat, j: nat, k: nat)
    requires r < 16 && j < 48 && k < 64
    requires k == if j < 24 then KeyBitC(r, KEY_COMPRESSION_C[j]) else KeyBitD(r, PlaceD(j))
    ensures Chosen(HalfC(key, r + 1), HalfD(key, r + 1), j) <==> BlockBit(key, k)
  {
    if j < 24 {
      HalfCBit(key, r + 1, KEY_COMPRESSION_C[j], (KEY_COMPRESSION_C[j] + Turns(r + 1)) % 28);
    } else {
      HalfDBit(key, r + 1, PlaceD(j), (PlaceD(j) + Turns(r + 1)) % 28);
    }
  }

  lemma SubkeyBitAt(key: Block, r: nat, j: nat, k: nat)
    requires r < 16 && j < 48 && k < 64
    requires k == if j < 24 then KeyBitC(r, KEY_COMPRESSION_C[j]) else KeyBitD(r, PlaceD(j))
    ensures BlockBit(Subkey(key, r), j) <==> BlockBit(key, k)
  {
    SelectedBit(HalfC(key, r + 1), HalfD(key, r + 1), j);
    ChosenAfter(key, r, j, k);
  }

  lemma ScheduledIs(r: nat, j: nat)
    requires r < 16 && j < 48
    ensures ScheduledBit(r, j) == if j < 24 then KeyBitC(r, KEY_COMPRESSION_C[j]) else KeyBitD(r, PlaceD(j))
  {
    if j < 24 {
      CompressionC(j);
    } else {
      CompressionD(j - 24);
    }
  }

  /** Every bit of every subkey is the key bit that FIPS 46-3 names, for every key. */
  lemma SubkeyBit(key: Block, r: nat, j: nat)
    requires r < 16 && j < 48
    ensures BlockBit(Subkey(key, r), j) <==> BlockBit(key, ScheduledBit(r, j))
  {
    ScheduledIs(r, j);
    SubkeyBitAt(key, r, j, ScheduledBit(r, j));
  }
}
