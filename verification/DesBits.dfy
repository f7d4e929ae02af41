/** Bits of keys, words and bytes, for stating what the tables of FIPS 46-3 say of the code in
    Application/des.c. */
module DesBits {
  import opened Des

  /** The word with the single bit n, counted from the right. */
  function Mask(n: nat): (m: bv32)
    requires n < 32
  {
    if n == 0 then 1 else Mask(n - 1) << 1
  }

  function Mask8(n: nat): bv8
    requires n < 8
  {
    if n == 0 then 1 else Mask8(n - 1) << 1
  }

  predicate At(x: bv32, m: bv32) {
    x & m != 0
  }

  predicate At8(x: bv8, m: bv8) {
    x & m != 0
  }

  /** Bit i of a word, counted from the left. */
  predicate Bit32(x: bv32, i: nat)
    requires i < 32
    decreases i
  {
    if i == 0 then x & 0x8000_0000 != 0 else Bit32(x << 1, i - 1)
  }

  predicate Bit8(x: bv8, i: nat)
    requires i < 8
    decreases i
  {
    if i == 0 then x & 0x80 != 0 else Bit8(x << 1, i - 1)
  }

  /** Bit k of a key, a block or a subkey. */
  predicate BlockBit(block: seq<bv8>, k: nat)
    requires k < 8 * |block|
  {
    if k < 8 then Bit8(block[0], k) else BlockBit(block[1..], k - 8)
  }

  lemma {:induction false} BlockBitIs(block: seq<bv8>, k: nat)
    requires k < 8 * |block|
    ensures BlockBit(block, k) <==> Bit8(block[k / 8], k % 8)
  {
    if k >= 8 {
      BlockBitIs(block[1..], k - 8);
    }
  }

  lemma NextShift(c: bv5)
    requires c < 31
    ensures ((1 as bv32) << c) << 1 == (1 as bv32) << (c + 1)
  {
  }

  lemma NextShift8(c: bv3)
    requires c < 7
    ensures ((1 as bv8) << c) << 1 == (1 as bv8) << (c + 1)
  {
  }

  /** Bit numbers up to 31 do not overflow. */
  lemma {:induction false} Index5Is(n: nat)
    requires n < 32
    ensures Index5(n) as nat == n
  {
    if n > 0 {
      Index5Is(n - 1);
      Plus5(Index5(n - 1));
    }
  }

  lemma Plus5(c: bv5)
    requires c as nat < 31
    ensures (c + 1) as nat == c as nat + 1
  {
  }

  lemma {:induction false} MaskIs(n: nat)
    requires n < 32
    ensures Mask(n) == (1 as bv32) << Index5(n)
  {
    if n > 0 {
      MaskIs(n - 1);
      Index5Is(n - 1);
      NextShift(Index5(n - 1));
    }
  }

  lemma Plus3(c: bv3)
    requires c as nat < 7
    ensures (c + 1) as nat == c as nat + 1
  {
  }

  lemma {:induction false} Index3Is(n: nat)
    requires n < 8
    ensures Index3(n) as nat == n
  {
    if n > 0 {
      Index3Is(n - 1);
      Plus3(Index3(n - 1));
    }
  }

  lemma {:induction false} Mask8Is(n: nat)
    requires n < 8
    ensures Mask8(n) == (1 as bv8) << Index3(n)
  {
    if n > 0 {
      Mask8Is(n - 1);
      Index3Is(n - 1);
      NextShift8(Index3(n - 1));
    }
  }

  lemma {:induction false} Index5Adds(n: nat, k: nat)
    requires n + k < 32
    ensures Index5(n + k) == Index5(n) + Index5(k)
  {
    if k > 0 {
      Index5Adds(n, k - 1);
    }
  }

  lemma {:induction false} Index3Adds(n: nat, k: nat)
    requires n + k < 8
    ensures Index3(n + k) == Index3(n) + Index3(k)
  {
    if k > 0 {
      Index3Adds(n, k - 1);
    }
  }

  /** Counting from the other side. */
  lemma FromRight(n: nat)
    requires n < 32
    ensures 31 - Index5(n) == Index5(31 - n)
  {
    Index5Adds(n, 31 - n);
    Index5Is(31);
  }

  lemma FromRight8(n: nat)
    requires n < 8
    ensures 7 - Index3(n) == Index3(7 - n)
  {
    Index3Adds(n, 7 - n);
    Index3Is(7);
  }

  lemma OneBit32(c: bv5, d: bv5)
    ensures At((1 as bv32) << c, (1 as bv32) << d) <==> c == d
  {
  }

  lemma OneBit8(c: bv3, d: bv3)
    ensures At8((1 as bv8) << c, (1 as bv8) << d) <==> c == d
  {
  }

  lemma OneBitLow(d: bv5)
    requires d < 31
    ensures ((1 as bv32) << d) & 0x8000_0000 == 0
  {
  }

  lemma OneBitLow8(d: bv3)
    requires d < 7
    ensures ((1 as bv8) << d) & 0x80 == 0
  {
  }

  lemma ShiftBoth(x: bv32, m: bv32)
    requires m & 0x8000_0000 == 0
    ensures At(x << 1, m << 1) <==> At(x, m)
  {
  }

  lemma ShiftBoth8(x: bv8, m: bv8)
    requires m & 0x80 == 0
    ensures At8(x << 1, m << 1) <==> At8(x, m)
  {
  }

  lemma TopMask()
    ensures Mask(31) == 0x8000_0000 && Mask8(7) == 0x80
  {
    MaskIs(31);
    Index5Is(31);
    Mask8Is(7);
    Index3Is(7);
  }

  lemma {:induction false} Bit32Is(x: bv32, i: nat)
    requires i < 32
    ensures Bit32(x, i) <==> At(x, Mask(31 - i))
    decreases i
  {
    if i == 0 {
      TopMask();
    } else {
      Bit32Is(x << 1, i - 1);
      MaskIs(31 - i);
      Index5Is(31 - i);
      OneBitLow(Index5(31 - i));
      ShiftBoth(x, Mask(31 - i));
    }
  }

  lemma {:induction false} Bit8Is(x: bv8, i: nat)
    requires i < 8
    ensures Bit8(x, i) <==> At8(x, Mask8(7 - i))
    decreases i
  {
    if i == 0 {
      TopMask();
    } else {
      Bit8Is(x << 1, i - 1);
      Mask8Is(7 - i);
      Index3Is(7 - i);
      OneBitLow8(Index3(7 - i));
      ShiftBoth8(x, Mask8(7 - i));
    }
  }

  /** A mask has one bit. */
  lemma MaskBit(n: nat, i: nat)
    requires n < 32 && i < 32
    ensures Bit32(Mask(31 - n), i) <==> i == n
  {
    MaskIs(31 - n);
    MaskIs(31 - i);
    OneBit32(Index5(31 - n), Index5(31 - i));
    Index5Is(31 - n);
    Index5Is(31 - i);
    Bit32Is(Mask(31 - n), i);
  }

  lemma MaskBit8(n: nat, i: nat)
    requires n < 8 && i < 8
    ensures Bit8(Mask8(7 - n), i) <==> i == n
  {
    Mask8Is(7 - n);
    Mask8Is(7 - i);
    OneBit8(Index3(7 - n), Index3(7 - i));
    Index3Is(7 - n);
    Index3Is(7 - i);
    Bit8Is(Mask8(7 - n), i);
  }

  lemma Distributes(x: bv32, y: bv32, m: bv32)
    ensures (x | y) & m == (x & m) | (y & m)
  {
  }

  lemma OrIsZero(a: bv32, b: bv32)
    ensures a | b == 0 <==> a == 0 && b == 0
  {
  }

  lemma OrAt(x: bv32, y: bv32, m: bv32)
    ensures At(x | y, m) <==> At(x, m) || At(y, m)
  {
    Distributes(x, y, m);
    OrIsZero(x & m, y & m);
  }

  lemma OrAt8(x: bv8, y: bv8, m: bv8)
    ensures At8(x | y, m) <==> At8(x, m) || At8(y, m)
  {
  }

  lemma OrBit32(x: bv32, y: bv32, z: bv32, i: nat)
    requires i < 32 && z == x | y
    ensures Bit32(z, i) <==> Bit32(x, i) || Bit32(y, i)
  {
    Bit32Is(x, i);
    Bit32Is(y, i);
    Bit32Is(z, i);
    OrAt(x, y, Mask(31 - i));
  }

  lemma OrBit8(x: bv8, y: bv8, z: bv8, i: nat)
    requires i < 8 && z == x | y
    ensures Bit8(z, i) <==> Bit8(x, i) || Bit8(y, i)
  {
    Bit8Is(x, i);
    Bit8Is(y, i);
    Bit8Is(z, i);
    OrAt8(x, y, Mask8(7 - i));
  }

  lemma ZeroBit(i: nat)
    requires i < 32
    ensures !Bit32(0, i)
  {
    Bit32Is(0, i);
  }

  lemma ZeroBit8(i: nat)
    requires i < 8
    ensures !Bit8(0, i)
  {
    Bit8Is(0, i);
  }

  /** The macros move one bit. */
  lemma BitNumIs(a: bv8, b: bv3, c: bv5)
    ensures BitNum(a, b, c) == if At8(a, (1 as bv8) << (7 - b)) then (1 as bv32) << c else 0
  {
  }

  lemma BitNumIntRIs(a: bv32, b: bv5, c: bv3)
    ensures BitNumIntR(a, b, c) == if At(a, (1 as bv32) << (31 - b)) then (1 as bv8) << c else 0
  {
  }

  lemma BitNumMask(a: bv8, b: nat, n: nat)
    requires b < 8 && n < 32
    ensures BitNum(a, Index3(b), Index5(n)) == if Bit8(a, b) then Mask(n) else 0
  {
    BitNumIs(a, Index3(b), Index5(n));
    FromRight8(b);
    Mask8Is(7 - b);
    MaskIs(n);
    Bit8Is(a, b);
  }

  lemma BitNumIntRMask(a: bv32, b: nat, n: nat)
    requires b < 32 && n < 8
    ensures BitNumIntR(a, Index5(b), Index3(n)) == if Bit32(a, b) then Mask8(n) else 0
  {
    BitNumIntRIs(a, Index5(b), Index3(n));
    FromRight(b);
    MaskIs(31 - b);
    Mask8Is(n);
    Bit32Is(a, b);
  }

  lemma BitNumBit(a: bv8, b: nat, n: nat, i: nat)
    requires b < 8 && n < 32 && i < 32
    ensures Bit32(BitNum(a, Index3(b), Index5(31 - n)), i) <==> i == n && Bit8(a, b)
  {
    BitNumMask(a, b, 31 - n);
    MaskBit(n, i);
    ZeroBit(i);
  }

  lemma BitNumIntRBit(a: bv32, b: nat, n: nat, i: nat)
    requires b < 32 && n < 8 && i < 8
    ensures Bit8(BitNumIntR(a, Index5(b), Index3(7 - n)), i) <==> i == n && Bit32(a, b)
  {
    BitNumIntRMask(a, b, 7 - n);
    MaskBit8(n, i);
    ZeroBit8(i);
  }

  /** Bytes with the same bits are the same. */
  lemma SameBits(a: bv8, b: bv8)
    requires forall i | 0 <= i < 8 :: Bit8(a, i) <==> Bit8(b, i)
    ensures a == b
  {
    forall i | 0 <= i < 8 ensures At8(a, Mask8(i)) <==> At8(b, Mask8(i)) {
      Bit8Is(a, 7 - i);
      Bit8Is(b, 7 - i);
    }
    SameMasks(a, b);
  }

  lemma SameMasks(a: bv8, b: bv8)
    requires forall i | 0 <= i < 8 :: At8(a, Mask8(i)) <==> At8(b, Mask8(i))
    ensures a == b
  {
    assert Mask8(1) == 2 && Mask8(3) == 8 && Mask8(5) == 32;
    assert Mask8(0) == 1 && Mask8(2) == 4 && Mask8(4) == 16 && Mask8(6) == 64 && Mask8(7) == 128;
    AllBits(a, b);
  }

  lemma AllBits(a: bv8, b: bv8)
    requires At8(a, 1) <==> At8(b, 1)
    requires At8(a, 2) <==> At8(b, 2)
    requires At8(a, 4) <==> At8(b, 4)
    requires At8(a, 8) <==> At8(b, 8)
    requires At8(a, 16) <==> At8(b, 16)
    requires At8(a, 32) <==> At8(b, 32)
    requires At8(a, 64) <==> At8(b, 64)
    requires At8(a, 128) <==> At8(b, 128)
    ensures a == b
  {
  }

  /** Byte strings with the same bits are the same. */
  lemma SameBytes(a: seq<bv8>, b: seq<bv8>)
    requires |a| == |b| && forall k | 0 <= k < 8 * |a| :: BlockBit(a, k) <==> BlockBit(b, k)
    ensures a == b
  {
    forall n | 0 <= n < |a| ensures a[n] == b[n] {
      forall i | 0 <= i < 8 ensures Bit8(a[n], i) <==> Bit8(b[n], i) {
        BlockBitIs(a, 8 * n + i);
        BlockBitIs(b, 8 * n + i);
        assert (8 * n + i) / 8 == n && (8 * n + i) % 8 == i;
      }
      SameBits(a[n], b[n]);
    }
  }
}
