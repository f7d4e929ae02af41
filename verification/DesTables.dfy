/** The tables of the round function of DES in Application/des.c: the expansion E and the permutation P of
    FIPS 46-3 bit by bit, and the S-boxes. */
module DesTables {
  import opened Des

  /** Bit i of a word, by bit-vector index. */
  function Nth(x: bv32, i: bv5): bv32 {
    (x >> (31 - i)) & 1
  }

  function Nth8(x: bv8, i: bv3): bv8 {
    (x >> (7 - i)) & 1
  }

  /** The bit selection table E of FIPS 46-3: group g of six bits takes bits 4g - 1, ..., 4g + 4. */
  function E(b: nat, i: bv3): bv5
    requires b < 6
  {
    var n := 8 * (b as bv8) + (i as bv8);
    ((4 * (n / 6) + n % 6 + 31) & 31) as bv5
  }

  /** Bit i of byte b of the expansion. */
  lemma ExpandBit(x: bv32, b: nat, i: bv3)
    requires b < 6
    ensures Nth8(Expand(x)[b], i) as bv32 == Nth(x, E(b, i))
  {
    if b == 0 {
      ExpandByte0(x, i);
    } else if b == 1 {
      ExpandByte1(x, i);
    } else if b == 2 {
      ExpandByte2(x, i);
    } else if b == 3 {
      ExpandByte3(x, i);
    } else if b == 4 {
      ExpandByte4(x, i);
    } else {
      ExpandByte5(x, i);
    }
  }

  lemma ExpandByte0(x: bv32, i: bv3)
    ensures Nth8(Expand(x)[0], i) as bv32 == Nth(x, E(0, i))
  {
    if i == 0 {} else if i == 1 {} else if i == 2 {} else if i == 3 {} else if i == 4 {} else if i == 5 {}
      else if i == 6 {} else {}
  }

  lemma ExpandByte1(x: bv32, i: bv3)
    ensures Nth8(Expand(x)[1], i) as bv32 == Nth(x, E(1, i))
  {
    if i == 0 {} else if i == 1 {} else if i == 2 {} else if i == 3 {} else if i == 4 {} else if i == 5 {}
      else if i == 6 {} else {}
  }

  lemma ExpandByte2(x: bv32, i: bv3)
    ensures Nth8(Expand(x)[2], i) as bv32 == Nth(x, E(2, i))
  {
    if i == 0 {} else if i == 1 {} else if i == 2 {} else if i == 3 {} else if i == 4 {} else if i == 5 {}
      else if i == 6 {} else {}
  }

  lemma ExpandByte3(x: bv32, i: bv3)
    ensures Nth8(Expand(x)[3], i) as bv32 == Nth(x, E(3, i))
  {
    if i == 0 {} else if i == 1 {} else if i == 2 {} else if i == 3 {} else if i == 4 {} else if i == 5 {}
      else if i == 6 {} else {}
  }

  lemma ExpandByte4(x: bv32, i: bv3)
    ensures Nth8(Expand(x)[4], i) as bv32 == Nth(x, E(4, i))
  {
    if i == 0 {} else if i == 1 {} else if i == 2 {} else if i == 3 {} else if i == 4 {} else if i == 5 {}
      else if i == 6 {} else {}
  }

  lemma ExpandByte5(x: bv32, i: bv3)
    ensures Nth8(Expand(x)[5], i) as bv32 == Nth(x, E(5, i))
  {
    if i == 0 {} else if i == 1 {} else if i == 2 {} else if i == 3 {} else if i == 4 {} else if i == 5 {}
      else if i == 6 {} else {}
  }

  /** The permutation P of FIPS 46-3, with bits counted from 0. */
  function P(i: bv5): bv5 {
    if i == 0 then 15 else if i == 1 then 6 else if i == 2 then 19 else if i == 3 then 20
    else if i == 4 then 28 else if i == 5 then 11 else if i == 6 then 27 else if i == 7 then 16
    else if i == 8 then 0 else if i == 9 then 14 else if i == 10 then 22 else if i == 11 then 25
    else if i == 12 then 4 else if i == 13 then 17 else if i == 14 then 30 else if i == 15 then 9
    else if i == 16 then 1 else if i == 17 then 7 else if i == 18 then 23 else if i == 19 then 13
    else if i == 20 then 31 else if i == 21 then 26 else if i == 22 then 2 else if i == 23 then 8
    else if i == 24 then 18 else if i == 25 then 12 else if i == 26 then 29 else if i == 27 then 5
    else if i == 28 then 21 else if i == 29 then 10 else if i == 30 then 3 else 24
  }

  lemma PermuteBit(x: bv32, i: bv5)
    ensures Nth(Permute(x), i) == Nth(x, P(i))
  {
    if i < 4 {
      PermuteBits0(x, i);
    } else if i < 8 {
      PermuteBits4(x, i);
    } else if i < 12 {
      PermuteBits8(x, i);
    } else if i < 16 {
      PermuteBits12(x, i);
    } else if i < 20 {
      PermuteBits16(x, i);
    } else if i < 24 {
      PermuteBits20(x, i);
    } else if i < 28 {
      PermuteBits24(x, i);
    } else {
      PermuteBits28(x, i);
    }
  }

  lemma PermuteBits0(x: bv32, i: bv5)
    requires i < 4
    ensures Nth(Permute(x), i) == Nth(x, P(i))
  {
    if i == 0 {} else if i == 1 {} else if i == 2 {} else {}
  }

  lemma PermuteBits4(x: bv32, i: bv5)
    requires 4 <= i < 8
    ensures Nth(Permute(x), i) == Nth(x, P(i))
  {
    if i == 4 {} else if i == 5 {} else if i == 6 {} else {}
  }

  lemma PermuteBits8(x: bv32, i: bv5)
    requires 8 <= i < 12
    ensures Nth(Permute(x), i) == Nth(x, P(i))
  {
    if i == 8 {} else if i == 9 {} else if i == 10 {} else {}
  }

  lemma PermuteBits12(x: bv32, i: bv5)
    requires 12 <= i < 16
    ensures Nth(Permute(x), i) == Nth(x, P(i))
  {
    if i == 12 {} else if i == 13 {} else if i == 14 {} else {}
  }

  lemma PermuteBits16(x: bv32, i: bv5)
    requires 16 <= i < 20
    ensures Nth(Permute(x), i) == Nth(x, P(i))
  {
    if i == 16 {} else if i == 17 {} else if i == 18 {} else {}
  }

  lemma PermuteBits20(x: bv32, i: bv5)
    requires 20 <= i < 24
    ensures Nth(Permute(x), i) == Nth(x, P(i))
  {
    if i == 20 {} else if i == 21 {} else if i == 22 {} else {}
  }

  lemma PermuteBits24(x: bv32, i: bv5)
    requires 24 <= i < 28
    ensures Nth(Permute(x), i) == Nth(x, P(i))
  {
    if i == 24 {} else if i == 25 {} else if i == 26 {} else {}
  }

  lemma PermuteBits28(x: bv32, i: bv5)
    requires 28 <= i
    ensures Nth(Permute(x), i) == Nth(x, P(i))
  {
    if i == 28 {} else if i == 29 {} else if i == 30 {} else {}
  }

  /** The row and the column of an S-box: the outer two and the inner four of six bits. */
  lemma SboxBitIs(a: bv8)
    requires a < 64
    ensures SboxBit(a) == 16 * (((a >> 5) & 1) * 2 + (a & 1)) as nat + ((a >> 1) & 15) as nat
  {
  }

  /** A permutation of 0, ..., 15: sixteen entries, and none of these values is missing. */
  ghost predicate Permutation(row: seq<bv32>) {
    |row| == 16 && forall v: bv32 :: v < 16 ==> v in row
  }

  /** A table of four such rows. */
  ghost predicate RowsPermute(box: seq<bv32>) {
    && |box| == 64
    && Permutation(box[..16]) && Permutation(box[16..32]) && Permutation(box[32..48]) && Permutation(box[48..])
  }

  lemma FourRows(box: seq<bv32>, a: seq<bv32>, b: seq<bv32>, c: seq<bv32>, d: seq<bv32>)
    requires box == a + b + c + d && Permutation(a) && Permutation(b) && Permutation(c) && Permutation(d)
    ensures RowsPermute(box)
  {
    assert box[..16] == a && box[16..32] == b && box[32..48] == c && box[48..] == d;
  }

  /** Every row of every S-box is a permutation. */
  lemma SboxRows()
    ensures RowsPermute(SBOX1) && RowsPermute(SBOX2) && RowsPermute(SBOX3) && RowsPermute(SBOX4)
    ensures RowsPermute(SBOX5) && RowsPermute(SBOX6) && RowsPermute(SBOX7) && RowsPermute(SBOX8)
  {
    Rows1();
    Rows2();
    Rows3();
    Rows4();
    Rows5();
    Rows6();
    Rows7();
    Rows8();
  }

  lemma Rows1()
    ensures RowsPermute(SBOX1)
  {
    FourRows(SBOX1, [14, 4, 13, 1, 2, 15, 11, 8, 3, 10, 6, 12, 5, 9, 0, 7],
             [0, 15, 7, 4, 14, 2, 13, 1, 10, 6, 12, 11, 9, 5, 3, 8],
             [4, 1, 14, 8, 13, 6, 2, 11, 15, 12, 9, 7, 3, 10, 5, 0],
             [15, 12, 8, 2, 4, 9, 1, 7, 5, 11, 3, 14, 10, 0, 6, 13]);
  }

  lemma Rows2()
    ensures RowsPermute(SBOX2)
  {
    FourRows(SBOX2, [15, 1, 8, 14, 6, 11, 3, 4, 9, 7, 2, 13, 12, 0, 5, 10],
             [3, 13, 4, 7, 15, 2, 8, 14, 12, 0, 1, 10, 6, 9, 11, 5],
             [0, 14, 7, 11, 10, 4, 13, 1, 5, 8, 12, 6, 9, 3, 2, 15],
             [13, 8, 10, 1, 3, 15, 4, 2, 11, 6, 7, 12, 0, 5, 14, 9]);
  }

  lemma Rows3()
    ensures RowsPermute(SBOX3)
  {
    FourRows(SBOX3, [10, 0, 9, 14, 6, 3, 15, 5, 1, 13, 12, 7, 11, 4, 2, 8],
             [13, 7, 0, 9, 3, 4, 6, 10, 2, 8, 5, 14, 12, 11, 15, 1],
             [13, 6, 4, 9, 8, 15, 3, 0, 11, 1, 2, 12, 5, 10, 14, 7],
             [1, 10, 13, 0, 6, 9, 8, 7, 4, 15, 14, 3, 11, 5, 2, 12]);
  }

  lemma Rows4()
    ensures RowsPermute(SBOX4)
  {
    FourRows(SBOX4, [7, 13, 14, 3, 0, 6, 9, 10, 1, 2, 8, 5, 11, 12, 4, 15],
             [13, 8, 11, 5, 6, 15, 0, 3, 4, 7, 2, 12, 1, 10, 14, 9],
             [10, 6, 9, 0, 12, 11, 7, 13, 15, 1, 3, 14, 5, 2, 8, 4],
             [3, 15, 0, 6, 10, 1, 13, 8, 9, 4, 5, 11, 12, 7, 2, 14]);
  }

  lemma Rows5()
    ensures RowsPermute(SBOX5)
  {
    FourRows(SBOX5, [2, 12, 4, 1, 7, 10, 11, 6, 8, 5, 3, 15, 13, 0, 14, 9],
             [14, 11, 2, 12, 4, 7, 13, 1, 5, 0, 15, 10, 3, 9, 8, 6],
             [4, 2, 1, 11, 10, 13, 7, 8, 15, 9, 12, 5, 6, 3, 0, 14],
             [11, 8, 12, 7, 1, 14, 2, 13, 6, 15, 0, 9, 10, 4, 5, 3]);
  }

  lemma Rows6()
    ensures RowsPermute(SBOX6)
  {
    FourRows(SBOX6, [12, 1, 10, 15, 9, 2, 6, 8, 0, 13, 3, 4, 14, 7, 5, 11],
             [10, 15, 4, 2, 7, 12, 9, 5, 6, 1, 13, 14, 0, 11, 3, 8],
             [9, 14, 15, 5, 2, 8, 12, 3, 7, 0, 4, 10, 1, 13, 11, 6],
             [4, 3, 2, 12, 9, 5, 15, 10, 11, 14, 1, 7, 6, 0, 8, 13]);
  }

  lemma Rows7()
    ensures RowsPermute(SBOX7)
  {
    FourRows(SBOX7, [4, 11, 2, 14, 15, 0, 8, 13, 3, 12, 9, 7, 5, 10, 6, 1],
             [13, 0, 11, 7, 4, 9, 1, 10, 14, 3, 5, 12, 2, 15, 8, 6],
             [1, 4, 11, 13, 12, 3, 7, 14, 10, 15, 6, 8, 0, 5, 9, 2],
             [6, 11, 13, 8, 1, 4, 10, 7, 9, 5, 0, 15, 14, 2, 3, 12]);
  }

  lemma Rows8()
    ensures RowsPermute(SBOX8)
  {
    FourRows(SBOX8, [13, 2, 8, 4, 6, 15, 11, 1, 10, 9, 3, 14, 5, 0, 12, 7],
             [1, 15, 13, 8, 10, 3, 7, 4, 12, 5, 6, 11, 0, 14, 9, 2],
             [7, 11, 4, 1, 9, 12, 14, 2, 0, 6, 10, 13, 15, 3, 5, 8],
             [2, 1, 14, 7, 4, 10, 8, 13, 15, 12, 9, 0, 3, 5, 6, 11]);
  }
}
