/** DES and triple DES of Application/des.c, as specified in FIPS 46-3: bytes are bv8, words are
    bv32, and the bit macros are the functions of the same names. */
module Des {

  // ----- Bit macros ------------------------------------------------------------------------------

  /** BITNUM: bit b of byte a, counted from the left, moved c places from the right. */
  function BitNum(a: bv8, b: bv3, c: bv5): bv32 {
    (((a >> (7 - b)) & 1) as bv32) << c
  }

  function BitNumIntR(a: bv32, b: bv5, c: bv3): bv8 {
    (((a >> (31 - b)) & 1) as bv8) << c
  }

  function BitNumIntL(a: bv32, b: bv5, c: bv5): bv32 {
    ((a << b) & 0x8000_0000) >> c
  }

  /** A bit number as a bit vector. */
  function Index5(n: nat): bv5
    requires n < 32
  {
    if n == 0 then 0 else Index5(n - 1) + 1
  }

  function Index3(n: nat): bv3
    requires n < 8
  {
    if n == 0 then 0 else Index3(n - 1) + 1
  }

  /** SBOXBIT: the row of an S-box comes from the outer two of six bits. */
  function SboxBit(a: bv8): (i: nat)
    requires a < 64
    ensures i < 64
  {
    var row := (a & 0x20) | ((a & 0x1f) >> 1) | ((a & 0x01) << 4);
    assert row < 64;
    (row as bv6) as int
  }

  // ----- Tables ----------------------------------------------------------------------------------

  const SBOX1: seq<bv32> :=
    [14, 4, 13, 1, 2, 15, 11, 8, 3, 10, 6, 12, 5, 9, 0, 7]
    + [0, 15, 7, 4, 14, 2, 13, 1, 10, 6, 12, 11, 9, 5, 3, 8]
    + [4, 1, 14, 8, 13, 6, 2, 11, 15, 12, 9, 7, 3, 10, 5, 0]
    + [15, 12, 8, 2, 4, 9, 1, 7, 5, 11, 3, 14, 10, 0, 6, 13]
  const SBOX2: seq<bv32> :=
    [15, 1, 8, 14, 6, 11, 3, 4, 9, 7, 2, 13, 12, 0, 5, 10]
    + [3, 13, 4, 7, 15, 2, 8, 14, 12, 0, 1, 10, 6, 9, 11, 5]
    + [0, 14, 7, 11, 10, 4, 13, 1, 5, 8, 12, 6, 9, 3, 2, 15]
    + [13, 8, 10, 1, 3, 15, 4, 2, 11, 6, 7, 12, 0, 5, 14, 9]
  const SBOX3: seq<bv32> :=
    [10, 0, 9, 14, 6, 3, 15, 5, 1, 13, 12, 7, 11, 4, 2, 8]
    + [13, 7, 0, 9, 3, 4, 6, 10, 2, 8, 5, 14, 12, 11, 15, 1]
    + [13, 6, 4, 9, 8, 15, 3, 0, 11, 1, 2, 12, 5, 10, 14, 7]
    + [1, 10, 13, 0, 6, 9, 8, 7, 4, 15, 14, 3, 11, 5, 2, 12]
  const SBOX4: seq<bv32> :=
    [7, 13, 14, 3, 0, 6, 9, 10, 1, 2, 8, 5, 11, 12, 4, 15]
    + [13, 8, 11, 5, 6, 15, 0, 3, 4, 7, 2, 12, 1, 10, 14, 9]
    + [10, 6, 9, 0, 12, 11, 7, 13, 15, 1, 3, 14, 5, 2, 8, 4]
    + [3, 15, 0, 6, 10, 1, 13, 8, 9, 4, 5, 11, 12, 7, 2, 14]
  const SBOX5: seq<bv32> :=
    [2, 12, 4, 1, 7, 10, 11, 6, 8, 5, 3, 15, 13, 0, 14, 9]
    + [14, 11, 2, 12, 4, 7, 13, 1, 5, 0, 15, 10, 3, 9, 8, 6]
    + [4, 2, 1, 11, 10, 13, 7, 8, 15, 9, 12, 5, 6, 3, 0, 14]
    + [11, 8, 12, 7, 1, 14, 2, 13, 6, 15, 0, 9, 10, 4, 5, 3]
  const SBOX6: seq<bv32> :=
    [12, 1, 10, 15, 9, 2, 6, 8, 0, 13, 3, 4, 14, 7, 5, 11]
    + [10, 15, 4, 2, 7, 12, 9, 5, 6, 1, 13, 14, 0, 11, 3, 8]
    + [9, 14, 15, 5, 2, 8, 12, 3, 7, 0, 4, 10, 1, 13, 11, 6]
    + [4, 3, 2, 12, 9, 5, 15, 10, 11, 14, 1, 7, 6, 0, 8, 13]
  const SBOX7: seq<bv32> :=
    [4, 11, 2, 14, 15, 0, 8, 13, 3, 12, 9, 7, 5, 10, 6, 1]
    + [13, 0, 11, 7, 4, 9, 1, 10, 14, 3, 5, 12, 2, 15, 8, 6]
    + [1, 4, 11, 13, 12, 3, 7, 14, 10, 15, 6, 8, 0, 5, 9, 2]
    + [6, 11, 13, 8, 1, 4, 10, 7, 9, 5, 0, 15, 14, 2, 3, 12]
  const SBOX8: seq<bv32> :=
    [13, 2, 8, 4, 6, 15, 11, 1, 10, 9, 3, 14, 5, 0, 12, 7]
    + [1, 15, 13, 8, 10, 3, 7, 4, 12, 5, 6, 11, 0, 14, 9, 2]
    + [7, 11, 4, 1, 9, 12, 14, 2, 0, 6, 10, 13, 15, 3, 5, 8]
    + [2, 1, 14, 7, 4, 10, 8, 13, 15, 12, 9, 0, 3, 5, 6, 11]

  const KEY_ROUND_SHIFT: seq<bv5> := [1, 1, 2, 2, 2, 2, 2, 2, 1, 2, 2, 2, 2, 2, 2, 1]

  type KeyBit = n: nat | n < 64

  const KEY_PERM_C: seq<KeyBit> := [
    56, 48, 40, 32, 24, 16, 8, 0, 57, 49, 41, 33, 25, 17,
    9, 1, 58, 50, 42, 34, 26, 18, 10, 2, 59, 51, 43, 35
  ]

  const KEY_PERM_D: seq<KeyBit> := [
    62, 54, 46, 38, 30, 22, 14, 6, 61, 53, 45, 37, 29, 21,
    13, 5, 60, 52, 44, 36, 28, 20, 12, 4, 27, 19, 11, 3
  ]

  type PositionC = n: nat | n < 28

  type PositionD = n: nat | 28 <= n < 56 witness 28

  /** key_compression: the positions taken from the left half, then those from the right half. */
  const KEY_COMPRESSION_C: seq<PositionC> := [
    13, 16, 10, 23, 0, 4, 2, 27, 14, 5, 20, 9,
    22, 18, 11, 3, 25, 7, 15, 6, 26, 19, 12, 1
  ]

  const KEY_COMPRESSION_D: seq<PositionD> := [
    40, 51, 30, 36, 46, 54, 29, 39, 50, 44, 32, 47,
    43, 48, 38, 55, 33, 52, 45, 41, 49, 35, 28, 31
  ]

  // ----- Initial permutation and its inverse -----------------------------------------------------

  datatype State = State(left: bv32, right: bv32)

  type Block = b: seq<bv8> | |b| == 8 witness [0, 0, 0, 0, 0, 0, 0, 0]

  function IpLeft(block: Block): bv32 {
    BitNum(block[7], 1, 31) | BitNum(block[6], 1, 30) | BitNum(block[5], 1, 29) | BitNum(block[4], 1, 28)
    | BitNum(block[3], 1, 27) | BitNum(block[2], 1, 26) | BitNum(block[1], 1, 25) | BitNum(block[0], 1, 24)
    | BitNum(block[7], 3, 23) | BitNum(block[6], 3, 22) | BitNum(block[5], 3, 21) | BitNum(block[4], 3, 20)
    | BitNum(block[3], 3, 19) | BitNum(block[2], 3, 18) | BitNum(block[1], 3, 17) | BitNum(block[0], 3, 16)
    | BitNum(block[7], 5, 15) | BitNum(block[6], 5, 14) | BitNum(block[5], 5, 13) | BitNum(block[4], 5, 12)
    | BitNum(block[3], 5, 11) | BitNum(block[2], 5, 10) | BitNum(block[1], 5, 9) | BitNum(block[0], 5, 8)
    | BitNum(block[7], 7, 7) | BitNum(block[6], 7, 6) | BitNum(block[5], 7, 5) | BitNum(block[4], 7, 4)
    | BitNum(block[3], 7, 3) | BitNum(block[2], 7, 2) | BitNum(block[1], 7, 1) | BitNum(block[0], 7, 0)
  }

  function IpRight(block: Block): bv32 {
    BitNum(block[7], 0, 31) | BitNum(block[6], 0, 30) | BitNum(block[5], 0, 29) | BitNum(block[4], 0, 28)
    | BitNum(block[3], 0, 27) | BitNum(block[2], 0, 26) | BitNum(block[1], 0, 25) | BitNum(block[0], 0, 24)
    | BitNum(block[7], 2, 23) | BitNum(block[6], 2, 22) | BitNum(block[5], 2, 21) | BitNum(block[4], 2, 20)
    | BitNum(block[3], 2, 19) | BitNum(block[2], 2, 18) | BitNum(block[1], 2, 17) | BitNum(block[0], 2, 16)
    | BitNum(block[7], 4, 15) | BitNum(block[6], 4, 14) | BitNum(block[5], 4, 13) | BitNum(block[4], 4, 12)
    | BitNum(block[3], 4, 11) | BitNum(block[2], 4, 10) | BitNum(block[1], 4, 9) | BitNum(block[0], 4, 8)
    | BitNum(block[7], 6, 7) | BitNum(block[6], 6, 6) | BitNum(block[5], 6, 5) | BitNum(block[4], 6, 4)
    | BitNum(block[3], 6, 3) | BitNum(block[2], 6, 2) | BitNum(block[1], 6, 1) | BitNum(block[0], 6, 0)
  }

  /** IP */
  function Ip(block: Block): State {
    State(IpLeft(block), IpRight(block))
  }

  /** One byte of InvIP: the bits at p, p + 8, p + 16, p + 24 of both halves, interleaved. */
  function InvIpByte(s: State, p: bv5): bv8 {
    BitNumIntR(s.right, p, 7) | BitNumIntR(s.left, p, 6) | BitNumIntR(s.right, p + 8, 5)
    | BitNumIntR(s.left, p + 8, 4) | BitNumIntR(s.right, p + 16, 3) | BitNumIntR(s.left, p + 16, 2)
    | BitNumIntR(s.right, p + 24, 1) | BitNumIntR(s.left, p + 24, 0)
  }

  /** InvIP */
  function InvIp(s: State): Block {
    [InvIpByte(s, 7), InvIpByte(s, 6), InvIpByte(s, 5), InvIpByte(s, 4),
     InvIpByte(s, 3), InvIpByte(s, 2), InvIpByte(s, 1), InvIpByte(s, 0)]
  }

  lemma InvIpIpLow(block: Block)
    ensures InvIpByte(Ip(block), 7) == block[0] && InvIpByte(Ip(block), 6) == block[1]
    ensures InvIpByte(Ip(block), 5) == block[2] && InvIpByte(Ip(block), 4) == block[3]
  {
  }

  lemma InvIpIpHigh(block: Block)
    ensures InvIpByte(Ip(block), 3) == block[4] && InvIpByte(Ip(block), 2) == block[5]
    ensures InvIpByte(Ip(block), 1) == block[6] && InvIpByte(Ip(block), 0) == block[7]
  {
  }

  /** InvIP undoes IP. */
  lemma InvIpIp(block: Block)
    ensures InvIp(Ip(block)) == block
  {
    InvIpIpLow(block);
    InvIpIpHigh(block);
  }

  /** IP undoes InvIP. */
  lemma IpInvIp(s: State)
    ensures Ip(InvIp(s)) == s
  {
    var block := InvIp(s);
    assert IpLeft(block) == s.left;
    assert IpRight(block) == s.right;
  }

  // ----- The round function ----------------------------------------------------------------------

  type RoundKey = k: seq<bv8> | |k| == 6 witness [0, 0, 0, 0, 0, 0]

  /** The expansion permutation: 32 bits become six bytes. */
  function Expand(x: bv32): RoundKey {
    var t1 := BitNumIntL(x, 31, 0) | ((x & 0xf000_0000) >> 1) | BitNumIntL(x, 4, 5)
              | BitNumIntL(x, 3, 6) | ((x & 0x0f00_0000) >> 3) | BitNumIntL(x, 8, 11)
              | BitNumIntL(x, 7, 12) | ((x & 0x00f0_0000) >> 5) | BitNumIntL(x, 12, 17)
              | BitNumIntL(x, 11, 18) | ((x & 0x000f_0000) >> 7) | BitNumIntL(x, 16, 23);
    var t2 := BitNumIntL(x, 15, 0) | ((x & 0x0000_f000) << 15) | BitNumIntL(x, 20, 5)
              | BitNumIntL(x, 19, 6) | ((x & 0x0000_0f00) << 13) | BitNumIntL(x, 24, 11)
              | BitNumIntL(x, 23, 12) | ((x & 0x0000_00f0) << 11) | BitNumIntL(x, 28, 17)
              | BitNumIntL(x, 27, 18) | ((x & 0x0000_000f) << 9) | BitNumIntL(x, 0, 23);
    [((t1 >> 24) & 0xff) as bv8, ((t1 >> 16) & 0xff) as bv8, ((t1 >> 8) & 0xff) as bv8,
     ((t2 >> 24) & 0xff) as bv8, ((t2 >> 16) & 0xff) as bv8, ((t2 >> 8) & 0xff) as bv8]
  }

  function Substitute(s: RoundKey): bv32 {
    (SBOX1[SboxBit(s[0] >> 2)] << 28)
    | (SBOX2[SboxBit(((s[0] & 0x03) << 4) | (s[1] >> 4))] << 24)
    | (SBOX3[SboxBit(((s[1] & 0x0f) << 2) | (s[2] >> 6))] << 20)
    | (SBOX4[SboxBit(s[2] & 0x3f)] << 16)
    | (SBOX5[SboxBit(s[3] >> 2)] << 12)
    | (SBOX6[SboxBit(((s[3] & 0x03) << 4) | (s[4] >> 4))] << 8)
    | (SBOX7[SboxBit(((s[4] & 0x0f) << 2) | (s[5] >> 6))] << 4)
    | SBOX8[SboxBit(s[5] & 0x3f)]
  }

  function Permute(x: bv32): bv32 {
    BitNumIntL(x, 15, 0) | BitNumIntL(x, 6, 1) | BitNumIntL(x, 19, 2) | BitNumIntL(x, 20, 3)
    | BitNumIntL(x, 28, 4) | BitNumIntL(x, 11, 5) | BitNumIntL(x, 27, 6) | BitNumIntL(x, 16, 7)
    | BitNumIntL(x, 0, 8) | BitNumIntL(x, 14, 9) | BitNumIntL(x, 22, 10) | BitNumIntL(x, 25, 11)
    | BitNumIntL(x, 4, 12) | BitNumIntL(x, 17, 13) | BitNumIntL(x, 30, 14) | BitNumIntL(x, 9, 15)
    | BitNumIntL(x, 1, 16) | BitNumIntL(x, 7, 17) | BitNumIntL(x, 23, 18) | BitNumIntL(x, 13, 19)
    | BitNumIntL(x, 31, 20) | BitNumIntL(x, 26, 21) | BitNumIntL(x, 2, 22) | BitNumIntL(x, 8, 23)
    | BitNumIntL(x, 18, 24) | BitNumIntL(x, 12, 25) | BitNumIntL(x, 29, 26) | BitNumIntL(x, 5, 27)
    | BitNumIntL(x, 21, 28) | BitNumIntL(x, 10, 29) | BitNumIntL(x, 3, 30) | BitNumIntL(x, 24, 31)
  }

  function XorKey(s: RoundKey, key: RoundKey): RoundKey {
    [s[0] ^ key[0], s[1] ^ key[1], s[2] ^ key[2], s[3] ^ key[3], s[4] ^ key[4], s[5] ^ key[5]]
  }

  /** f */
  function F(x: bv32, key: RoundKey): bv32 {
    Permute(Substitute(XorKey(Expand(x), key)))
  }

  /** The expansion loses nothing, and the P-box is a permutation. */
  lemma ExpandInjective(x: bv32, y: bv32)
    requires Expand(x) == Expand(y)
    ensures x == y
  {
    var ex, ey := Expand(x), Expand(y);
    assert ex[0] == ey[0] && ex[1] == ey[1] && ex[2] == ey[2];
    assert ex[3] == ey[3] && ex[4] == ey[4] && ex[5] == ey[5];
  }

  lemma PermuteInjective(x: bv32, y: bv32)
    requires Permute(x) == Permute(y)
    ensures x == y
  {
  }

  // ----- The Feistel network ---------------------------------------------------------------------

  type RoundFunction = (bv32, RoundKey) -> bv32

  function Round(f: RoundFunction, s: State, key: RoundKey): State {
    State(s.right, f(s.right, key) ^ s.left)
  }

  function Swap(s: State): State {
    State(s.right, s.left)
  }

  function Rounds(f: RoundFunction, s: State, keys: seq<RoundKey>): State {
    if keys == [] then s else Round(f, Rounds(f, s, keys[..|keys| - 1]), keys[|keys| - 1])
  }

  const ZERO_KEY: RoundKey := [0, 0, 0, 0, 0, 0]

  type KeySchedule = ks: seq<RoundKey> | |ks| == 16 witness seq(16, _ => ZERO_KEY)

  /** des_crypt: sixteen rounds, the last of which does not switch sides. */
  function Crypt(block: Block, keys: KeySchedule): Block {
    InvIp(Swap(Rounds(F, Ip(block), keys)))
  }

  ghost function Reverse(keys: seq<RoundKey>): (r: seq<RoundKey>)
    ensures |r| == |keys| && forall i | 0 <= i < |r| :: r[i] == keys[|keys| - 1 - i]
  {
    seq(|keys|, i requires 0 <= i < |keys| => keys[|keys| - 1 - i])
  }

  lemma {:induction false} RoundsFirst(f: RoundFunction, s: State, key: RoundKey, keys: seq<RoundKey>)
    ensures Rounds(f, s, [key] + keys) == Rounds(f, Round(f, s, key), keys)
  {
    if keys == [] {
      assert [key] + keys == [key];
      assert [key][..0] == [];
    } else {
      var all := [key] + keys;
      assert all[..|all| - 1] == [key] + keys[..|keys| - 1];
      RoundsFirst(f, s, key, keys[..|keys| - 1]);
    }
  }

  /** A round is undone by the same round with the sides switched, whatever F computes. */
  lemma RoundUndone(f: RoundFunction, s: State, key: RoundKey)
    ensures Round(f, Swap(Round(f, s, key)), key) == Swap(s)
  {
    XorTwice(f(s.right, key), s.left);
  }

  lemma XorTwice(x: bv32, y: bv32)
    ensures x ^ (x ^ y) == y
  {
  }

  /** Rounds with the keys in reverse order undo rounds. */
  lemma {:induction false} RoundsUndone(f: RoundFunction, s: State, keys: seq<RoundKey>)
    ensures Rounds(f, Swap(Rounds(f, s, keys)), Reverse(keys)) == Swap(s)
  {
    if keys != [] {
      var front, last := keys[..|keys| - 1], keys[|keys| - 1];
      var mid := Rounds(f, s, front);
      assert Reverse(keys) == [last] + Reverse(front);
      RoundsFirst(f, Swap(Round(f, mid, last)), last, Reverse(front));
      RoundUndone(f, mid, last);
      RoundsUndone(f, s, front);
    }
  }

  /** The cipher with the reversed schedule undoes the cipher. */
  lemma CryptUndone(block: Block, keys: KeySchedule)
    ensures |Reverse(keys)| == 16 && Crypt(Crypt(block, keys), Reverse(keys)) == block
  {
    var s := Ip(block);
    IpInvIp(Swap(Rounds(F, s, keys)));
    RoundsUndone(F, s, keys);
    InvIpIp(block);
  }

  // ----- Key schedule ----------------------------------------------------------------------------

  /** The bit that belongs i places from the left of a half key. */
  function SelectBit(key: Block, perm: seq<KeyBit>, i: nat): bv32
    requires i < |perm| == 28
  {
    BitNum(key[perm[i] / 8], Index3(perm[i] % 8), Index5(31 - i))
  }

  /** The first n bits of a half key, selected by the table. */
  function HalfKey(key: Block, perm: seq<KeyBit>, n: nat): bv32
    requires n <= |perm| == 28
  {
    if n == 0 then 0 else HalfKey(key, perm, n - 1) | SelectBit(key, perm, n - 1)
  }

  /** 28 bits, kept at the left of the word, rotated left. */
  function Rotate(c: bv32, shift: bv5): bv32 {
    ((c << shift) | (c >> (28 - shift))) & 0xffff_fff0
  }

  function HalfAfter(c: bv32, rounds: nat): bv32
    requires rounds <= 16
  {
    if rounds == 0 then c else Rotate(HalfAfter(c, rounds - 1), KEY_ROUND_SHIFT[rounds - 1])
  }

  /** Where bit j of a subkey stands in the right half. */
  function PlaceD(j: nat): nat
    requires 24 <= j < 48
    ensures PlaceD(j) < 28
  {
    var p: int := KEY_COMPRESSION_D[j - 24];
    p - 28
  }

  /** Bit j of the 48 bits selected from the halves c and d, in its place in its byte. */
  function CompressBit(c: bv32, d: bv32, j: nat): bv8
    requires j < 48
  {
    var place := Index3(7 - j % 8);
    if j < 24 then BitNumIntR(c, Index5(KEY_COMPRESSION_C[j]), place)
    else
      BitNumIntR(d, Index5(PlaceD(j)), place)
  }

  /** The first n bits of byte b of a subkey. */
  function CompressByte(c: bv32, d: bv32, b: nat, n: nat): bv8
    requires b < 6 && n <= 8
  {
    if n == 0 then 0 else CompressByte(c, d, b, n - 1) | CompressBit(c, d, 8 * b + n - 1)
  }

  /** The 48 bits selected from two rotated halves. */
  function Selected(c: bv32, d: bv32): RoundKey {
    seq(6, b requires 0 <= b < 6 => CompressByte(c, d, b, 8))
  }

  /** The halves of the key after i rotations. */
  function HalfC(key: Block, i: nat): bv32
    requires i <= 16
  {
    HalfAfter(HalfKey(key, KEY_PERM_C, 28), i)
  }

  function HalfD(key: Block, i: nat): bv32
    requires i <= 16
  {
    HalfAfter(HalfKey(key, KEY_PERM_D, 28), i)
  }

  function Subkey(key: Block, i: nat): RoundKey
    requires i < 16
  {
    Selected(HalfC(key, i + 1), HalfD(key, i + 1))
  }

  /** The schedule for encryption, or the same subkeys in reverse order for decryption. */
  function Schedule(key: Block, encrypt: bool): KeySchedule {
    seq(16, i requires 0 <= i < 16 => Subkey(key, if encrypt then i else 15 - i))
  }

  // ----- Round trips -----------------------------------------------------------------------------

  lemma DecryptScheduleReversed(key: Block, encrypt: bool)
    ensures Reverse(Schedule(key, encrypt)) == Schedule(key, !encrypt)
  {
  }

  /** Decryption undoes encryption, and encryption decryption, for every key and block. */
  lemma DesRoundTrip(key: Block, block: Block, encrypt: bool)
    ensures Crypt(Crypt(block, Schedule(key, encrypt)), Schedule(key, !encrypt)) == block
  {
    DecryptScheduleReversed(key, encrypt);
    CryptUndone(block, Schedule(key, encrypt));
  }

  type TripleKey = k: seq<bv8> | |k| == 24 witness seq(24, _ => 0)

  function SubKeyOf(key: TripleKey, i: nat): Block
    requires i < 3
  {
    key[8 * i..8 * i + 8]
  }

  /** three_des_key_schedule: encrypt-decrypt-encrypt, or with the keys in reverse order
      decrypt-encrypt-decrypt. */
  function TripleSchedule(key: TripleKey, encrypt: bool, i: nat): KeySchedule
    requires i < 3
  {
    Schedule(SubKeyOf(key, if encrypt then i else 2 - i), if i == 1 then !encrypt else encrypt)
  }

  /** three_des_crypt */
  function TripleCrypt(block: Block, k0: KeySchedule, k1: KeySchedule, k2: KeySchedule): Block {
    Crypt(Crypt(Crypt(block, k0), k1), k2)
  }

  /** The triple cipher with the reversed schedules in reverse order undoes the triple cipher. */
  lemma TripleCryptUndone(block: Block, k0: KeySchedule, k1: KeySchedule, k2: KeySchedule)
    ensures |Reverse(k0)| == |Reverse(k1)| == |Reverse(k2)| == 16
    ensures TripleCrypt(TripleCrypt(block, k0, k1, k2), Reverse(k2), Reverse(k1), Reverse(k0)) == block
  {
    var x := Crypt(block, k0);
    CryptUndone(Crypt(x, k1), k2);
    CryptUndone(x, k1);
    CryptUndone(block, k0);
  }

  lemma TripleScheduleReversed(key: TripleKey, encrypt: bool, i: nat)
    requires i < 3
    ensures Reverse(TripleSchedule(key, encrypt, i)) == TripleSchedule(key, !encrypt, 2 - i)
  {
    DecryptScheduleReversed(SubKeyOf(key, if encrypt then i else 2 - i), if i == 1 then !encrypt else encrypt);
  }

  lemma TripleDesRoundTrip(key: TripleKey, block: Block, encrypt: bool)
    ensures var once := TripleCrypt(block, TripleSchedule(key, encrypt, 0), TripleSchedule(key, encrypt, 1),
                                    TripleSchedule(key, encrypt, 2));
            TripleCrypt(once, TripleSchedule(key, !encrypt, 0), TripleSchedule(key, !encrypt, 1),
                        TripleSchedule(key, !encrypt, 2)) == block
  {
    TripleScheduleReversed(key, encrypt, 0);
    TripleScheduleReversed(key, encrypt, 1);
    TripleScheduleReversed(key, encrypt, 2);
    TripleCryptUndone(block, TripleSchedule(key, encrypt, 0), TripleSchedule(key, encrypt, 1),
                      TripleSchedule(key, encrypt, 2));
  }

  // ----- The code on arrays ----------------------------------------------------------------------

  /** How many of the first j bits fall into byte b. */
  function BitsOf(b: nat, j: nat): (n: nat)
    ensures n <= 8
  {
    if j <= 8 * b then 0 else if j >= 8 * b + 8 then 8 else j - 8 * b
  }

  /** Bit j goes to byte j / 8 and to no other. */
  lemma NextBit(c: bv32, d: bv32, b: nat, j: nat)
    requires b < 6 && j < 48
    ensures b == j / 8 ==> CompressByte(c, d, b, BitsOf(b, j + 1))
                           == CompressByte(c, d, b, BitsOf(b, j)) | CompressBit(c, d, j)
    ensures b != j / 8 ==> BitsOf(b, j + 1) == BitsOf(b, j)
  {
    if b == j / 8 {
      assert BitsOf(b, j + 1) == BitsOf(b, j) + 1 && 8 * b + BitsOf(b, j) == j;
    }
  }

  /** The inner loops of key_schedule: one row of the schedule. */
  method Compress(c: bv32, d: bv32) returns (row: seq<bv8>)
    ensures row == Selected(c, d)
  {
    row := [0, 0, 0, 0, 0, 0];
    for j := 0 to 48
      invariant |row| == 6 && forall b | 0 <= b < 6 :: row[b] == CompressByte(c, d, b, BitsOf(b, j))
    {
      forall b | 0 <= b < 6
        ensures b == j / 8 ==> CompressByte(c, d, b, BitsOf(b, j + 1))
                               == CompressByte(c, d, b, BitsOf(b, j)) | CompressBit(c, d, j)
        ensures b != j / 8 ==> BitsOf(b, j + 1) == BitsOf(b, j)
      {
        NextBit(c, d, b, j);
      }
      row := row[j / 8 := row[j / 8] | CompressBit(c, d, j)];
    }
  }

  /** The first loops of key_schedule: one half of the key, without its parity bits. */
  method SelectHalf(key: Block, perm: seq<KeyBit>) returns (c: bv32)
    requires |perm| == 28
    ensures c == HalfKey(key, perm, 28)
  {
    c := 0;
    for i := 0 to 28
      invariant c == HalfKey(key, perm, i)
    {
      c := c | SelectBit(key, perm, i);
    }
  }

  /** One turn of the last loop of key_schedule: rotate both halves and select the subkey. */
  method NextSubkey(key: Block, c: bv32, d: bv32, i: nat) returns (c': bv32, d': bv32, row: RoundKey)
    requires i < 16 && c == HalfC(key, i) && d == HalfD(key, i)
    ensures c' == HalfC(key, i + 1) && d' == HalfD(key, i + 1) && row == Subkey(key, i)
  {
    c' := Rotate(c, KEY_ROUND_SHIFT[i]);
    d' := Rotate(d, KEY_ROUND_SHIFT[i]);
    row := Compress(c', d');
  }

  /** The first i subkeys are in their rows. */
  ghost predicate RowsDone(subkeys: seq<RoundKey>, rows: seq<RoundKey>, encrypt: bool, i: nat)
    requires |subkeys| == |rows| == 16 && i <= 16
  {
    forall k | 0 <= k < i :: rows[if encrypt then k else 15 - k] == subkeys[k]
  }

  lemma NextRow(subkeys: seq<RoundKey>, rows: seq<RoundKey>, encrypt: bool, i: nat)
    requires |subkeys| == |rows| == 16 && i < 16 && RowsDone(subkeys, rows, encrypt, i)
    ensures RowsDone(subkeys, rows[(if encrypt then i else 15 - i) := subkeys[i]], encrypt, i + 1)
  {
  }

  /** key_schedule */
  method ScheduleKey(key: Block, schedule: array<RoundKey>, encrypt: bool)
    requires schedule.Length == 16
    modifies schedule
    ensures schedule[..] == Schedule(key, encrypt)
  {
    ghost var subkeys := Schedule(key, true);
    var c := SelectHalf(key, KEY_PERM_C);
    var d := SelectHalf(key, KEY_PERM_D);
    for i := 0 to 16
      invariant c == HalfC(key, i) && d == HalfD(key, i)
      invariant RowsDone(subkeys, schedule[..], encrypt, i)
    {
      var row;
      c, d, row := NextSubkey(key, c, d, i);
      NextRow(subkeys, schedule[..], encrypt, i);
      StoreRow(schedule, if encrypt then i else 15 - i, row);
    }
    AllRows(subkeys, schedule[..], encrypt);
    DecryptScheduleReversed(key, true);
  }

  method StoreRow(schedule: array<RoundKey>, i: nat, row: RoundKey)
    requires i < schedule.Length
    modifies schedule
    ensures schedule[..] == old(schedule[..])[i := row]
  {
    schedule[i] := row;
  }

  lemma AllRows(subkeys: seq<RoundKey>, rows: seq<RoundKey>, encrypt: bool)
    requires |subkeys| == |rows| == 16 && RowsDone(subkeys, rows, encrypt, 16)
    ensures rows == if encrypt then subkeys else Reverse(subkeys)
  {
    if encrypt {
      assert forall k | 0 <= k < 16 :: rows[k] == subkeys[k];
    } else {
      forall i | 0 <= i < 16 ensures rows[i] == subkeys[15 - i] {
        var k := 15 - i;
        assert rows[15 - k] == subkeys[k];
      }
    }
  }

  lemma RoundsNext(f: RoundFunction, start: State, keys: seq<RoundKey>, i: nat)
    requires i < |keys|
    ensures Rounds(f, start, keys[..i + 1]) == Round(f, Rounds(f, start, keys[..i]), keys[i])
  {
    assert keys[..i + 1][..i] == keys[..i];
  }

  /** The last round leaves the sides as they are. */
  method LastRound(state: State, key: RoundKey) returns (last: State)
    ensures last == Swap(Round(F, state, key))
  {
    last := State(F(state.right, key) ^ state.left, state.right);
  }

  /** The round loop of des_crypt. */
  method FirstRounds(start: State, keys: seq<RoundKey>, n: nat) returns (state: State)
    requires n <= |keys|
    ensures state == Rounds(F, start, keys[..n])
  {
    state := start;
    for idx := 0 to n
      invariant state == Rounds(F, start, keys[..idx])
    {
      RoundsNext(F, start, keys, idx);
      state := Round(F, state, keys[idx]);
    }
  }

  method CryptRounds(start: State, key: array<RoundKey>) returns (state: State)
    requires key.Length == 16
    ensures state == Swap(Rounds(F, start, key[..]))
  {
    var keys := key[..];
    state := FirstRounds(start, keys, |keys| - 1);
    state := LastRound(state, keys[|keys| - 1]);
  }

  /** des_crypt; `input` and `out` may be the same array. */
  method CryptBlock(input: array<bv8>, out: array<bv8>, key: array<RoundKey>)
    requires input.Length == out.Length == 8 && key.Length == 16
    modifies out
    ensures out[..] == Crypt(old(input[..]), key[..])
  {
    var state := Ip(input[..]);
    state := CryptRounds(state, key);
    Store(InvIp(state), out);
  }

  method Store(block: Block, out: array<bv8>)
    requires out.Length == 8
    modifies out
    ensures out[..] == block
  {
    for i := 0 to 8
      invariant out[..i] == block[..i]
    {
      out[i] := block[i];
    }
  }

  /** three_des_crypt, the second and third pass in place. */
  method TripleCryptBlock(input: array<bv8>, out: array<bv8>,
                          k0: array<RoundKey>, k1: array<RoundKey>, k2: array<RoundKey>)
    requires input.Length == out.Length == 8 && k0.Length == k1.Length == k2.Length == 16
    modifies out
    ensures out[..] == TripleCrypt(old(input[..]), k0[..], k1[..], k2[..])
  {
    CryptBlock(input, out, k0);
    CryptBlock(out, out, k1);
    CryptBlock(out, out, k2);
  }

  /** three_des_key_schedule into three schedules. */
  method ScheduleTripleKey(key: TripleKey, s0: array<RoundKey>, s1: array<RoundKey>, s2: array<RoundKey>, encrypt: bool)
    requires s0.Length == s1.Length == s2.Length == 16 && s0 != s1 && s1 != s2 && s0 != s2
    modifies s0, s1, s2
    ensures s0[..] == TripleSchedule(key, encrypt, 0)
    ensures s1[..] == TripleSchedule(key, encrypt, 1)
    ensures s2[..] == TripleSchedule(key, encrypt, 2)
  {
    if encrypt {
      ScheduleKey(key[0..8], s0, encrypt);
      ScheduleKey(key[8..16], s1, !encrypt);
      ScheduleKey(key[16..24], s2, encrypt);
    } else {
      ScheduleKey(key[16..24], s0, encrypt);
      ScheduleKey(key[8..16], s1, !encrypt);
      ScheduleKey(key[0..8], s2, encrypt);
    }
  }
}
