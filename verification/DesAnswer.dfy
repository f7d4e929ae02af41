/** A known answer of DES that depends on every table: the block of a single bit under the key of parity
    bits, whose subkeys are empty, goes through sixteen rounds of the round function. */
module DesAnswer {
  import opened Des
  import opened DesBits
  import opened DesStandard

  // ----- The key of parity bits ------------------------------------------------------------------

  const PARITY_KEY: Block := [1, 1, 1, 1, 1, 1, 1, 1]

  lemma OneNotLast(c: bv3)
    requires c != 0
    ensures !At8(1, (1 as bv8) << c)
  {
  }

  lemma ParityBit(k: nat)
    requires k < 64 && k % 8 != 7
    ensures !BlockBit(PARITY_KEY, k)
  {
    BlockBitIs(PARITY_KEY, k);
    ParityByte(k % 8);
    assert PARITY_KEY[k / 8] == 1;
  }

  lemma ParityByte(i: nat)
    requires i < 7
    ensures !Bit8(1, i)
  {
    Bit8Is(1, i);
    Mask8Is(7 - i);
    Index3Is(7 - i);
    OneNotLast(Index3(7 - i));
  }

  lemma ZeroKeyBit(j: nat)
    requires j < 48
    ensures !BlockBit(ZERO_KEY, j)
  {
    BlockBitIs(ZERO_KEY, j);
    ZeroBit8(j % 8);
    assert ZERO_KEY[j / 8] == 0;
  }

  /** The schedule drops the parity bits. */
  lemma ParitySubkey(r: nat)
    requires r < 16
    ensures Subkey(PARITY_KEY, r) == ZERO_KEY
  {
    forall j | 0 <= j < 48 ensures BlockBit(Subkey(PARITY_KEY, r), j) <==> BlockBit(ZERO_KEY, j) {
      SubkeyBit(PARITY_KEY, r, j);
      ParityBit(ScheduledBit(r, j));
      ZeroKeyBit(j);
    }
    SameBytes(Subkey(PARITY_KEY, r), ZERO_KEY);
  }

  function Zeros(n: nat): (keys: seq<RoundKey>)
    ensures |keys| == n
  {
    seq(n, _ => ZERO_KEY)
  }

  lemma ParitySchedule()
    ensures Schedule(PARITY_KEY, true) == Zeros(16)
  {
    forall i | 0 <= i < 16 ensures Schedule(PARITY_KEY, true)[i] == ZERO_KEY {
      ParitySubkey(i);
    }
  }

  // ----- Sixteen rounds --------------------------------------------------------------------------

  const ONE_BIT: Block := [0x80, 0, 0, 0, 0, 0, 0, 0]

  /** What f makes of x under an empty subkey. */
  ghost predicate ResultIs(f: RoundFunction, x: bv32, y: bv32) {
    forall key: RoundKey :: key == ZERO_KEY ==> f(x, key) == y
  }

  /** The state after n rounds that start from s. */
  ghost predicate After(f: RoundFunction, s: State, n: nat, left: bv32, right: bv32) {
    forall keys: seq<RoundKey> :: keys == Zeros(n) ==> Rounds(f, s, keys) == State(left, right)
  }

  lemma RoundsNext(f: RoundFunction, s: State, n: nat)
    ensures Rounds(f, s, Zeros(n + 1)) == Round(f, Rounds(f, s, Zeros(n)), ZERO_KEY)
  {
    assert Zeros(n + 1)[..n] == Zeros(n);
  }

  lemma OneRound(f: RoundFunction, s: State, n: nat, left: bv32, right: bv32, next: bv32)
    requires Rounds(f, s, Zeros(n)) == State(left, right) && next == f(right, ZERO_KEY) ^ left
    ensures Rounds(f, s, Zeros(n + 1)) == State(right, next)
  {
    RoundsNext(f, s, n);
  }

  lemma NextRound(f: RoundFunction, s: State, n: nat, left: bv32, right: bv32, result: bv32, next: bv32)
    requires After(f, s, n, left, right) && ResultIs(f, right, result) && next == result ^ left
    ensures After(f, s, n + 1, right, next)
  {
    assert f(right, ZERO_KEY) == result;
    OneRound(f, s, n, left, right, next);
  }

  lemma AtFirst(f: RoundFunction, s: State)
    ensures After(f, s, 0, s.left, s.right)
  {
    assert Zeros(0) == [];
  }

  lemma F1()
    ensures F(0x0100_0000, ZERO_KEY) == 0x9cd1_dba8
  {
  }

  lemma F2()
    ensures F(0x9cd1_dba8, ZERO_KEY) == 0x8865_b268
  {
  }

  lemma F3()
    ensures F(0x8965_b268, ZERO_KEY) == 0xfee4_727c
  {
  }

  lemma F4()
    ensures F(0x6235_a9d4, ZERO_KEY) == 0x8a99_2b06
  {
  }

  lemma F5()
    ensures F(0x03fc_996e, ZERO_KEY) == 0x4881_d771
  {
  }

  lemma F6()
    ensures F(0x2ab4_7ea5, ZERO_KEY) == 0x3e83_5865
  {
  }

  lemma F7()
    ensures F(0x3d7f_c10b, ZERO_KEY) == 0x4c57_76e4
  {
  }

  lemma F8()
    ensures F(0x66e3_0841, ZERO_KEY) == 0xa35a_0685
  {
  }

  lemma F9()
    ensures F(0x9e25_c78e, ZERO_KEY) == 0xce44_bbc9
  {
  }

  lemma F10()
    ensures F(0xa8a7_b388, ZERO_KEY) == 0xbacd_8139
  {
  }

  lemma F11()
    ensures F(0x24e8_46b7, ZERO_KEY) == 0xf69f_e794
  {
  }

  lemma F12()
    ensures F(0x5e38_541c, ZERO_KEY) == 0xcd62_1be0
  {
  }

  lemma F13()
    ensures F(0xe98a_5d57, ZERO_KEY) == 0x3a05_aee8
  {
  }

  lemma F14()
    ensures F(0x643d_faf4, ZERO_KEY) == 0xeec0_3b92
  {
  }

  lemma F15()
    ensures F(0x074a_66c5, ZERO_KEY) == 0x3b13_a8f4
  {
  }

  lemma F16()
    ensures F(0x5f2e_5200, ZERO_KEY) == 0x5d39_7bb8
  {
  }

  ghost predicate TableFirstEight(f: RoundFunction) {
    && ResultIs(f, 0x0100_0000, 0x9cd1_dba8)
    && ResultIs(f, 0x9cd1_dba8, 0x8865_b268)
    && ResultIs(f, 0x8965_b268, 0xfee4_727c)
    && ResultIs(f, 0x6235_a9d4, 0x8a99_2b06)
    && ResultIs(f, 0x03fc_996e, 0x4881_d771)
    && ResultIs(f, 0x2ab4_7ea5, 0x3e83_5865)
    && ResultIs(f, 0x3d7f_c10b, 0x4c57_76e4)
    && ResultIs(f, 0x66e3_0841, 0xa35a_0685)
  }

  lemma ResultsFirstEight()
    ensures TableFirstEight(F)
  {
    F1();
    F2();
    F3();
    F4();
    F5();
    F6();
    F7();
    F8();
  }

  lemma FirstEight(f: RoundFunction, s: State)
    requires s == State(0, 0x0100_0000) && TableFirstEight(f)
    ensures After(f, s, 8, 0x66e3_0841, 0x9e25_c78e)
  {
    AtFirst(f, s);
    NextRound(f, s, 0, 0x0000_0000, 0x0100_0000, 0x9cd1_dba8, 0x9cd1_dba8);
    NextRound(f, s, 1, 0x0100_0000, 0x9cd1_dba8, 0x8865_b268, 0x8965_b268);
    NextRound(f, s, 2, 0x9cd1_dba8, 0x8965_b268, 0xfee4_727c, 0x6235_a9d4);
    NextRound(f, s, 3, 0x8965_b268, 0x6235_a9d4, 0x8a99_2b06, 0x03fc_996e);
    NextRound(f, s, 4, 0x6235_a9d4, 0x03fc_996e, 0x4881_d771, 0x2ab4_7ea5);
    NextRound(f, s, 5, 0x03fc_996e, 0x2ab4_7ea5, 0x3e83_5865, 0x3d7f_c10b);
    NextRound(f, s, 6, 0x2ab4_7ea5, 0x3d7f_c10b, 0x4c57_76e4, 0x66e3_0841);
    NextRound(f, s, 7, 0x3d7f_c10b, 0x66e3_0841, 0xa35a_0685, 0x9e25_c78e);
  }

  ghost predicate TableLastEight(f: RoundFunction) {
    && ResultIs(f, 0x9e25_c78e, 0xce44_bbc9)
    && ResultIs(f, 0xa8a7_b388, 0xbacd_8139)
    && ResultIs(f, 0x24e8_46b7, 0xf69f_e794)
    && ResultIs(f, 0x5e38_541c, 0xcd62_1be0)
    && ResultIs(f, 0xe98a_5d57, 0x3a05_aee8)
    && ResultIs(f, 0x643d_faf4, 0xeec0_3b92)
    && ResultIs(f, 0x074a_66c5, 0x3b13_a8f4)
    && ResultIs(f, 0x5f2e_5200, 0x5d39_7bb8)
  }

  lemma ResultsLastEight()
    ensures TableLastEight(F)
  {
    F9();
    F10();
    F11();
    F12();
    F13();
    F14();
    F15();
    F16();
  }

  lemma LastEight(f: RoundFunction, s: State)
    requires After(f, s, 8, 0x66e3_0841, 0x9e25_c78e) && TableLastEight(f)
    ensures After(f, s, 16, 0x5f2e_5200, 0x5a73_1d7d)
  {
    NextRound(f, s, 8, 0x66e3_0841, 0x9e25_c78e, 0xce44_bbc9, 0xa8a7_b388);
    NextRound(f, s, 9, 0x9e25_c78e, 0xa8a7_b388, 0xbacd_8139, 0x24e8_46b7);
    NextRound(f, s, 10, 0xa8a7_b388, 0x24e8_46b7, 0xf69f_e794, 0x5e38_541c);
    NextRound(f, s, 11, 0x24e8_46b7, 0x5e38_541c, 0xcd62_1be0, 0xe98a_5d57);
    NextRound(f, s, 12, 0x5e38_541c, 0xe98a_5d57, 0x3a05_aee8, 0x643d_faf4);
    NextRound(f, s, 13, 0xe98a_5d57, 0x643d_faf4, 0xeec0_3b92, 0x074a_66c5);
    NextRound(f, s, 14, 0x643d_faf4, 0x074a_66c5, 0x3b13_a8f4, 0x5f2e_5200);
    NextRound(f, s, 15, 0x074a_66c5, 0x5f2e_5200, 0x5d39_7bb8, 0x5a73_1d7d);
  }

  lemma AtLast(block: Block, left: bv32, right: bv32)
    requires After(F, Ip(block), 16, left, right)
    ensures Crypt(block, Zeros(16)) == InvIp(State(right, left))
  {
    Finished(F, Ip(block), Zeros(16), left, right);
  }

  lemma IpOneBit()
    ensures Ip(ONE_BIT) == State(0, 0x0100_0000)
  {
  }

  lemma Finished(f: RoundFunction, s: State, keys: seq<RoundKey>, left: bv32, right: bv32)
    requires Rounds(f, s, keys) == State(left, right)
    ensures InvIp(Swap(Rounds(f, s, keys))) == InvIp(State(right, left))
  {
  }

  lemma InvIpAnswer()
    ensures InvIp(State(0x5a73_1d7d, 0x5f2e_5200)) == [0x95, 0xf8, 0xa5, 0xe5, 0xdd, 0x31, 0xd9, 0x00]
  {
  }

  /** The answer: 80 00 00 00 00 00 00 00 becomes 95 F8 A5 E5 DD 31 D9 00. */
  lemma KnownAnswer()
    ensures Crypt(ONE_BIT, Schedule(PARITY_KEY, true)) == [0x95, 0xf8, 0xa5, 0xe5, 0xdd, 0x31, 0xd9, 0x00]
  {
    ParitySchedule();
    IpOneBit();
    ResultsFirstEight();
    ResultsLastEight();
    FirstEight(F, Ip(ONE_BIT));
    LastEight(F, Ip(ONE_BIT));
    InvIpAnswer();
    AtLast(ONE_BIT, 0x5f2e_5200, 0x5a73_1d7d);
  }
}
