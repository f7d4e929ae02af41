/** The complementation property of DES: with every bit of the key and the block inverted, the result is
    inverted. It needs the whole cipher: the expansion, the key mixing, the permutations and every bit of
    the key schedule. */
module DesComplement {
  import opened Des
  import opened DesBits
  import opened DesStandard

  function Not(bytes: seq<bv8>): (r: seq<bv8>)
    ensures |r| == |bytes|
  {
    seq(|bytes|, i requires 0 <= i < |bytes| => !bytes[i])
  }

  function NotState(s: State): State {
    State(!s.left, !s.right)
  }

  // ----- The round function ----------------------------------------------------------------------

  lemma ExpandNotLeft(x: bv32)
    ensures Expand(!x)[0] == !Expand(x)[0] && Expand(!x)[1] == !Expand(x)[1] && Expand(!x)[2] == !Expand(x)[2]
  {
  }

  lemma ExpandNotRight(x: bv32)
    ensures Expand(!x)[3] == !Expand(x)[3] && Expand(!x)[4] == !Expand(x)[4] && Expand(!x)[5] == !Expand(x)[5]
  {
  }

  /** a is b with every bit inverted. */
  ghost predicate Inverse(a: seq<bv8>, b: seq<bv8>) {
    |a| == |b| && forall i | 0 <= i < |a| :: a[i] == !b[i]
  }

  lemma SixInverse(a: RoundKey, b: RoundKey)
    requires a[0] == !b[0] && a[1] == !b[1] && a[2] == !b[2] && a[3] == !b[3] && a[4] == !b[4] && a[5] == !b[5]
    ensures Inverse(a, b)
  {
    forall i | 0 <= i < 6 ensures a[i] == !b[i] {
      if i == 0 {} else if i == 1 {} else if i == 2 {} else if i == 3 {} else if i == 4 {} else {}
    }
  }

  lemma ExpandNot(x: bv32)
    ensures Inverse(Expand(!x), Expand(x))
  {
    ExpandNotLeft(x);
    ExpandNotRight(x);
    SixInverse(Expand(!x), Expand(x));
  }

  lemma XorNot(x: bv8, y: bv8)
    ensures !x ^ !y == x ^ y
  {
  }

  lemma XorKeyNot(s: RoundKey, s': RoundKey, key: RoundKey, key': RoundKey)
    requires Inverse(s', s) && Inverse(key', key)
    ensures XorKey(s', key') == XorKey(s, key)
  {
    forall i | 0 <= i < 6 ensures XorKey(s', key')[i] == XorKey(s, key)[i] {
      XorNot(s[i], key[i]);
    }
  }

  lemma FNot(x: bv32, key: RoundKey, key': RoundKey)
    requires Inverse(key', key)
    ensures F(!x, key') == F(x, key)
  {
    ExpandNot(x);
    XorKeyNot(Expand(x), Expand(!x), key, key');
  }

  // ----- The rounds ------------------------------------------------------------------------------

  /** The round function does not see the inversion of both its arguments. */
  ghost predicate Blind(f: RoundFunction) {
    forall x: bv32, key: RoundKey, key': RoundKey | Inverse(key', key) :: f(!x, key') == f(x, key)
  }

  lemma RoundIs(f: RoundFunction, s: State, key: RoundKey, x: bv32)
    requires x == f(s.right, key)
    ensures Round(f, s, key) == State(s.right, x ^ s.left)
  {
  }

  lemma XorNotWord(x: bv32, y: bv32, y': bv32)
    requires y' == !y
    ensures x ^ y' == !(x ^ y)
  {
  }

  lemma XorNotState(x: bv32, left: bv32, right: bv32, left': bv32, right': bv32, t: State, t': State)
    requires left' == !left && right' == !right && t == State(right, x ^ left) && t' == State(right', x ^ left')
    ensures t' == NotState(t)
  {
    XorNotWord(x, left, left');
  }

  lemma Mirrored(x: bv32, s: State, s': State, t: State, t': State)
    requires s'.left == !s.left && s'.right == !s.right
    requires t == State(s.right, x ^ s.left) && t' == State(s'.right, x ^ s'.left)
    ensures t' == NotState(t)
  {
    XorNotState(x, s.left, s.right, s'.left, s'.right, t, t');
  }

  /** A round with both arguments of a blind function inverted. */
  lemma RoundNot(f: RoundFunction, s: State, s': State, key: RoundKey, key': RoundKey, x: bv32)
    requires s'.left == !s.left && s'.right == !s.right
    requires x == f(s.right, key) && x == f(s'.right, key')
    ensures Round(f, s', key') == NotState(Round(f, s, key))
  {
    RoundIs(f, s, key, x);
    RoundIs(f, s', key', x);
    Mirrored(x, s, s', Round(f, s, key), Round(f, s', key'));
  }

  ghost predicate AllInverse(keys: seq<RoundKey>, keys': seq<RoundKey>) {
    |keys'| == |keys| && forall i | 0 <= i < |keys| :: Inverse(keys'[i], keys[i])
  }

  lemma RoundsLast(f: RoundFunction, s: State, keys: seq<RoundKey>, n: nat, t: State)
    requires |keys| == n + 1 && t == Rounds(f, s, keys[..n])
    ensures Rounds(f, s, keys) == Round(f, t, keys[n])
  {
  }

  lemma OneMoreNot(f: RoundFunction, s: State, s': State, keys: seq<RoundKey>, keys': seq<RoundKey>, n: nat,
                   t: State, t': State)
    requires Blind(f) && AllInverse(keys, keys') && |keys| == n + 1
    requires t == Rounds(f, s, keys[..n]) && t' == Rounds(f, s', keys'[..n])
    requires t'.left == !t.left && t'.right == !t.right
    ensures Rounds(f, s', keys') == NotState(Rounds(f, s, keys))
  {
    assert Inverse(keys'[n], keys[n]);
    RoundsLast(f, s, keys, n, t);
    RoundsLast(f, s', keys', n, t');
    RoundNot(f, t, t', keys[n], keys'[n], f(t.right, keys[n]));
  }

  lemma {:induction false} RoundsNot(f: RoundFunction, s: State, s': State, keys: seq<RoundKey>, keys': seq<RoundKey>)
    requires Blind(f) && AllInverse(keys, keys') && s' == NotState(s)
    ensures Rounds(f, s', keys') == NotState(Rounds(f, s, keys))
  {
    if keys != [] {
      var n := |keys| - 1;
      RoundsNot(f, s, s', keys[..n], keys'[..n]);
      OneMoreNot(f, s, s', keys, keys', n, Rounds(f, s, keys[..n]), Rounds(f, s', keys'[..n]));
    }
  }

  lemma FBlind()
    ensures Blind(F)
  {
    forall x: bv32, key: RoundKey, key': RoundKey | Inverse(key', key) ensures F(!x, key') == F(x, key) {
      FNot(x, key, key');
    }
  }

  // ----- The initial permutation and the key schedule --------------------------------------------

  lemma IpLeftNot(block: Block)
    ensures IpLeft(Not(block)) == !IpLeft(block)
  {
  }

  lemma IpRightNot(block: Block)
    ensures IpRight(Not(block)) == !IpRight(block)
  {
  }

  lemma IpNot(block: Block)
    ensures Ip(Not(block)) == NotState(Ip(block))
  {
    IpLeftNot(block);
    IpRightNot(block);
  }

  lemma InvIpNot(s: State, s': State)
    requires s' == NotState(s)
    ensures InvIp(s') == Not(InvIp(s))
  {
    IpInvIp(s);
    IpNot(InvIp(s));
    InvIpIp(Not(InvIp(s)));
  }

  lemma NotAt(a: bv8, m: bv8, i: bv3)
    requires m == (1 as bv8) << i
    ensures At8(!a, m) <==> !At8(a, m)
  {
  }

  lemma NotBit(a: bv8, i: nat)
    requires i < 8
    ensures Bit8(!a, i) <==> !Bit8(a, i)
  {
    Bit8Is(a, i);
    Bit8Is(!a, i);
    Mask8Is(7 - i);
    NotAt(a, Mask8(7 - i), Index3(7 - i));
  }

  lemma BlockBitNot(bytes: seq<bv8>, k: nat)
    requires k < 8 * |bytes|
    ensures BlockBit(Not(bytes), k) <==> !BlockBit(bytes, k)
  {
    BlockBitIs(bytes, k);
    BlockBitIs(Not(bytes), k);
    NotBit(bytes[k / 8], k % 8);
  }

  lemma SubkeyNot(key: Block, r: nat)
    requires r < 16
    ensures Subkey(Not(key), r) == Not(Subkey(key, r))
  {
    forall j | 0 <= j < 48 ensures BlockBit(Subkey(Not(key), r), j) <==> BlockBit(Not(Subkey(key, r)), j) {
      SubkeyBit(Not(key), r, j);
      SubkeyBit(key, r, j);
      BlockBitNot(key, ScheduledBit(r, j));
      BlockBitNot(Subkey(key, r), j);
    }
    SameBytes(Subkey(Not(key), r), Not(Subkey(key, r)));
  }

  lemma SubkeyInverse(key: Block, r: nat)
    requires r < 16
    ensures Inverse(Subkey(Not(key), r), Subkey(key, r))
  {
    SubkeyNot(key, r);
  }

  lemma ScheduleNot(key: Block, encrypt: bool)
    ensures AllInverse(Schedule(key, encrypt), Schedule(Not(key), encrypt))
  {
    forall i | 0 <= i < 16 ensures Inverse(Schedule(Not(key), encrypt)[i], Schedule(key, encrypt)[i]) {
      SubkeyInverse(key, if encrypt then i else 15 - i);
    }
  }

  // ----- The cipher ------------------------------------------------------------------------------

  lemma FinishNot(s: State, s': State)
    requires s' == NotState(s)
    ensures InvIp(Swap(s')) == Not(InvIp(Swap(s)))
  {
    InvIpNot(Swap(s), Swap(s'));
  }

  lemma CryptNot(block: Block, keys: KeySchedule, keys': KeySchedule)
    requires AllInverse(keys, keys')
    ensures Crypt(Not(block), keys') == Not(Crypt(block, keys))
  {
    FBlind();
    IpNot(block);
    RoundsNot(F, Ip(block), Ip(Not(block)), keys, keys');
    FinishNot(Rounds(F, Ip(block), keys), Rounds(F, Ip(Not(block)), keys'));
  }

  /** With all bits of the key and the block inverted, the result is inverted, for every key and block. */
  lemma Complementation(key: Block, block: Block, encrypt: bool)
    ensures Crypt(Not(block), Schedule(Not(key), encrypt)) == Not(Crypt(block, Schedule(key, encrypt)))
  {
    ScheduleNot(key, encrypt);
    CryptNot(block, Schedule(key, encrypt), Schedule(Not(key), encrypt));
  }
}
