/**
 * Why the rewritten subkeys compute Camellia: each half of the running state
 * is the textbook half under a mask, and every table entry is the change of
 * mask its round has to make.
 */
module CamelliaRekey {
  import opened Camellia

  /** The inverse of the last half of P, applied to a round key. */
  function InvHalfP(k: Half): Half {
    var w := Rol8(Xor32(k.l, k.r));
    Half(w, Xor32(k.l, w))
  }

  /** A mask taken backwards through FL, or forwards through its inverse. */
  function Unfl(m: Half, k: Half): Half {
    var l := Xor32(m.l, AndNot(m.r, k.r));
    Half(l, Xor32(m.r, AndRol(l, k.l)))
  }

  function AndNot(x: bv32, k: bv32): bv32 {
    x & !k
  }

  // ---- words -------------------------------------------------------------

  lemma XorIs(a: bv32, b: bv32)
    ensures Xor32(a, b) == a ^ b
  {
  }

  lemma AndNotIs(x: bv32, k: bv32)
    ensures AndNot(x, k) == x & !k
  {
  }

  lemma XorAssoc(a: bv32, b: bv32, c: bv32)
    ensures Xor32(Xor32(a, b), c) == Xor32(a, Xor32(b, c))
  {
    assert (a ^ b) ^ c == a ^ (b ^ c);
  }

  lemma XorComm(a: bv32, b: bv32)
    ensures Xor32(a, b) == Xor32(b, a)
  {
  }

  lemma XorZero(a: bv32)
    ensures Xor32(a, 0) == a
  {
  }

  lemma Regroup(a: bv32, b: bv32, c: bv32, d: bv32)
    ensures Xor32(Xor32(a, b), Xor32(c, d)) == Xor32(Xor32(a, c), Xor32(b, d))
  {
    hide Xor32;
    XorAssoc(a, b, Xor32(c, d));
    XorAssoc(b, c, d);
    XorComm(b, c);
    XorAssoc(c, b, d);
    XorAssoc(a, c, Xor32(b, d));
  }

  lemma Cancel(d: bv32, m: bv32, f: bv32, k: bv32)
    ensures Xor32(Xor32(d, m), Xor32(f, Xor32(m, k))) == Xor32(Xor32(d, f), k)
  {
    hide Xor32;
    Regroup(d, m, f, Xor32(m, k));
    XorComm(m, k);
    XorComm(m, Xor32(k, m));
    XorTwice32(k, m);
  }

  /** Replacing mask `m` by `k` while adding `f`. */
  lemma MoveMask(d: Half, m: Half, f: Half, k: Half)
    ensures Xor(Xor(d, m), Xor(f, Xor(m, k))) == Xor(Xor(d, f), k)
  {
    hide Xor32;
    Cancel(d.l, m.l, f.l, k.l);
    Cancel(d.r, m.r, f.r, k.r);
  }

  lemma OrSplit(x: bv32, m: bv32, k: bv32)
    ensures (x ^ m) | k == (x | k) ^ (m & !k)
  {
  }

  lemma OrXor(x: bv32, m: bv32, k: bv32)
    ensures Or32(Xor32(x, m), k) == Xor32(Or32(x, k), AndNot(m, k))
  {
    hide Xor32;
    XorIs(x, m);
    XorIs(x | k, m & !k);
    OrSplit(x, m, k);
  }

  lemma AndSplit(x: bv32, m: bv32, k: bv32)
    ensures (x ^ m) & k == (x & k) ^ (m & k)
  {
  }

  lemma AndNotXor(x: bv32, m: bv32, k: bv32)
    ensures AndNot(Xor32(x, m), k) == Xor32(AndNot(x, k), AndNot(m, k))
  {
    hide Xor32, AndNot;
    AndNotIs(x, k);
    AndNotIs(m, k);
    AndNotIs(x ^ m, k);
    XorIs(x, m);
    XorIs(x & !k, m & !k);
    AndSplit(x, m, !k);
  }

  lemma Rol1Split(x: bv32, m: bv32)
    ensures ((x ^ m) << 1) | ((x ^ m) >> 31) == ((x << 1) | (x >> 31)) ^ ((m << 1) | (m >> 31))
  {
  }

  lemma AndRolXor(x: bv32, m: bv32, k: bv32)
    ensures AndRol(Xor32(x, m), k) == Xor32(AndRol(x, k), AndRol(m, k))
  {
    AndSplit(x, m, k);
    Rol1Split(x & k, m & k);
  }

  lemma Ror8Split(x: bv32, m: bv32)
    ensures ((x ^ m) >> 8) | ((x ^ m) << 24) == ((x >> 8) | (x << 24)) ^ ((m >> 8) | (m << 24))
  {
  }

  lemma Ror8Xor(x: bv32, m: bv32)
    ensures Ror8(Xor32(x, m)) == Xor32(Ror8(x), Ror8(m))
  {
    Ror8Split(x, m);
  }

  lemma Ror8Rol8(x: bv32)
    ensures Ror8(Rol8(x)) == x
  {
  }

  // ---- FL layers carry masks ----------------------------------------------

  /** FL-inverse is affine, with `Unfl` for its linear part. */
  lemma FlInvMask(y: Half, m: Half, k: Half)
    ensures FlInv(Xor(y, m), k) == Xor(FlInv(y, k), Unfl(m, k))
  {
    hide Xor32, Or32, AndNot, AndRol;
    OrXor(y.r, m.r, k.r);
    Regroup(y.l, m.l, Or32(y.r, k.r), AndNot(m.r, k.r));
    var l, ml := FlInv(y, k).l, Unfl(m, k).l;
    AndRolXor(l, ml, k.l);
    Regroup(y.r, m.r, AndRol(l, k.l), AndRol(ml, k.l));
  }

  /** To leave FL under mask `m`, enter it under `Unfl(m)`. */
  lemma FlMask(x: Half, m: Half, k: Half)
    ensures Fl(Xor(x, Unfl(m, k)), k) == Xor(Fl(x, k), m)
  {
    hide Fl, FlInv, Unfl, Xor;
    FlInvMask(Fl(x, k), m, k);
    FlInverse(x, k);
    FlInverse(Xor(Fl(x, k), m), k);
  }

  /** `Unfl` is linear in the mask. */
  lemma UnflXor(a: Half, b: Half, k: Half)
    ensures Unfl(Xor(a, b), k) == Xor(Unfl(a, k), Unfl(b, k))
  {
    hide Xor32, AndNot, AndRol;
    AndNotXor(a.r, b.r, k.r);
    Regroup(a.l, b.l, AndNot(a.r, k.r), AndNot(b.r, k.r));
    var la, lb := Unfl(a, k).l, Unfl(b, k).l;
    AndRolXor(la, lb, k.l);
    Regroup(a.r, b.r, AndRol(la, k.l), AndRol(lb, k.l));
  }

  // ---- one round -----------------------------------------------------------

  function Xor8(x: bv8, y: bv8): bv8 {
    x ^ y
  }

  function Xor8x3(x: bv8, y: bv8, z: bv8): bv8 {
    Xor8(Xor8(x, y), z)
  }

  lemma Xor8Zero(x: bv8)
    ensures Xor8(x, 0) == x && Xor8(0, x) == x
  {
  }

  lemma PackSplit(a1: bv8, a2: bv8, a3: bv8, a4: bv8, b1: bv8, b2: bv8, b3: bv8, b4: bv8)
    ensures Pack(a1, a2, a3, a4) ^ Pack(b1, b2, b3, b4) == Pack(a1 ^ b1, a2 ^ b2, a3 ^ b3, a4 ^ b4)
  {
  }

  lemma PackXor(a1: bv8, a2: bv8, a3: bv8, a4: bv8, b1: bv8, b2: bv8, b3: bv8, b4: bv8)
    ensures Xor32(Pack(a1, a2, a3, a4), Pack(b1, b2, b3, b4))
         == Pack(Xor8(a1, b1), Xor8(a2, b2), Xor8(a3, b3), Xor8(a4, b4))
  {
    hide Xor32, Pack;
    XorIs(Pack(a1, a2, a3, a4), Pack(b1, b2, b3, b4));
    PackSplit(a1, a2, a3, a4, b1, b2, b3, b4);
  }

  lemma PackRor8(b1: bv8, b2: bv8, b3: bv8, b4: bv8)
    ensures Ror8(Pack(b1, b2, b3, b4)) == Pack(b4, b1, b2, b3)
  {
  }

  lemma FourTables(t1: bv8, t2: bv8, t3: bv8, t4: bv8)
    ensures Sum4(Pack(t1, t1, t1, 0), Pack(0, t2, t2, t2), Pack(t3, 0, t3, t3), Pack(t4, t4, 0, t4))
         == Pack(Xor8x3(t1, t3, t4), Xor8x3(t1, t2, t4), Xor8x3(t1, t2, t3), Xor8x3(t2, t3, t4))
  {
    hide Pack, Xor32, Xor8;
    var u, v, w := Xor8(t1, t2), Xor8(t1, t3), Xor8(t2, t3);
    PackXor(t1, t1, t1, 0, 0, t2, t2, t2);
    Xor8Zero(t1);
    Xor8Zero(t2);
    PackXor(t1, u, u, t2, t3, 0, t3, t3);
    Xor8Zero(u);
    PackXor(v, u, Xor8(u, t3), w, t4, t4, 0, t4);
    Xor8Zero(Xor8(u, t3));
  }

  lemma LeftByte(a: bv8, b: bv8, c: bv8, d: bv8, e: bv8, f: bv8)
    ensures Xor8(Xor8x3(f, d, e), Xor8x3(a, b, c)) == Sum6(a, b, c, d, e, f)
  {
    assert (f ^ d ^ e) ^ (a ^ b ^ c) == a ^ b ^ c ^ d ^ e ^ f;
  }

  lemma LastLeftByte(a: bv8, b: bv8, c: bv8, d: bv8, e: bv8, f: bv8)
    ensures Xor8(Xor8x3(d, e, f), Xor8x3(a, b, c)) == Sum6(a, b, c, d, e, f)
  {
    assert (d ^ e ^ f) ^ (a ^ b ^ c) == a ^ b ^ c ^ d ^ e ^ f;
  }

  /** Two of a left byte's terms occur again and cancel. */
  lemma RightByte1(a: bv8, b: bv8, c: bv8, d: bv8, e: bv8, f: bv8, x: bv8)
    ensures Xor8(Xor8x3(x, b, c), Sum6(a, b, c, d, e, f)) == Sum5(a, x, d, e, f)
  {
    assert (x ^ b ^ c) ^ (a ^ b ^ c ^ d ^ e ^ f) == a ^ x ^ d ^ e ^ f;
  }

  lemma RightByte2(a: bv8, b: bv8, c: bv8, d: bv8, e: bv8, f: bv8, x: bv8)
    ensures Xor8(Xor8x3(b, x, c), Sum6(b, a, c, d, e, f)) == Sum5(a, x, d, e, f)
  {
    assert (b ^ x ^ c) ^ (b ^ a ^ c ^ d ^ e ^ f) == a ^ x ^ d ^ e ^ f;
  }

  lemma RightByte3(a: bv8, b: bv8, c: bv8, d: bv8, e: bv8, f: bv8, x: bv8)
    ensures Xor8(Xor8x3(b, c, x), Sum6(b, c, a, d, e, f)) == Sum5(a, x, d, e, f)
  {
    assert (b ^ c ^ x) ^ (b ^ c ^ a ^ d ^ e ^ f) == a ^ x ^ d ^ e ^ f;
  }

  lemma RightByte4(a: bv8, b: bv8, c: bv8, d: bv8, e: bv8, f: bv8, x: bv8)
    ensures Xor8(Xor8x3(x, b, c), Sum6(b, c, a, d, e, f)) == Sum5(x, a, d, e, f)
  {
    assert (x ^ b ^ c) ^ (b ^ c ^ a ^ d ^ e ^ f) == x ^ a ^ d ^ e ^ f;
  }

  /** The four word tables of each half, combined, are P of the S-box outputs. */
  lemma TablesAreP(t1: bv8, t2: bv8, t3: bv8, t4: bv8, t5: bv8, t6: bv8, t7: bv8, t8: bv8)
    ensures LastHalf(Sum4(Pack(t1, t1, t1, 0), Pack(0, t2, t2, t2), Pack(t3, 0, t3, t3), Pack(t4, t4, 0, t4)),
                     Sum4(Pack(t8, t8, t8, 0), Pack(0, t5, t5, t5), Pack(t6, 0, t6, t6), Pack(t7, t7, 0, t7)), 0)
         == P(t1, t2, t3, t4, t5, t6, t7, t8)
  {
    hide Pack, Ror8, Xor32, Sum4, Xor8, Xor8x3, Sum5, Sum6;
    FourTables(t1, t2, t3, t4);
    FourTables(t8, t5, t6, t7);
    var a, b, c, d := Xor8x3(t1, t3, t4), Xor8x3(t1, t2, t4), Xor8x3(t1, t2, t3), Xor8x3(t2, t3, t4);
    XorZero(Pack(a, b, c, d));
    PackXor(Xor8x3(t8, t6, t7), Xor8x3(t8, t5, t7), Xor8x3(t8, t5, t6), Xor8x3(t5, t6, t7), a, b, c, d);
    LeftByte(t1, t3, t4, t6, t7, t8);
    LeftByte(t1, t2, t4, t5, t7, t8);
    LeftByte(t1, t2, t3, t5, t6, t8);
    LastLeftByte(t2, t3, t4, t5, t6, t7);
    PackRor8(a, b, c, d);
    PackXor(d, a, b, c, Sum6(t1, t3, t4, t6, t7, t8), Sum6(t1, t2, t4, t5, t7, t8),
            Sum6(t1, t2, t3, t5, t6, t8), Sum6(t2, t3, t4, t5, t6, t7));
    RightByte1(t1, t3, t4, t6, t7, t8, t2);
    RightByte2(t2, t1, t4, t5, t7, t8, t3);
    RightByte3(t3, t1, t2, t5, t6, t8, t4);
    RightByte4(t4, t2, t3, t5, t6, t7, t1);
  }

  /** A key put through the inverse half-P comes out of the rest of P as itself. */
  lemma LastHalfKey(il: bv32, ir: bv32, k: Half)
    ensures LastHalf(Xor32(il, InvHalfP(k).l), ir, InvHalfP(k).r) == Xor(LastHalf(il, ir, 0), k)
  {
    hide Xor32, Rol8, Ror8;
    var w := InvHalfP(k).l;
    XorZero(il);
    calc {
      Xor32(ir, Xor32(Xor32(il, w), Xor32(k.l, w)));
      { XorComm(il, w); XorComm(k.l, w); Xor4(w, il, k.l); }
      Xor32(ir, Xor32(il, k.l));
      { XorAssoc(ir, il, k.l); }
      Xor32(Xor32(ir, il), k.l);
    }
    var y := Xor32(ir, il);
    calc {
      Xor32(Ror8(Xor32(il, w)), Xor32(y, k.l));
      { Ror8Xor(il, w); Ror8Rol8(Xor32(k.l, k.r)); }
      Xor32(Xor32(Ror8(il), Xor32(k.l, k.r)), Xor32(y, k.l));
      { Regroup(Ror8(il), Xor32(k.l, k.r), y, k.l); XorComm(k.l, k.r); XorTwice32(k.r, k.l); }
      Xor32(Xor32(Ror8(il), y), k.r);
    }
  }

  lemma Xor4(w: bv32, a: bv32, b: bv32)
    ensures Xor32(Xor32(w, a), Xor32(w, b)) == Xor32(a, b)
  {
    hide Xor32;
    XorComm(w, a);
    XorAssoc(a, w, Xor32(w, b));
    XorComm(w, b);
    XorComm(w, Xor32(b, w));
    XorTwice32(b, w);
  }

  /** CAMELLIA_ROUNDSM with a transformed key adds F's output and the plain key. */
  lemma MixIsF(b: Boxes, x: Half, k: Half)
    ensures MixSm(b, x, InvHalfP(k)) == Xor(SubstituteAndMix(b, x), k)
  {
    hide LastHalf, Sum4, Xor, Xor32, InvHalfP, P, Byte, Pack;
    var il := Sum4(Sp1110(b, Byte(x.l, 24)), Sp0222(b, Byte(x.l, 16)),
                   Sp3033(b, Byte(x.l, 8)), Sp4404(b, Byte(x.l, 0)));
    var ir := Sum4(Sp1110(b, Byte(x.r, 0)), Sp0222(b, Byte(x.r, 24)),
                   Sp3033(b, Byte(x.r, 16)), Sp4404(b, Byte(x.r, 8)));
    LastHalfKey(il, ir, k);
    TablesAreP(b.s1(Byte(x.l, 24)), b.s2(Byte(x.l, 16)), b.s3(Byte(x.l, 8)), b.s4(Byte(x.l, 0)),
               b.s2(Byte(x.r, 24)), b.s3(Byte(x.r, 16)), b.s4(Byte(x.r, 8)), b.s1(Byte(x.r, 0)));
  }

  // ---- rounds under masks ----------------------------------------------------

  /**
   * One round: the input half is masked by the round's own key, so F sees what
   * it should; the table entry swaps the other half's mask `m` for `next`.
   */
  lemma RoundMasked(b: Boxes, da: Half, db: Half, k: Half, m: Half, next: Half)
    ensures RoundSm(b, Xor(da, k), InvHalfP(Xor(m, next)), Xor(db, m)) == Xor(Xor(db, F(b, da, k)), next)
  {
    hide MixSm, SubstituteAndMix, Xor, InvHalfP;
    MixIsF(b, Xor(da, k), Xor(m, next));
    MoveMask(db, m, SubstituteAndMix(b, Xor(da, k)), next);
  }

  /** The state `d` with its halves under masks `ma` and `mb`. */
  function Masked(d: Block, ma: Half, mb: Half): Block {
    Block(Xor(d.a, ma), Xor(d.b, mb))
  }

  lemma TwoMasked(b: Boxes, d: Block, k1: Half, k2: Half, m: Half, next: Half)
    ensures TwoFast(b, Masked(d, k1, m), InvHalfP(Xor(m, k2)), InvHalfP(Xor(k1, next)))
         == Masked(TwoRounds(b, d, k1, k2), next, k2)
  {
    hide RoundSm, Xor, InvHalfP, F;
    RoundMasked(b, d.a, d.b, k1, m, k2);
    var y := Xor(d.b, F(b, d.a, k1));
    RoundMasked(b, y, d.a, k2, k1, next);
  }

  /** The mask on the second half entering group `g`. */
  function MaskIn(k: seq<Half>, g: nat): Half
    requires 8 * g + 2 <= |k|
  {
    if g == 0 then k[1] else Unfl(k[8 * g - 1], k[8 * g + 1])
  }

  /** The mask on the first half leaving group `g` of `n`. */
  function MaskOut(k: seq<Half>, n: nat, g: nat): Half
    requires KeysFor(k, n) && g < n
  {
    if g == n - 1 then k[8 * n + 1] else Unfl(k[8 * g + 10], k[8 * g + 8])
  }

  /** The round entries of group `g`: each is the change of mask of its round, through the inverse half-P. */
  ghost predicate RekeyedGroup(k: seq<Half>, n: nat, t: seq<Half>, g: nat)
    requires KeysFor(k, n) && g < n && |t| >= 8 * n + 1
  {
    && t[8 * g + 2] == InvHalfP(Xor(MaskIn(k, g), k[8 * g + 3]))
    && t[8 * g + 3] == InvHalfP(Xor(k[8 * g + 2], k[8 * g + 4]))
    && t[8 * g + 4] == InvHalfP(Xor(k[8 * g + 3], k[8 * g + 5]))
    && t[8 * g + 5] == InvHalfP(Xor(k[8 * g + 4], k[8 * g + 6]))
    && t[8 * g + 6] == InvHalfP(Xor(k[8 * g + 5], k[8 * g + 7]))
    && t[8 * g + 7] == InvHalfP(Xor(k[8 * g + 6], MaskOut(k, n, g)))
  }

  /** What the table `camellia_setup_tail` leaves must be, in terms of the RFC's subkeys. */
  ghost predicate Rekeyed(k: seq<Half>, n: nat, t: seq<Half>)
    requires KeysFor(k, n) && |t| >= 8 * n + 1
  {
    && t[0] == Xor(k[0], k[2])
    && t[8 * n] == Xor(k[8 * n], k[8 * n - 1])
    && (forall g: nat :: g < n ==> RekeyedGroup(k, n, t, g))
    && (forall g: nat :: 0 < g < n ==> t[8 * g] == k[8 * g] && t[8 * g + 1] == k[8 * g + 1])
  }

  lemma SixMasked(b: Boxes, k: seq<Half>, n: nat, t: seq<Half>, g: nat, d: Block)
    requires KeysFor(k, n) && g < n && |t| >= 8 * n + 1 && RekeyedGroup(k, n, t, g)
    ensures SixFast(b, t, g, Masked(d, k[8 * g + 2], MaskIn(k, g)))
         == Masked(SixRounds(b, k, g, d), MaskOut(k, n, g), k[8 * g + 7])
  {
    hide TwoFast, TwoRounds, InvHalfP, Xor, Masked, MaskIn, MaskOut;
    var d2 := TwoRounds(b, d, k[8 * g + 2], k[8 * g + 3]);
    var d4 := TwoRounds(b, d2, k[8 * g + 4], k[8 * g + 5]);
    TwoMasked(b, d, k[8 * g + 2], k[8 * g + 3], MaskIn(k, g), k[8 * g + 4]);
    TwoMasked(b, d2, k[8 * g + 4], k[8 * g + 5], k[8 * g + 3], k[8 * g + 6]);
    TwoMasked(b, d4, k[8 * g + 6], k[8 * g + 7], k[8 * g + 5], MaskOut(k, n, g));
  }

  lemma {:induction false} GroupsMasked(b: Boxes, k: seq<Half>, n: nat, t: seq<Half>, g: nat, d: Block)
    requires KeysFor(k, n) && g < n && |t| >= 8 * n + 1 && Rekeyed(k, n, t)
    ensures GroupsFast(b, t, g, Masked(d, k[2], k[1])) == Masked(Groups(b, k, g, d), MaskOut(k, n, g), k[8 * g + 7])
  {
    hide SixFast, SixRounds, RekeyedGroup, Fl, FlInv, Xor, Unfl;
    if g == 0 {
      SixMasked(b, k, n, t, g, d);
    } else {
      GroupsMasked(b, k, n, t, g - 1, d);
      var e := Groups(b, k, g - 1, d);
      FlMask(e.a, k[8 * g + 2], k[8 * g]);
      FlInvMask(e.b, k[8 * g - 1], k[8 * g + 1]);
      assert FlLayer(t, g, Masked(e, MaskOut(k, n, g - 1), k[8 * g - 1]))
          == Masked(FlLayer(k, g, e), k[8 * g + 2], MaskIn(k, g));
      SixMasked(b, k, n, t, g, FlLayer(k, g, e));
    }
  }

  /**
   * For all S-boxes, subkeys, numbers of groups and blocks: with a rekeyed
   * table, `camellia_do_encrypt` followed by the caller's swap is the textbook
   * cipher.
   */
  lemma EncryptIsTextbook(b: Boxes, k: seq<Half>, n: nat, t: seq<Half>, m: Block)
    requires KeysFor(k, n) && |t| >= 8 * n + 1 && Rekeyed(k, n, t)
    ensures Swap(Encrypt(b, t, n, m)) == Textbook(b, k, n, m)
  {
    hide GroupsFast, Groups, RekeyedGroup, Xor, Unfl;
    var d := Block(Xor(m.a, k[0]), Xor(m.b, k[1]));
    Whitening(m.a, k[0], k[2]);
    XorTwice(m.b, k[1]);
    assert Masked(d, k[2], k[1]) == Block(Xor(m.a, t[0]), m.b);
    GroupsMasked(b, k, n, t, n - 1, d);
    var e := Groups(b, k, n - 1, d);
    XorBoth(e.b, k[8 * n - 1], k[8 * n]);
  }

  lemma Whitening(x: Half, a: Half, b: Half)
    ensures Xor(Xor(x, a), b) == Xor(x, Xor(a, b))
  {
    hide Xor32;
    XorAssoc(x.l, a.l, b.l);
    XorAssoc(x.r, a.r, b.r);
  }

  lemma XorBoth(x: Half, m: Half, k: Half)
    ensures Xor(Xor(x, m), Xor(k, m)) == Xor(x, k)
  {
    hide Xor32;
    Xor4(m.l, x.l, k.l);
    Xor4(m.r, x.r, k.r);
    XorComm(x.l, m.l);
    XorComm(x.r, m.r);
    XorComm(k.l, m.l);
    XorComm(k.r, m.r);
  }

  /** So decryption with the same table inverts the textbook cipher. */
  lemma DecryptInvertsTextbook(b: Boxes, k: seq<Half>, n: nat, t: seq<Half>, m: Block)
    requires KeysFor(k, n) && |t| >= 8 * n + 1 && Rekeyed(k, n, t)
    ensures Swap(Decrypt(b, t, n, Textbook(b, k, n, m))) == m
  {
    hide Decrypt, Encrypt, Textbook, Rekeyed;
    EncryptIsTextbook(b, k, n, t, m);
    DecryptUndoes(b, t, n, m);
  }
}
