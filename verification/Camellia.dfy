/**
 * Camellia over arbitrary S-boxes and subkeys: the cipher of sections 2.3 and
 * 2.4 of RFC 3713, the round form the implementation computes, and why the two
 * agree once the subkeys are rewritten.
 */
module Camellia {

  /** Half a block: the 64-bit quantity a round works on, as two words. */
  datatype Half = Half(l: bv32, r: bv32)

  datatype Block = Block(a: Half, b: Half)

  /** Any four S-boxes. */
  datatype Boxes = Boxes(s1: bv8 -> bv8, s2: bv8 -> bv8, s3: bv8 -> bv8, s4: bv8 -> bv8)

  function Rol1(x: bv32): bv32 {
    (x << 1) | (x >> 31)
  }

  function Rol8(x: bv32): bv32 {
    (x << 8) | (x >> 24)
  }

  function Ror8(x: bv32): bv32 {
    (x >> 8) | (x << 24)
  }

  function Xor32(x: bv32, y: bv32): bv32 {
    x ^ y
  }

  function Xor(x: Half, y: Half): Half {
    Half(Xor32(x.l, y.l), Xor32(x.r, y.r))
  }

  function Byte(x: bv32, shift: nat): bv8
    requires shift <= 24
  {
    ((x >> shift) & 0xFF) as bv8
  }

  function Pack(b1: bv8, b2: bv8, b3: bv8, b4: bv8): bv32 {
    (b1 as bv32 << 24) | (b2 as bv32 << 16) | (b3 as bv32 << 8) | (b4 as bv32)
  }

  // ---- section 2.4 of RFC 3713 -------------------------------------------

  function Sum5(a: bv8, b: bv8, c: bv8, d: bv8, e: bv8): bv8 {
    a ^ b ^ c ^ d ^ e
  }

  function Sum6(a: bv8, b: bv8, c: bv8, d: bv8, e: bv8, f: bv8): bv8 {
    a ^ b ^ c ^ d ^ e ^ f
  }

  /** The linear half of F: eight S-box outputs into eight bytes. */
  function P(t1: bv8, t2: bv8, t3: bv8, t4: bv8, t5: bv8, t6: bv8, t7: bv8, t8: bv8): Half {
    Half(Pack(Sum6(t1, t3, t4, t6, t7, t8), Sum6(t1, t2, t4, t5, t7, t8),
              Sum6(t1, t2, t3, t5, t6, t8), Sum6(t2, t3, t4, t5, t6, t7)),
         Pack(Sum5(t1, t2, t6, t7, t8), Sum5(t2, t3, t5, t7, t8),
              Sum5(t3, t4, t5, t6, t8), Sum5(t1, t4, t5, t6, t7)))
  }

  /** F without its key. */
  function SubstituteAndMix(b: Boxes, x: Half): Half {
    P(b.s1(Byte(x.l, 24)), b.s2(Byte(x.l, 16)), b.s3(Byte(x.l, 8)), b.s4(Byte(x.l, 0)),
      b.s2(Byte(x.r, 24)), b.s3(Byte(x.r, 16)), b.s4(Byte(x.r, 8)), b.s1(Byte(x.r, 0)))
  }

  function F(b: Boxes, x: Half, k: Half): Half {
    SubstituteAndMix(b, Xor(x, k))
  }

  function AndRol(x: bv32, k: bv32): bv32 {
    Rol1(x & k)
  }

  function Or32(x: bv32, k: bv32): bv32 {
    x | k
  }

  function Fl(x: Half, k: Half): Half {
    var r := Xor32(x.r, AndRol(x.l, k.l));
    Half(Xor32(x.l, Or32(r, k.r)), r)
  }

  function FlInv(y: Half, k: Half): Half {
    var l := Xor32(y.l, Or32(y.r, k.r));
    Half(l, Xor32(y.r, AndRol(l, k.l)))
  }

  function Bit(x: bv32, i: bv32): bv32
    requires i < 32
  {
    (x >> i) & 1
  }

  /** FL bit by bit: each bit of the product goes one place up, and the top one to the bottom. */
  lemma FlBits(x: Half, k: Half, i: bv32)
    requires i < 32
    ensures var y := Fl(x, k); var j := if i == 0 then 31 else i - 1;
            && Bit(y.r, i) == Bit(x.r, i) ^ (Bit(x.l, j) & Bit(k.l, j))
            && Bit(y.l, i) == Bit(x.l, i) ^ (Bit(y.r, i) | Bit(k.r, i))
  {
  }

  /** A word is its four bytes, the first one on top. */
  lemma BytesOf(x: bv32, b1: bv8, b2: bv8, b3: bv8, b4: bv8)
    ensures Pack(Byte(x, 24), Byte(x, 16), Byte(x, 8), Byte(x, 0)) == x
    ensures Pack(b1, b2, b3, b4) ==
            b1 as bv32 * 0x1000000 + b2 as bv32 * 0x10000 + b3 as bv32 * 0x100 + b4 as bv32
  {
  }

  // ---- section 2.3 of RFC 3713 -------------------------------------------

  /**
   * Subkeys in one table: kw1, kw2 at 0, 1; round keys of group `g` at
   * `8g + 2 .. 8g + 7`; the FL and FL-inverse keys before group `g > 0` at
   * `8g`, `8g + 1`; kw3, kw4 at `8n`, `8n + 1` for `n` groups of six rounds.
   */
  predicate KeysFor(k: seq<Half>, n: nat) {
    n > 0 && |k| == 8 * n + 2
  }

  function TwoRounds(b: Boxes, d: Block, k1: Half, k2: Half): Block {
    var y := Xor(d.b, F(b, d.a, k1));
    Block(Xor(d.a, F(b, y, k2)), y)
  }

  function SixRounds(b: Boxes, k: seq<Half>, g: nat, d: Block): Block
    requires 8 * g + 8 <= |k|
  {
    var d2 := TwoRounds(b, d, k[8 * g + 2], k[8 * g + 3]);
    var d4 := TwoRounds(b, d2, k[8 * g + 4], k[8 * g + 5]);
    TwoRounds(b, d4, k[8 * g + 6], k[8 * g + 7])
  }

  function FlLayer(k: seq<Half>, g: nat, d: Block): Block
    requires 8 * g + 2 <= |k|
  {
    Block(Fl(d.a, k[8 * g]), FlInv(d.b, k[8 * g + 1]))
  }

  /** Groups `0 .. g` of rounds, with an FL layer before each but the first. */
  function Groups(b: Boxes, k: seq<Half>, g: nat, d: Block): Block
    requires 8 * g + 8 <= |k|
  {
    SixRounds(b, k, g, if g == 0 then d else FlLayer(k, g, Groups(b, k, g - 1, d)))
  }

  function Textbook(b: Boxes, k: seq<Half>, n: nat, m: Block): Block
    requires KeysFor(k, n)
  {
    var d := Groups(b, k, n - 1, Block(Xor(m.a, k[0]), Xor(m.b, k[1])));
    Block(Xor(d.b, k[8 * n]), Xor(d.a, k[8 * n + 1]))
  }

  // ---- the implementation's form -------------------------------------------

  function Sp1110(b: Boxes, x: bv8): bv32 {
    Pack(b.s1(x), b.s1(x), b.s1(x), 0)
  }

  function Sp0222(b: Boxes, x: bv8): bv32 {
    Pack(0, b.s2(x), b.s2(x), b.s2(x))
  }

  function Sp3033(b: Boxes, x: bv8): bv32 {
    Pack(b.s3(x), 0, b.s3(x), b.s3(x))
  }

  function Sp4404(b: Boxes, x: bv8): bv32 {
    Pack(b.s4(x), b.s4(x), 0, b.s4(x))
  }

  function Sum4(a: bv32, b: bv32, c: bv32, d: bv32): bv32 {
    Xor32(Xor32(Xor32(a, b), c), d)
  }

  /** What CAMELLIA_ROUNDSM adds to the other half: no key at the input, a transformed key halfway through P. */
  function MixSm(b: Boxes, x: Half, k: Half): Half {
    var il := Sum4(Sp1110(b, Byte(x.l, 24)), Sp0222(b, Byte(x.l, 16)),
                   Sp3033(b, Byte(x.l, 8)), Sp4404(b, Byte(x.l, 0)));
    var ir := Sum4(Sp1110(b, Byte(x.r, 0)), Sp0222(b, Byte(x.r, 24)),
                   Sp3033(b, Byte(x.r, 16)), Sp4404(b, Byte(x.r, 8)));
    LastHalf(Xor32(il, k.l), ir, k.r)
  }

  /** The last half of P, taking in the right half of the key. */
  function LastHalf(il: bv32, ir: bv32, kr: bv32): Half {
    var y := Xor32(ir, Xor32(il, kr));
    Half(y, Xor32(Ror8(il), y))
  }

  function RoundSm(b: Boxes, x: Half, k: Half, y: Half): Half {
    Xor(y, MixSm(b, x, k))
  }

  function TwoFast(b: Boxes, d: Block, k1: Half, k2: Half): Block {
    var y := RoundSm(b, d.a, k1, d.b);
    Block(RoundSm(b, y, k2, d.a), y)
  }

  function SixFast(b: Boxes, t: seq<Half>, g: nat, d: Block): Block
    requires 8 * g + 8 <= |t|
  {
    var d2 := TwoFast(b, d, t[8 * g + 2], t[8 * g + 3]);
    var d4 := TwoFast(b, d2, t[8 * g + 4], t[8 * g + 5]);
    TwoFast(b, d4, t[8 * g + 6], t[8 * g + 7])
  }

  function GroupsFast(b: Boxes, t: seq<Half>, g: nat, d: Block): Block
    requires 8 * g + 8 <= |t|
  {
    SixFast(b, t, g, if g == 0 then d else FlLayer(t, g, GroupsFast(b, t, g - 1, d)))
  }

  /** `camellia_do_encrypt`, before the caller swaps the halves. */
  function Encrypt(b: Boxes, t: seq<Half>, n: nat, m: Block): Block
    requires n > 0 && |t| > 8 * n
  {
    var d := GroupsFast(b, t, n - 1, Block(Xor(m.a, t[0]), m.b));
    Block(d.a, Xor(d.b, t[8 * n]))
  }

  function SixBack(b: Boxes, t: seq<Half>, g: nat, d: Block): Block
    requires 8 * g + 8 <= |t|
  {
    var d2 := TwoFast(b, d, t[8 * g + 7], t[8 * g + 6]);
    var d4 := TwoFast(b, d2, t[8 * g + 5], t[8 * g + 4]);
    TwoFast(b, d4, t[8 * g + 3], t[8 * g + 2])
  }

  function FlBack(t: seq<Half>, g: nat, d: Block): Block
    requires 8 * g + 2 <= |t|
  {
    Block(Fl(d.a, t[8 * g + 1]), FlInv(d.b, t[8 * g]))
  }

  /** Groups `g` down to 0. */
  function GroupsBack(b: Boxes, t: seq<Half>, g: nat, d: Block): Block
    requires 8 * g + 8 <= |t|
  {
    var s := SixBack(b, t, g, d);
    if g == 0 then s else GroupsBack(b, t, g - 1, FlBack(t, g, s))
  }

  /** `camellia_do_decrypt`, before the caller swaps the halves. */
  function Decrypt(b: Boxes, t: seq<Half>, n: nat, c: Block): Block
    requires n > 0 && |t| > 8 * n
  {
    var d := GroupsBack(b, t, n - 1, Block(Xor(c.a, t[8 * n]), c.b));
    Block(d.a, Xor(d.b, t[0]))
  }

  function Swap(d: Block): Block {
    Block(d.b, d.a)
  }

  // ---- decryption undoes encryption ---------------------------------------

  lemma XorTwice32(x: bv32, y: bv32)
    ensures Xor32(Xor32(x, y), y) == x
  {
  }

  lemma XorTwice(x: Half, y: Half)
    ensures Xor(Xor(x, y), y) == x
  {
    hide Xor32;
    XorTwice32(x.l, y.l);
    XorTwice32(x.r, y.r);
  }

  lemma RoundTwice(b: Boxes, x: Half, k: Half, y: Half)
    ensures RoundSm(b, x, k, RoundSm(b, x, k, y)) == y
  {
    hide Xor, MixSm;
    XorTwice(y, MixSm(b, x, k));
  }

  lemma FlInverse(x: Half, k: Half)
    ensures FlInv(Fl(x, k), k) == x && Fl(FlInv(x, k), k) == x
  {
    hide Xor32, AndRol, Or32;
    var y := Fl(x, k);
    XorTwice32(x.l, Or32(y.r, k.r));
    XorTwice32(x.r, AndRol(x.l, k.l));
    var z := FlInv(x, k);
    XorTwice32(x.r, AndRol(z.l, k.l));
    XorTwice32(x.l, Or32(x.r, k.r));
  }

  lemma TwoBack(b: Boxes, d: Block, k1: Half, k2: Half)
    ensures TwoFast(b, Swap(TwoFast(b, d, k1, k2)), k2, k1) == Swap(d)
  {
    hide RoundSm;
    var y := RoundSm(b, d.a, k1, d.b);
    RoundTwice(b, y, k2, d.a);
    RoundTwice(b, d.a, k1, d.b);
  }

  lemma SixUndone(b: Boxes, t: seq<Half>, g: nat, d: Block)
    requires 8 * g + 8 <= |t|
    ensures SixBack(b, t, g, Swap(SixFast(b, t, g, d))) == Swap(d)
  {
    hide TwoFast;
    var d2 := TwoFast(b, d, t[8 * g + 2], t[8 * g + 3]);
    var d4 := TwoFast(b, d2, t[8 * g + 4], t[8 * g + 5]);
    TwoBack(b, d4, t[8 * g + 6], t[8 * g + 7]);
    TwoBack(b, d2, t[8 * g + 4], t[8 * g + 5]);
    TwoBack(b, d, t[8 * g + 2], t[8 * g + 3]);
  }

  lemma {:induction false} GroupsUndone(b: Boxes, t: seq<Half>, g: nat, d: Block)
    requires 8 * g + 8 <= |t|
    ensures GroupsBack(b, t, g, Swap(GroupsFast(b, t, g, d))) == Swap(d)
  {
    hide SixFast, SixBack, Fl, FlInv;
    if g == 0 {
      SixUndone(b, t, g, d);
    } else {
      var e := GroupsFast(b, t, g - 1, d);
      SixUndone(b, t, g, FlLayer(t, g, e));
      FlInverse(e.a, t[8 * g]);
      FlInverse(e.b, t[8 * g + 1]);
      GroupsUndone(b, t, g - 1, d);
    }
  }

  /** Whatever the S-boxes and the table, decryption of the swapped output gives back the block. */
  lemma DecryptUndoes(b: Boxes, t: seq<Half>, n: nat, m: Block)
    requires n > 0 && |t| > 8 * n
    ensures Swap(Decrypt(b, t, n, Swap(Encrypt(b, t, n, m)))) == m
  {
    hide GroupsFast, GroupsBack, Xor;
    var w := Block(Xor(m.a, t[0]), m.b);
    XorTwice(GroupsFast(b, t, n - 1, w).b, t[8 * n]);
    GroupsUndone(b, t, n - 1, w);
    XorTwice(m.a, t[0]);
  }
}
