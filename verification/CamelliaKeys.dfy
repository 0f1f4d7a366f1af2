/** `camellia_setup_tail` on its arrays, phase by phase, up to the rekeyed table. */
module CamelliaKeys {
  import opened Camellia
  import opened CamelliaRekey

  /** The parallel arrays `subL`, `subR` as one sequence of subkeys. */
  ghost function Zip(l: seq<bv32>, r: seq<bv32>): (k: seq<Half>)
    requires |l| == |r|
    ensures |k| == |l| && forall i :: 0 <= i < |k| ==> k[i] == Half(l[i], r[i])
  {
    seq(|l|, i requires 0 <= i < |l| => Half(l[i], r[i]))
  }

  /** The word table `subkey` as pairs, the way SUBKEY_L and SUBKEY_R index it. */
  ghost function Table(s: seq<bv32>): (t: seq<Half>)
    ensures |t| == |s| / 2 && forall i :: 0 <= i < |t| ==> t[i] == Half(s[2 * i], s[2 * i + 1])
  {
    seq(|s| / 2, i requires 0 <= i < |s| / 2 => Half(s[2 * i], s[2 * i + 1]))
  }

  // ---- what each phase leaves ----------------------------------------------

  /** kw2 as group `g` sees it. */
  ghost function Kw2(k: seq<Half>, g: nat): Half
    requires 8 * g + 2 <= |k|
  {
    if g == 0 then k[1] else Unfl(Kw2(k, g - 1), k[8 * g + 1])
  }

  /** kw4 as group `g` of `n` sees it. */
  ghost function Kw4(k: seq<Half>, n: nat, g: nat): Half
    requires KeysFor(k, n) && g < n
    decreases n - g
  {
    if g == n - 1 then k[8 * n + 1] else Unfl(Kw4(k, n, g + 1), k[8 * g + 8])
  }

  /** After both whitening keys are absorbed: even rounds carry kw2, odd rounds kw4, the FL keys are as they were. */
  ghost predicate AbsorbedGroup(k: seq<Half>, n: nat, s: seq<Half>, g: nat)
    requires KeysFor(k, n) && |s| == |k| && g < n
  {
    && s[8 * g + 2] == Xor(k[8 * g + 2], Kw4(k, n, g))
    && s[8 * g + 3] == Xor(k[8 * g + 3], Kw2(k, g))
    && s[8 * g + 4] == Xor(k[8 * g + 4], Kw4(k, n, g))
    && s[8 * g + 5] == Xor(k[8 * g + 5], Kw2(k, g))
    && s[8 * g + 6] == Xor(k[8 * g + 6], Kw4(k, n, g))
    && s[8 * g + 7] == Xor(k[8 * g + 7], Kw2(k, g))
    && (g > 0 ==> s[8 * g] == k[8 * g] && s[8 * g + 1] == k[8 * g + 1])
  }

  ghost predicate Absorbed(k: seq<Half>, n: nat, s: seq<Half>)
    requires KeysFor(k, n) && |s| == |k|
  {
    && s[0] == Xor(k[0], Kw4(k, n, 0))
    && s[8 * n] == Xor(k[8 * n], Kw2(k, n - 1))
    && forall g: nat :: g < n ==> AbsorbedGroup(k, n, s, g)
  }

  /** The table once the key XOR has moved to the end of F. */
  ghost predicate EmittedGroup(s: seq<Half>, n: nat, t: seq<Half>, g: nat)
    requires KeysFor(s, n) && |t| >= 8 * n + 1 && g < n
  {
    && t[8 * g + 2] == (if g == 0 then s[3] else Xor(Unfl(s[8 * g - 1], s[8 * g + 1]), s[8 * g + 3]))
    && t[8 * g + 3] == Xor(s[8 * g + 2], s[8 * g + 4])
    && t[8 * g + 4] == Xor(s[8 * g + 3], s[8 * g + 5])
    && t[8 * g + 5] == Xor(s[8 * g + 4], s[8 * g + 6])
    && t[8 * g + 6] == Xor(s[8 * g + 5], s[8 * g + 7])
    && t[8 * g + 7] == (if g == n - 1 then s[8 * g + 6] else Xor(s[8 * g + 6], Unfl(s[8 * g + 10], s[8 * g + 8])))
    && (g > 0 ==> t[8 * g] == s[8 * g] && t[8 * g + 1] == s[8 * g + 1])
  }

  ghost predicate Emitted(s: seq<Half>, n: nat, t: seq<Half>)
    requires KeysFor(s, n) && |t| >= 8 * n + 1
  {
    && t[0] == Xor(s[0], s[2])
    && t[8 * n] == Xor(s[8 * n], s[8 * n - 1])
    && forall g: nat :: g < n ==> EmittedGroup(s, n, t, g)
  }

  /** The round entries below `m` have been through the inverse half-P, nothing else. */
  ghost predicate HalfPd(t: seq<Half>, u: seq<Half>, m: nat) {
    && |u| == |t|
    && forall i :: 0 <= i < |t| ==> u[i] == if 2 <= i < m && i % 8 >= 2 then InvHalfP(t[i]) else t[i]
  }

  // ---- the phases compose -----------------------------------------------------

  /** `RekeyedGroup` before the inverse half-P. */
  ghost predicate MaskChanges(k: seq<Half>, n: nat, t: seq<Half>, g: nat)
    requires KeysFor(k, n) && g < n && |t| >= 8 * n + 1
  {
    && t[8 * g + 2] == Xor(MaskIn(k, g), k[8 * g + 3])
    && t[8 * g + 3] == Xor(k[8 * g + 2], k[8 * g + 4])
    && t[8 * g + 4] == Xor(k[8 * g + 3], k[8 * g + 5])
    && t[8 * g + 5] == Xor(k[8 * g + 4], k[8 * g + 6])
    && t[8 * g + 6] == Xor(k[8 * g + 5], k[8 * g + 7])
    && t[8 * g + 7] == Xor(k[8 * g + 6], MaskOut(k, n, g))
  }

  lemma FirstEntry(k: seq<Half>, n: nat, s: seq<Half>, t: seq<Half>, g: nat)
    requires KeysFor(k, n) && |s| == |k| && |t| >= 8 * n + 1 && g < n
    requires AbsorbedGroup(k, n, s, g) && EmittedGroup(s, n, t, g) && (g > 0 ==> AbsorbedGroup(k, n, s, g - 1))
    ensures t[8 * g + 2] == Xor(MaskIn(k, g), k[8 * g + 3])
  {
    hide Xor, Unfl;
    if g == 0 {
      XorCommHalf(k[3], k[1]);
    } else {
      UnflXor(k[8 * g - 1], Kw2(k, g - 1), k[8 * g + 1]);
      XorBoth(MaskIn(k, g), Kw2(k, g), k[8 * g + 3]);
    }
  }

  lemma LastEntry(k: seq<Half>, n: nat, s: seq<Half>, t: seq<Half>, g: nat)
    requires KeysFor(k, n) && |s| == |k| && |t| >= 8 * n + 1 && g < n
    requires AbsorbedGroup(k, n, s, g) && EmittedGroup(s, n, t, g) && (g < n - 1 ==> AbsorbedGroup(k, n, s, g + 1))
    ensures t[8 * g + 7] == Xor(k[8 * g + 6], MaskOut(k, n, g))
  {
    hide Xor, Unfl, Kw2;
    if g < n - 1 {
      UnflXor(k[8 * g + 10], Kw4(k, n, g + 1), k[8 * g + 8]);
      XorBoth(k[8 * g + 6], Kw4(k, n, g), MaskOut(k, n, g));
    }
  }

  lemma GroupEntries(k: seq<Half>, n: nat, s: seq<Half>, t: seq<Half>, g: nat)
    requires KeysFor(k, n) && |s| == |k| && |t| >= 8 * n + 1 && g < n
    requires AbsorbedGroup(k, n, s, g) && EmittedGroup(s, n, t, g)
    requires (g > 0 ==> AbsorbedGroup(k, n, s, g - 1)) && (g < n - 1 ==> AbsorbedGroup(k, n, s, g + 1))
    ensures MaskChanges(k, n, t, g)
    ensures g > 0 ==> t[8 * g] == k[8 * g] && t[8 * g + 1] == k[8 * g + 1]
  {
    hide Xor, Unfl, Kw2, Kw4, MaskIn, MaskOut;
    var m2, m4 := Kw2(k, g), Kw4(k, n, g);
    FirstEntry(k, n, s, t, g);
    XorBoth(k[8 * g + 2], m4, k[8 * g + 4]);
    XorBoth(k[8 * g + 3], m2, k[8 * g + 5]);
    XorBoth(k[8 * g + 4], m4, k[8 * g + 6]);
    XorBoth(k[8 * g + 5], m2, k[8 * g + 7]);
    LastEntry(k, n, s, t, g);
  }

  lemma HalfPAt(t: seq<Half>, u: seq<Half>, n: nat, g: nat, j: nat)
    requires g < n && 8 * n <= |t| && j < 8 && HalfPd(t, u, 8 * n)
    ensures |u| == |t| && (8 * g + j >= 2 ==> u[8 * g + j] == if j >= 2 then InvHalfP(t[8 * g + j]) else t[8 * g + j])
  {
    hide InvHalfP;
    var i := 8 * g + j;
    assert i % 8 == j;
  }

  lemma GroupRekeyed(k: seq<Half>, n: nat, t: seq<Half>, u: seq<Half>, g: nat)
    requires KeysFor(k, n) && |t| >= 8 * n + 1 && g < n && MaskChanges(k, n, t, g) && HalfPd(t, u, 8 * n)
    ensures RekeyedGroup(k, n, u, g)
    ensures g > 0 ==> u[8 * g] == t[8 * g] && u[8 * g + 1] == t[8 * g + 1]
  {
    hide Xor, InvHalfP, MaskIn, MaskOut, HalfPd;
    HalfPAt(t, u, n, g, 0);
    HalfPAt(t, u, n, g, 1);
    HalfPAt(t, u, n, g, 2);
    HalfPAt(t, u, n, g, 3);
    HalfPAt(t, u, n, g, 4);
    HalfPAt(t, u, n, g, 5);
    HalfPAt(t, u, n, g, 6);
    HalfPAt(t, u, n, g, 7);
  }

  lemma XorCommHalf(x: Half, y: Half)
    ensures Xor(x, y) == Xor(y, x)
  {
    hide Xor32;
    XorComm(x.l, y.l);
    XorComm(x.r, y.r);
  }

  /** The three phases together leave the table the cipher needs. */
  lemma PhasesRekey(k: seq<Half>, n: nat, s: seq<Half>, t: seq<Half>, u: seq<Half>)
    requires KeysFor(k, n) && |s| == |k| && |t| >= 8 * n + 1
    requires Absorbed(k, n, s) && Emitted(s, n, t) && HalfPd(t, u, 8 * n)
    ensures Rekeyed(k, n, u)
  {
    hide AbsorbedGroup, EmittedGroup, RekeyedGroup, MaskChanges, Xor, InvHalfP;
    forall g: nat | g < n
      ensures RekeyedGroup(k, n, u, g) && (g > 0 ==> u[8 * g] == k[8 * g] && u[8 * g + 1] == k[8 * g + 1])
    {
      GroupEntries(k, n, s, t, g);
      GroupRekeyed(k, n, t, u, g);
    }
    Ends(k, n, s);
  }

  lemma Ends(k: seq<Half>, n: nat, s: seq<Half>)
    requires KeysFor(k, n) && |s| == |k| && Absorbed(k, n, s)
    ensures Xor(s[0], s[2]) == Xor(k[0], k[2]) && Xor(s[8 * n], s[8 * n - 1]) == Xor(k[8 * n], k[8 * n - 1])
  {
    hide Xor, Kw2, Kw4;
    assert AbsorbedGroup(k, n, s, 0) && AbsorbedGroup(k, n, s, n - 1);
    XorBoth(k[0], Kw4(k, n, 0), k[2]);
    XorBoth(k[8 * n], Kw2(k, n - 1), k[8 * n - 1]);
  }

  // ---- absorbing the whitening keys ----------------------------------------------

  ghost function XorAt(s: seq<Half>, i: nat, m: Half): seq<Half>
    requires i < |s|
  {
    s[i := Xor(s[i], m)]
  }

  ghost function Three(s: seq<Half>, i: nat, m: Half): seq<Half>
    requires i + 4 < |s|
  {
    XorAt(XorAt(XorAt(s, i, m), i + 2, m), i + 4, m)
  }

  method XorInto(subL: array<bv32>, subR: array<bv32>, i: nat, l: bv32, r: bv32)
    requires subL != subR && subL.Length == subR.Length && i < subL.Length
    modifies subL, subR
    ensures Zip(subL[..], subR[..]) == XorAt(old(Zip(subL[..], subR[..])), i, Half(l, r))
  {
    hide Xor32;
    subL[i] := Xor32(subL[i], l);
    subR[i] := Xor32(subR[i], r);
  }

  method XorThree(subL: array<bv32>, subR: array<bv32>, i: nat, l: bv32, r: bv32)
    requires subL != subR && subL.Length == subR.Length && i + 4 < subL.Length
    modifies subL, subR
    ensures Zip(subL[..], subR[..]) == Three(old(Zip(subL[..], subR[..])), i, Half(l, r))
  {
    hide Xor;
    XorInto(subL, subR, i, l, r);
    XorInto(subL, subR, i + 2, l, r);
    XorInto(subL, subR, i + 4, l, r);
  }

  /** The lines marked "modified for FL" and "modified for FLinv". */
  method ThroughFl(l: bv32, r: bv32, kl: bv32, kr: bv32) returns (l': bv32, r': bv32)
    ensures Half(l', r') == Unfl(Half(l, r), Half(kl, kr))
  {
    hide Xor32, AndNot, AndRol;
    l' := Xor32(l, AndNot(r, kr));
    r' := Xor32(r, AndRol(l', kl));
  }

  /** kw2 goes through the FL-inverse key at `i` and into the three even rounds behind it. */
  method AbsorbKw2Group(subL: array<bv32>, subR: array<bv32>, i: nat)
    requires subL != subR && subL.Length == subR.Length && 1 < i && i + 6 < subL.Length
    modifies subL, subR
    ensures Zip(subL[..], subR[..]) == Kw2Group(old(Zip(subL[..], subR[..])), i)
  {
    hide Xor, Unfl;
    var l, r := ThroughFl(subL[1], subR[1], subL[i], subR[i]);
    subL[1], subR[1] := l, r;
    ghost var k := old(Zip(subL[..], subR[..]));
    assert Zip(subL[..], subR[..]) == k[1 := Unfl(k[1], k[i])];
    XorThree(subL, subR, i + 2, subL[1], subR[1]);
  }

  ghost function Kw2Group(k: seq<Half>, i: nat): seq<Half>
    requires 1 < i && i + 6 < |k|
  {
    var m := Unfl(k[1], k[i]);
    Three(k[1 := m], i + 2, m)
  }

  ghost predicate Kw2In(k: seq<Half>, s: seq<Half>, g: nat)
    requires |s| == |k| && 8 * g + 8 <= |k|
  {
    && s[8 * g + 2] == k[8 * g + 2] && s[8 * g + 3] == Xor(k[8 * g + 3], Kw2(k, g))
    && s[8 * g + 4] == k[8 * g + 4] && s[8 * g + 5] == Xor(k[8 * g + 5], Kw2(k, g))
    && s[8 * g + 6] == k[8 * g + 6] && s[8 * g + 7] == Xor(k[8 * g + 7], Kw2(k, g))
    && (g > 0 ==> s[8 * g] == k[8 * g] && s[8 * g + 1] == k[8 * g + 1])
  }

  /** Groups `0 .. g` have absorbed kw2. */
  ghost predicate HasKw2(k: seq<Half>, g: nat, s: seq<Half>)
    requires 8 * g + 8 <= |k|
  {
    && |s| == |k| && s[0] == k[0] && s[1] == Kw2(k, g)
    && (forall h: nat :: h <= g ==> Kw2In(k, s, h))
    && forall i :: 8 * g + 8 <= i < |k| ==> s[i] == k[i]
  }

  lemma Kw2Start(k: seq<Half>)
    requires |k| > 7
    ensures HasKw2(k, 0, Three(k, 3, k[1]))
  {
    hide Xor;
  }

  lemma Kw2Step(k: seq<Half>, g: nat, s: seq<Half>)
    requires 8 * g + 16 <= |k| && HasKw2(k, g, s)
    ensures HasKw2(k, g + 1, Kw2Group(s, 8 * g + 9))
  {
    hide Xor, Unfl;
    var u := Kw2Group(s, 8 * g + 9);
    forall h: nat | h <= g + 1 ensures Kw2In(k, u, h) {
      if h <= g { assert Kw2In(k, s, h); }
    }
  }

  /** Every even round, and kw3, have absorbed kw2. */
  ghost predicate AbsorbedKw2(k: seq<Half>, n: nat, s: seq<Half>)
    requires KeysFor(k, n)
  {
    && |s| == |k| && s[0] == k[0]
    && (forall h: nat :: h < n ==> Kw2In(k, s, h))
    && s[8 * n] == Xor(k[8 * n], Kw2(k, n - 1)) && s[8 * n + 1] == k[8 * n + 1]
  }

  lemma Kw2Last(k: seq<Half>, n: nat, s: seq<Half>)
    requires KeysFor(k, n) && HasKw2(k, n - 1, s)
    ensures AbsorbedKw2(k, n, XorAt(s, 8 * n, s[1]))
  {
    hide Xor, Kw2;
    var u := XorAt(s, 8 * n, s[1]);
    forall h: nat | h < n ensures Kw2In(k, u, h) {
      assert Kw2In(k, s, h);
    }
  }

  method AbsorbKw2(subL: array<bv32>, subR: array<bv32>, max: nat)
    requires max == 24 || max == 32
    requires subL != subR && subL.Length == subR.Length == max + 2
    modifies subL, subR
    ensures AbsorbedKw2(old(Zip(subL[..], subR[..])), max / 8, Zip(subL[..], subR[..]))
  {
    hide Xor, Unfl, Kw2Group, HasKw2, Three;
    ghost var k := Zip(subL[..], subR[..]);
    XorThree(subL, subR, 3, subL[1], subR[1]);
    Kw2Start(k);
    Kw2Step(k, 0, Zip(subL[..], subR[..]));
    AbsorbKw2Group(subL, subR, 9);
    Kw2Step(k, 1, Zip(subL[..], subR[..]));
    AbsorbKw2Group(subL, subR, 17);
    if max == 32 {
      Kw2Step(k, 2, Zip(subL[..], subR[..]));
      AbsorbKw2Group(subL, subR, 25);
    }
    Kw2Last(k, max / 8, Zip(subL[..], subR[..]));
    XorInto(subL, subR, max, subL[1], subR[1]);
  }

  /** kw4 goes into the three odd rounds of the group at `i`, last first. */
  ghost function Kw4Three(s: seq<Half>, i: nat, m: Half): seq<Half>
    requires i + 6 < |s|
  {
    XorAt(XorAt(XorAt(s, i + 6, m), i + 4, m), i + 2, m)
  }

  method AbsorbKw4Group(subL: array<bv32>, subR: array<bv32>, i: nat, l: bv32, r: bv32)
    requires subL != subR && subL.Length == subR.Length && i + 6 < subL.Length
    modifies subL, subR
    ensures Zip(subL[..], subR[..]) == Kw4Three(old(Zip(subL[..], subR[..])), i, Half(l, r))
  {
    hide Xor;
    XorInto(subL, subR, i + 6, l, r);
    XorInto(subL, subR, i + 4, l, r);
    XorInto(subL, subR, i + 2, l, r);
  }

  ghost predicate Kw4In(k: seq<Half>, n: nat, s: seq<Half>, u: seq<Half>, g: nat)
    requires KeysFor(k, n) && |s| == |u| == |k| && g < n
  {
    && u[8 * g + 2] == Xor(s[8 * g + 2], Kw4(k, n, g)) && u[8 * g + 3] == s[8 * g + 3]
    && u[8 * g + 4] == Xor(s[8 * g + 4], Kw4(k, n, g)) && u[8 * g + 5] == s[8 * g + 5]
    && u[8 * g + 6] == Xor(s[8 * g + 6], Kw4(k, n, g)) && u[8 * g + 7] == s[8 * g + 7]
    && u[8 * g] == s[8 * g] && u[8 * g + 1] == s[8 * g + 1]
  }

  /** Starting from `s`, groups `g .. n - 1` have absorbed kw4. */
  ghost predicate HasKw4(k: seq<Half>, n: nat, s: seq<Half>, g: nat, u: seq<Half>)
    requires KeysFor(k, n) && |s| == |k| && g <= n
  {
    && |u| == |s|
    && (forall h: nat :: g <= h < n ==> Kw4In(k, n, s, u, h))
    && (forall i :: 0 <= i < 8 * g ==> u[i] == s[i])
    && u[8 * n] == s[8 * n]
  }

  lemma Kw4Step(k: seq<Half>, n: nat, s: seq<Half>, g: nat, u: seq<Half>)
    requires KeysFor(k, n) && |s| == |k| && 0 < g <= n && HasKw4(k, n, s, g, u)
    ensures HasKw4(k, n, s, g - 1, Kw4Three(u, 8 * g - 8, Kw4(k, n, g - 1)))
  {
    hide Xor, Kw4;
    var v := Kw4Three(u, 8 * g - 8, Kw4(k, n, g - 1));
    forall h: nat | g - 1 <= h < n ensures Kw4In(k, n, s, v, h) {
      if g <= h { assert Kw4In(k, n, s, u, h); }
    }
  }

  /** Both absorptions together. */
  lemma BothAbsorbed(k: seq<Half>, n: nat, s: seq<Half>, u: seq<Half>)
    requires KeysFor(k, n) && AbsorbedKw2(k, n, s) && HasKw4(k, n, s, 0, u)
    ensures Absorbed(k, n, XorAt(u, 0, Kw4(k, n, 0)))
  {
    hide Xor, Kw2, Kw4;
    var v := XorAt(u, 0, Kw4(k, n, 0));
    forall g: nat | g < n ensures AbsorbedGroup(k, n, v, g) {
      assert Kw2In(k, s, g) && Kw4In(k, n, s, u, g);
    }
    assert Kw4In(k, n, s, u, 0);
  }

  lemma FlKeyKept(k: seq<Half>, n: nat, s: seq<Half>, g: nat, u: seq<Half>)
    requires KeysFor(k, n) && AbsorbedKw2(k, n, s) && g < n && HasKw4(k, n, s, g, u)
    ensures g > 0 ==> u[8 * g] == k[8 * g]
  {
    hide Xor, Kw2, Kw4;
    assert Kw2In(k, s, g) && Kw4In(k, n, s, u, g);
  }

  /** Group `g` absorbs kw4, which then goes back through that group's FL key. */
  method AbsorbKw4Through(subL: array<bv32>, subR: array<bv32>, g: nat, l: bv32, r: bv32, ghost k: seq<Half>,
                          ghost n: nat, ghost s: seq<Half>)
    returns (l': bv32, r': bv32)
    requires KeysFor(k, n) && AbsorbedKw2(k, n, s) && 0 < g < n
    requires subL != subR && subL.Length == subR.Length == 8 * n + 2
    requires HasKw4(k, n, s, g + 1, Zip(subL[..], subR[..])) && Half(l, r) == Kw4(k, n, g)
    modifies subL, subR
    ensures HasKw4(k, n, s, g, Zip(subL[..], subR[..])) && Half(l', r') == Kw4(k, n, g - 1)
  {
    hide Xor, Unfl, Kw4Three, HasKw4, Kw2In;
    Kw4Step(k, n, s, g + 1, Zip(subL[..], subR[..]));
    AbsorbKw4Group(subL, subR, 8 * g, l, r);
    FlKeyKept(k, n, s, g, Zip(subL[..], subR[..]));
    l', r' := ThroughFl(l, r, subL[8 * g], subR[8 * g]);
  }

  method AbsorbKw4(subL: array<bv32>, subR: array<bv32>, max: nat, ghost k: seq<Half>)
    requires max == 24 || max == 32
    requires subL != subR && subL.Length == subR.Length == max + 2
    requires KeysFor(k, max / 8) && AbsorbedKw2(k, max / 8, Zip(subL[..], subR[..]))
    modifies subL, subR
    ensures Absorbed(k, max / 8, Zip(subL[..], subR[..]))
  {
    hide Xor, Unfl, Kw4Three, HasKw4, XorAt, Kw2In, Absorbed;
    ghost var n := max / 8;
    ghost var s := Zip(subL[..], subR[..]);
    var l, r := subL[max + 1], subR[max + 1];
    HasKw4None(k, n, s);
    if max == 32 {
      l, r := AbsorbKw4Through(subL, subR, 3, l, r, k, n, s);
    }
    l, r := AbsorbKw4Through(subL, subR, 2, l, r, k, n, s);
    l, r := AbsorbKw4Through(subL, subR, 1, l, r, k, n, s);
    Kw4Step(k, n, s, 1, Zip(subL[..], subR[..]));
    AbsorbKw4Group(subL, subR, 0, l, r);
    BothAbsorbed(k, n, s, Zip(subL[..], subR[..]));
    XorInto(subL, subR, 0, l, r);
  }

  lemma HasKw4None(k: seq<Half>, n: nat, s: seq<Half>)
    requires KeysFor(k, n) && |s| == |k|
    ensures HasKw4(k, n, s, n, s)
  {
  }

  // ---- moving the key XOR to the end of F ------------------------------------------

  method Store(subkey: array<bv32>, i: nat, l: bv32, r: bv32)
    requires 2 * i + 1 < subkey.Length
    modifies subkey
    ensures Table(subkey[..]) == old(Table(subkey[..]))[i := Half(l, r)]
  {
    subkey[2 * i] := l;
    subkey[2 * i + 1] := r;
  }

  method StoreXor(subkey: array<bv32>, i: nat, l: bv32, r: bv32, l2: bv32, r2: bv32)
    requires 2 * i + 1 < subkey.Length
    modifies subkey
    ensures Table(subkey[..]) == old(Table(subkey[..]))[i := Xor(Half(l, r), Half(l2, r2))]
  {
    hide Xor32;
    Store(subkey, i, Xor32(l, l2), Xor32(r, r2));
  }

  /** Entry `i` of the table, apart from both ends. */
  ghost function Entry(s: seq<Half>, i: nat): Half
    requires 2 <= i && i + 3 < |s|
  {
    if i % 8 < 2 then s[i]
    else if i == 2 then s[3]
    else if i % 8 == 2 then Xor(Unfl(s[i - 3], s[i - 1]), s[i + 1])
    else if i % 8 == 7 then Xor(s[i - 1], Unfl(s[i + 3], s[i + 1]))
    else Xor(s[i - 1], s[i + 1])
  }

  /** The table holds entry 0 and entries `2 .. m - 1`. */
  ghost predicate Filled(s: seq<Half>, t: seq<Half>, m: nat)
    requires 2 <= m && m + 2 < |s| && |s| <= |t|
  {
    t[0] == Xor(s[0], s[2]) && forall i :: 2 <= i < m ==> t[i] == Entry(s, i)
  }

  lemma FilledNext(s: seq<Half>, t: seq<Half>, m: nat)
    requires 2 <= m && m + 3 < |s| && |s| <= |t| && Filled(s, t, m)
    ensures Filled(s, t[m := Entry(s, m)], m + 1)
  {
    hide Xor, Entry;
  }

  lemma MiddleEntry(s: seq<Half>, i: nat)
    requires 3 <= i && i + 3 < |s| && 3 <= i % 8 <= 6
    ensures Entry(s, i) == Xor(s[i - 1], s[i + 1])
  {
    hide Xor, Unfl;
  }

  lemma LayerEntries(s: seq<Half>, i: nat)
    requires 8 <= i && i % 8 == 0 && i + 5 < |s|
    ensures Entry(s, i - 1) == Xor(s[i - 2], Unfl(s[i + 2], s[i])) && Entry(s, i) == s[i]
    ensures Entry(s, i + 1) == s[i + 1] && Entry(s, i + 2) == Xor(Unfl(s[i - 1], s[i + 1]), s[i + 3])
  {
    hide Xor, Unfl;
  }

  /** A middle round: the mask of the round before gives way to that of the round behind. */
  method EmitRound(subkey: array<bv32>, subL: array<bv32>, subR: array<bv32>, i: nat)
    requires subkey != subL && subkey != subR && subL.Length == subR.Length && 2 * subL.Length <= subkey.Length
    requires 3 <= i % 8 <= 6 && i + 3 < subL.Length && Filled(Zip(subL[..], subR[..]), Table(subkey[..]), i)
    modifies subkey
    ensures Filled(Zip(subL[..], subR[..]), Table(subkey[..]), i + 1)
  {
    hide Xor, Filled, Entry;
    FilledNext(Zip(subL[..], subR[..]), Table(subkey[..]), i);
    MiddleEntry(Zip(subL[..], subR[..]), i);
    StoreXor(subkey, i, subL[i - 1], subR[i - 1], subL[i + 1], subR[i + 1]);
  }

  method EmitMiddle(subkey: array<bv32>, subL: array<bv32>, subR: array<bv32>, i: nat)
    requires subkey != subL && subkey != subR && subL.Length == subR.Length && 2 * subL.Length <= subkey.Length
    requires i % 8 == 0 && i + 9 < subL.Length && Filled(Zip(subL[..], subR[..]), Table(subkey[..]), i + 3)
    modifies subkey
    ensures Filled(Zip(subL[..], subR[..]), Table(subkey[..]), i + 7)
  {
    hide Filled;
    EmitRound(subkey, subL, subR, i + 3);
    EmitRound(subkey, subL, subR, i + 4);
    EmitRound(subkey, subL, subR, i + 5);
    EmitRound(subkey, subL, subR, i + 6);
  }

  /** The last round before the FL layer at `i`, its two keys, and the first round behind it. */
  method EmitLayer(subkey: array<bv32>, subL: array<bv32>, subR: array<bv32>, i: nat)
    requires subkey != subL && subkey != subR && subL.Length == subR.Length && 2 * subL.Length <= subkey.Length
    requires i % 8 == 0 && 8 <= i && i + 5 < subL.Length && Filled(Zip(subL[..], subR[..]), Table(subkey[..]), i - 1)
    modifies subkey
    ensures Filled(Zip(subL[..], subR[..]), Table(subkey[..]), i + 3)
  {
    hide Xor, Unfl, Filled, Entry;
    ghost var s := Zip(subL[..], subR[..]);
    LayerEntries(s, i);
    var tl, tr := ThroughFl(subL[i + 2], subR[i + 2], subL[i], subR[i]);
    FilledNext(s, Table(subkey[..]), i - 1);
    StoreXor(subkey, i - 1, subL[i - 2], subR[i - 2], tl, tr);
    FilledNext(s, Table(subkey[..]), i);
    Store(subkey, i, subL[i], subR[i]);
    FilledNext(s, Table(subkey[..]), i + 1);
    Store(subkey, i + 1, subL[i + 1], subR[i + 1]);
    tl, tr := ThroughFl(subL[i - 1], subR[i - 1], subL[i + 1], subR[i + 1]);
    FilledNext(s, Table(subkey[..]), i + 2);
    StoreXor(subkey, i + 2, tl, tr, subL[i + 3], subR[i + 3]);
  }

  /** Entry 0 and the first round. */
  method EmitFirst(subkey: array<bv32>, subL: array<bv32>, subR: array<bv32>)
    requires subkey != subL && subkey != subR && subL.Length == subR.Length && 2 * subL.Length <= subkey.Length &&
             5 < subL.Length
    modifies subkey
    ensures Filled(Zip(subL[..], subR[..]), Table(subkey[..]), 3)
  {
    hide Xor, Unfl;
    StoreXor(subkey, 0, subL[0], subR[0], subL[2], subR[2]);
    Store(subkey, 2, subL[3], subR[3]);
  }

  /** The last round and kw3. */
  method EmitLast(subkey: array<bv32>, subL: array<bv32>, subR: array<bv32>, max: nat)
    requires subkey != subL && subkey != subR && subL.Length == subR.Length == max + 2 &&
             2 * subL.Length <= subkey.Length
    requires 8 <= max && max % 8 == 0 && Filled(Zip(subL[..], subR[..]), Table(subkey[..]), max - 1)
    modifies subkey
    ensures Emitted(Zip(subL[..], subR[..]), max / 8, Table(subkey[..]))
  {
    hide Xor, Unfl, Emitted, Entry;
    Store(subkey, max - 1, subL[max - 2], subR[max - 2]);
    StoreXor(subkey, max, subL[max], subR[max], subL[max - 1], subR[max - 1]);
    FilledEmits(Zip(subL[..], subR[..]), max / 8, Table(subkey[..]));
  }

  lemma FilledEmits(s: seq<Half>, n: nat, t: seq<Half>)
    requires KeysFor(s, n) && |s| <= |t| && Filled(s, t, 8 * n - 1)
    requires t[8 * n - 1] == s[8 * n - 2] && t[8 * n] == Xor(s[8 * n], s[8 * n - 1])
    ensures Emitted(s, n, t)
  {
    forall g: nat | g < n ensures EmittedGroup(s, n, t, g) {
      EmittedAt(s, n, t, g);
    }
  }

  lemma EmittedAt(s: seq<Half>, n: nat, t: seq<Half>, g: nat)
    requires KeysFor(s, n) && |s| <= |t| && Filled(s, t, 8 * n - 1) && g < n && t[8 * n - 1] == s[8 * n - 2]
    ensures EmittedGroup(s, n, t, g)
  {
    hide Xor, Unfl;
    assert (8 * g) % 8 == 0;
  }

  method Emit(subkey: array<bv32>, subL: array<bv32>, subR: array<bv32>, max: nat)
    requires max == 24 || max == 32
    requires subkey != subL && subkey != subR && subL.Length == subR.Length == max + 2 && subkey.Length == 68
    modifies subkey
    ensures Emitted(Zip(subL[..], subR[..]), max / 8, Table(subkey[..]))
  {
    hide Emitted, Filled;
    EmitFirst(subkey, subL, subR);
    EmitMiddle(subkey, subL, subR, 0);
    EmitLayer(subkey, subL, subR, 8);
    EmitMiddle(subkey, subL, subR, 8);
    EmitLayer(subkey, subL, subR, 16);
    EmitMiddle(subkey, subL, subR, 16);
    if max == 32 {
      EmitLayer(subkey, subL, subR, 24);
      EmitMiddle(subkey, subL, subR, 24);
    }
    EmitLast(subkey, subL, subR, max);
  }

  // ---- the inverse half-P --------------------------------------------------------------

  method HalfPInto(subkey: array<bv32>, i: nat)
    requires 2 * i + 1 < subkey.Length
    modifies subkey
    ensures Table(subkey[..]) == old(Table(subkey[..]))[i := InvHalfP(old(Table(subkey[..]))[i])]
  {
    hide Xor32, Rol8;
    var dw := Rol8(Xor32(subkey[2 * i], subkey[2 * i + 1]));
    Store(subkey, i, dw, Xor32(subkey[2 * i], dw));
  }

  lemma HalfPNext(t: seq<Half>, u: seq<Half>, i: nat)
    requires 2 <= i < |t| && i % 8 >= 2 && HalfPd(t, u, i)
    ensures u[i] == t[i] && HalfPd(t, u[i := InvHalfP(t[i])], i + 1)
  {
    hide InvHalfP;
  }

  lemma HalfPSkip(t: seq<Half>, u: seq<Half>, g: nat)
    requires HalfPd(t, u, 8 * g)
    ensures HalfPd(t, u, 8 * g + 2)
  {
    hide InvHalfP;
  }

  /** Two of the six rounds in one pass of the loop. */
  method HalfPTwo(subkey: array<bv32>, i: nat, ghost t: seq<Half>)
    requires 2 <= i % 8 <= 6 && 2 * i + 4 <= subkey.Length && HalfPd(t, Table(subkey[..]), i)
    modifies subkey
    ensures HalfPd(t, Table(subkey[..]), i + 2)
  {
    hide InvHalfP, HalfPd;
    HalfPLength(t, Table(subkey[..]), i);
    HalfPNext(t, Table(subkey[..]), i);
    HalfPInto(subkey, i);
    HalfPNext(t, Table(subkey[..]), i + 1);
    HalfPInto(subkey, i + 1);
  }

  lemma HalfPLength(t: seq<Half>, u: seq<Half>, m: nat)
    requires HalfPd(t, u, m)
    ensures |t| == |u|
  {
  }

  method InverseHalfP(subkey: array<bv32>, max: nat)
    requires max == 24 || max == 32
    requires subkey.Length == 68
    modifies subkey
    ensures HalfPd(old(Table(subkey[..])), Table(subkey[..]), max)
  {
    hide HalfPd;
    ghost var t := Table(subkey[..]);
    HalfPNone(t);
    var i := 2;
    while i < max
      invariant i % 8 == 2 && i <= max + 2
      invariant HalfPd(t, Table(subkey[..]), i - 2)
    {
      HalfPSkip(t, Table(subkey[..]), i / 8);
      HalfPTwo(subkey, i, t);
      HalfPTwo(subkey, i + 2, t);
      HalfPTwo(subkey, i + 4, t);
      i := i + 8;
    }
  }

  lemma HalfPNone(t: seq<Half>)
    ensures HalfPd(t, t, 0)
  {
  }

  /** Whatever the subkeys in `subL`, `subR`, the finished table makes the cipher the textbook one. */
  method SetupTail(subkey: array<bv32>, subL: array<bv32>, subR: array<bv32>, max: nat)
    requires max == 24 || max == 32
    requires subkey != subL && subkey != subR && subL != subR
    requires subL.Length == subR.Length == max + 2 && subkey.Length == 68
    modifies subkey, subL, subR
    ensures Rekeyed(old(Zip(subL[..], subR[..])), max / 8, Table(subkey[..]))
  {
    hide Rekeyed, Emitted, Absorbed, HalfPd, AbsorbedKw2;
    ghost var k := Zip(subL[..], subR[..]);
    AbsorbKw2(subL, subR, max);
    AbsorbKw4(subL, subR, max, k);
    Emit(subkey, subL, subR, max);
    ghost var t := Table(subkey[..]);
    InverseHalfP(subkey, max);
    PhasesRekey(k, max / 8, Zip(subL[..], subR[..]), t, Table(subkey[..]));
  }
}
