/** `camellia_do_encrypt` and `camellia_do_decrypt` on the `io` words, and their callers. */
module CamelliaCode {
  import opened Camellia
  import opened CamelliaRekey
  import opened CamelliaKeys

  ghost function Words(io: seq<bv32>): Block
    requires |io| == 4
  {
    Block(Half(io[0], io[1]), Half(io[2], io[3]))
  }

  /** CAMELLIA_ROUNDSM from the words at `x` into those at `y`, with entry `i`. */
  method Roundsm(b: Boxes, subkey: array<bv32>, i: nat, io: array<bv32>, x: nat, y: nat)
    requires io.Length == 4 && subkey != io && 2 * i + 1 < subkey.Length
    requires (x == 0 && y == 2) || (x == 2 && y == 0)
    modifies io
    ensures io[x] == old(io[x]) && io[x + 1] == old(io[x + 1])
    ensures Half(io[y], io[y + 1])
         == RoundSm(b, old(Half(io[x], io[x + 1])), Table(subkey[..])[i], old(Half(io[y], io[y + 1])))
  {
    hide Xor32, Sp1110, Sp0222, Sp3033, Sp4404, Byte, Ror8;
    var ir := Sp1110(b, Byte(io[x + 1], 0));
    var il := Sp1110(b, Byte(io[x], 24));
    ir := Xor32(ir, Sp0222(b, Byte(io[x + 1], 24)));
    il := Xor32(il, Sp0222(b, Byte(io[x], 16)));
    ir := Xor32(ir, Sp3033(b, Byte(io[x + 1], 16)));
    il := Xor32(il, Sp3033(b, Byte(io[x], 8)));
    ir := Xor32(ir, Sp4404(b, Byte(io[x + 1], 8)));
    il := Xor32(il, Sp4404(b, Byte(io[x], 0)));
    il := Xor32(il, subkey[2 * i]);
    ir := Xor32(ir, Xor32(il, subkey[2 * i + 1]));
    io[y] := Xor32(io[y], ir);
    io[y + 1] := Xor32(io[y + 1], Xor32(Ror8(il), ir));
  }

  /** Two rounds, with entries `i` and `j` of the table `t`. */
  method Two(b: Boxes, subkey: array<bv32>, i: nat, j: nat, io: array<bv32>, ghost t: seq<Half>)
    requires io.Length == 4 && subkey != io && 2 * i + 1 < subkey.Length && 2 * j + 1 < subkey.Length
    requires t == Table(subkey[..])
    modifies io
    ensures Words(io[..]) == TwoFast(b, old(Words(io[..])), t[i], t[j])
  {
    hide RoundSm;
    Roundsm(b, subkey, i, io, 0, 2);
    Roundsm(b, subkey, j, io, 2, 0);
  }

  /** CAMELLIA_FLS with FL key `i` and FL-inverse key `j`. */
  method Fls(subkey: array<bv32>, i: nat, j: nat, io: array<bv32>, ghost t: seq<Half>)
    requires io.Length == 4 && subkey != io && 2 * i + 1 < subkey.Length && 2 * j + 1 < subkey.Length
    requires t == Table(subkey[..])
    modifies io
    ensures Words(io[..]) == Block(Fl(old(Words(io[..])).a, t[i]), FlInv(old(Words(io[..])).b, t[j]))
  {
    hide Xor32, AndRol, Or32;
    io[2] := Xor32(io[2], Or32(io[3], subkey[2 * j + 1]));
    io[1] := Xor32(io[1], AndRol(io[0], subkey[2 * i]));
    io[0] := Xor32(io[0], Or32(io[1], subkey[2 * i + 1]));
    io[3] := Xor32(io[3], AndRol(io[2], subkey[2 * j]));
  }

  method Rounds(b: Boxes, subkey: array<bv32>, i: nat, io: array<bv32>, ghost t: seq<Half>, ghost g: nat)
    requires io.Length == 4 && subkey != io && i == 8 * g && 2 * i + 16 <= subkey.Length && t == Table(subkey[..])
    modifies io
    ensures Words(io[..]) == SixFast(b, t, g, old(Words(io[..])))
  {
    hide TwoFast, Words, Table;
    Two(b, subkey, i + 2, i + 3, io, t);
    Two(b, subkey, i + 4, i + 5, io, t);
    Two(b, subkey, i + 6, i + 7, io, t);
  }

  method RoundsBack(b: Boxes, subkey: array<bv32>, i: nat, io: array<bv32>, ghost t: seq<Half>, ghost g: nat)
    requires io.Length == 4 && subkey != io && i == 8 * g && 2 * i + 16 <= subkey.Length && t == Table(subkey[..])
    modifies io
    ensures Words(io[..]) == SixBack(b, t, g, old(Words(io[..])))
  {
    hide TwoFast, Words, Table;
    Two(b, subkey, i + 7, i + 6, io, t);
    Two(b, subkey, i + 5, i + 4, io, t);
    Two(b, subkey, i + 3, i + 2, io, t);
  }

  method Whiten(subkey: array<bv32>, i: nat, io: array<bv32>, x: nat, ghost t: seq<Half>)
    requires io.Length == 4 && subkey != io && 2 * i + 1 < subkey.Length && (x == 0 || x == 2) && t == Table(subkey[..])
    modifies io
    ensures Words(io[..]) == var d := old(Words(io[..]));
            if x == 0 then Block(Xor(d.a, t[i]), d.b) else Block(d.a, Xor(d.b, t[i]))
  {
    hide Xor32;
    io[x] := Xor32(io[x], subkey[2 * i]);
    io[x + 1] := Xor32(io[x + 1], subkey[2 * i + 1]);
  }

  method DoEncrypt(b: Boxes, subkey: array<bv32>, io: array<bv32>, max: nat)
    requires max == 24 || max == 32
    requires io.Length == 4 && subkey != io && subkey.Length == 68
    modifies io
    ensures Words(io[..]) == Encrypt(b, Table(subkey[..]), max / 8, old(Words(io[..])))
  {
    hide SixFast, Fl, FlInv, Xor, Words, Table;
    ghost var t := Table(subkey[..]);
    Whiten(subkey, 0, io, 0, t);
    ghost var d := Words(io[..]);
    Rounds(b, subkey, 0, io, t, 0);
    assert Words(io[..]) == GroupsFast(b, t, 0, d);
    Fls(subkey, 8, 9, io, t);
    Rounds(b, subkey, 8, io, t, 1);
    assert Words(io[..]) == GroupsFast(b, t, 1, d);
    Fls(subkey, 16, 17, io, t);
    Rounds(b, subkey, 16, io, t, 2);
    assert Words(io[..]) == GroupsFast(b, t, 2, d);
    if max == 32 {
      Fls(subkey, 24, 25, io, t);
      Rounds(b, subkey, 24, io, t, 3);
    }
    assert Words(io[..]) == GroupsFast(b, t, max / 8 - 1, d);
    Whiten(subkey, max, io, 2, t);
  }

  /** Groups 2, 1 and 0 backwards. */
  method ThreeBack(b: Boxes, subkey: array<bv32>, io: array<bv32>, ghost t: seq<Half>)
    requires io.Length == 4 && subkey != io && subkey.Length == 68 && t == Table(subkey[..])
    modifies io
    ensures Words(io[..]) == GroupsBack(b, t, 2, old(Words(io[..])))
  {
    hide SixBack, Fl, FlInv, Words, Table, GroupsBack;
    ghost var d := Words(io[..]);
    RoundsBack(b, subkey, 16, io, t, 2);
    Fls(subkey, 17, 16, io, t);
    BackOne(b, t, 2, d);
    BackOne(b, t, 1, Words(io[..]));
    RoundsBack(b, subkey, 8, io, t, 1);
    Fls(subkey, 9, 8, io, t);
    BackOne(b, t, 0, Words(io[..]));
    RoundsBack(b, subkey, 0, io, t, 0);
  }

  lemma BackOne(b: Boxes, t: seq<Half>, g: nat, d: Block)
    requires 8 * g + 8 <= |t|
    ensures GroupsBack(b, t, g, d) == var s := SixBack(b, t, g, d);
            if g == 0 then s else GroupsBack(b, t, g - 1, FlBack(t, g, s))
  {
  }

  method DoDecrypt(b: Boxes, subkey: array<bv32>, io: array<bv32>, max: nat)
    requires max == 24 || max == 32
    requires io.Length == 4 && subkey != io && subkey.Length == 68
    modifies io
    ensures Words(io[..]) == Decrypt(b, Table(subkey[..]), max / 8, old(Words(io[..])))
  {
    hide SixBack, Fl, FlInv, Xor, Words, Table, GroupsBack;
    ghost var t := Table(subkey[..]);
    Whiten(subkey, max, io, 0, t);
    if max == 32 {
      BackOne(b, t, 3, Words(io[..]));
      RoundsBack(b, subkey, 24, io, t, 3);
      Fls(subkey, 25, 24, io, t);
    }
    ThreeBack(b, subkey, io, t);
    Whiten(subkey, 0, io, 2, t);
  }

  /** `camellia_encrypt`: with the table `SetupTail` made from subkeys `k`, the output is the textbook ciphertext. */
  method EncryptBlock(b: Boxes, subkey: array<bv32>, src: array<bv32>, dst: array<bv32>, max: nat, ghost k: seq<Half>)
    requires max == 24 || max == 32
    requires src.Length == dst.Length == 4 && dst != subkey && subkey.Length == 68
    requires KeysFor(k, max / 8) && Rekeyed(k, max / 8, Table(subkey[..]))
    modifies dst
    ensures Words(dst[..]) == Textbook(b, k, max / 8, old(Words(src[..])))
  {
    hide Encrypt, Textbook, Rekeyed;
    var tmp := new bv32[4];
    tmp[0], tmp[1], tmp[2], tmp[3] := src[0], src[1], src[2], src[3];
    EncryptIsTextbook(b, k, max / 8, Table(subkey[..]), Words(tmp[..]));
    DoEncrypt(b, subkey, tmp, max);
    dst[0], dst[1], dst[2], dst[3] := tmp[2], tmp[3], tmp[0], tmp[1];
  }

  /** `camellia_decrypt`: on a textbook ciphertext the output is the message. */
  method DecryptBlock(b: Boxes, subkey: array<bv32>, src: array<bv32>, dst: array<bv32>, max: nat, ghost k: seq<Half>,
                      ghost m: Block)
    requires max == 24 || max == 32
    requires src.Length == dst.Length == 4 && dst != subkey && subkey.Length == 68
    requires KeysFor(k, max / 8) && Rekeyed(k, max / 8, Table(subkey[..])) &&
             Words(src[..]) == Textbook(b, k, max / 8, m)
    modifies dst
    ensures Words(dst[..]) == m
  {
    hide Decrypt, Textbook, Rekeyed;
    var tmp := new bv32[4];
    tmp[0], tmp[1], tmp[2], tmp[3] := src[0], src[1], src[2], src[3];
    DecryptInvertsTextbook(b, k, max / 8, Table(subkey[..]), m);
    DoDecrypt(b, subkey, tmp, max);
    dst[0], dst[1], dst[2], dst[3] := tmp[2], tmp[3], tmp[0], tmp[1];
  }
}
