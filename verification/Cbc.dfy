/**
 * CBC mode: the segment and in-place loops of cbc.c against the whole-message
 * definition of section 6.2 of NIST SP 800-38A, for any block cipher.
 */
module Cbc {

  type Bytes = seq<bv8>

  /** Any block cipher: a block size and two maps on blocks. */
  datatype Cipher = Cipher(size: nat, enc: Bytes -> Bytes, dec: Bytes -> Bytes) {
    /** A keyed permutation and its inverse. */
    ghost predicate Valid() {
      && size > 0
      && (forall b: Bytes {:trigger enc(b)} :: |b| == size ==> |enc(b)| == size && dec(enc(b)) == b)
      && (forall b: Bytes {:trigger dec(b)} :: |b| == size ==> |dec(b)| == size)
    }
  }

  function Xor8(x: bv8, y: bv8): bv8 {
    x ^ y
  }

  function Xor(a: Bytes, b: Bytes): (r: Bytes)
    requires |a| == |b|
    ensures |r| == |a| && forall i :: 0 <= i < |r| ==> r[i] == Xor8(a[i], b[i])
  {
    seq(|a|, i requires 0 <= i < |a| => Xor8(a[i], b[i]))
  }

  lemma XorTwice8(x: bv8, y: bv8)
    ensures Xor8(Xor8(x, y), y) == x
  {
  }

  lemma XorCommutes(a: Bytes, b: Bytes)
    requires |a| == |b|
    ensures Xor(a, b) == Xor(b, a)
  {
  }

  lemma XorTwice(a: Bytes, b: Bytes)
    requires |a| == |b|
    ensures Xor(Xor(a, b), b) == a
  {
    hide Xor8;
    forall i | 0 <= i < |a| ensures Xor(Xor(a, b), b)[i] == a[i] {
      XorTwice8(a[i], b[i]);
    }
  }

  // ---- the mode ----------------------------------------------------------------

  /** `n` is a number of whole blocks. */
  predicate Whole(size: nat, n: nat)
    requires size > 0
  {
    n == 0 || (n >= size && Whole(size, n - size))
  }

  /** The chaining value after ciphertext `c`: its last block, or the IV. */
  function Tail(size: nat, iv: Bytes, c: Bytes): Bytes {
    if |c| < size then iv else c[|c| - size..]
  }

  function Encrypt(c: Cipher, iv: Bytes, p: Bytes): (r: Bytes)
    requires c.Valid() && |iv| == c.size && Whole(c.size, |p|)
    ensures |r| == |p|
    decreases |p|
  {
    if p == [] then []
    else
      var n := |p| - c.size;
      var done := Encrypt(c, iv, p[..n]);
      done + c.enc(Xor(Tail(c.size, iv, done), p[n..]))
  }

  function Decrypt(c: Cipher, iv: Bytes, t: Bytes): (r: Bytes)
    requires c.Valid() && |iv| == c.size && Whole(c.size, |t|)
    ensures |r| == |t|
    decreases |t|
  {
    if t == [] then []
    else
      var n := |t| - c.size;
      Decrypt(c, iv, t[..n]) + Xor(c.dec(t[n..]), Tail(c.size, iv, t[..n]))
  }

  lemma TailLength(size: nat, iv: Bytes, c: Bytes)
    requires |iv| == size
    ensures |Tail(size, iv, c)| == size
  {
  }

  lemma EncryptSnoc(c: Cipher, iv: Bytes, p: Bytes, b: Bytes)
    requires c.Valid() && |iv| == c.size && Whole(c.size, |p|) && |b| == c.size
    ensures Whole(c.size, |p + b|) && |Tail(c.size, iv, Encrypt(c, iv, p))| == c.size
    ensures var done := Encrypt(c, iv, p); Encrypt(c, iv, p + b) == done + c.enc(Xor(Tail(c.size, iv, done), b))
  {
    hide Xor8;
    var q := p + b;
    assert q[..|q| - c.size] == p && q[|q| - c.size..] == b;
  }

  lemma DecryptSnoc(c: Cipher, iv: Bytes, t: Bytes, b: Bytes)
    requires c.Valid() && |iv| == c.size && Whole(c.size, |t|) && |b| == c.size
    ensures Whole(c.size, |t + b|) && |Tail(c.size, iv, t)| == c.size && |c.dec(b)| == c.size
    ensures Decrypt(c, iv, t + b) == Decrypt(c, iv, t) + Xor(c.dec(b), Tail(c.size, iv, t))
  {
    hide Xor8;
    var q := t + b;
    assert q[..|q| - c.size] == t && q[|q| - c.size..] == b;
  }

  /** A whole-block message is empty or ends in a block. */
  lemma LastBlock(size: nat, p: Bytes) returns (q: Bytes, b: Bytes)
    requires size > 0 && Whole(size, |p|) && p != []
    ensures p == q + b && |b| == size && Whole(size, |q|) && |q| < |p|
  {
    var n := |p| - size;
    q, b := p[..n], p[n..];
  }

  /** Decryption undoes encryption. */
  lemma {:induction false} RoundTrip(c: Cipher, iv: Bytes, p: Bytes)
    requires c.Valid() && |iv| == c.size && Whole(c.size, |p|)
    ensures Decrypt(c, iv, Encrypt(c, iv, p)) == p
    decreases |p|
  {
    if p != [] {
      hide Encrypt, Decrypt, Xor, Tail, Whole;
      var q, b := LastBlock(c.size, p);
      RoundTrip(c, iv, q);
      EncryptSnoc(c, iv, q, b);
      var done := Encrypt(c, iv, q);
      var chain := Tail(c.size, iv, done);
      var x := c.enc(Xor(chain, b));
      DecryptSnoc(c, iv, done, x);
      XorCommutes(chain, b);
      XorTwice(b, chain);
    }
  }

  lemma TailTwice(size: nat, iv: Bytes, s: Bytes, t: Bytes)
    requires size > 0 && Whole(size, |t|)
    ensures Tail(size, iv, s + t) == Tail(size, Tail(size, iv, s), t)
  {
    if t == [] { assert s + t == s; }
  }

  lemma Nothing(c: Cipher, iv: Bytes)
    requires c.Valid() && |iv| == c.size
    ensures Whole(c.size, 0) && Encrypt(c, iv, []) == [] && Decrypt(c, iv, []) == []
  {
  }

  /** Encrypting in two pieces, the chaining value carried over, is encrypting at once. */
  lemma {:induction false} EncryptPieces(c: Cipher, iv: Bytes, p: Bytes, q: Bytes)
    requires c.Valid() && |iv| == c.size && Whole(c.size, |p|) && Whole(c.size, |q|)
    ensures Whole(c.size, |p + q|) && |Tail(c.size, iv, Encrypt(c, iv, p))| == c.size
    ensures var done := Encrypt(c, iv, p);
            Encrypt(c, iv, p + q) == done + Encrypt(c, Tail(c.size, iv, done), q)
    decreases |q|
  {
    hide Encrypt, Xor, Tail, Whole;
    var done := Encrypt(c, iv, p);
    var chain := Tail(c.size, iv, done);
    TailLength(c.size, iv, done);
    if q == [] {
      assert p + q == p;
      Nothing(c, chain);
    } else {
      var r, b := LastBlock(c.size, q);
      EncryptPieces(c, iv, p, r);
      EncryptMore(c, iv, p, r, b);
    }
  }

  lemma EncryptMore(c: Cipher, iv: Bytes, p: Bytes, r: Bytes, b: Bytes)
    requires c.Valid() && |iv| == c.size && Whole(c.size, |p|) && Whole(c.size, |r|) && |b| == c.size &&
             Whole(c.size, |p + r|)
    requires |Tail(c.size, iv, Encrypt(c, iv, p))| == c.size
    requires var done := Encrypt(c, iv, p); Encrypt(c, iv, p + r) == done + Encrypt(c, Tail(c.size, iv, done), r)
    ensures Whole(c.size, |p + (r + b)|) && Whole(c.size, |r + b|)
    ensures var done := Encrypt(c, iv, p);
            Encrypt(c, iv, p + (r + b)) == done + Encrypt(c, Tail(c.size, iv, done), r + b)
  {
    hide Encrypt, Xor, Tail, Whole;
    var done := Encrypt(c, iv, p);
    var chain := Tail(c.size, iv, done);
    assert p + (r + b) == (p + r) + b;
    EncryptSnoc(c, iv, p + r, b);
    EncryptSnoc(c, chain, r, b);
    TailTwice(c.size, iv, done, Encrypt(c, chain, r));
    var x := c.enc(Xor(Tail(c.size, chain, Encrypt(c, chain, r)), b));
    assert done + Encrypt(c, chain, r) + x == done + (Encrypt(c, chain, r) + x);
  }

  lemma {:induction false} DecryptPieces(c: Cipher, iv: Bytes, s: Bytes, t: Bytes)
    requires c.Valid() && |iv| == c.size && Whole(c.size, |s|) && Whole(c.size, |t|)
    ensures Whole(c.size, |s + t|) && |Tail(c.size, iv, s)| == c.size
    ensures Decrypt(c, iv, s + t) == Decrypt(c, iv, s) + Decrypt(c, Tail(c.size, iv, s), t)
    decreases |t|
  {
    hide Decrypt, Xor, Tail, Whole;
    var chain := Tail(c.size, iv, s);
    TailLength(c.size, iv, s);
    if t == [] {
      assert s + t == s;
      Nothing(c, chain);
    } else {
      var r, b := LastBlock(c.size, t);
      DecryptPieces(c, iv, s, r);
      DecryptMore(c, iv, s, r, b);
    }
  }

  lemma DecryptMore(c: Cipher, iv: Bytes, s: Bytes, r: Bytes, b: Bytes)
    requires c.Valid() && |iv| == c.size && Whole(c.size, |s|) && Whole(c.size, |r|) && |b| == c.size &&
             Whole(c.size, |s + r|)
    requires |Tail(c.size, iv, s)| == c.size
    requires Decrypt(c, iv, s + r) == Decrypt(c, iv, s) + Decrypt(c, Tail(c.size, iv, s), r)
    ensures Whole(c.size, |s + (r + b)|) && Whole(c.size, |r + b|)
    ensures Decrypt(c, iv, s + (r + b)) == Decrypt(c, iv, s) + Decrypt(c, Tail(c.size, iv, s), r + b)
  {
    hide Decrypt, Xor, Tail, Whole;
    var chain := Tail(c.size, iv, s);
    assert s + (r + b) == (s + r) + b;
    DecryptSnoc(c, iv, s + r, b);
    DecryptSnoc(c, chain, r, b);
    TailTwice(c.size, iv, s, r);
    var x := Xor(c.dec(b), Tail(c.size, chain, r));
    assert Decrypt(c, iv, s) + Decrypt(c, chain, r) + x == Decrypt(c, iv, s) + (Decrypt(c, chain, r) + x);
  }

  /** The first block decrypted, then the rest chained to it. */
  lemma DecryptCons(c: Cipher, iv: Bytes, b: Bytes, t: Bytes)
    requires c.Valid() && |iv| == c.size && |b| == c.size && Whole(c.size, |t|)
    ensures Whole(c.size, |b + t|) && |c.dec(b)| == c.size
    ensures Decrypt(c, iv, b + t) == Xor(c.dec(b), iv) + Decrypt(c, b, t)
  {
    hide Decrypt, Xor;
    Nothing(c, iv);
    DecryptSnoc(c, iv, [], b);
    assert [] + b == b;
    DecryptPieces(c, iv, b, t);
  }

  // ---- block by block -------------------------------------------------------------

  lemma {:induction false} WholeLess(size: nat, n: nat, m: nat)
    requires size > 0 && Whole(size, n) && Whole(size, m) && m <= n
    ensures Whole(size, n - m) && (m < n ==> m + size <= n)
    decreases m
  {
    if m > 0 { WholeLess(size, n - size, m - size); }
  }

  /** Block `b` with what is in front of it and behind it. */
  lemma Parts(size: nat, p: Bytes, n: nat) returns (front: Bytes, b: Bytes, rest: Bytes)
    requires size > 0 && Whole(size, |p|) && Whole(size, n) && n < |p|
    ensures n + size <= |p| && p == (front + b) + rest && |front| == n && b == p[n..n + size]
    ensures Whole(size, |rest|) && Whole(size, |front|) && Whole(size, |front + b|)
  {
    WholeLess(size, |p|, n);
    front, b, rest := p[..n], p[n..n + size], p[n + size..];
    assert Whole(size, n + size);
    WholeLess(size, |p|, n + size);
  }

  /** The block before the one at `n`, or the IV. */
  function Before(size: nat, iv: Bytes, t: Bytes, n: nat): Bytes
    requires n == 0 || size <= n <= |t|
  {
    if n == 0 then iv else t[n - size..n]
  }

  lemma Placed(size: nat, iv: Bytes, done: Bytes, x: Bytes, rest: Bytes)
    requires size > 0 && |x| == size && Whole(size, |done|)
    ensures var t, n := (done + x) + rest, |done|;
            (n == 0 || size <= n) && t[n..n + size] == x && Tail(size, iv, done) == Before(size, iv, t, n)
  {
  }

  /** Each ciphertext block is the cipher of the plaintext block xored with the ciphertext block before, or the IV. */
  lemma EncryptBlockIs(c: Cipher, iv: Bytes, p: Bytes, n: nat)
    requires c.Valid() && |iv| == c.size && Whole(c.size, |p|) && Whole(c.size, n) && n < |p|
    ensures n + c.size <= |p| && (n == 0 || c.size <= n)
    ensures var t, b := Encrypt(c, iv, p), p[n..n + c.size];
            |Before(c.size, iv, t, n)| == |b| && t[n..n + c.size] == c.enc(Xor(Before(c.size, iv, t, n), b))
  {
    hide Encrypt, Xor, Tail, Whole, Before;
    var front, b, rest := Parts(c.size, p, n);
    EncryptPieces(c, iv, front + b, rest);
    EncryptSnoc(c, iv, front, b);
    var done := Encrypt(c, iv, front);
    var chain := Tail(c.size, iv, Encrypt(c, iv, front + b));
    Placed(c.size, iv, done, c.enc(Xor(Tail(c.size, iv, done), b)), Encrypt(c, chain, rest));
  }

  /** Each plaintext block is the ciphertext block deciphered, xored with the one before, or the IV. */
  lemma DecryptBlockIs(c: Cipher, iv: Bytes, t: Bytes, n: nat)
    requires c.Valid() && |iv| == c.size && Whole(c.size, |t|) && Whole(c.size, n) && n < |t|
    ensures n + c.size <= |t| && (n == 0 || c.size <= n)
    ensures var b := t[n..n + c.size];
            && |c.dec(b)| == |Before(c.size, iv, t, n)|
            && Decrypt(c, iv, t)[n..n + c.size] == Xor(c.dec(b), Before(c.size, iv, t, n))
  {
    hide Decrypt, Xor, Tail, Whole, Before;
    var front, b, rest := Parts(c.size, t, n);
    DecryptPieces(c, iv, front + b, rest);
    DecryptSnoc(c, iv, front, b);
    Placed(c.size, iv, front, b, rest);
    var x := Xor(c.dec(b), Tail(c.size, iv, front));
    Placed(c.size, iv, Decrypt(c, iv, front), x, Decrypt(c, Tail(c.size, iv, front + b), rest));
  }
}
