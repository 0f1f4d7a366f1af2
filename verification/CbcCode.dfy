/** The loops of cbc.c over byte buffers, and the word loop of `crypto_xor`. */
module CbcCode {
  import opened Cbc

  /** `buf` with `s` written at `o`. */
  ghost function Patch(buf: Bytes, o: nat, s: Bytes): (r: Bytes)
    requires o + |s| <= |buf|
    ensures |r| == |buf| && r[..o] == buf[..o] && r[o..o + |s|] == s && r[o + |s|..] == buf[o + |s|..]
  {
    buf[..o] + s + buf[o + |s|..]
  }

  method Store(buf: array<bv8>, o: nat, s: Bytes)
    requires o + |s| <= buf.Length
    modifies buf
    ensures buf[..] == Patch(old(buf[..]), o, s)
  {
    for i := 0 to |s|
      invariant buf[..] == Patch(old(buf[..]), o, s[..i])
    {
      buf[o + i] := s[i];
      assert s[..i + 1] == s[..i] + [s[i]];
    }
    assert s[..|s|] == s;
  }

  /** The first `i` bytes at `d` have been xored with those of `b`. */
  ghost predicate Xored(was: Bytes, b: Bytes, now: Bytes, d: nat, i: nat)
    requires i <= |b| && d + |b| <= |was|
  {
    |now| == |was| && forall j :: 0 <= j < |was| ==> now[j] == if d <= j < d + i then Xor8(was[j], b[j - d]) else was[j]
  }

  method XorByte(dst: array<bv8>, d: nat, src: array<bv8>, s: nat, i: nat, ghost was: Bytes, ghost b: Bytes)
    requires d + |b| <= dst.Length == |was| && s + |b| <= src.Length && i < |b|
    requires dst != src || d + |b| <= s || s + |b| <= d
    requires Xored(was, b, dst[..], d, i) && src[s..s + |b|] == b
    modifies dst
    ensures Xored(was, b, dst[..], d, i + 1) && src[s..s + |b|] == b
  {
    hide Xor8;
    assert src[s + i] == b[i] && dst[d + i] == was[d + i];
    dst[d + i] := Xor8(dst[d + i], src[s + i]);
  }

  /** `crypto_xor`: words first, then the odd bytes; the regions must not overlap. */
  method CryptoXor(dst: array<bv8>, d: nat, src: array<bv8>, s: nat, size: nat)
    requires d + size <= dst.Length && s + size <= src.Length
    requires dst != src || d + size <= s || s + size <= d
    modifies dst
    ensures dst[..] == Patch(old(dst[..]), d, Xor(old(dst[d..d + size]), old(src[s..s + size])))
  {
    hide Xored;
    ghost var was, b := dst[..], src[s..s + size];
    XoredNone(was, b, d);
    var i := 0;
    while size - i >= 4
      invariant i <= size && Xored(was, b, dst[..], d, i) && src[s..s + size] == b
    {
      XorByte(dst, d, src, s, i, was, b);
      XorByte(dst, d, src, s, i + 1, was, b);
      XorByte(dst, d, src, s, i + 2, was, b);
      XorByte(dst, d, src, s, i + 3, was, b);
      i := i + 4;
    }
    while i < size
      invariant i <= size && Xored(was, b, dst[..], d, i) && src[s..s + size] == b
    {
      XorByte(dst, d, src, s, i, was, b);
      i := i + 1;
    }
    XoredAll(was, b, dst[..], d);
    assert was[d..d + size] == old(dst[d..d + size]);
  }

  lemma XoredNone(was: Bytes, b: Bytes, d: nat)
    requires d + |b| <= |was|
    ensures Xored(was, b, was, d, 0)
  {
  }

  lemma XoredAll(was: Bytes, b: Bytes, now: Bytes, d: nat)
    requires d + |b| <= |was| && Xored(was, b, now, d, |b|)
    ensures now == Patch(was, d, Xor(was[d..d + |b|], b))
  {
    hide Xor8;
  }

  lemma Split(buf: Bytes, a: nat, b: nat, e: nat)
    requires a <= b <= e <= |buf|
    ensures buf[a..e] == buf[a..b] + buf[b..e]
  {
  }

  /** What an encryption loop leaves: `m` bytes of whole blocks done, fewer than a block left. */
  ghost predicate Encrypted(c: Cipher, was: Bytes, o: nat, p: Bytes, iv: Bytes, now: Bytes, ivNow: Bytes)
    requires c.Valid() && |iv| == c.size && o + |p| <= |was|
  {
    && Whole(c.size, |p|)
    && now == Patch(was, o, Encrypt(c, iv, p)) && ivNow == Tail(c.size, iv, Encrypt(c, iv, p))
  }

  lemma PatchMore(was: Bytes, o: nat, s: Bytes, t: Bytes)
    requires o + |s| + |t| <= |was|
    ensures Patch(Patch(was, o, s), o + |s|, t) == Patch(was, o, s + t)
  {
  }

  lemma EncryptedMore(c: Cipher, was: Bytes, o: nat, p: Bytes, b: Bytes, iv: Bytes, now: Bytes, ivNow: Bytes)
    requires c.Valid() && |iv| == c.size && o + |p| + |b| <= |was| && |b| == c.size
    requires Encrypted(c, was, o, p, iv, now, ivNow)
    ensures |ivNow| == c.size && |now| == |was|
    ensures var x := c.enc(Xor(ivNow, b)); |x| == c.size && Encrypted(c, was, o, p + b, iv, Patch(now, o + |p|, x), x)
  {
    hide Encrypt, Xor, Patch;
    EncryptSnoc(c, iv, p, b);
    var done := Encrypt(c, iv, p);
    var x := c.enc(Xor(ivNow, b));
    PatchMore(was, o, done, x);
    TailOfSum(c.size, iv, done, x);
  }

  lemma TailOfSum(size: nat, iv: Bytes, a: Bytes, x: Bytes)
    requires |x| == size
    ensures Tail(size, iv, a + x) == x
  {
  }

  /** One pass of the loop: chain, encrypt, remember. */
  method SegmentBlock(c: Cipher, src: array<bv8>, dst: array<bv8>, at: nat, iv: array<bv8>, ghost was: Bytes,
                      ghost o: nat, ghost iv0: Bytes)
    requires c.Valid() && at + c.size <= src.Length && src.Length == dst.Length == |was| && o <= at && |iv0| == c.size
    requires src != dst && iv != src && iv != dst && iv.Length == c.size
    requires Encrypted(c, was, o, src[o..at], iv0, dst[..], iv[..])
    modifies dst, iv
    ensures Encrypted(c, was, o, src[o..at + c.size], iv0, dst[..], iv[..])
  {
    hide Xor, Patch, Encrypted;
    ghost var b, d, v := src[at..at + c.size], dst[..], iv[..];
    EncryptedMore(c, was, o, src[o..at], b, iv0, d, v);
    Split(src[..], o, at, at + c.size);
    XorInto(iv, src, at, c.size);
    assert iv[..] == Xor(v, b);
    var x := c.enc(iv[..]);
    Store(dst, at, x);
    assert dst[at..at + c.size] == dst[..][at..at + c.size];
    Fill(iv, dst, at, c.size, x);
    assert src[o..at + c.size] == src[o..at] + b;
  }

  /** `crypto_cbc_encrypt_segment` */
  method EncryptSegment(c: Cipher, src: array<bv8>, dst: array<bv8>, o: nat, nbytes: nat, iv: array<bv8>)
    returns (left: nat)
    requires c.Valid() && c.size <= nbytes && o + nbytes <= src.Length && src.Length == dst.Length
    requires src != dst && iv != src && iv != dst && iv.Length == c.size
    modifies dst, iv
    ensures left < c.size && left <= nbytes
    ensures Encrypted(c, old(dst[..]), o, src[o..o + nbytes - left], old(iv[..]), dst[..], iv[..])
  {
    hide Encrypted;
    ghost var was, iv0 := dst[..], iv[..];
    left := nbytes;
    var at := o;
    EncryptedNone(c, was, o, iv0);
    assert src[o..at] == [];
    while left >= c.size
      invariant at + left == o + nbytes && o <= at
      invariant Encrypted(c, was, o, src[o..at], iv0, dst[..], iv[..])
    {
      SegmentBlock(c, src, dst, at, iv, was, o, iv0);
      at := at + c.size;
      left := left - c.size;
    }
  }

  lemma EncryptedNone(c: Cipher, was: Bytes, o: nat, iv: Bytes)
    requires c.Valid() && |iv| == c.size && o <= |was|
    ensures Encrypted(c, was, o, [], iv, was, iv)
  {
  }

  /** `crypto_xor` of a block of `src` into the whole of `iv`. */
  method XorInto(iv: array<bv8>, src: array<bv8>, at: nat, size: nat)
    requires iv != src && iv.Length == size && at + size <= src.Length
    modifies iv
    ensures iv[..] == Xor(old(iv[..]), src[at..at + size])
  {
    hide Xor;
    CryptoXor(iv, 0, src, at, size);
    assert old(iv[0..size]) == old(iv[..]);
  }

  /** `memcpy(iv, dst, bsize)` */
  method Fill(iv: array<bv8>, dst: array<bv8>, at: nat, size: nat, ghost x: Bytes)
    requires iv != dst && iv.Length == size && at + size <= dst.Length && dst[at..at + size] == x
    modifies iv
    ensures iv[..] == x
  {
    Store(iv, 0, dst[at..at + size]);
  }

  // ---- encrypting in place -----------------------------------------------------------

  /** Behind the part already encrypted the buffer is as it was. */
  lemma AheadKept(c: Cipher, was: Bytes, o: nat, p: Bytes, iv: Bytes, now: Bytes, ivNow: Bytes, n: nat)
    requires c.Valid() && |iv| == c.size && o + |p| + n <= |was| && Encrypted(c, was, o, p, iv, now, ivNow)
    ensures |now| == |was| && now[o + |p|..o + |p| + n] == was[o + |p|..o + |p| + n] && |ivNow| == c.size
  {
    hide Encrypt, Xor;
    var k := o + |p|;
    assert now[k..] == was[k..];
    assert now[k..][..n] == now[k..k + n] && was[k..][..n] == was[k..k + n];
  }

  /** One pass of the loop; the chaining value is the IV buffer at first, then the block before. */
  method InplaceBlock(c: Cipher, buf: array<bv8>, at: nat, chain: array<bv8>, k: nat, ghost was: Bytes, ghost o: nat,
                      ghost iv0: Bytes)
    requires c.Valid() && at + c.size <= buf.Length == |was| && o <= at && |iv0| == c.size && k + c.size <= chain.Length
    requires chain != buf || k + c.size == at
    requires Encrypted(c, was, o, was[o..at], iv0, buf[..], chain[k..k + c.size])
    modifies buf
    ensures Encrypted(c, was, o, was[o..at + c.size], iv0, buf[..], buf[at..at + c.size])
  {
    hide Xor, Patch, Encrypted;
    ghost var b, d, v := was[at..at + c.size], buf[..], chain[k..k + c.size];
    AheadKept(c, was, o, was[o..at], iv0, d, v, c.size);
    EncryptedMore(c, was, o, was[o..at], b, iv0, d, v);
    Split(was, o, at, at + c.size);
    CryptoXor(buf, at, chain, k, c.size);
    XorCommutes(b, v);
    assert buf[at..at + c.size] == buf[..][at..at + c.size] == Xor(v, b);
    var x := c.enc(buf[at..at + c.size]);
    Store(buf, at, x);
    PatchTwice(d, at, Xor(b, v), x);
    assert buf[at..at + c.size] == buf[..][at..at + c.size];
  }

  lemma PatchTwice(was: Bytes, o: nat, s: Bytes, t: Bytes)
    requires o + |s| <= |was| && |t| == |s|
    ensures Patch(Patch(was, o, s), o, t) == Patch(was, o, t)
  {
  }

  /** `crypto_cbc_encrypt_inplace` */
  method EncryptInplace(c: Cipher, buf: array<bv8>, o: nat, nbytes: nat, iv: array<bv8>) returns (left: nat)
    requires c.Valid() && c.size <= nbytes && o + nbytes <= buf.Length && iv != buf && iv.Length == c.size
    modifies buf, iv
    ensures left < c.size && left <= nbytes
    ensures Encrypted(c, old(buf[..]), o, old(buf[o..o + nbytes - left]), old(iv[..]), buf[..], iv[..])
  {
    hide Encrypted;
    ghost var was, iv0 := buf[..], iv[..];
    EncryptedNone(c, was, o, iv0);
    assert was[o..o] == [] && iv[0..c.size] == iv[..];
    InplaceBlock(c, buf, o, iv, 0, was, o, iv0);
    var at := o + c.size;
    left := nbytes - c.size;
    while left >= c.size
      invariant at + left == o + nbytes && o + c.size <= at
      invariant Encrypted(c, was, o, was[o..at], iv0, buf[..], buf[at - c.size..at])
    {
      InplaceBlock(c, buf, at, buf, at - c.size, was, o, iv0);
      at := at + c.size;
      left := left - c.size;
    }
    Fill(iv, buf, at - c.size, c.size, buf[at - c.size..at]);
    assert was[o..at] == old(buf[o..at]);
  }

  // ---- decrypting -------------------------------------------------------------------------

  ghost predicate Decrypted(c: Cipher, was: Bytes, o: nat, t: Bytes, iv: Bytes, now: Bytes)
    requires c.Valid() && |iv| == c.size && o + |t| <= |was|
  {
    Whole(c.size, |t|) && now == Patch(was, o, Decrypt(c, iv, t))
  }

  lemma DecryptedNone(c: Cipher, was: Bytes, o: nat, iv: Bytes)
    requires c.Valid() && |iv| == c.size && o <= |was|
    ensures Decrypted(c, was, o, [], iv, was)
  {
  }

  lemma DecryptedMore(c: Cipher, was: Bytes, o: nat, t: Bytes, b: Bytes, iv: Bytes, now: Bytes)
    requires c.Valid() && |iv| == c.size && o + |t| + |b| <= |was| && |b| == c.size && Decrypted(c, was, o, t, iv, now)
    ensures |now| == |was| && |Tail(c.size, iv, t)| == c.size && |c.dec(b)| == c.size
    ensures Decrypted(c, was, o, t + b, iv, Patch(now, o + |t|, Xor(c.dec(b), Tail(c.size, iv, t))))
  {
    hide Decrypt, Xor, Patch;
    DecryptSnoc(c, iv, t, b);
    PatchMore(was, o, Decrypt(c, iv, t), Xor(c.dec(b), Tail(c.size, iv, t)));
  }

  /** One pass of the loop; the chaining value is the IV buffer at first, then the ciphertext block before. */
  method DecryptBlock(c: Cipher, src: array<bv8>, dst: array<bv8>, at: nat, chain: array<bv8>, k: nat,
                      ghost was: Bytes, ghost o: nat, ghost iv0: Bytes)
    requires c.Valid() && at + c.size <= src.Length && src.Length == dst.Length == |was| && o <= at && |iv0| == c.size
    requires src != dst && chain != dst && k + c.size <= chain.Length
    requires Decrypted(c, was, o, src[o..at], iv0, dst[..]) && chain[k..k + c.size] == Tail(c.size, iv0, src[o..at])
    modifies dst
    ensures Decrypted(c, was, o, src[o..at + c.size], iv0, dst[..]) &&
            src[at..at + c.size] == Tail(c.size, iv0, src[o..at + c.size])
  {
    hide Xor, Patch, Decrypted;
    ghost var b, d, v := src[at..at + c.size], dst[..], chain[k..k + c.size];
    DecryptedMore(c, was, o, src[o..at], b, iv0, d);
    Split(src[..], o, at, at + c.size);
    TailOfSum(c.size, iv0, src[o..at], b);
    var x := c.dec(src[at..at + c.size]);
    Store(dst, at, x);
    assert dst[at..at + c.size] == dst[..][at..at + c.size] == x;
    CryptoXor(dst, at, chain, k, c.size);
    PatchTwice(d, at, x, Xor(x, v));
    assert src[o..at + c.size] == src[o..at] + b;
  }

  /** `crypto_cbc_decrypt_segment` */
  method DecryptSegment(c: Cipher, src: array<bv8>, dst: array<bv8>, o: nat, nbytes: nat, iv: array<bv8>)
    returns (left: nat)
    requires c.Valid() && c.size <= nbytes && o + nbytes <= src.Length && src.Length == dst.Length
    requires src != dst && iv != src && iv != dst && iv.Length == c.size
    modifies dst, iv
    ensures left < c.size && left <= nbytes
    ensures Decrypted(c, old(dst[..]), o, src[o..o + nbytes - left], old(iv[..]), dst[..])
    ensures iv[..] == Tail(c.size, old(iv[..]), src[o..o + nbytes - left])
  {
    hide Decrypted, Tail;
    ghost var was, iv0 := dst[..], iv[..];
    DecryptedNone(c, was, o, iv0);
    TailNone(c.size, iv0);
    assert src[o..o] == [] && iv[0..c.size] == iv[..];
    DecryptBlock(c, src, dst, o, iv, 0, was, o, iv0);
    var at := o + c.size;
    left := nbytes - c.size;
    while left >= c.size
      invariant at + left == o + nbytes && o + c.size <= at
      invariant Decrypted(c, was, o, src[o..at], iv0, dst[..]) && src[at - c.size..at] == Tail(c.size, iv0, src[o..at])
    {
      DecryptBlock(c, src, dst, at, src, at - c.size, was, o, iv0);
      at := at + c.size;
      left := left - c.size;
    }
    Fill(iv, src, at - c.size, c.size, src[at - c.size..at]);
  }

  lemma TailNone(size: nat, iv: Bytes)
    requires size > 0
    ensures Tail(size, iv, []) == iv
  {
  }

  // ---- decrypting in place, backwards ----------------------------------------------------------

  /** `a & b` */
  function And(a: nat, b: nat): nat {
    if a == 0 || b == 0 then 0 else 2 * And(a / 2, b / 2) + (a % 2) * (b % 2)
  }

  /** `is_power_of_2`, which `crypto_cbc_alloc` asks of every block size. */
  predicate PowerOfTwo(n: nat) {
    n == 1 || (n > 1 && n % 2 == 0 && PowerOfTwo(n / 2))
  }

  /** What is over the whole blocks of `n` bytes. */
  function Odd(size: nat, n: nat): (r: nat)
    requires size > 0
    ensures r < size && r <= n && Whole(size, n - r)
  {
    if n < size then n else Odd(size, n - size)
  }

  lemma HalfLess(m: nat, n: nat)
    ensures n >= 2 * m ==> (n - 2 * m) / 2 == n / 2 - m && (n - 2 * m) % 2 == n % 2
    ensures n >= 2 * m <==> n / 2 >= m
  {
  }

  lemma OddStep(size: nat, n: nat)
    requires size > 0
    ensures Odd(size, n) == if n < size then n else Odd(size, n - size)
  {
  }

  lemma {:induction false} OddHalf(m: nat, n: nat)
    requires m > 0
    ensures Odd(2 * m, n) == 2 * Odd(m, n / 2) + n % 2
    decreases n
  {
    hide Odd, Whole;
    HalfLess(m, n);
    OddStep(2 * m, n);
    OddStep(m, n / 2);
    if n >= 2 * m { OddHalf(m, n - 2 * m); }
  }

  /** For a power of two the mask leaves what is over the whole blocks. */
  lemma {:induction false} MaskIsOdd(size: nat, n: nat)
    requires PowerOfTwo(size)
    ensures And(n, size - 1) == Odd(size, n)
    decreases size
  {
    if size == 1 {
      OddOne(n);
    } else {
      var m := size / 2;
      assert size == 2 * m && (size - 1) / 2 == m - 1 && (size - 1) % 2 == 1;
      MaskIsOdd(m, n / 2);
      OddHalf(m, n);
    }
  }

  lemma {:induction false} OddOne(n: nat)
    ensures Odd(1, n) == 0
  {
    if n > 0 { OddOne(n - 1); }
  }

  /** The blocks behind `at + size` are decrypted; the one at `at` and those before are still ciphertext. */
  ghost predicate Backwards(c: Cipher, was: Bytes, at: nat, end: nat, now: Bytes)
    requires c.Valid() && at + c.size <= end <= |was|
  {
    && Whole(c.size, end - (at + c.size))
    && now == Patch(was, at + c.size, Decrypt(c, was[at..at + c.size], was[at + c.size..end]))
  }

  /** Decrypting the block at `at` and chaining it to `v` extends the finished suffix. */
  lemma BackwardsMore(c: Cipher, was: Bytes, at: nat, end: nat, now: Bytes, v: Bytes)
    requires c.Valid() && at + c.size <= end <= |was| && Backwards(c, was, at, end, now) && |v| == c.size
    ensures |now| == |was| && now[..at + c.size] == was[..at + c.size]
    ensures var b := was[at..at + c.size]; |c.dec(b)| == c.size && Whole(c.size, end - at)
    ensures Patch(now, at, Xor(c.dec(was[at..at + c.size]), v)) == Patch(was, at, Decrypt(c, v, was[at..end]))
  {
    hide Decrypt, Xor, Patch;
    var b, rest := was[at..at + c.size], was[at + c.size..end];
    DecryptCons(c, v, b, rest);
    assert was[at..end] == b + rest;
    PatchBefore(was, at, Xor(c.dec(b), v), Decrypt(c, b, rest));
  }

  lemma PatchBefore(was: Bytes, o: nat, s: Bytes, t: Bytes)
    requires o + |s| + |t| <= |was|
    ensures Patch(Patch(was, o + |s|, t), o, s) == Patch(was, o, s + t)
  {
  }

  /** Decrypt the block in place and chain it to `chain[k..]`. */
  method BackwardsBlock(c: Cipher, buf: array<bv8>, at: nat, chain: array<bv8>, k: nat, ghost was: Bytes,
                        ghost end: nat)
    requires c.Valid() && at + c.size <= end <= buf.Length == |was| && k + c.size <= chain.Length
    requires chain != buf || k + c.size == at
    requires Backwards(c, was, at, end, buf[..])
    modifies buf
    ensures Whole(c.size, end - at) && buf[..] == Patch(was, at, Decrypt(c, old(chain[k..k + c.size]), was[at..end]))
  {
    hide Xor, Patch, Backwards, Decrypt;
    ghost var b, d, v := was[at..at + c.size], buf[..], chain[k..k + c.size];
    BackwardsMore(c, was, at, end, d, v);
    assert d[at..at + c.size] == d[..at + c.size][at..] == b;
    var x := c.dec(buf[at..at + c.size]);
    Store(buf, at, x);
    assert buf[at..at + c.size] == buf[..][at..at + c.size] == x;
    if chain == buf { ChainKept(d, at, x, k, c.size); }
    CryptoXor(buf, at, chain, k, c.size);
    PatchTwice(d, at, x, Xor(x, v));
  }

  lemma ChainKept(d: Bytes, at: nat, x: Bytes, k: nat, size: nat)
    requires at + |x| <= |d| && k + size <= |d|
    ensures k + size == at ==> Patch(d, at, x)[k..k + size] == d[k..k + size]
  {
  }

  /** One pass of the loop: the block before, still ciphertext, is the chaining value. */
  method StepBack(c: Cipher, buf: array<bv8>, at: nat, ghost was: Bytes, ghost end: nat)
    requires c.Valid() && c.size <= at && at + c.size <= end <= buf.Length == |was|
    requires Backwards(c, was, at, end, buf[..])
    modifies buf
    ensures Backwards(c, was, at - c.size, end, buf[..])
  {
    hide Xor, Patch, Backwards, Decrypt;
    BackwardsChain(c, was, at, end, buf[..]);
    BackwardsBlock(c, buf, at, buf, at - c.size, was, end);
    BackwardsIs(c, was, at - c.size, end, buf[..]);
  }

  /** `crypto_cbc_decrypt_inplace` */
  method DecryptInplace(c: Cipher, buf: array<bv8>, o: nat, nbytes: nat, iv: array<bv8>) returns (left: nat)
    requires c.Valid() && c.size <= nbytes && o + nbytes <= buf.Length && iv != buf && iv.Length == c.size
    requires PowerOfTwo(c.size)
    modifies buf, iv
    ensures left == And(nbytes, c.size - 1) < c.size && left <= nbytes
    ensures Decrypted(c, old(buf[..]), o, old(buf[o..o + nbytes - left]), old(iv[..]), buf[..])
    ensures iv[..] == Tail(c.size, old(iv[..]), old(buf[o..o + nbytes - left]))
  {
    hide Xor, Patch, Backwards, Decrypt, Tail, And, PowerOfTwo;
    ghost var was, iv0 := buf[..], iv[..];
    MaskIsOdd(c.size, nbytes);
    var end := o + nbytes - And(nbytes, c.size - 1);
    var at := end - c.size;
    var lastIv := buf[at..end];
    BackwardsStart(c, was, at);
    left := nbytes - c.size;
    while left >= c.size
      invariant o <= at && at + c.size <= end && Whole(c.size, at - o) && Backwards(c, was, at, end, buf[..])
      invariant iv[..] == iv0 && left == at - o + And(nbytes, c.size - 1)
    {
      WholeBack(c.size, at - o);
      StepBack(c, buf, at, was, end);
      at := at - c.size;
      left := left - c.size;
    }
    assert at == o && iv[0..c.size] == iv[..];
    BackwardsBlock(c, buf, at, iv, 0, was, end);
    Store(iv, 0, lastIv);
    TailIs(c.size, iv0, was, o, end);
    assert was[o..end] == old(buf[o..end]);
  }

  lemma BackwardsStart(c: Cipher, was: Bytes, at: nat)
    requires c.Valid() && at + c.size <= |was|
    ensures Backwards(c, was, at, at + c.size, was)
  {
  }

  lemma WholeBack(size: nat, n: nat)
    requires size > 0 && Whole(size, n) && n > 0
    ensures n >= size && Whole(size, n - size)
  {
  }

  /** The ciphertext block before `at` is still in place. */
  lemma BackwardsChain(c: Cipher, was: Bytes, at: nat, end: nat, now: Bytes)
    requires c.Valid() && c.size <= at && at + c.size <= end <= |was| && Backwards(c, was, at, end, now)
    ensures |now| == |was| && now[at - c.size..at] == was[at - c.size..at]
  {
    hide Decrypt;
    assert now[..at + c.size] == was[..at + c.size];
    assert now[..at + c.size][at - c.size..at] == now[at - c.size..at];
    assert was[..at + c.size][at - c.size..at] == was[at - c.size..at];
  }

  lemma BackwardsIs(c: Cipher, was: Bytes, at: nat, end: nat, now: Bytes)
    requires c.Valid() && at + c.size <= end <= |was| && Whole(c.size, end - (at + c.size))
    requires now == Patch(was, at + c.size, Decrypt(c, was[at..at + c.size], was[at + c.size..end]))
    ensures Backwards(c, was, at, end, now)
  {
  }

  lemma TailIs(size: nat, iv: Bytes, was: Bytes, o: nat, end: nat)
    requires o + size <= end <= |was|
    ensures Tail(size, iv, was[o..end]) == was[end - size..end]
  {
  }

  // ---- the chunk loops ----------------------------------------------------------------------------

  /** How the walk cuts what remains: a piece of at least one block. */
  ghost predicate Walks(size: nat, walk: nat -> nat) {
    forall n :: n >= size ==> size <= walk(n) <= n
  }

  /** One piece of the walk, in place or not. */
  method EncryptPiece(c: Cipher, src: array<bv8>, dst: array<bv8>, at: nat, n: nat, iv: array<bv8>) returns (rest: nat)
    requires c.Valid() && c.size <= n && at + n <= src.Length == dst.Length && iv != src && iv != dst &&
             iv.Length == c.size
    modifies dst, iv
    ensures rest < c.size && rest <= n
    ensures Encrypted(c, old(dst[..]), at, old(src[..])[at..at + n - rest], old(iv[..]), dst[..], iv[..])
  {
    hide Encrypted;
    ghost var s0 := src[..];
    if src == dst {
      rest := EncryptInplace(c, dst, at, n, iv);
    } else {
      rest := EncryptSegment(c, src, dst, at, n, iv);
      assert src[at..at + n - rest] == s0[at..at + n - rest];
    }
  }

  /** `crypto_cbc_encrypt`: any cutting into pieces gives the encryption of the whole message, in place or not. */
  method EncryptMessage(c: Cipher, src: array<bv8>, dst: array<bv8>, iv: array<bv8>, walk: nat -> nat)
    returns (left: nat)
    requires c.Valid() && Walks(c.size, walk) && src.Length == dst.Length && iv != src && iv != dst &&
             iv.Length == c.size
    modifies dst, iv
    ensures left < c.size && left <= src.Length
    ensures Encrypted(c, old(dst[..]), 0, old(src[..])[..src.Length - left], old(iv[..]), dst[..], iv[..])
  {
    hide Encrypted;
    ghost var was, msg, iv0 := dst[..], src[..], iv[..];
    var at := 0;
    left := src.Length;
    EncryptedNone(c, was, 0, iv0);
    assert msg[..0] == [];
    while left >= c.size
      invariant at + left == src.Length
      invariant Encrypted(c, was, 0, msg[..at], iv0, dst[..], iv[..])
      invariant src[..][at..] == msg[at..]
    {
      var n := walk(left);
      ghost var d, v, s0 := dst[..], iv[..], src[..];
      AheadKept(c, was, 0, msg[..at], iv0, d, v, left);
      var rest := EncryptPiece(c, src, dst, at, n, iv);
      SameSlice(s0, msg, at, n - rest);
      EncryptedPieces(c, was, msg[..at], msg[at..at + n - rest], iv0, d, v, dst[..], iv[..]);
      Split(msg, 0, at, at + n - rest);
      AheadOf(c, d, at, msg[at..at + n - rest], v, dst[..], iv[..]);
      SameTail(s0, msg, at, n - rest);
      at := at + n - rest;
      left := left - (n - rest);
    }
  }

  lemma SameSlice(a: Bytes, b: Bytes, k: nat, n: nat)
    requires k + n <= |a| == |b| && a[k..] == b[k..]
    ensures a[k..k + n] == b[k..k + n]
  {
    assert a[k..][..n] == a[k..k + n] && b[k..][..n] == b[k..k + n];
  }

  lemma SameTail(a: Bytes, b: Bytes, k: nat, n: nat)
    requires k + n <= |a| == |b| && a[k..] == b[k..]
    ensures a[k + n..] == b[k + n..]
  {
    assert a[k..][n..] == a[k + n..] && b[k..][n..] == b[k + n..];
  }

  lemma EncryptedPieces(c: Cipher, was: Bytes, p: Bytes, q: Bytes, iv: Bytes, mid: Bytes, ivMid: Bytes, now: Bytes,
                        ivNow: Bytes)
    requires c.Valid() && |iv| == c.size && |p| + |q| <= |was| && Encrypted(c, was, 0, p, iv, mid, ivMid)
    requires |ivMid| == c.size && |mid| == |was| && Encrypted(c, mid, |p|, q, ivMid, now, ivNow)
    ensures Encrypted(c, was, 0, p + q, iv, now, ivNow)
  {
    hide Encrypt, Patch, Tail;
    EncryptPieces(c, iv, p, q);
    var done, more := Encrypt(c, iv, p), Encrypt(c, ivMid, q);
    PatchMore(was, 0, done, more);
    TailTwice(c.size, iv, done, more);
  }

  lemma AheadOf(c: Cipher, was: Bytes, o: nat, p: Bytes, iv: Bytes, now: Bytes, ivNow: Bytes)
    requires c.Valid() && |iv| == c.size && o + |p| <= |was| && Encrypted(c, was, o, p, iv, now, ivNow)
    ensures |now| == |was| && now[o + |p|..] == was[o + |p|..]
  {
    hide Encrypt;
  }

  method DecryptPiece(c: Cipher, src: array<bv8>, dst: array<bv8>, at: nat, n: nat, iv: array<bv8>)
    returns (rest: nat)
    requires c.Valid() && PowerOfTwo(c.size) && c.size <= n && at + n <= src.Length == dst.Length
    requires iv != src && iv != dst && iv.Length == c.size
    modifies dst, iv
    ensures rest < c.size && rest <= n
    ensures Decrypted(c, old(dst[..]), at, old(src[..])[at..at + n - rest], old(iv[..]), dst[..])
    ensures iv[..] == Tail(c.size, old(iv[..]), old(src[..])[at..at + n - rest])
  {
    hide Decrypted, Tail;
    ghost var s0 := src[..];
    if src == dst {
      rest := DecryptInplace(c, dst, at, n, iv);
    } else {
      rest := DecryptSegment(c, src, dst, at, n, iv);
      assert src[at..at + n - rest] == s0[at..at + n - rest];
    }
  }

  /** `crypto_cbc_decrypt` likewise. */
  method DecryptMessage(c: Cipher, src: array<bv8>, dst: array<bv8>, iv: array<bv8>, walk: nat -> nat)
    returns (left: nat)
    requires c.Valid() && PowerOfTwo(c.size) && Walks(c.size, walk) && src.Length == dst.Length
    requires iv != src && iv != dst && iv.Length == c.size
    modifies dst, iv
    ensures left < c.size && left <= src.Length
    ensures Decrypted(c, old(dst[..]), 0, old(src[..])[..src.Length - left], old(iv[..]), dst[..])
    ensures iv[..] == Tail(c.size, old(iv[..]), old(src[..])[..src.Length - left])
  {
    hide Decrypted, Tail;
    ghost var was, msg, iv0 := dst[..], src[..], iv[..];
    var at := 0;
    left := src.Length;
    DecryptedNone(c, was, 0, iv0);
    TailNone(c.size, iv0);
    assert msg[..0] == [];
    while left >= c.size
      invariant at + left == src.Length
      invariant Decrypted(c, was, 0, msg[..at], iv0, dst[..]) && iv[..] == Tail(c.size, iv0, msg[..at])
      invariant src[..][at..] == msg[at..]
    {
      var n := walk(left);
      ghost var d, v, s0 := dst[..], iv[..], src[..];
      DecryptedAhead(c, was, 0, msg[..at], iv0, d);
      var rest := DecryptPiece(c, src, dst, at, n, iv);
      SameSlice(s0, msg, at, n - rest);
      DecryptedPieces(c, was, msg[..at], msg[at..at + n - rest], iv0, d, dst[..]);
      Split(msg, 0, at, at + n - rest);
      DecryptedAhead(c, d, at, msg[at..at + n - rest], v, dst[..]);
      SameTail(s0, msg, at, n - rest);
      at := at + n - rest;
      left := left - (n - rest);
    }
  }

  lemma DecryptedPieces(c: Cipher, was: Bytes, s: Bytes, t: Bytes, iv: Bytes, mid: Bytes, now: Bytes)
    requires c.Valid() && |iv| == c.size && |s| + |t| <= |was| && Decrypted(c, was, 0, s, iv, mid)
    requires |mid| == |was| && |Tail(c.size, iv, s)| == c.size && Decrypted(c, mid, |s|, t, Tail(c.size, iv, s), now)
    ensures Decrypted(c, was, 0, s + t, iv, now)
    ensures Tail(c.size, iv, s + t) == Tail(c.size, Tail(c.size, iv, s), t)
  {
    hide Decrypt, Patch, Tail;
    DecryptPieces(c, iv, s, t);
    PatchMore(was, 0, Decrypt(c, iv, s), Decrypt(c, Tail(c.size, iv, s), t));
    TailTwice(c.size, iv, s, t);
  }

  lemma DecryptedAhead(c: Cipher, was: Bytes, o: nat, t: Bytes, iv: Bytes, now: Bytes)
    requires c.Valid() && |iv| == c.size && o + |t| <= |was| && Decrypted(c, was, o, t, iv, now)
    ensures |now| == |was| && now[o + |t|..] == was[o + |t|..]
  {
    hide Decrypt;
  }
}
