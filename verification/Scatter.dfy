/**
 * What merging means for the transfer: the scatterlist moves every byte of
 * the request between the place on the disk and the place in memory that some
 * submitted bio asked for, within the queue's segment limits.
 */
module Scatter {
  import opened Segments

  // ---- what each merge holds -----------------------------------------------------

  lemma RecountSame(q: Queue, bio: Bio)
    ensures Recount(q, bio).vecs == bio.vecs && Recount(q, bio).at == bio.at
  {
    hide ScanAll, Vecs;
  }

  /** Same places and vectors; only cached facts differ. */
  ghost predicate SameData(a: seq<Bio>, b: seq<Bio>) {
    |a| == |b| && forall i :: 0 <= i < |a| ==> a[i].at == b[i].at && a[i].vecs == b[i].vecs
  }

  lemma VecsOne(bio: Bio)
    ensures Vecs([bio]) == bio.vecs
  {
  }

  /** Room for `n` more segments and `more` bytes. */
  predicate Room(q: Queue, rq: Request, n: nat, more: nat) {
    Size(Vecs(rq.bios)) / 512 + more / 512 <= q.maxSectors && rq.nr + n <= q.maxPhys && rq.nr + n <= q.maxHw
  }

  /** A back merge puts the bio's vectors behind the request's, exactly when the three limits allow. */
  lemma BackMergeHolds(q: Queue, rq: Request, bio: Bio)
    requires rq.bios != []
    ensures var t, n := BackMerge(q, rq, bio), Recount(q, bio).phys;
            var ok := Room(q, rq, n, Size(bio.vecs));
            && Vecs(t.bios) == (if ok then Vecs(rq.bios) + bio.vecs else Vecs(rq.bios))
            && t.nr == (if ok then rq.nr + n else rq.nr)
            && SameData(t.bios, if ok then rq.bios + [bio] else rq.bios)
  {
    hide Recount, Vecs, Size;
    RecountSame(q, Last(rq.bios));
    RecountSame(q, bio);
    var r, b := RecountLast(q, rq), Recount(q, bio);
    VecsSame(rq.bios, r.bios);
    VecsConcat(r.bios, [b]);
    VecsOne(b);
  }

  /** A front merge puts them in front. */
  lemma FrontMergeHolds(q: Queue, rq: Request, bio: Bio)
    requires rq.bios != []
    ensures var t, n := FrontMerge(q, rq, bio), Recount(q, bio).phys;
            var ok := Room(q, rq, n, Size(bio.vecs));
            && Vecs(t.bios) == (if ok then bio.vecs + Vecs(rq.bios) else Vecs(rq.bios))
            && t.nr == (if ok then rq.nr + n else rq.nr)
            && SameData(t.bios, if ok then [bio] + rq.bios else rq.bios)
  {
    hide Recount, Vecs, Size;
    RecountSame(q, rq.bios[0]);
    RecountSame(q, bio);
    var r, b := RecountFirst(q, rq), Recount(q, bio);
    VecsSame(rq.bios, r.bios);
    VecsConcat([b], r.bios);
    VecsOne(b);
  }

  /** The segment at the seam is shared. */
  predicate Shares(q: Queue, r: Request, s: Request)
    requires Data(r) && Data(s)
  {
    && q.cluster && Last(r.bios).back + s.bios[0].front <= q.maxSize
    && q.joinable(Last(Last(r.bios).vecs), s.bios[0].vecs[0])
  }

  /** Two requests merge into their vectors in order, one segment fewer if they share one, within the same limits. */
  lemma MergeHolds(q: Queue, r: Request, s: Request)
    requires Data(r) && Data(s)
    ensures var t, n := Merge(q, r, s), r.nr + s.nr - (if Shares(q, r, s) then 1 else 0);
            var ok := && Size(Vecs(r.bios)) / 512 + Size(Vecs(s.bios)) / 512 <= q.maxSectors
                      && 0 <= n <= q.maxPhys && n <= q.maxHw;
            && Vecs(t.bios) == (if ok then Vecs(r.bios) + Vecs(s.bios) else Vecs(r.bios))
            && t.nr == (if ok then n else r.nr) && SameData(t.bios, if ok then r.bios + s.bios else r.bios)
            && SameData(Refused(q, r, s).bios, s.bios) && Refused(q, r, s).nr == s.nr
  {
    hide Vecs, Size;
    var u, w := Widened(q, r, s).bios, WidenedNext(q, r, s).bios;
    VecsSame(r.bios, u);
    VecsSame(s.bios, w);
    VecsConcat(u, w);
  }

  // ---- bytes -------------------------------------------------------------------------

  /** The memory addresses a vector covers. */
  function Stretch(v: Vec): seq<nat> {
    seq(v.len, i requires 0 <= i => v.addr + i)
  }

  function Bytes(vs: seq<Vec>): seq<nat> {
    if vs == [] then [] else Bytes(vs[..|vs| - 1]) + Stretch(Last(vs))
  }

  lemma {:induction false} BytesSize(vs: seq<Vec>)
    ensures |Bytes(vs)| == Size(vs)
  {
    if vs != [] { BytesSize(vs[..|vs| - 1]); }
  }

  lemma BytesSnoc(vs: seq<Vec>, v: Vec)
    ensures Bytes(vs + [v]) == Bytes(vs) + Stretch(v)
  {
    assert (vs + [v])[..|vs|] == vs;
  }

  lemma BytesOne(v: Vec)
    ensures Bytes([v]) == Stretch(v)
  {
    BytesSnoc([], v);
    assert [] + [v] == [v];
  }

  lemma {:induction false} BytesConcat(a: seq<Vec>, b: seq<Vec>)
    ensures Bytes(a + b) == Bytes(a) + Bytes(b)
    decreases |b|
  {
    if b == [] {
      assert a + b == a;
    } else {
      hide Stretch, Bytes;
      var c, v := b[..|b| - 1], b[|b| - 1];
      assert b == c + [v] && a + b == (a + c) + [v];
      BytesSnoc(a + c, v);
      BytesSnoc(c, v);
      BytesConcat(a, c);
      assert Bytes(a) + Bytes(c) + Stretch(v) == Bytes(a) + (Bytes(c) + Stretch(v));
    }
  }

  lemma BytesHead(vs: seq<Vec>)
    requires vs != []
    ensures Bytes(vs) == Stretch(vs[0]) + Bytes(vs[1..]) && Size(vs) == vs[0].len + Size(vs[1..])
  {
    hide Bytes, Stretch, Size;
    assert [vs[0]] + vs[1..] == vs;
    BytesConcat([vs[0]], vs[1..]);
    BytesOne(vs[0]);
    SizeConcat([vs[0]], vs[1..]);
    SizeSnoc([], vs[0]);
    assert [] + [vs[0]] == [vs[0]];
    NoSize();
  }

  lemma NoSize()
    ensures Size([]) == 0
  {
  }

  lemma CutVector(v: Vec, n: nat, rest: seq<Vec>)
    requires n < v.len
    ensures Bytes([Vec(v.addr + n, v.len - n)] + rest) == Stretch(v)[n..] + Bytes(rest)
  {
    hide Bytes;
    var cut := Vec(v.addr + n, v.len - n);
    BytesConcat([cut], rest);
    BytesOne(cut);
    assert Stretch(v)[n..] == Stretch(cut);
  }

  /** Trimming drops exactly the first `n` bytes. */
  lemma {:induction false} TrimBytes(vs: seq<Vec>, n: nat)
    requires n <= |Bytes(vs)|
    ensures Bytes(Trim(vs, n)) == Bytes(vs)[n..]
    decreases |vs|
  {
    hide Bytes, Stretch;
    if n > 0 {
      BytesSize(vs);
      NoSize();
      var v := vs[0];
      BytesHead(vs);
      BytesOne(v);
      BytesSize(vs[1..]);
      StretchSize(v);
      if n >= v.len {
        TrimBytes(vs[1..], n - v.len);
        assert Bytes(vs)[n..] == Bytes(vs[1..])[n - v.len..];
      } else {
        CutVector(v, n, vs[1..]);
        assert Bytes(vs)[n..] == Stretch(v)[n..] + Bytes(vs[1..]);
      }
    }
  }

  lemma StretchSize(v: Vec)
    ensures |Stretch(v)| == v.len
  {
  }

  // ---- where the bytes of a request come from ----------------------------------------------

  /** The bios a history submitted. */
  function Sources(h: History): seq<Bio> {
    match h
    case Starts(bio) => [bio]
    case Back(g, bio) => Sources(g) + [bio]
    case Front(g, bio) => Sources(g) + [bio]
    case Joined(g, next) => Sources(g) + Sources(next)
    case TurnedDown(g, next) => Sources(g) + Sources(next)
    case Recounted(g) => Sources(g)
    case Completed(g, _) => Sources(g)
  }

  /** Some submitted bio pairs disk byte `p` with memory byte `a`. */
  ghost predicate Asked(srcs: seq<Bio>, p: nat, a: nat) {
    exists i :: 0 <= i < |srcs| && Pairs(srcs[i], p, a)
  }

  predicate Pairs(bio: Bio, p: nat, a: nat) {
    bio.at <= p < bio.at + |Bytes(bio.vecs)| && Bytes(bio.vecs)[p - bio.at] == a
  }

  ghost predicate AllAsked(srcs: seq<Bio>, bio: Bio) {
    forall p, a :: Pairs(bio, p, a) ==> Asked(srcs, p, a)
  }

  /** Every bio's bytes were asked for, and each bio starts on the disk where the one before it ends. */
  ghost predicate Laid(srcs: seq<Bio>, bios: seq<Bio>) {
    && (forall i :: 0 <= i < |bios| ==> AllAsked(srcs, bios[i]))
    && forall i :: 0 < i < |bios| ==> bios[i].at == bios[i - 1].at + Size(bios[i - 1].vecs)
  }

  lemma AskedMore(a: seq<Bio>, b: seq<Bio>, bio: Bio)
    ensures AllAsked(a, bio) ==> AllAsked(a + b, bio)
    ensures AllAsked(b, bio) ==> AllAsked(a + b, bio)
  {
    hide Pairs;
    forall p, m ensures Asked(a, p, m) ==> Asked(a + b, p, m)
                ensures Asked(b, p, m) ==> Asked(a + b, p, m)
    {
      if Asked(a, p, m) {
        var i :| 0 <= i < |a| && Pairs(a[i], p, m);
        assert (a + b)[i] == a[i];
      }
      if Asked(b, p, m) {
        var i :| 0 <= i < |b| && Pairs(b[i], p, m);
        assert (a + b)[|a| + i] == b[i];
      }
    }
  }

  lemma LaidMore(a: seq<Bio>, b: seq<Bio>, bios: seq<Bio>)
    ensures Laid(a, bios) ==> Laid(a + b, bios)
    ensures Laid(b, bios) ==> Laid(a + b, bios)
  {
    hide AllAsked;
    forall i | 0 <= i < |bios|
      ensures AllAsked(a, bios[i]) ==> AllAsked(a + b, bios[i])
      ensures AllAsked(b, bios[i]) ==> AllAsked(a + b, bios[i])
    {
      AskedMore(a, b, bios[i]);
    }
  }

  lemma LaidSame(srcs: seq<Bio>, a: seq<Bio>, b: seq<Bio>)
    requires Laid(srcs, a) && SameData(a, b)
    ensures Laid(srcs, b)
  {
    hide Asked;
    forall i | 0 <= i < |b| ensures AllAsked(srcs, b[i]) {
      assert AllAsked(srcs, a[i]);
      forall p, m | Pairs(b[i], p, m) ensures Asked(srcs, p, m) {
        assert Pairs(a[i], p, m);
      }
    }
  }

  lemma {:induction false} EndIs(srcs: seq<Bio>, bios: seq<Bio>)
    requires Laid(srcs, bios) && bios != []
    ensures Last(bios).at + Size(Last(bios).vecs) == bios[0].at + Size(Vecs(bios))
    decreases |bios|
  {
    hide AllAsked;
    var n := |bios| - 1;
    if n == 0 {
      assert bios == [bios[0]];
      VecsOne(bios[0]);
    } else {
      EndIs(srcs, bios[..n]);
      SizeConcat(Vecs(bios[..n]), bios[n].vecs);
    }
  }

  lemma LaidConcat(srcs: seq<Bio>, a: seq<Bio>, b: seq<Bio>)
    requires Laid(srcs, a) && Laid(srcs, b) && a != [] && b != []
    requires a[0].at + Size(Vecs(a)) == b[0].at
    ensures Laid(srcs, a + b)
  {
    hide AllAsked, Vecs, Size;
    EndIs(srcs, a);
    var c := a + b;
    forall i | 0 < i < |c| ensures c[i].at == c[i - 1].at + Size(c[i - 1].vecs) {
      if i > |a| { assert c[i] == b[i - |a|] && c[i - 1] == b[i - |a| - 1]; }
    }
  }

  lemma LaidOne(srcs: seq<Bio>, bio: Bio)
    requires bio in srcs
    ensures Laid(srcs, [bio])
  {
    hide Pairs;
    var i :| 0 <= i < |srcs| && srcs[i] == bio;
    forall p, a | Pairs(bio, p, a) ensures Asked(srcs, p, a) {
      assert Pairs(srcs[i], p, a);
    }
  }

  lemma TrimAsked(srcs: seq<Bio>, bio: Bio, n: nat)
    requires AllAsked(srcs, bio) && n <= Size(bio.vecs)
    ensures var t := bio.(at := bio.at + n, vecs := Trim(bio.vecs, n));
            AllAsked(srcs, t) && t.at + Size(t.vecs) == bio.at + Size(bio.vecs)
  {
    hide Asked, Trim, Bytes;
    var t := bio.(at := bio.at + n, vecs := Trim(bio.vecs, n));
    BytesSize(bio.vecs);
    TrimBytes(bio.vecs, n);
    BytesSize(t.vecs);
    forall p, a | Pairs(t, p, a) ensures Asked(srcs, p, a) {
      assert Pairs(bio, p, a);
    }
  }

  /** Completion keeps the rest where it was on the disk. */
  lemma {:induction false} LaidCut(srcs: seq<Bio>, bios: seq<Bio>, n: nat)
    requires Laid(srcs, bios)
    ensures Laid(srcs, Cut(bios, n))
    decreases |bios|
  {
    hide AllAsked;
    if n > 0 && bios != [] {
      if n >= Size(bios[0].vecs) {
        LaidCut(srcs, bios[1..], n - Size(bios[0].vecs));
      } else {
        TrimAsked(srcs, bios[0], n);
      }
    }
  }

  lemma RecalcSame(q: Queue, rq: Request)
    ensures SameData(rq.bios, Recalc(q, rq).bios)
  {
    hide ScanAll, Vecs;
  }

  lemma BackLaid(q: Queue, srcs: seq<Bio>, rq: Request, bio: Bio)
    requires Laid(srcs, rq.bios) && rq.bios != [] && End(rq) == bio.at
    ensures Laid(srcs + [bio], BackMerge(q, rq, bio).bios)
  {
    hide BackMerge, Laid, Recount;
    BackMergeHolds(q, rq, bio);
    LaidMore(srcs, [bio], rq.bios);
    LaidOne(srcs + [bio], bio);
    LaidConcat(srcs + [bio], rq.bios, [bio]);
    var t := BackMerge(q, rq, bio).bios;
    if |t| == |rq.bios| { LaidSame(srcs + [bio], rq.bios, t); } else { LaidSame(srcs + [bio], rq.bios + [bio], t); }
  }

  lemma FrontLaid(q: Queue, srcs: seq<Bio>, rq: Request, bio: Bio)
    requires Laid(srcs, rq.bios) && rq.bios != [] && bio.at + Size(bio.vecs) == rq.bios[0].at
    ensures Laid(srcs + [bio], FrontMerge(q, rq, bio).bios)
  {
    hide FrontMerge, Laid, Recount;
    FrontMergeHolds(q, rq, bio);
    LaidMore(srcs, [bio], rq.bios);
    LaidOne(srcs + [bio], bio);
    VecsOne(bio);
    LaidConcat(srcs + [bio], [bio], rq.bios);
    var t := FrontMerge(q, rq, bio).bios;
    if |t| == |rq.bios| { LaidSame(srcs + [bio], rq.bios, t); } else { LaidSame(srcs + [bio], [bio] + rq.bios, t); }
  }

  lemma MergeLaid(q: Queue, a: seq<Bio>, b: seq<Bio>, r: Request, s: Request)
    requires Laid(a, r.bios) && Laid(b, s.bios) && Neighbours(r, s)
    ensures Laid(a + b, Merge(q, r, s).bios) && Laid(a + b, Refused(q, r, s).bios)
  {
    hide Merge, Refused, Laid, Shares;
    MergeHolds(q, r, s);
    LaidMore(a, b, r.bios);
    LaidMore(a, b, s.bios);
    LaidConcat(a + b, r.bios, s.bios);
    var t := Merge(q, r, s).bios;
    if |t| == |r.bios| { LaidSame(a + b, r.bios, t); } else { LaidSame(a + b, r.bios + s.bios, t); }
    LaidSame(a + b, s.bios, Refused(q, r, s).bios);
  }

  /** Every history leaves bios whose bytes were asked for, in disk order without a gap. */
  lemma {:induction false} HistoryLaid(q: Queue, h: History)
    ensures Laid(Sources(h), Result(q, h).bios)
    decreases h
  {
    hide Laid, BackMerge, FrontMerge, Merge, Refused, Recalc, Recount, Cut;
    match h
    case Starts(bio) =>
      LaidOne([bio], bio);
      RecountSame(q, bio);
      LaidSame([bio], [bio], Start(q, bio).bios);
    case Back(g, bio) =>
      var r := Result(q, g);
      HistoryLaid(q, g);
      LaidMore(Sources(g), [bio], r.bios);
      if r.bios != [] && End(r) == bio.at { BackLaid(q, Sources(g), r, bio); }
    case Front(g, bio) =>
      var r := Result(q, g);
      HistoryLaid(q, g);
      LaidMore(Sources(g), [bio], r.bios);
      if r.bios != [] && bio.at + Size(bio.vecs) == r.bios[0].at { FrontLaid(q, Sources(g), r, bio); }
    case Joined(g, n) =>
      HistoryLaid(q, g);
      HistoryLaid(q, n);
      BothLaid(q, Sources(g), Sources(n), Result(q, g), Result(q, n));
    case TurnedDown(g, n) =>
      HistoryLaid(q, g);
      HistoryLaid(q, n);
      BothLaid(q, Sources(g), Sources(n), Result(q, g), Result(q, n));
    case Recounted(g) =>
      HistoryLaid(q, g);
      RecalcSame(q, Result(q, g));
      LaidSame(Sources(g), Result(q, g).bios, Recalc(q, Result(q, g)).bios);
    case Completed(g, n) =>
      var r := Result(q, g);
      HistoryLaid(q, g);
      LaidCut(Sources(g), r.bios, n);
      var t := r.(bios := Cut(r.bios, n));
      RecalcSame(q, t);
      LaidSame(Sources(g), t.bios, Recalc(q, t).bios);
  }

  lemma BothLaid(q: Queue, a: seq<Bio>, b: seq<Bio>, r: Request, s: Request)
    requires Laid(a, r.bios) && Laid(b, s.bios)
    ensures && Laid(a + b, r.bios) && Laid(a + b, s.bios)
            && (Neighbours(r, s) ==> Laid(a + b, Merge(q, r, s).bios) && Laid(a + b, Refused(q, r, s).bios))
  {
    hide Laid, Merge, Refused;
    LaidMore(a, b, r.bios);
    LaidMore(a, b, s.bios);
    if Neighbours(r, s) { MergeLaid(q, a, b, r, s); }
  }

  /** So the bytes of the request, in order, are those asked for from its first disk byte on. */
  lemma {:induction false} LaidBytes(srcs: seq<Bio>, bios: seq<Bio>)
    requires Laid(srcs, bios) && bios != []
    ensures var bytes := Bytes(Vecs(bios));
            forall k :: 0 <= k < |bytes| ==> Asked(srcs, bios[0].at + k, bytes[k])
    decreases |bios|
  {
    var n := |bios| - 1;
    var pre, last := bios[..n], bios[n];
    hide Asked;
    assert AllAsked(srcs, last);
    assert Vecs(bios) == Vecs(pre) + last.vecs;
    BytesConcat(Vecs(pre), last.vecs);
    BytesSize(Vecs(pre));
    EndIs(srcs, bios);
    SizeConcat(Vecs(pre), last.vecs);
    hide Bytes, Vecs, Size;
    var bytes, before := Bytes(Vecs(bios)), |Bytes(Vecs(pre))|;
    if n > 0 { LaidBytes(srcs, pre); }
    forall k | 0 <= k < |bytes| ensures Asked(srcs, bios[0].at + k, bytes[k]) {
      if k < before {
        NoVecs(pre, k);
      } else {
        assert bytes[k] == Bytes(last.vecs)[k - before];
        assert Pairs(last, bios[0].at + k, bytes[k]);
      }
    }
  }

  lemma NoVecs(bios: seq<Bio>, k: nat)
    requires k < |Bytes(Vecs(bios))|
    ensures bios != []
  {
  }

  // ---- the scatterlist ---------------------------------------------------------------------------

  /** Vectors are joined only if adjacent in memory, and still are when the first is cut from its front. */
  ghost predicate Physical(q: Queue) {
    forall v, w :: q.joinable(v, w) ==> v.addr + v.len == w.addr && CutJoins(q, v, w)
  }

  ghost predicate CutJoins(q: Queue, v: Vec, w: Vec) {
    forall n :: 0 <= n < v.len ==> q.joinable(Shorter(v, n), w)
  }

  /** A vector without its first `n` bytes. */
  function Shorter(v: Vec, n: nat): Vec
    requires n < v.len
  {
    Vec(v.addr + n, v.len - n)
  }

  /** `BIOVEC_PHYS_MERGEABLE` and `BIOVEC_SEG_BOUNDARY`, for a boundary of `w` bytes. */
  predicate Contig(w: nat, a: Vec, b: Vec)
    requires w > 0
  {
    a.addr + a.len == b.addr && a.addr / w == (b.addr + b.len - 1) / w
  }

  lemma DivBetween(a: int, b: int, c: int, w: nat)
    requires w > 0 && a <= b <= c && a / w == c / w
    ensures b / w == a / w
  {
    DivMono(a, b, w);
    DivMono(b, c, w);
  }

  lemma DivMono(a: int, b: int, w: nat)
    requires w > 0 && a <= b
    ensures a / w <= b / w
  {
    Quotient(w, a / w, b / w);
  }

  lemma Quotient(w: nat, x: int, y: int)
    requires w > 0 && w * x < w * y + w
    ensures x <= y
  {
    if x > y { MulMono(w, y + 1, x); }
  }

  lemma MulMono(w: nat, x: int, y: int)
    requires x <= y
    ensures w * x <= w * y
  {
  }

  lemma ContigCut(w: nat, a: Vec, b: Vec, n: nat)
    requires w > 0 && Contig(w, a, b) && n < a.len
    ensures Contig(w, Shorter(a, n), b)
  {
    DivBetween(a.addr, a.addr + n, if n == 0 then a.addr else b.addr + b.len - 1, w);
  }

  /** The kernel's own test is of this kind. */
  lemma ContigPhysical(q: Queue, w: nat)
    requires w > 0 && forall a, b :: q.joinable(a, b) <==> Contig(w, a, b)
    ensures Physical(q)
  {
    forall a, b | q.joinable(a, b) ensures a.addr + a.len == b.addr && CutJoins(q, a, b) {
      assert Contig(w, a, b);
      forall n: nat | n < a.len ensures q.joinable(Shorter(a, n), b) {
        ContigCut(w, a, b, n);
      }
    }
  }

  /** The bytes of a segment are one stretch of memory. */
  lemma {:induction false} SegmentBytes(q: Queue, run: seq<Vec>)
    requires Segment(q, run) && Physical(q)
    ensures Bytes(run) == Stretch(Vec(run[0].addr, Size(run)))
    ensures run[0].addr + Size(run) == Last(run).addr + Last(run).len
    decreases |run|
  {
    var n := |run| - 1;
    if n == 0 {
      assert run == [run[0]];
      BytesOne(run[0]);
      SizeSnoc([], run[0]);
      assert [] + [run[0]] == [run[0]];
    } else {
      var pre, v := run[..n], run[n];
      assert run == pre + [v];
      SizeSnoc(pre, v);
      BytesSnoc(pre, v);
      assert Segment(q, pre);
      SegmentBytes(q, pre);
      assert q.joinable(run[n - 1], run[n]);
      StretchConcat(run[0].addr, Size(pre), v);
    }
  }

  lemma StretchConcat(addr: nat, len: nat, v: Vec)
    requires addr + len == v.addr
    ensures Stretch(Vec(addr, len)) + Stretch(v) == Stretch(Vec(addr, len + v.len))
  {
  }

  lemma EntriesSnoc(runs: seq<seq<Vec>>, run: seq<Vec>)
    requires run != [] && forall i :: 0 <= i < |runs| ==> runs[i] != []
    ensures Entries(runs + [run]) == Entries(runs) + [Vec(run[0].addr, Size(run))]
  {
    hide Size;
  }

  lemma SegmentsNonempty(q: Queue, runs: seq<seq<Vec>>)
    requires forall i :: 0 <= i < |runs| ==> Segment(q, runs[i])
    ensures forall i :: 0 <= i < |runs| ==> runs[i] != []
  {
    forall i | 0 <= i < |runs| ensures runs[i] != [] { assert Segment(q, runs[i]); }
  }

  lemma NoEntries()
    ensures Bytes(Entries([])) == Bytes(Flat([]))
  {
  }

  lemma {:induction false} EntriesBytes(q: Queue, runs: seq<seq<Vec>>)
    requires Physical(q) && forall i :: 0 <= i < |runs| ==> Segment(q, runs[i])
    ensures (forall i :: 0 <= i < |runs| ==> runs[i] != []) && Bytes(Entries(runs)) == Bytes(Flat(runs))
  {
    SegmentsNonempty(q, runs);
    hide Physical, Segment, Bytes, Entries, Flat, Size, Stretch;
    if runs == [] {
      NoEntries();
    } else {
      var pre, run := runs[..|runs| - 1], runs[|runs| - 1];
      assert runs == pre + [run];
      EntriesBytes(q, pre);
      SegmentBytes(q, run);
      FlatSnoc(pre, run);
      BytesConcat(Flat(pre), run);
      EntriesSnoc(pre, run);
      BytesSnoc(Entries(pre), Vec(run[0].addr, Size(run)));
    }
  }

  /**
   * Whatever history of merges and partial completions a request has, byte `k` of the scatterlist `blk_rq_map_sg`
   * builds for it is the memory byte some submitted bio paired with disk byte `k` of the request.
   */
  lemma TransferRight(q: Queue, h: History)
    requires Physical(q) && Result(q, h).bios != []
    ensures var bios := Result(q, h).bios; var runs := MapRuns(q, Vecs(bios));
            && (forall i :: 0 <= i < |runs| ==> runs[i] != [])
            && Bytes(Entries(runs)) == Bytes(Vecs(bios))
            && forall k :: 0 <= k < |Bytes(Entries(runs))| ==>
                 Asked(Sources(h), bios[0].at + k, Bytes(Entries(runs))[k])
  {
    hide Physical, Laid, Asked, Result, MapRuns, MapAll, Vecs, Bytes, Entries, Flat, Segment, Size;
    var bios := Result(q, h).bios;
    HistoryLaid(q, h);
    LaidBytes(Sources(h), bios);
    MapIsSegmentation(q, Vecs(bios));
    EntriesBytes(q, MapRuns(q, Vecs(bios)));
  }

  /** One step of the cut. */
  lemma CutIs(bios: seq<Bio>, n: nat)
    requires bios != [] && n > 0
    ensures var b, rest := bios[0], bios[1..];
            Cut(bios, n) == if n >= Size(b.vecs) then Cut(rest, n - Size(b.vecs))
                            else [b.(at := b.at + n, vecs := Trim(b.vecs, n))] + rest
  {
    hide Size, Trim;
  }

  lemma VecsCons(bio: Bio, bios: seq<Bio>)
    ensures Vecs([bio] + bios) == bio.vecs + Vecs(bios)
  {
    hide Vecs;
    VecsConcat([bio], bios);
    VecsOne(bio);
  }

  /** What is behind the first `n`. */
  function Behind(bytes: seq<nat>, n: nat): seq<nat> {
    if n < |bytes| then bytes[n..] else []
  }

  lemma BehindConcat(a: seq<nat>, b: seq<nat>, n: nat)
    ensures Behind(a + b, n) == if n < |a| then a[n..] + b else Behind(b, n - |a|)
  {
    if n < |a| {
      assert (a + b)[n..] == a[n..] + b;
    } else if n < |a + b| {
      assert (a + b)[n..] == b[n - |a|..];
    }
  }

  lemma CutNothing(bios: seq<Bio>, n: nat)
    requires n == 0 || bios == []
    ensures Bytes(Vecs(Cut(bios, n))) == Behind(Bytes(Vecs(bios)), n)
  {
    NoBytes();
  }

  /** Completing `n` bytes takes exactly the first `n` bytes off the request. */
  lemma {:induction false} CutBytes(bios: seq<Bio>, n: nat)
    ensures Bytes(Vecs(Cut(bios, n))) == Behind(Bytes(Vecs(bios)), n)
    decreases |bios|
  {
    hide Bytes, Size, Trim, Cut, Vecs, Behind;
    if n == 0 || bios == [] {
      CutNothing(bios, n);
    } else {
      var first, rest := bios[0], bios[1..];
      VecsHead(bios);
      CutIs(bios, n);
      BytesConcat(first.vecs, Vecs(rest));
      BytesSize(first.vecs);
      BehindConcat(Bytes(first.vecs), Bytes(Vecs(rest)), n);
      if n >= Size(first.vecs) {
        CutBytes(rest, n - Size(first.vecs));
      } else {
        var t := first.(at := first.at + n, vecs := Trim(first.vecs, n));
        VecsCons(t, rest);
        TrimBytes(first.vecs, n);
        BytesConcat(t.vecs, Vecs(rest));
      }
    }
  }

  lemma NoBytes()
    ensures Bytes(Vecs([])) == []
  {
  }

  lemma VecsHead(bios: seq<Bio>)
    requires bios != []
    ensures Vecs(bios) == bios[0].vecs + Vecs(bios[1..])
  {
    assert [bios[0]] + bios[1..] == bios;
    VecsConcat([bios[0]], bios[1..]);
    VecsOne(bios[0]);
  }

  // ---- the recount is exact -----------------------------------------------------------------------

  /** A segment the counting walk may see: a vector that may be bounced stands alone. */
  ghost predicate Apart(q: Queue, run: seq<Vec>) {
    Segment(q, run) && (|run| > 1 ==> forall i :: 0 <= i < |run| ==> !q.high(run[i]))
  }

  ghost predicate ApartSegmentation(q: Queue, vs: seq<Vec>, runs: seq<seq<Vec>>) {
    Flat(runs) == vs && forall i :: 0 <= i < |runs| ==> Apart(q, runs[i])
  }

  lemma ScanSnoc(q: Queue, front: nat, vs: seq<Vec>, v: Vec)
    ensures ScanAll(q, front, vs + [v]) == ScanVec(q, ScanAll(q, front, vs), v)
  {
    assert (vs + [v])[..|vs|] == vs;
  }

  lemma {:induction false} ScanInRun(q: Queue, front: nat, before: seq<Vec>, run: seq<Vec>, j: nat, k: nat)
    requires Apart(q, run) && 0 < j <= |run| && ScanAll(q, front, before).n < k
    ensures var s := ScanAll(q, front, before + run[..j]);
            && s.n <= k && (s.n == k ==> s.size <= Size(run[..j]))
            && s.prev == run[j - 1] && s.highPrev == q.high(run[j - 1])
    decreases j
  {
    var vs := before + run[..j - 1];
    assert before + run[..j] == vs + [run[j - 1]];
    assert run[..j] == run[..j - 1] + [run[j - 1]];
    SizeSnoc(run[..j - 1], run[j - 1]);
    ScanSnoc(q, front, vs, run[j - 1]);
    hide ScanAll, Size;
    if j > 1 {
      ScanInRun(q, front, before, run, j - 1, k);
      SizePrefix(run, j);
    } else {
      assert vs == before;
    }
  }

  lemma {:induction false} ScanShortest(q: Queue, front: nat, runs: seq<seq<Vec>>)
    requires forall i :: 0 <= i < |runs| ==> Apart(q, runs[i])
    ensures ScanAll(q, front, Flat(runs)).n <= |runs|
  {
    if runs != [] {
      ScanShortest(q, front, runs[..|runs| - 1]);
      var run := Last(runs);
      ScanInRun(q, front, Flat(runs[..|runs| - 1]), run, |run|, |runs|);
      assert run[..|run|] == run;
    }
  }

  /** The walk's own segments keep bounced vectors apart. */
  lemma {:induction false} ScanApart(q: Queue, front: nat, vs: seq<Vec>)
    ensures var runs, s := ScanRuns(q, front, vs), ScanAll(q, front, vs);
            && (forall i :: 0 <= i < |runs| ==> |runs[i]| > 1 ==> forall j :: 0 <= j < |runs[i]| ==>
              !q.high(runs[i][j]))
            && (runs != [] ==> Last(runs) != [] && s.highPrev == q.high(Last(Last(runs))))
            && (runs == [] ==> s.highPrev)
  {
    if vs != [] {
      var pre := vs[..|vs| - 1];
      ScanApart(q, front, pre);
    }
  }

  /** The recount is the least number of segments that keep bounced vectors apart. */
  lemma RecalcLeast(q: Queue, rq: Request, limit: nat)
    requires Data(rq)
    ensures Recalc(q, rq).nr <= limit <==> exists runs :: ApartSegmentation(q, Vecs(rq.bios), runs) && |runs| <= limit
  {
    hide ScanAll, ScanRuns, Vecs;
    var front, vs := rq.bios[0].front, Vecs(rq.bios);
    ScanIsSegmentation(q, front, vs);
    ScanApart(q, front, vs);
    assert ApartSegmentation(q, vs, ScanRuns(q, front, vs));
    forall runs | ApartSegmentation(q, vs, runs) ensures ScanAll(q, front, vs).n <= |runs| {
      ScanShortest(q, front, runs);
    }
  }

  /** And the end sizes grow to the walk's first and last segment, no further. */
  lemma RecalcSizes(q: Queue, rq: Request)
    requires Data(rq)
    ensures var t, runs := Recalc(q, rq), ScanRuns(q, rq.bios[0].front, Vecs(rq.bios));
            && |t.bios| == |rq.bios| && runs != []
            && t.bios[0].front == Max(rq.bios[0].front, Size(runs[0]))
            && Last(t.bios).back == Max(Last(rq.bios).back, Size(Last(runs)))
  {
    hide ScanAll, ScanRuns, Vecs;
    VecsData(rq);
    ScanIsSegmentation(q, rq.bios[0].front, Vecs(rq.bios));
  }

  // ---- the limits -------------------------------------------------------------------------------------

  predicate Within(q: Queue, rq: Request) {
    rq.nr <= q.maxPhys && rq.nr <= q.maxHw
  }

  /** A merge of any of the three kinds leaves a request within the limits within them. */
  lemma MergesWithin(q: Queue, rq: Request, bio: Bio, next: Request)
    requires Within(q, rq)
    ensures rq.bios != [] ==> Within(q, BackMerge(q, rq, bio)) && Within(q, FrontMerge(q, rq, bio))
    ensures Data(rq) && Data(next) ==> Within(q, Merge(q, rq, next))
    ensures Data(rq) && Data(next) && Within(q, next) ==> Within(q, Refused(q, rq, next))
  {
    hide BackMerge, FrontMerge, Merge, Refused, Recount, Vecs, Size;
    if rq.bios != [] {
      BackMergeHolds(q, rq, bio);
      FrontMergeHolds(q, rq, bio);
    }
    if Data(rq) && Data(next) { MergeHolds(q, rq, next); }
  }

  /** No page of this queue is bounced. */
  ghost predicate NoBounce(q: Queue) {
    forall v :: !q.high(v)
  }

  /** Dropping the first vector of a segmented list takes no more segments. */
  lemma DropFirst(q: Queue, vs: seq<Vec>, runs: seq<seq<Vec>>) returns (rest: seq<seq<Vec>>)
    requires Segmentation(q, vs, runs) && vs != []
    ensures Segmentation(q, vs[1..], rest) && |rest| <= |runs|
  {
    FirstRun(q, vs, runs);
    var run := runs[0];
    if |run| == 1 {
      hide Flat;
      rest := runs[1..];
      assert vs[1..] == Flat(rest);
    } else {
      hide Flat, Segmentation;
      SegmentTail(q, run);
      rest := [run[1..]] + runs[1..];
      PutFirst(q, run[1..], runs[1..]);
      assert vs[1..] == run[1..] + Flat(runs[1..]);
    }
  }

  lemma NoRuns(runs: seq<seq<Vec>>)
    requires Flat(runs) != []
    ensures runs != []
  {
  }

  lemma SegmentTail(q: Queue, run: seq<Vec>)
    requires Segment(q, run) && |run| > 1
    ensures Segment(q, run[1..])
  {
    BytesHead(run);
  }

  /** The vectors are the first segment and what the others hold. */
  lemma FirstRun(q: Queue, vs: seq<Vec>, runs: seq<seq<Vec>>)
    requires Segmentation(q, vs, runs) && vs != []
    ensures runs != [] && Segment(q, runs[0]) && vs == runs[0] + Flat(runs[1..]) && vs[0] == runs[0][0]
    ensures forall i :: 0 <= i < |runs[1..]| ==> Segment(q, runs[1..][i])
  {
    NoRuns(runs);
    assert Segment(q, runs[0]);
    assert [runs[0]] + runs[1..] == runs;
    hide Flat;
    FlatConcat([runs[0]], runs[1..]);
    FlatOne(runs[0]);
  }

  lemma PutFirst(q: Queue, run: seq<Vec>, runs: seq<seq<Vec>>)
    requires Segment(q, run) && forall i :: 0 <= i < |runs| ==> Segment(q, runs[i])
    ensures Segmentation(q, run + Flat(runs), [run] + runs)
  {
    hide Flat, Segment;
    FlatConcat([run], runs);
    FlatOne(run);
  }

  /** Cutting the first vector takes no more segments either. */
  lemma CutFirst(q: Queue, vs: seq<Vec>, runs: seq<seq<Vec>>, n: nat) returns (rest: seq<seq<Vec>>)
    requires Segmentation(q, vs, runs) && vs != [] && n < vs[0].len && Physical(q)
    ensures Segmentation(q, [Shorter(vs[0], n)] + vs[1..], rest) && |rest| <= |runs|
  {
    FirstRun(q, vs, runs);
    hide Flat, Physical, Segmentation;
    var run := runs[0];
    var cut := [Shorter(run[0], n)] + run[1..];
    SegmentCut(q, run, n);
    rest := [cut] + runs[1..];
    PutFirst(q, cut, runs[1..]);
    assert [Shorter(vs[0], n)] + vs[1..] == cut + Flat(runs[1..]);
  }

  lemma SegmentCut(q: Queue, run: seq<Vec>, n: nat)
    requires Segment(q, run) && n < run[0].len && Physical(q)
    ensures Segment(q, [Shorter(run[0], n)] + run[1..])
  {
    var cut := [Shorter(run[0], n)] + run[1..];
    BytesHead(run);
    BytesHead(cut);
    assert cut[1..] == run[1..];
    forall i | 0 < i < |cut| ensures q.joinable(cut[i - 1], cut[i]) {
      assert q.joinable(run[i - 1], run[i]);
      if i == 1 { assert CutJoins(q, run[0], run[1]); }
    }
  }

  lemma {:induction false} DropMany(q: Queue, vs: seq<Vec>, runs: seq<seq<Vec>>, k: nat)
    returns (rest: seq<seq<Vec>>)
    requires Segmentation(q, vs, runs) && k <= |vs|
    ensures Segmentation(q, vs[k..], rest) && |rest| <= |runs|
    decreases k
  {
    hide Segmentation;
    if k == 0 {
      assert vs[k..] == vs;
      rest := runs;
    } else {
      rest := DropFirst(q, vs, runs);
      rest := DropMany(q, vs[1..], rest, k - 1);
      assert vs[1..][k - 1..] == vs[k..];
    }
  }

  lemma {:induction false} TrimSegments(q: Queue, vs: seq<Vec>, runs: seq<seq<Vec>>, n: nat)
    returns (rest: seq<seq<Vec>>)
    requires Segmentation(q, vs, runs) && Physical(q)
    ensures Segmentation(q, Trim(vs, n), rest) && |rest| <= |runs|
    decreases |vs|
  {
    hide Segmentation, Physical;
    if n == 0 || vs == [] {
      rest := runs;
    } else if n >= vs[0].len {
      rest := DropFirst(q, vs, runs);
      rest := TrimSegments(q, vs[1..], rest, n - vs[0].len);
    } else {
      rest := CutFirst(q, vs, runs, n);
    }
  }

  lemma {:induction false} TrimConcat(a: seq<Vec>, b: seq<Vec>, n: nat)
    requires n < Size(a)
    ensures Trim(a + b, n) == Trim(a, n) + b
    decreases |a|
  {
    NoSize();
    hide Bytes, Size, Stretch;
    BytesHead(a);
    assert (a + b)[1..] == a[1..] + b;
    if n > 0 {
      if n >= a[0].len {
        TrimConcat(a[1..], b, n - a[0].len);
      } else {
        var c := Vec(a[0].addr + n, a[0].len - n);
        assert [c] + (a[1..] + b) == [c] + a[1..] + b;
      }
    }
  }

  /** What completion leaves needs no more segments. */
  lemma {:induction false} CutSegments(q: Queue, bios: seq<Bio>, runs: seq<seq<Vec>>, n: nat)
    returns (rest: seq<seq<Vec>>)
    requires Segmentation(q, Vecs(bios), runs) && Physical(q)
    ensures Segmentation(q, Vecs(Cut(bios, n)), rest) && |rest| <= |runs|
    decreases |bios|
  {
    hide Segmentation, Physical, Vecs, Trim;
    if n == 0 || bios == [] {
      rest := runs;
    } else {
      var first := bios[0].vecs;
      VecsHead(bios);
      if n >= Size(first) {
        rest := DropMany(q, Vecs(bios), runs, |first|);
        assert Vecs(bios)[|first|..] == Vecs(bios[1..]);
        rest := CutSegments(q, bios[1..], rest, n - Size(first));
      } else {
        var left := [bios[0].(at := bios[0].at + n, vecs := Trim(first, n))] + bios[1..];
        VecsHead(left);
        assert left[1..] == bios[1..];
        TrimConcat(first, Vecs(bios[1..]), n);
        rest := TrimSegments(q, Vecs(bios), runs, n);
      }
    }
  }

  /** Where no page is bounced a recount, even after a partial completion, never raises the count. */
  lemma RecountsNoMore(q: Queue, rq: Request, n: nat)
    requires Good(q, rq) && Physical(q) && NoBounce(q)
    ensures Recalc(q, rq.(bios := Cut(rq.bios, n))).nr <= rq.nr
  {
    var t := rq.(bios := Cut(rq.bios, n));
    CutData(rq, n);
    hide Segmentation, Physical, Vecs, Cut, ScanAll;
    if t.bios != [] && rq.bios != [] {
      var runs :| Witness(q, rq, runs);
      var rest := CutSegments(q, rq.bios, runs, n);
      UnbouncedApart(q, Vecs(t.bios), rest);
      RecalcLeast(q, t, rq.nr);
    } else {
      NothingLeft(rq, n);
    }
  }

  lemma UnbouncedApart(q: Queue, vs: seq<Vec>, runs: seq<seq<Vec>>)
    requires Segmentation(q, vs, runs) && NoBounce(q)
    ensures ApartSegmentation(q, vs, runs)
  {
  }

  lemma NothingLeft(rq: Request, n: nat)
    ensures rq.bios == [] ==> Cut(rq.bios, n) == []
  {
  }

  /** Every request of the history began within the limits. */
  ghost predicate BeganWithin(q: Queue, h: History) {
    match h
    case Starts(bio) => Within(q, Start(q, bio))
    case Back(g, _) => BeganWithin(q, g)
    case Front(g, _) => BeganWithin(q, g)
    case Joined(g, next) => BeganWithin(q, g) && BeganWithin(q, next)
    case TurnedDown(g, next) => BeganWithin(q, g) && BeganWithin(q, next)
    case Recounted(g) => BeganWithin(q, g)
    case Completed(g, _) => BeganWithin(q, g)
  }

  /** Requests that begin within both segment limits stay within them, where no page is bounced. */
  lemma {:induction false} StaysWithin(q: Queue, h: History)
    requires AllFresh(q, h) && Physical(q) && NoBounce(q) && BeganWithin(q, h)
    ensures Within(q, Result(q, h))
    decreases h
  {
    hide BackMerge, FrontMerge, Merge, Refused, Recalc, Recount, Cut, Physical, Good, NoBounce;
    match h
    case Starts(bio) =>
    case Back(g, bio) =>
      StaysWithin(q, g);
      MergesWithin(q, Result(q, g), bio, Result(q, g));
    case Front(g, bio) =>
      StaysWithin(q, g);
      MergesWithin(q, Result(q, g), bio, Result(q, g));
    case Joined(g, n) =>
      StaysWithin(q, g);
      MergesWithin(q, Result(q, g), ANY_BIO, Result(q, n));
    case TurnedDown(g, n) =>
      StaysWithin(q, g);
      StaysWithin(q, n);
      MergesWithin(q, Result(q, g), ANY_BIO, Result(q, n));
    case Recounted(g) =>
      StaysWithin(q, g);
      HistoryGood(q, g);
      RecountsNoMore(q, Result(q, g), 0);
      CutNone(Result(q, g));
    case Completed(g, n) =>
      StaysWithin(q, g);
      HistoryGood(q, g);
      RecountsNoMore(q, Result(q, g), n);
  }

  const ANY_BIO := Bio(0, [], 0, 0, 0, false)

  lemma CutNone(rq: Request)
    ensures rq.(bios := Cut(rq.bios, 0)) == rq
  {
  }

  /** A queue that bounces every page, allowing one segment. */
  function Bouncing(): Queue {
    Queue(true, 8192, 64, 1, 1, (a: Vec, b: Vec) => a.addr + a.len == b.addr, (v: Vec) => true)
  }

  function Page(i: nat): Bio {
    Bio(4096 * i, [Vec(4096 * i, 4096)], 0, 0, 0, false)
  }

  const TWO_PAGES := Joined(Starts(Page(0)), Starts(Page(1)))

  lemma BounceBegins()
    ensures AllFresh(Bouncing(), TWO_PAGES) && Physical(Bouncing()) && BeganWithin(Bouncing(), TWO_PAGES)
    ensures Start(Bouncing(), Page(0)) == Request([Bio(0, Page(0).vecs, 4096, 4096, 1, true)], 1)
    ensures Start(Bouncing(), Page(1)) == Request([Bio(4096, Page(1).vecs, 4096, 4096, 1, true)], 1)
  {
    hide Recount;
    OnePage(Bouncing(), Page(0), Vec(0, 4096));
    OnePage(Bouncing(), Page(1), Vec(4096, 4096));
  }

  lemma BounceMerges()
    ensures var rq := Result(Bouncing(), TWO_PAGES); rq.nr == 1 && Vecs(rq.bios) == [Vec(0, 4096)] + [Vec(4096, 4096)]
  {
    hide Start, Merge, Vecs, Size;
    BounceBegins();
    var r, s := Start(Bouncing(), Page(0)), Start(Bouncing(), Page(1));
    VecsOne(r.bios[0]);
    VecsOne(s.bios[0]);
    SizePage(0);
    SizePage(1);
    MergeHolds(Bouncing(), r, s);
  }

  /** There two adjacent pages merge into one segment, which a recount splits again. */
  lemma BounceExceeds()
    ensures var q := Bouncing();
            && AllFresh(q, TWO_PAGES) && Physical(q) && BeganWithin(q, TWO_PAGES)
            && Result(q, TWO_PAGES).nr == 1 && Result(q, Recounted(TWO_PAGES)).nr == 2
  {
    hide Result, Recalc, AllFresh, Physical, BeganWithin, Vecs;
    BounceBegins();
    BounceMerges();
    NoBios(Result(Bouncing(), TWO_PAGES).bios);
    TwoPages(Bouncing(), Result(Bouncing(), TWO_PAGES), Vec(0, 4096), Vec(4096, 4096));
    RecountedIs(Bouncing(), TWO_PAGES);
  }

  lemma RecountedIs(q: Queue, h: History)
    ensures Result(q, Recounted(h)) == Recalc(q, Result(q, h))
  {
  }

  lemma NoBios(bios: seq<Bio>)
    requires Vecs(bios) != []
    ensures bios != []
  {
  }

  lemma SizePage(i: nat)
    ensures Size(Page(i).vecs) == 4096
  {
  }

  /** One bounced page is one segment. */
  lemma OnePage(q: Queue, bio: Bio, v: Vec)
    requires bio == Bio(bio.at, [v], 0, 0, 0, false)
    ensures Recount(q, bio) == Bio(bio.at, [v], v.len, v.len, 1, true)
  {
    VecsOne(bio);
    ScanSnoc(q, 0, [], v);
    assert [] + [v] == [v];
  }

  lemma TwoPages(q: Queue, rq: Request, u: Vec, v: Vec)
    requires rq.bios != [] && Vecs(rq.bios) == [u] + [v] && q.high(u) && q.high(v)
    ensures Recalc(q, rq).nr == 2
  {
    ScanSnoc(q, rq.bios[0].front, [u], v);
    ScanSnoc(q, rq.bios[0].front, [], u);
    assert [] + [u] == [u];
  }
}
