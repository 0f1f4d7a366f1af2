/**
 * Ending I/O on a request piece by piece, and which of its bytes may be failed
 * together when bios with different failfast flags were merged into it.
 */
module Completion {
  import opened Common

  datatype Vec = Vec(addr: nat, len: nat)

  /** The three REQ_FAILFAST bits. */
  datatype Failfast = Dev | Transport | Driver

  /**
   * A bio's pending vectors and where on the disk, in bytes, they begin; `bad` is a cleared BIO_UPTODATE, `ahead` is
   * BIO_RW_AHEAD.
   */
  datatype Bio = Bio(id: nat, at: nat, vecs: seq<Vec>, size: nat, bad: bool, ff: set<Failfast>, ahead: bool)

  /** `bio_endio` on bio `id`, with an error or without. */
  datatype End = End(id: nat, failed: bool)

  // ---- data ---------------------------------------------------------------------

  function Span(v: Vec): (r: seq<nat>)
    ensures |r| == v.len
  {
    seq(v.len, i requires 0 <= i => v.addr + i)
  }

  /** The bytes vectors stand for, by address, in order. */
  function Data(vs: seq<Vec>): seq<nat> {
    if vs == [] then [] else Span(vs[0]) + Data(vs[1..])
  }

  function AllData(bios: seq<Bio>): seq<nat> {
    if bios == [] then [] else Data(bios[0].vecs) + AllData(bios[1..])
  }

  function Total(bios: seq<Bio>): nat {
    if bios == [] then 0 else bios[0].size + Total(bios[1..])
  }

  /** Each bio has data, and its size says how much. */
  ghost predicate Formed(bios: seq<Bio>) {
    forall i :: 0 <= i < |bios| ==> bios[i].size == |Data(bios[i].vecs)| && bios[i].size > 0
  }

  lemma {:induction false} TotalIsData(bios: seq<Bio>)
    requires Formed(bios)
    ensures Total(bios) == |AllData(bios)|
  {
    if bios != [] { TotalIsData(bios[1..]); }
  }

  // ---- completing n bytes -----------------------------------------------------------

  /** The vectors without their first `n` bytes. */
  function Cut(vs: seq<Vec>, n: nat): seq<Vec> {
    if n == 0 || vs == [] then vs
    else if n >= vs[0].len then Cut(vs[1..], n - vs[0].len)
    else [Vec(vs[0].addr + n, vs[0].len - n)] + vs[1..]
  }

  /** `req_bio_endio` on part of a bio. */
  function Trim(b: Bio, n: nat, error: bool): Bio
    requires n <= b.size
  {
    b.(at := b.at + n, vecs := Cut(b.vecs, n), size := b.size - n, bad := b.bad || error)
  }

  datatype Outcome = Outcome(left: seq<Bio>, ended: seq<End>)

  /** What `blk_update_request` does to the chain. */
  function Advance(bios: seq<Bio>, n: nat, error: bool): Outcome {
    if bios == [] || n == 0 then Outcome(bios, [])
    else if n >= bios[0].size then
      var o := Advance(bios[1..], n - bios[0].size, error);
      Outcome(o.left, [End(bios[0].id, bios[0].bad || error)] + o.ended)
    else
      Outcome([Trim(bios[0], n, error)] + bios[1..], [])
  }

  function Min(a: nat, b: nat): nat {
    if a < b then a else b
  }

  lemma {:induction false} CutData(vs: seq<Vec>, n: nat)
    requires n <= |Data(vs)|
    ensures Data(Cut(vs, n)) == Data(vs)[n..]
  {
    if n == 0 || vs == [] {
    } else if n >= vs[0].len {
      CutData(vs[1..], n - vs[0].len);
      assert Data(vs)[n..] == Data(vs[1..])[n - vs[0].len..];
    } else {
      var c := Vec(vs[0].addr + n, vs[0].len - n);
      assert Span(c) == Span(vs[0])[n..];
      assert Cut(vs, n)[1..] == vs[1..];
      assert Data(vs)[n..] == Span(vs[0])[n..] + Data(vs[1..]);
    }
  }

  /** What is left is well formed and is exactly the data behind the first `n` bytes. */
  lemma {:induction false} AdvanceData(bios: seq<Bio>, n: nat, error: bool)
    requires Formed(bios)
    ensures Formed(Advance(bios, n, error).left)
    ensures AllData(Advance(bios, n, error).left) == AllData(bios)[Min(n, |AllData(bios)|)..]
  {
    if bios == [] || n == 0 {
    } else {
      var b, rest := bios[0], bios[1..];
      var data := Data(b.vecs);
      if n >= b.size {
        AdvanceData(rest, n - b.size, error);
        assert AllData(bios)[Min(n, |AllData(bios)|)..] == AllData(rest)[Min(n - b.size, |AllData(rest)|)..];
      } else {
        CutData(b.vecs, n);
        var t := Advance(bios, n, error).left;
        assert t[0] == Trim(b, n, error) && t[1..] == rest;
        assert (data + AllData(rest))[n..] == data[n..] + AllData(rest);
      }
    }
  }

  /** One completion of `a + b` bytes against two. */
  ghost predicate OnceIsTwice(bios: seq<Bio>, a: nat, b: nat, error: bool) {
    var once, first := Advance(bios, a + b, error), Advance(bios, a, error);
    var second := Advance(first.left, b, error);
    once.ended == first.ended + second.ended && once.left == second.left
  }

  lemma AdvanceHead(bios: seq<Bio>, n: nat, error: bool)
    requires bios != [] && 0 < n && bios[0].size <= n
    ensures var o := Advance(bios[1..], n - bios[0].size, error);
            Advance(bios, n, error) == Outcome(o.left, [End(bios[0].id, bios[0].bad || error)] + o.ended)
  {
  }

  lemma Reassociate(a: seq<End>, b: seq<End>, c: seq<End>)
    ensures (a + b) + c == a + (b + c)
  {
  }

  lemma HeadTwice(bios: seq<Bio>, a: nat, b: nat, error: bool)
    requires bios != [] && 0 < a && bios[0].size <= a && OnceIsTwice(bios[1..], a - bios[0].size, b, error)
    ensures OnceIsTwice(bios, a, b, error)
  {
    hide Advance;
    var e, n := [End(bios[0].id, bios[0].bad || error)], a - bios[0].size;
    var first := Advance(bios[1..], n, error);
    var second := Advance(first.left, b, error);
    AdvanceHead(bios, a, error);
    AdvanceHead(bios, a + b, error);
    assert a + b - bios[0].size == n + b;
    Reassociate(e, first.ended, second.ended);
  }

  /** Completing `a` and then `b` bytes with one verdict is completing `a + b`. */
  lemma {:induction false} AdvanceTwice(bios: seq<Bio>, a: nat, b: nat, error: bool)
    requires Formed(bios)
    ensures OnceIsTwice(bios, a, b, error)
  {
    if bios != [] && a > 0 && b > 0 {
      hide OnceIsTwice;
      if a >= bios[0].size {
        AdvanceTwice(bios[1..], a - bios[0].size, b, error);
        HeadTwice(bios, a, b, error);
      } else {
        TrimTwice(bios, a, b, error);
      }
    }
  }

  lemma {:induction false} CutTwice(vs: seq<Vec>, a: nat, b: nat)
    requires a + b < |Data(vs)|
    ensures Cut(Cut(vs, a), b) == Cut(vs, a + b)
  {
    if vs == [] || a == 0 || b == 0 {
    } else if a >= vs[0].len {
      CutTwice(vs[1..], a - vs[0].len, b);
    } else {
      var c := Cut(vs, a);
      assert c[0].len == vs[0].len - a && c[1..] == vs[1..];
    }
  }

  lemma {:induction false} SizeSplit(bios: seq<Bio>, a: nat, b: nat, error: bool)
    requires Formed(bios) && bios != [] && 0 < a < bios[0].size && b > 0 && a + b >= bios[0].size
    ensures Advance([Trim(bios[0], a, error)] + bios[1..], b, error)
         == Outcome(Advance(bios[1..], a + b - bios[0].size, error).left,
                    [End(bios[0].id, bios[0].bad || error)] + Advance(bios[1..], a + b - bios[0].size, error).ended)
  {
    var t := [Trim(bios[0], a, error)] + bios[1..];
    assert t[1..] == bios[1..];
  }

  lemma TrimTwice(bios: seq<Bio>, a: nat, b: nat, error: bool)
    requires Formed(bios) && bios != [] && 0 < a < bios[0].size && b > 0
    ensures OnceIsTwice(bios, a, b, error)
  {
    if a + b >= bios[0].size {
      SizeSplit(bios, a, b, error);
    } else {
      var t := [Trim(bios[0], a, error)] + bios[1..];
      assert t[0] == Trim(bios[0], a, error) && t[1..] == bios[1..];
      CutTwice(bios[0].vecs, a, b);
    }
  }

  // ---- many completions ------------------------------------------------------------------

  datatype Call = Call(n: nat, error: bool)

  /** Bytes reported by the calls together. */
  function Sum(calls: seq<Call>): nat {
    if calls == [] then 0 else Sum(calls[..|calls| - 1]) + calls[|calls| - 1].n
  }

  /** The calls one after the other. */
  function Run(bios: seq<Bio>, calls: seq<Call>): Outcome {
    if calls == [] then Outcome(bios, [])
    else
      var o, c := Run(bios, calls[..|calls| - 1]), calls[|calls| - 1];
      var p := Advance(o.left, c.n, c.error);
      Outcome(p.left, o.ended + p.ended)
  }

  /** Some call that reported an error covered a byte between offsets `lo` and `hi` of the original data. */
  function Hit(calls: seq<Call>, lo: nat, hi: nat): bool {
    if calls == [] then false
    else
      var pre, c := calls[..|calls| - 1], calls[|calls| - 1];
      Hit(pre, lo, hi) || (c.error && (if lo > Sum(pre) then lo else Sum(pre)) < Min(hi, Sum(pre) + c.n))
  }

  /** Where the calls leave a chain that starts `base` bytes into the data, read off the totals alone. */
  function Fate(bios: seq<Bio>, base: nat, calls: seq<Call>): Outcome {
    if bios == [] then Outcome([], [])
    else
      var b := bios[0];
      var bad := Hit(calls, base, base + b.size);
      if base + b.size <= Sum(calls) then
        var o := Fate(bios[1..], base + b.size, calls);
        Outcome(o.left, [End(b.id, b.bad || bad)] + o.ended)
      else if base < Sum(calls) then Outcome([Trim(b, Sum(calls) - base, bad)] + bios[1..], [])
      else Outcome(bios, [])
  }

  /** Bytes of call `c`, made after `calls`, that lie at or behind `base`. */
  function Reach(calls: seq<Call>, c: Call, base: nat): nat {
    if base <= Sum(calls) then c.n else if base <= Sum(calls) + c.n then Sum(calls) + c.n - base else 0
  }

  ghost predicate FateGoesOn(bios: seq<Bio>, base: nat, calls: seq<Call>, c: Call) {
    var before, after := Fate(bios, base, calls), Fate(bios, base, calls + [c]);
    var step := Advance(before.left, Reach(calls, c, base), c.error);
    after.left == step.left && after.ended == before.ended + step.ended
  }

  lemma SumSnoc(calls: seq<Call>, c: Call)
    ensures Sum(calls + [c]) == Sum(calls) + c.n
  {
    assert (calls + [c])[..|calls|] == calls;
  }

  lemma HitSnoc(calls: seq<Call>, c: Call, lo: nat, hi: nat)
    ensures var done := Sum(calls);
            var touched := (if lo > done then lo else done) < Min(hi, done + c.n);
            Hit(calls + [c], lo, hi) == (Hit(calls, lo, hi) || (c.error && touched))
  {
    assert (calls + [c])[..|calls|] == calls;
  }

  lemma {:induction false} HitBehind(calls: seq<Call>, lo: nat, hi: nat)
    requires Sum(calls) <= lo
    ensures !Hit(calls, lo, hi)
  {
    if calls != [] { HitBehind(calls[..|calls| - 1], lo, hi); }
  }

  lemma FateIs(bios: seq<Bio>, base: nat, calls: seq<Call>)
    requires bios != []
    ensures var b, o := bios[0], Fate(bios[1..], base + bios[0].size, calls);
            var bad := Hit(calls, base, base + b.size);
            Fate(bios, base, calls) ==
              if base + b.size <= Sum(calls) then Outcome(o.left, [End(b.id, b.bad || bad)] + o.ended)
              else if base < Sum(calls) then Outcome([Trim(b, Sum(calls) - base, bad)] + bios[1..], [])
              else Outcome(bios, [])
  {
  }

  lemma AdvanceIs(b: Bio, rest: seq<Bio>, n: nat, error: bool)
    requires n > 0
    ensures Advance([b] + rest, n, error) ==
              if n >= b.size then
                var o := Advance(rest, n - b.size, error);
                Outcome(o.left, [End(b.id, b.bad || error)] + o.ended)
              else Outcome([Trim(b, n, error)] + rest, [])
  {
    assert ([b] + rest)[1..] == rest;
  }

  /** The bio in front was finished by the earlier calls. */
  lemma FateDone(bios: seq<Bio>, base: nat, calls: seq<Call>, c: Call)
    requires bios != [] && base + bios[0].size <= Sum(calls) && FateGoesOn(bios[1..], base + bios[0].size, calls, c)
    ensures FateGoesOn(bios, base, calls, c)
  {
    hide Advance, Fate, Hit, Sum;
    var b := bios[0];
    SumSnoc(calls, c);
    HitSnoc(calls, c, base, base + b.size);
    FateIs(bios, base, calls);
    FateIs(bios, base, calls + [c]);
    var e := [End(b.id, b.bad || Hit(calls, base, base + b.size))];
    var before := Fate(bios[1..], base + b.size, calls);
    var step := Advance(before.left, c.n, c.error);
    assert e + (before.ended + step.ended) == (e + before.ended) + step.ended;
  }

  /** The bio in front had been begun. */
  lemma FateBegun(bios: seq<Bio>, base: nat, calls: seq<Call>, c: Call)
    requires Formed(bios) && bios != [] && base < Sum(calls) < base + bios[0].size && c.n > 0
    requires FateGoesOn(bios[1..], base + bios[0].size, calls, c)
    ensures FateGoesOn(bios, base, calls, c)
  {
    hide Advance, Fate, Hit, Sum, Cut;
    var b, k := bios[0], Sum(calls) - base;
    SumSnoc(calls, c);
    HitSnoc(calls, c, base, base + b.size);
    FateAhead(bios[1..], base + b.size, calls);
    FateIs(bios, base, calls);
    FateIs(bios, base, calls + [c]);
    AdvanceIs(Trim(b, k, Hit(calls, base, base + b.size)), bios[1..], c.n, c.error);
    if c.n < b.size - k {
      CutTwice(b.vecs, k, c.n);
    } else {
      AdvanceNone(bios[1..], c.error);
    }
  }

  lemma AdvanceNone(bios: seq<Bio>, error: bool)
    ensures Advance(bios, 0, error) == Outcome(bios, [])
  {
  }

  /** The bio in front had not been reached. */
  lemma FateFresh(bios: seq<Bio>, base: nat, calls: seq<Call>, c: Call)
    requires Formed(bios) && bios != [] && Sum(calls) <= base
    requires FateGoesOn(bios[1..], base + bios[0].size, calls, c)
    ensures FateGoesOn(bios, base, calls, c)
  {
    hide Advance, Fate, Hit, Sum, Cut;
    var b := bios[0];
    SumSnoc(calls, c);
    HitSnoc(calls, c, base, base + b.size);
    HitBehind(calls, base, base + b.size);
    FateAhead(bios[1..], base + b.size, calls);
    FateIs(bios, base, calls);
    FateIs(bios, base, calls + [c]);
    var n := Reach(calls, c, base);
    assert bios == [b] + bios[1..];
    if n > 0 { AdvanceIs(b, bios[1..], n, c.error); } else { AdvanceNone(bios, c.error); }
    AdvanceNone(bios[1..], c.error);
  }

  lemma FateAhead(bios: seq<Bio>, base: nat, calls: seq<Call>)
    requires Sum(calls) <= base && Formed(bios)
    ensures Fate(bios, base, calls) == Outcome(bios, [])
  {
  }

  lemma {:induction false} FateStep(bios: seq<Bio>, base: nat, calls: seq<Call>, c: Call)
    requires Formed(bios)
    ensures FateGoesOn(bios, base, calls, c)
  {
    if bios != [] {
      FateStep(bios[1..], base + bios[0].size, calls, c);
      hide FateGoesOn;
      if base + bios[0].size <= Sum(calls) {
        FateDone(bios, base, calls, c);
      } else if Sum(calls) <= base {
        FateFresh(bios, base, calls, c);
      } else if c.n > 0 {
        FateBegun(bios, base, calls, c);
      } else {
        FateIdle(bios, base, calls, c);
      }
    }
  }

  lemma FateIdle(bios: seq<Bio>, base: nat, calls: seq<Call>, c: Call)
    requires bios != [] && base < Sum(calls) < base + bios[0].size && c.n == 0
    ensures FateGoesOn(bios, base, calls, c)
  {
    SumSnoc(calls, c);
    HitSnoc(calls, c, base, base + bios[0].size);
  }

  /**
   * Over every series of completions: bios end in order, each once, exactly
   * those whose bytes have all been reported, and with an error iff some of
   * their bytes were reported in error.
   */
  lemma {:induction false} RunFate(bios: seq<Bio>, calls: seq<Call>)
    requires Formed(bios)
    ensures Run(bios, calls) == Fate(bios, 0, calls)
    decreases |calls|
  {
    if calls == [] {
      FateAhead(bios, 0, calls);
    } else {
      var n := |calls| - 1;
      RunFate(bios, calls[..n]);
      assert calls == calls[..n] + [calls[n]];
      FateStep(bios, 0, calls[..n], calls[n]);
    }
  }

  // ---- requests and failfast flags --------------------------------------------------------------

  /** `mixed` is REQ_MIXED_MERGE; `ff` the request's own failfast bits; `sector` where it starts. */
  datatype Request = Request(bios: seq<Bio>, dataLen: nat, mixed: bool, ff: set<Failfast>, sector: nat)

  const ALL_FAILFAST := {Dev, Transport, Driver}

  /** `init_request_from_bio`; read-ahead requests fail fast in every way. */
  function Start(b: Bio): Request {
    Request([b], b.size, false, if b.ahead then ALL_FAILFAST else b.ff, b.at / 512)
  }

  function Widen(bios: seq<Bio>, ff: set<Failfast>): seq<Bio> {
    seq(|bios|, i requires 0 <= i < |bios| => bios[i].(ff := bios[i].ff + ff))
  }

  /** `blk_rq_set_mixed_merge` */
  function SetMixed(rq: Request): Request {
    if rq.mixed then rq else rq.(bios := Widen(rq.bios, rq.ff), mixed := true)
  }

  /** The back merge of `__make_request`. */
  function BackMerge(rq: Request, b: Bio): Request {
    var r := if rq.ff != b.ff then SetMixed(rq) else rq;
    r.(bios := r.bios + [b], dataLen := r.dataLen + b.size)
  }

  /** The front merge of `__make_request`: the request now starts where the bio does. */
  function FrontMerge(rq: Request, b: Bio): Request {
    var r := if rq.ff != b.ff then SetMixed(rq).(ff := b.ff) else rq;
    r.(bios := [b] + r.bios, dataLen := r.dataLen + b.size, sector := b.at / 512)
  }

  /** `attempt_merge` */
  function Join(rq: Request, next: Request): Request {
    var mix := rq.mixed || next.mixed || rq.ff != next.ff;
    var r, n := if mix then SetMixed(rq) else rq, if mix then SetMixed(next) else next;
    r.(bios := r.bios + n.bios, dataLen := r.dataLen + n.dataLen)
  }

  /** `blk_update_request` */
  function Update(rq: Request, n: nat, error: bool): Request {
    var left := Advance(rq.bios, n, error).left;
    if left == [] then rq.(bios := [], dataLen := 0)
    else rq.(bios := left, dataLen := if rq.dataLen >= n then rq.dataLen - n else 0, sector := rq.sector + n / 512,
             ff := if rq.mixed then left[0].ff else rq.ff)
  }

  /** Bytes of the leading bios at least as eager to fail as `ff`. */
  function EagerBytes(bios: seq<Bio>, ff: set<Failfast>): nat {
    if bios == [] || !(ff <= bios[0].ff) then 0 else bios[0].size + EagerBytes(bios[1..], ff)
  }

  /** `blk_rq_err_bytes` */
  function ErrBytes(rq: Request): nat {
    if !rq.mixed then rq.dataLen else EagerBytes(rq.bios, rq.ff)
  }

  /** How a request came to be. */
  datatype History =
    | Starts(b: Bio)
    | Backs(h: History, b: Bio)
    | Fronts(h: History, b: Bio)
    | Joins(h: History, next: History)
    | Updates(h: History, n: nat, error: bool)

  ghost predicate AllFormed(h: History) {
    match h
    case Starts(b) => Formed([b])
    case Backs(g, b) => AllFormed(g) && Formed([b])
    case Fronts(g, b) => AllFormed(g) && Formed([b])
    case Joins(g, n) => AllFormed(g) && AllFormed(n)
    case Updates(g, _, _) => AllFormed(g)
  }

  /** The sector behind the request. */
  function EndSector(rq: Request): nat {
    rq.sector + rq.dataLen / 512
  }

  /** Merges are tried where the two meet on the disk; a request that has completed altogether takes no more. */
  function Result(h: History): Request {
    match h
    case Starts(b) => Start(b)
    case Backs(g, b) =>
      var r := Result(g);
      if r.bios == [] || EndSector(r) != b.at / 512 then r else BackMerge(r, b)
    case Fronts(g, b) =>
      var r := Result(g);
      if r.bios == [] || b.at / 512 + b.size / 512 != r.sector then r else FrontMerge(r, b)
    case Joins(g, n) =>
      var r, s := Result(g), Result(n);
      if r.bios == [] || s.bios == [] || EndSector(r) != s.sector then r else Join(r, s)
    case Updates(g, n, error) => Update(Result(g), n, error)
  }

  /** A bio of an unmixed request: its flags are the request's, or it is read-ahead and the request has them all. */
  predicate Agrees(b: Bio, ff: set<Failfast>) {
    b.ff == ff || (b.ahead && ff == ALL_FAILFAST)
  }

  /**
   * The sizes add up; a mixed request's flags are contained in those of its first bio, and all bios of an unmixed one
   * agree with it.
   */
  ghost predicate Good(rq: Request) {
    && Formed(rq.bios) && rq.dataLen == Total(rq.bios)
    && (rq.mixed && rq.bios != [] ==> rq.ff <= rq.bios[0].ff)
    && (!rq.mixed ==> forall i :: 0 <= i < |rq.bios| ==> Agrees(rq.bios[i], rq.ff))
  }

  lemma {:induction false} TotalConcat(a: seq<Bio>, b: seq<Bio>)
    ensures Total(a + b) == Total(a) + Total(b)
  {
    if a == [] {
      assert a + b == b;
    } else {
      assert (a + b)[1..] == a[1..] + b;
      TotalConcat(a[1..], b);
    }
  }

  lemma {:induction false} TotalSame(a: seq<Bio>, b: seq<Bio>)
    requires |a| == |b| && forall i :: 0 <= i < |a| ==> a[i].size == b[i].size
    ensures Total(a) == Total(b)
  {
    if a != [] { TotalSame(a[1..], b[1..]); }
  }

  lemma SetMixedGood(rq: Request)
    requires Good(rq)
    ensures Good(SetMixed(rq)) && |SetMixed(rq).bios| == |rq.bios|
  {
    TotalSame(rq.bios, SetMixed(rq).bios);
  }

  lemma BackMergeGood(rq: Request, b: Bio)
    requires Good(rq) && rq.bios != [] && Formed([b])
    ensures Good(BackMerge(rq, b))
  {
    assert [b][0] == b;
    SetMixedGood(rq);
    TotalConcat(rq.bios, [b]);
    TotalConcat(SetMixed(rq).bios, [b]);
  }

  lemma FrontMergeGood(rq: Request, b: Bio)
    requires Good(rq) && rq.bios != [] && Formed([b])
    ensures Good(FrontMerge(rq, b))
  {
    assert [b][0] == b;
    SetMixedGood(rq);
    TotalConcat([b], rq.bios);
    TotalConcat([b], SetMixed(rq).bios);
  }

  lemma JoinGood(rq: Request, next: Request)
    requires Good(rq) && Good(next) && rq.bios != [] && next.bios != []
    ensures Good(Join(rq, next))
  {
    SetMixedGood(rq);
    SetMixedGood(next);
    TotalConcat(rq.bios, next.bios);
    TotalConcat(SetMixed(rq).bios, SetMixed(next).bios);
  }

  lemma {:induction false} AdvanceFlags(bios: seq<Bio>, n: nat, error: bool, ff: set<Failfast>)
    requires forall i :: 0 <= i < |bios| ==> Agrees(bios[i], ff)
    ensures var left := Advance(bios, n, error).left; forall i :: 0 <= i < |left| ==> Agrees(left[i], ff)
  {
    if bios != [] && 0 < n && bios[0].size <= n {
      AdvanceFlags(bios[1..], n - bios[0].size, error, ff);
      assert Advance(bios, n, error).left == Advance(bios[1..], n - bios[0].size, error).left;
    }
  }

  /** `__data_len` goes down by exactly the bytes completed. */
  lemma AdvanceTotal(bios: seq<Bio>, n: nat, error: bool)
    requires Formed(bios)
    ensures Total(Advance(bios, n, error).left) == Total(bios) - Min(n, Total(bios))
  {
    AdvanceData(bios, n, error);
    TotalIsData(bios);
    TotalIsData(Advance(bios, n, error).left);
  }

  lemma UpdateGood(rq: Request, n: nat, error: bool)
    requires Good(rq)
    ensures Good(Update(rq, n, error)) && Update(rq, n, error).dataLen == rq.dataLen - Min(n, rq.dataLen)
  {
    hide Advance;
    AdvanceData(rq.bios, n, error);
    AdvanceTotal(rq.bios, n, error);
    if !rq.mixed { AdvanceFlags(rq.bios, n, error, rq.ff); }
  }

  lemma SectorsSplit(a: nat, b: nat)
    ensures a / 512 + b / 512 == (a + b) / 512 <==> a % 512 + b % 512 < 512
    ensures a / 512 + b / 512 <= (a + b) / 512 <= a / 512 + b / 512 + 1
  {
  }

  /**
   * Completing `a` and then `b` bytes leaves the request completing `a + b` would, except that its sector counts whole
   * sectors per call: it falls one behind exactly when the two remainders carry.
   */
  lemma UpdateTwice(rq: Request, a: nat, b: nat, error: bool)
    requires Good(rq) && a + b < rq.dataLen
    ensures var once, twice := Update(rq, a + b, error), Update(Update(rq, a, error), b, error);
            && once == twice.(sector := once.sector)
            && (once.sector == twice.sector <==> a % 512 + b % 512 < 512)
            && twice.sector <= once.sector <= twice.sector + 1
  {
    hide Advance;
    AdvanceTwice(rq.bios, a, b, error);
    AdvanceTotal(rq.bios, a, error);
    AdvanceTotal(rq.bios, a + b, error);
    SectorsSplit(a, b);
  }

  /** Every history of merges and partial completions keeps a mixed request's flags within its first bio's. */
  lemma {:induction false} HistoryGood(h: History)
    requires AllFormed(h)
    ensures Good(Result(h))
  {
    match h
    case Starts(b) =>
      assert [b][0] == b;
    case Backs(g, b) =>
      HistoryGood(g);
      if Result(g).bios != [] { BackMergeGood(Result(g), b); }
    case Fronts(g, b) =>
      HistoryGood(g);
      if Result(g).bios != [] { FrontMergeGood(Result(g), b); }
    case Joins(g, n) =>
      HistoryGood(g);
      HistoryGood(n);
      if Result(g).bios != [] && Result(n).bios != [] { JoinGood(Result(g), Result(n)); }
    case Updates(g, n, error) =>
      HistoryGood(g);
      UpdateGood(Result(g), n, error);
  }

  lemma {:induction false} EagerBound(bios: seq<Bio>, ff: set<Failfast>)
    ensures EagerBytes(bios, ff) <= Total(bios)
  {
    if bios != [] && ff <= bios[0].ff { EagerBound(bios[1..], ff); }
  }

  /** `blk_rq_err_bytes` covers at least the first bio, so its BUG_ON cannot fire; and never more than the request. */
  lemma ErrBytesProgress(h: History)
    requires AllFormed(h) && Result(h).bios != []
    ensures var rq := Result(h); rq.bios[0].size <= ErrBytes(rq) <= rq.dataLen && ErrBytes(rq) > 0
  {
    HistoryGood(h);
    EagerBound(Result(h).bios, Result(h).ff);
  }

  /** What is failed together ends at the first bio less eager than the request. */
  lemma {:induction false} EagerPrefix(bios: seq<Bio>, ff: set<Failfast>, k: nat)
    requires k <= |bios| && (forall i :: 0 <= i < k ==> ff <= bios[i].ff) && (k < |bios| ==> !(ff <= bios[k].ff))
    ensures EagerBytes(bios, ff) == Total(bios[..k])
  {
    if k > 0 {
      EagerPrefix(bios[1..], ff, k - 1);
      assert bios[..k][1..] == bios[1..][..k - 1];
    }
  }

  /** The WARN_ON_ONCE of `blk_rq_set_mixed_merge`. */
  predicate Warns(rq: Request) {
    !rq.mixed && exists b :: b in rq.bios && b.ff != {} && b.ff != rq.ff
  }

  /** After any history it fires exactly for a read-ahead bio that asks to fail fast in some ways and not in others. */
  lemma WarnsExactly(h: History)
    requires AllFormed(h)
    ensures var rq := Result(h);
            Warns(rq) <==> !rq.mixed && rq.ff == ALL_FAILFAST &&
                           exists b :: b in rq.bios && b.ahead && b.ff != {} && b.ff != ALL_FAILFAST
  {
    HistoryGood(h);
    var rq := Result(h);
    if Warns(rq) {
      var b :| b in rq.bios && b.ff != {} && b.ff != rq.ff;
      assert Agrees(b, rq.ff);
    }
  }

  /** Such a bio, and the back merge of one that asks for nothing: the request is marked mixed with the warning. */
  lemma ReadAheadWarns()
    ensures var one := Bio(0, 0, [Vec(0, 512)], 512, false, {Dev}, true);
            var two := Bio(1, 512, [Vec(512, 512)], 512, false, {}, false);
            Warns(Result(Starts(one))) && BackMerge(Result(Starts(one)), two).mixed
  {
    var one := Bio(0, 0, [Vec(0, 512)], 512, false, {Dev}, true);
    assert one in Start(one).bios && Dev in one.ff && Transport !in one.ff && Transport in ALL_FAILFAST;
  }

  /** Failing up to the boundary again and again ends. */
  method FailToBoundary(rq: Request) returns (last: Request, rounds: nat)
    requires Good(rq)
    ensures last.bios == [] && last.dataLen == 0 && rounds <= rq.dataLen
  {
    last, rounds := rq, 0;
    while last.bios != []
      invariant Good(last) && rounds + last.dataLen <= rq.dataLen
      decreases last.dataLen
    {
      EagerBound(last.bios, last.ff);
      UpdateGood(last, ErrBytes(last), true);
      last := Update(last, ErrBytes(last), true);
      rounds := rounds + 1;
    }
  }
}
