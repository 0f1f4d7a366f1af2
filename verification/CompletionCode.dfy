/** `blk_update_request` and `blk_rq_err_bytes` on bios and requests in place. */
module CompletionCode {
  import opened Common
  import opened Completion

  class BioNode {
    const id: nat
    var vecs: seq<Vec>
    var idx: nat
    var size: nat
    var sector: nat
    ghost var at: nat
    var uptodate: bool
    var ff: set<Failfast>
    const ahead: bool

    ghost predicate Valid()
      reads this
    {
      idx <= |vecs| && forall i :: idx <= i < |vecs| ==> vecs[i].len > 0
    }

    /** The bio as the rest of the request sees it: only its pending vectors. */
    ghost function Value(): Bio
      requires idx <= |vecs|
      reads this
    {
      Bio(id, at, vecs[idx..], size, !uptodate, ff, ahead)
    }
  }

  ghost predicate AllValid(chain: seq<BioNode>)
    reads chain
  {
    && (forall i, j :: 0 <= i < j < |chain| ==> chain[i] != chain[j])
    && forall i :: 0 <= i < |chain| ==> chain[i].Valid()
  }

  ghost function Values(chain: seq<BioNode>): (r: seq<Bio>)
    requires AllValid(chain)
    reads chain
    ensures |r| == |chain| && forall i :: 0 <= i < |chain| ==> r[i] == chain[i].Value()
  {
    seq(|chain|, i requires 0 <= i < |chain| reads chain requires AllValid(chain) => chain[i].Value())
  }

  function Length(vs: seq<Vec>): nat {
    if vs == [] then 0 else Length(vs[..|vs| - 1]) + vs[|vs| - 1].len
  }

  lemma {:induction false} LengthFront(vs: seq<Vec>)
    requires vs != []
    ensures Length(vs) == vs[0].len + Length(vs[1..])
    decreases |vs|
  {
    var n := |vs| - 1;
    if n > 0 {
      LengthFront(vs[..n]);
      assert vs[..n][1..] == vs[1..][..n - 1];
    }
  }

  lemma {:induction false} LengthIsData(vs: seq<Vec>)
    ensures Length(vs) == |Data(vs)|
  {
    if vs != [] {
      LengthFront(vs);
      LengthIsData(vs[1..]);
    }
  }

  lemma LengthNext(vs: seq<Vec>, k: nat)
    requires k < |vs|
    ensures Length(vs[..k + 1]) == Length(vs[..k]) + vs[k].len
  {
    assert vs[..k + 1][..k] == vs[..k];
  }

  /** Cutting inside vector `k` leaves the tail of it and the vectors behind. */
  lemma {:induction false} CutAt(vs: seq<Vec>, k: nat, r: nat)
    requires k < |vs| && r < vs[k].len && forall i :: 0 <= i < |vs| ==> vs[i].len > 0
    ensures Cut(vs, Length(vs[..k]) + r) == [Vec(vs[k].addr + r, vs[k].len - r)] + vs[k + 1..]
  {
    if k > 0 {
      LengthFront(vs[..k]);
      assert vs[..k][1..] == vs[1..][..k - 1];
      CutAt(vs[1..], k - 1, r);
      assert vs[1..][k..] == vs[k + 1..];
    } else {
      assert r == 0 ==> vs == [vs[0]] + vs[1..];
    }
  }

  class RequestNode {
    var bios: seq<BioNode>
    var dataLen: nat
    var sector: nat
    var mixed: bool
    var ff: set<Failfast>
    var ends: seq<End>

    ghost predicate Valid()
      reads this, bios
    {
      AllValid(bios)
    }

    ghost function Value(): Request
      requires Valid()
      reads this, bios
    {
      Request(Values(bios), dataLen, mixed, ff, sector)
    }

    /** `req_bio_endio`: `nbytes` of the bio are over; at zero it is ended, an earlier error still counting. */
    method EndIo(bio: BioNode, nbytes: nat, error: bool)
      requires nbytes <= bio.size
      modifies bio`uptodate, bio`size, bio`sector, bio`at, `ends
      ensures bio.size == old(bio.size) - nbytes && bio.uptodate == (old(bio.uptodate) && !error)
      ensures bio.sector == old(bio.sector) + nbytes / 512 && bio.at == old(bio.at) + nbytes
      ensures ends == old(ends) + if bio.size == 0 then [End(bio.id, !bio.uptodate)] else []
    {
      var failed := error;
      if error {
        bio.uptodate := false;
      } else if !bio.uptodate {
        failed := true;
      }
      bio.size := bio.size - nbytes;
      bio.sector, bio.at := bio.sector + nbytes / 512, bio.at + nbytes;
      if bio.size == 0 {
        ends := ends + [End(bio.id, failed)];
      }
    }

    /** The branch of `blk_update_request` that ends the first bio altogether. */
    method EndFirst(error: bool)
      requires Valid() && bios != []
      modifies `bios, `ends, bios[0]
      ensures Valid() && bios == old(bios)[1..] && Values(bios) == old(Values(bios))[1..]
      ensures ends == old(ends) + [End(old(bios[0].Value()).id, old(bios[0].Value()).bad || error)]
    {
      var bio := bios[0];
      ghost var vs := Values(bios);
      bios := bios[1..];
      EndIo(bio, bio.size, error);
      assert AllValid(bios);
      assert Values(bios) == vs[1..];
    }

    /** Whole bios go first; fewer bytes are then left than the first remaining bio has. */
    method EndWhole(error: bool, nrBytes: nat) returns (nr: nat)
      requires Valid() && Formed(Values(bios))
      modifies `bios, `ends, bios
      ensures Valid() && Formed(Values(bios)) && (bios == [] || nr < bios[0].size)
      ensures Going(old(Values(bios)), nrBytes, old(ends), Values(bios), nr, ends, error)
      ensures forall b <- bios :: b in old(bios)
    {
      hide Going, Formed, AllValid, Values;
      nr := nrBytes;
      ghost var vs, ends0 := Values(bios), ends;
      GoingStart(vs, nr, ends, error);
      while bios != [] && nr >= bios[0].size
        invariant Valid() && Formed(Values(bios))
        invariant Going(vs, nrBytes, ends0, Values(bios), nr, ends, error)
        invariant forall b <- bios :: b in old(bios)
        decreases |bios|
      {
        assert bios[0] in bios;
        GoingOn(vs, nrBytes, ends0, Values(bios), nr, ends, error);
        var nbytes := bios[0].size;
        EndFirst(error);
        nr := nr - nbytes;
      }
    }

    /** How many of the first bio's vectors `nr` bytes fill, and what is left of `nr` for the next one. */
    method CountVectors(bio: BioNode, nr: nat) returns (next: nat, rest: nat)
      requires bio.Valid() && nr < Length(bio.vecs[bio.idx..])
      ensures bio.idx + next < |bio.vecs| && rest < bio.vecs[bio.idx + next].len
      ensures nr == Length(bio.vecs[bio.idx..][..next]) + rest
    {
      ghost var pend := bio.vecs[bio.idx..];
      next, rest := 0, nr;
      assert pend[..|pend|] == pend;
      while bio.idx + next < |bio.vecs| && bio.vecs[bio.idx + next].len <= rest
        invariant next <= |pend| && nr == Length(pend[..next]) + rest
        decreases |pend| - next
      {
        LengthNext(pend, next);
        rest := rest - bio.vecs[bio.idx + next].len;
        next := next + 1;
      }
    }

    /** A bio that is not finished: its index and first vector move up behind the first `nr` bytes. */
    method TrimBio(bio: BioNode, nr: nat, error: bool)
      requires bio.Valid() && bio.size == Length(bio.vecs[bio.idx..]) && 0 < nr < bio.size
      modifies bio, `ends
      ensures bio.Valid() && bio.Value() == Trim(old(bio.Value()), nr, error) && ends == old(ends)
    {
      hide Cut, Length;
      ghost var pend := bio.vecs[bio.idx..];
      var next, rest := CountVectors(bio, nr);
      CutAt(pend, next, rest);
      EndIo(bio, nr, error);
      bio.idx := bio.idx + next;
      var v := bio.vecs[bio.idx];
      bio.vecs := bio.vecs[bio.idx := Vec(v.addr + rest, v.len - rest)];
      assert bio.vecs[bio.idx..] == [Vec(v.addr + rest, v.len - rest)] + pend[next + 1..];
    }

    /** The branch that stops inside the first bio: it keeps the bytes behind the first `nr`. */
    method EndPart(error: bool, nr: nat)
      requires Valid() && Formed(Values(bios)) && bios != [] && nr < bios[0].size
      modifies `ends, bios[0]
      ensures Valid() && Values(bios) == Advance(old(Values(bios)), nr, error).left && ends == old(ends)
    {
      hide Cut, Length, Data, Advance, Trim, Formed;
      var bio := bios[0];
      ghost var vs := Values(bios);
      FormedFirst(vs);
      LengthIsData(bio.vecs[bio.idx..]);
      AdvancePart(vs, nr, error);
      if nr > 0 {
        TrimBio(bio, nr, error);
        assert AllValid(bios);
        assert Values(bios) == [Trim(vs[0], nr, error)] + vs[1..];
      }
    }

    /** The loop of `blk_update_request`. */
    method EndBytes(error: bool, nrBytes: nat)
      requires Valid() && Formed(Values(bios))
      modifies `bios, `ends, bios
      ensures Valid() && Values(bios) == Advance(old(Values(bios)), nrBytes, error).left
      ensures ends == old(ends) + Advance(old(Values(bios)), nrBytes, error).ended
      ensures bios != [] ==> nrBytes < Total(old(Values(bios)))
    {
      hide Going, Formed, AllValid, Values, Advance, Total;
      ghost var vs := Values(bios);
      var nr := EndWhole(error, nrBytes);
      ghost var mid := Values(bios);
      if bios == [] {
        GoneAll(vs, nrBytes, old(ends), nr, ends, error);
      } else {
        assert bios[0] in bios;
        EndPart(error, nr);
        StaysSome(vs, nrBytes, old(ends), mid, nr, ends, error);
      }
    }

    /** `blk_update_request` */
    method UpdateRequest(error: bool, nrBytes: nat) returns (more: bool)
      requires Valid() && Good(Value())
      modifies this, bios
      ensures Valid() && Value() == Update(old(Value()), nrBytes, error) && more == (bios != [])
      ensures ends == old(ends) + Advance(old(Values(bios)), nrBytes, error).ended
    {
      hide Formed, AllValid, Values, Advance, Total;
      if bios == [] {
        AdvanceNothing(nrBytes, error);
        assert Values(bios) == [];
        return false;
      }
      EndBytes(error, nrBytes);
      more := bios != [];
      if !more {
        dataLen := 0;
        return;
      }
      dataLen := dataLen - nrBytes;
      sector := sector + nrBytes / 512;
      if mixed {
        ff := bios[0].ff;
      }
    }

    /** `blk_rq_err_bytes`; its BUG_ON is the last postcondition. */
    method ErrorBytes() returns (bytes: nat)
      requires Valid() && Good(Value())
      ensures bytes == ErrBytes(Value()) && (dataLen > 0 ==> bytes > 0)
    {
      hide Formed, AllValid, Values;
      if !mixed {
        return dataLen;
      }
      ghost var vs := Values(bios);
      assert vs[0..] == vs;
      bytes := 0;
      var k := 0;
      while k < |bios| && ff <= bios[k].ff
        invariant k <= |bios| && bytes + EagerBytes(vs[k..], ff) == EagerBytes(vs, ff)
        decreases |bios| - k
      {
        assert vs[k..][1..] == vs[k + 1..];
        bytes := bytes + bios[k].size;
        k := k + 1;
      }
      EagerSome(Value());
    }

    /** The loop of `blk_rq_set_mixed_merge`; `warned` when its WARN_ON_ONCE found something. */
    method MarkAll() returns (warned: bool)
      requires Valid()
      modifies bios
      ensures Valid() && Values(bios) == Widen(old(Values(bios)), ff)
      ensures warned <==> exists b :: b in old(Values(bios)) && b.ff != {} && b.ff != ff
    {
      hide AllValid, Values, Marked, OddBefore;
      ghost var vs := Values(bios);
      MarkedEnds(vs, ff);
      OddNone(vs, ff);
      warned := false;
      for k := 0 to |bios|
        invariant Valid() && Marked(vs, ff, k, Values(bios))
        invariant warned <==> OddBefore(vs, ff, k)
      {
        OddNext(vs, ff, k);
        var odd := MarkOne(k, vs);
        warned := warned || odd;
      }
      MarkedAll(vs, ff, Values(bios));
      OddAll(vs, ff);
    }

    method MarkOne(k: nat, ghost vs: seq<Bio>) returns (odd: bool)
      requires Valid() && k < |bios| == |vs| && Marked(vs, ff, k, Values(bios))
      modifies bios[k]
      ensures Valid() && Marked(vs, ff, k + 1, Values(bios))
      ensures odd <==> vs[k].ff != {} && vs[k].ff != ff
    {
      ghost var was := Values(bios);
      assert was[k] == vs[k];
      odd := bios[k].ff != {} && bios[k].ff != ff;
      bios[k].ff := bios[k].ff + ff;
      assert AllValid(bios);
      assert Values(bios) == was[k := was[k].(ff := was[k].ff + ff)];
    }

    /** `blk_rq_set_mixed_merge` */
    method SetMixedMerge() returns (warned: bool)
      requires Valid()
      modifies `mixed, bios
      ensures Valid() && Value() == SetMixed(old(Value()))
      ensures warned <==> Warns(old(Value()))
    {
      hide AllValid, Values, Widen;
      warned := false;
      if !mixed {
        warned := MarkAll();
        mixed := true;
      }
    }
  }

  /** One of the first `k` bios asks to fail fast, and not as the request does. */
  ghost predicate OddBefore(vs: seq<Bio>, ff: set<Failfast>, k: nat)
    requires k <= |vs|
  {
    exists i :: 0 <= i < k && vs[i].ff != {} && vs[i].ff != ff
  }

  lemma OddNone(vs: seq<Bio>, ff: set<Failfast>)
    ensures !OddBefore(vs, ff, 0)
  {
  }

  lemma OddNext(vs: seq<Bio>, ff: set<Failfast>, k: nat)
    requires k < |vs|
    ensures OddBefore(vs, ff, k + 1) <==> OddBefore(vs, ff, k) || (vs[k].ff != {} && vs[k].ff != ff)
  {
  }

  lemma OddAll(vs: seq<Bio>, ff: set<Failfast>)
    ensures OddBefore(vs, ff, |vs|) <==> exists b :: b in vs && b.ff != {} && b.ff != ff
  {
    if b :| b in vs && b.ff != {} && b.ff != ff {
      var i :| 0 <= i < |vs| && vs[i] == b;
    }
  }

  /** The first `k` bios have taken on the request's flags. */
  ghost predicate Marked(vs: seq<Bio>, ff: set<Failfast>, k: nat, now: seq<Bio>) {
    k <= |vs| && now == Widen(vs[..k], ff) + vs[k..]
  }

  lemma MarkedEnds(vs: seq<Bio>, ff: set<Failfast>)
    ensures Marked(vs, ff, 0, vs)
  {
  }

  lemma MarkedAll(vs: seq<Bio>, ff: set<Failfast>, now: seq<Bio>)
    requires Marked(vs, ff, |vs|, now)
    ensures now == Widen(vs, ff)
  {
    assert vs[..|vs|] == vs;
  }

  lemma EagerSome(rq: Request)
    requires Good(rq) && rq.mixed
    ensures rq.dataLen > 0 ==> EagerBytes(rq.bios, rq.ff) > 0
  {
  }

  lemma FormedFirst(vs: seq<Bio>)
    requires Formed(vs) && vs != []
    ensures vs[0].size == |Data(vs[0].vecs)|
  {
  }

  lemma AdvancePart(vs: seq<Bio>, n: nat, error: bool)
    requires vs != [] && n < vs[0].size
    ensures Advance(vs, n, error).left == if n == 0 then vs else [Trim(vs[0], n, error)] + vs[1..]
  {
  }

  lemma AdvanceNothing(n: nat, error: bool)
    ensures Advance([], n, error) == Outcome([], []) && Total([]) == 0
  {
  }

  lemma GoneAll(vs0: seq<Bio>, n: nat, ends0: seq<End>, nr: nat, ends: seq<End>, error: bool)
    requires Going(vs0, n, ends0, [], nr, ends, error)
    ensures Advance(vs0, n, error).left == [] && ends == ends0 + Advance(vs0, n, error).ended
  {
  }

  lemma StaysSome(vs0: seq<Bio>, n: nat, ends0: seq<End>, vs: seq<Bio>, nr: nat, ends: seq<End>, error: bool)
    requires vs != [] && nr < vs[0].size && Going(vs0, n, ends0, vs, nr, ends, error)
    ensures Advance(vs, nr, error).left == Advance(vs0, n, error).left && Advance(vs, nr, error).left != []
    ensures ends == ends0 + Advance(vs0, n, error).ended && n < Total(vs0)
  {
    assert ends + [] == ends;
  }

  /**
   * The chain `vs` with `nr` bytes still to do, after ending some bios, is on the way of completing `n` bytes of
   * `vs0`.
   */
  ghost predicate Going(vs0: seq<Bio>, n: nat, ends0: seq<End>, vs: seq<Bio>, nr: nat, ends: seq<End>, error: bool) {
    && Advance(vs0, n, error).left == Advance(vs, nr, error).left
    && ends0 + Advance(vs0, n, error).ended == ends + Advance(vs, nr, error).ended
    && nr <= n && n - nr == Total(vs0) - Total(vs)
  }

  lemma GoingStart(vs: seq<Bio>, n: nat, ends: seq<End>, error: bool)
    ensures Going(vs, n, ends, vs, n, ends, error)
  {
  }

  lemma GoingOn(vs0: seq<Bio>, n: nat, ends0: seq<End>, vs: seq<Bio>, nr: nat, ends: seq<End>, error: bool)
    requires Formed(vs) && vs != [] && nr >= vs[0].size && Going(vs0, n, ends0, vs, nr, ends, error)
    ensures Formed(vs[1..])
    ensures Going(vs0, n, ends0, vs[1..], nr - vs[0].size, ends + [End(vs[0].id, vs[0].bad || error)], error)
  {
    var e := [End(vs[0].id, vs[0].bad || error)];
    var o := Advance(vs[1..], nr - vs[0].size, error);
    assert ends + (e + o.ended) == (ends + e) + o.ended;
  }
}
