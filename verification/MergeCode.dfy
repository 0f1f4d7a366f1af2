/** The counting, mapping and merging code of blk-merge.c on bios and requests in place. */
module MergeCode {
  import opened Segments

  class BioNode {
    var at: nat
    var vecs: seq<Vec>
    var size: nat
    var front: nat
    var back: nat
    var phys: nat
    var valid: bool

    ghost function Value(): Bio
      reads this
    {
      Bio(at, vecs, front, back, phys, valid)
    }
  }

  ghost function Values(chain: seq<BioNode>): (r: seq<Bio>)
    reads chain
    ensures |r| == |chain| && forall i :: 0 <= i < |chain| ==> r[i] == chain[i].Value()
  {
    seq(|chain|, i requires 0 <= i < |chain| reads chain => chain[i].Value())
  }

  ghost predicate Distinct(chain: seq<BioNode>) {
    forall i, j :: 0 <= i < j < |chain| ==> chain[i] != chain[j]
  }

  lemma VecsNext(bios: seq<Bio>, i: nat)
    requires i < |bios|
    ensures Vecs(bios[..i + 1]) == Vecs(bios[..i]) + bios[i].vecs
  {
    assert bios[..i + 1][..i] == bios[..i];
  }

  lemma ScanNext(q: Queue, front: nat, before: seq<Vec>, vs: seq<Vec>, j: nat)
    requires j < |vs|
    ensures ScanAll(q, front, before + vs[..j + 1]) == ScanVec(q, ScanAll(q, front, before + vs[..j]), vs[j])
  {
    var all := before + vs[..j + 1];
    assert all[..|all| - 1] == before + vs[..j];
  }

  /** The walk over one bio's vectors; the running front size lives in the first bio of the chain. */
  method ScanBio(q: Queue, fbio: BioNode, bio: BioNode, s: Scan, ghost front: nat, ghost before: seq<Vec>)
    returns (t: Scan)
    requires s == ScanAll(q, front, before) && fbio.front == s.front
    modifies fbio`front
    ensures t == ScanAll(q, front, before + bio.vecs) && fbio.front == t.front
  {
    var n: nat, size: nat, prev, highPrev := s.n, s.size, s.prev, s.highPrev;
    assert before + bio.vecs[..0] == before;
    for j := 0 to |bio.vecs|
      invariant Scan(n, size, prev, highPrev, fbio.front) == ScanAll(q, front, before + bio.vecs[..j])
    {
      var v := bio.vecs[j];
      ScanNext(q, front, before, bio.vecs, j);
      var high := q.high(v);
      if !high && !highPrev && q.cluster && size + v.len <= q.maxSize && q.joinable(prev, v) {
        size := size + v.len;
        prev := v;
      } else {
        if n == 1 && size > fbio.front {
          fbio.front := size;
        }
        n, prev, size, highPrev := n + 1, v, v.len, high;
      }
    }
    assert bio.vecs[..|bio.vecs|] == bio.vecs;
    t := Scan(n, size, prev, highPrev, fbio.front);
  }

  method ScanChain(q: Queue, fbio: BioNode, chain: seq<BioNode>) returns (s: Scan)
    requires chain != [] && chain[0] == fbio && Distinct(chain)
    modifies fbio`front
    ensures s == ScanAll(q, old(chain[0].front), Vecs(old(Values(chain))))
    ensures Values(chain) == old(Values(chain))[0 := old(Values(chain))[0].(front := s.front)]
  {
    hide ScanAll, Vecs;
    ghost var bios := Values(chain);
    ghost var front := chain[0].front;
    s := Scan(0, 0, Vec(0, 0), true, chain[0].front);
    ScanNone(q, front);
    for i := 0 to |chain|
      invariant s == ScanAll(q, front, Vecs(bios[..i])) && chain[0].front == s.front
    {
      VecsNext(bios, i);
      s := ScanBio(q, fbio, chain[i], s, front, Vecs(bios[..i]));
    }
    assert bios[..|chain|] == bios;
  }

  lemma ScanNone(q: Queue, front: nat)
    ensures ScanAll(q, front, Vecs([])) == Scan(0, 0, Vec(0, 0), true, front)
  {
  }

  /** The end of the walk: the first and last bio remember their end segments. */
  method KeepEnds(chain: seq<BioNode>, s: Scan)
    requires chain != [] && Distinct(chain) && chain[0].front == s.front
    modifies chain
    ensures Values(chain) == Resized(old(Values(chain)), s)
    ensures forall i :: 0 <= i < |chain| ==> chain[i].size == old(chain[i].size)
  {
    if s.n == 1 && s.size > chain[0].front {
      chain[0].front := s.size;
    }
    var bbio := chain[|chain| - 1];
    if s.size > bbio.back {
      bbio.back := s.size;
    }
  }

  /** `__blk_recalc_rq_segments` */
  method RecalcSegments(q: Queue, chain: seq<BioNode>) returns (n: nat)
    requires Distinct(chain)
    modifies chain
    ensures Request(Values(chain), n) == Recalc(q, Request(old(Values(chain)), 0))
    ensures forall i :: 0 <= i < |chain| ==> chain[i].size == old(chain[i].size)
  {
    hide ScanAll, Vecs;
    if chain == [] {
      return 0;
    }
    var s := ScanChain(q, chain[0], chain);
    KeepEnds(chain, s);
    n := s.n;
  }

  /** `blk_recount_segments`, when the cached count is not valid. */
  method RecountSegments(q: Queue, bio: BioNode)
    modifies bio
    ensures bio.size == old(bio.size)
    ensures bio.Value() == Recount(q, old(bio.Value()))
  {
    if !bio.valid {
      var n := RecalcSegments(q, [bio]);
      assert [bio][0] == bio && Values([bio])[0] == bio.Value();
      assert old(Values([bio])) == [old(bio.Value())];
      bio.phys, bio.valid := n, true;
    }
  }

  // ---- blk_rq_map_sg --------------------------------------------------------------

  ghost predicate Mapped(q: Queue, vs: seq<Vec>, sg: seq<Vec>, prev: Vec) {
    var runs, m := MapRuns(q, vs), MapAll(q, vs);
    && (forall i :: 0 <= i < |runs| ==> runs[i] != []) && sg == Entries(runs) && |sg| == m.n
    && (sg != [] ==> Last(sg).len == m.len && prev == m.prev)
  }

  lemma MapRunsSnoc(q: Queue, vs: seq<Vec>, v: Vec)
    ensures MapRuns(q, vs + [v]) == if Extends(q, MapAll(q, vs), v) && MapRuns(q, vs) != []
                                    then Grow(MapRuns(q, vs), v) else MapRuns(q, vs) + [[v]]
  {
    assert (vs + [v])[..|vs|] == vs;
  }

  predicate Joins(q: Queue, sg: seq<Vec>, prev: Vec, v: Vec) {
    sg != [] && q.cluster && Last(sg).len + v.len <= q.maxSize && q.joinable(prev, v)
  }

  lemma MappedLonger(q: Queue, vs: seq<Vec>, sg: seq<Vec>, prev: Vec, v: Vec)
    requires Mapped(q, vs, sg, prev) && Joins(q, sg, prev, v)
    ensures Mapped(q, vs + [v], sg[|sg| - 1 := Vec(Last(sg).addr, Last(sg).len + v.len)], v)
  {
    hide MapRuns, MapAll, Size;
    MapRunsSnoc(q, vs, v);
    MapSnoc(q, vs, v);
    SizeSnoc(Last(MapRuns(q, vs)), v);
  }

  lemma MappedNew(q: Queue, vs: seq<Vec>, sg: seq<Vec>, prev: Vec, v: Vec)
    requires Mapped(q, vs, sg, prev) && !Joins(q, sg, prev, v)
    ensures Mapped(q, vs + [v], sg + [v], v)
  {
    hide MapRuns, MapAll, Size;
    MapRunsSnoc(q, vs, v);
    MapSnoc(q, vs, v);
    SizeOne(v);
  }

  lemma SizeOne(v: Vec)
    ensures Size([v]) == v.len
  {
    SizeSnoc([], v);
    assert [] + [v] == [v];
  }

  method MapBio(q: Queue, bio: BioNode, sg: seq<Vec>, prev: Vec, ghost before: seq<Vec>)
    returns (sg': seq<Vec>, prev': Vec)
    requires Mapped(q, before, sg, prev)
    ensures Mapped(q, before + bio.vecs, sg', prev')
  {
    hide Mapped;
    sg', prev' := sg, prev;
    assert before + bio.vecs[..0] == before;
    for j := 0 to |bio.vecs|
      invariant Mapped(q, before + bio.vecs[..j], sg', prev')
    {
      var v := bio.vecs[j];
      assert before + bio.vecs[..j + 1] == before + bio.vecs[..j] + [v];
      if Joins(q, sg', prev', v) {
        MappedLonger(q, before + bio.vecs[..j], sg', prev', v);
        sg' := sg'[|sg'| - 1 := Vec(Last(sg').addr, Last(sg').len + v.len)];
      } else {
        MappedNew(q, before + bio.vecs[..j], sg', prev', v);
        sg' := sg' + [v];
      }
      prev' := v;
    }
    assert bio.vecs[..|bio.vecs|] == bio.vecs;
  }

  // ---- requests ----------------------------------------------------------------------

  class RequestNode {
    var bios: seq<BioNode>
    var nr: nat
    var dataLen: nat

    /** A chain of distinct bios whose bytes `__data_len` adds up. */
    ghost predicate Valid()
      reads this, bios
    {
      bios != [] && Distinct(bios) && dataLen == Size(Vecs(Values(bios)))
    }

    ghost function Value(): Request
      reads this, bios
    {
      Request(Values(bios), nr)
    }

    /** `blk_recalc_rq_segments` */
    method Recalculate(q: Queue)
      requires Distinct(bios)
      modifies this`nr, bios
      ensures Value() == Recalc(q, old(Value()))
    {
      nr := RecalcSegments(q, bios);
    }

    /** `blk_rq_map_sg`: one entry per segment of the walk, holding that segment's bytes. */
    method MapScatterlist(q: Queue) returns (sg: seq<Vec>)
      ensures |sg| == MapSg(q, Value())
      ensures var runs := MapRuns(q, Vecs(Values(bios)));
              (forall i :: 0 <= i < |runs| ==> runs[i] != []) && sg == Entries(runs)
    {
      hide MapRuns, MapAll, Vecs;
      sg := [];
      var prev := Vec(0, 0);
      ghost var all := Values(bios);
      MappedNone(q, prev);
      for i := 0 to |bios|
        invariant Mapped(q, Vecs(all[..i]), sg, prev)
      {
        VecsNext(all, i);
        sg, prev := MapBio(q, bios[i], sg, prev, Vecs(all[..i]));
      }
      assert all[..|bios|] == all;
    }

    /** `ll_new_hw_segment` */
    method NewSegments(q: Queue, bio: BioNode) returns (ok: bool)
      modifies this`nr
      ensures ok == (old(nr) + bio.phys <= q.maxHw && old(nr) + bio.phys <= q.maxPhys)
      ensures nr == if ok then old(nr) + bio.phys else old(nr)
    {
      if nr + bio.phys > q.maxHw || nr + bio.phys > q.maxPhys {
        return false;
      }
      nr := nr + bio.phys;
      return true;
    }

    /** Recounts the bio at `k` if its count is stale; nothing else of the request changes. */
    method RecountAt(q: Queue, k: nat)
      requires Valid() && k < |bios|
      modifies bios[k]
      ensures Valid() && Values(bios) == old(Values(bios))[k := Recount(q, old(Values(bios))[k])]
    {
      hide Recount, Vecs, Size;
      ghost var was := Values(bios);
      RecountSegments(q, bios[k]);
      assert Values(bios) == was[k := Recount(q, was[k])];
      RecountKeepsVecs(q, was, k);
    }

    method Append(bio: BioNode)
      requires Valid() && bio !in bios && bio.size == Size(bio.vecs)
      modifies `bios, `dataLen
      ensures Valid() && bios == old(bios) + [bio] && Values(bios) == old(Values(bios)) + [bio.Value()]
    {
      hide Vecs, Size;
      ghost var was := Values(bios);
      AppendSize(was, bio.Value());
      bios, dataLen := bios + [bio], dataLen + bio.size;
      assert Values(bios) == was + [bio.Value()];
    }

    method Prepend(bio: BioNode)
      requires Valid() && bio !in bios && bio.size == Size(bio.vecs)
      modifies `bios, `dataLen
      ensures Valid() && bios == [bio] + old(bios) && Values(bios) == [bio.Value()] + old(Values(bios))
    {
      hide Vecs, Size;
      ghost var was := Values(bios);
      PrependSize(bio.Value(), was);
      bios, dataLen := [bio] + bios, dataLen + bio.size;
      assert Values(bios) == [bio.Value()] + was;
    }

    /** The two recounts and the limit check of a bio merge, with the bio at `k` the one it meets. */
    method Admit(q: Queue, bio: BioNode, k: nat) returns (ok: bool)
      requires Valid() && bio !in bios && bio.size == Size(bio.vecs) && k < |bios|
      modifies `nr, bios[k], bio
      ensures Valid() && bio.Value() == Recount(q, old(bio.Value())) && bio.size == Size(bio.vecs)
      ensures Values(bios) == old(Values(bios))[k := Recount(q, old(Values(bios))[k])]
      ensures ok == (old(nr) + bio.phys <= q.maxHw && old(nr) + bio.phys <= q.maxPhys)
      ensures nr == if ok then old(nr) + bio.phys else old(nr)
    {
      hide Recount, Vecs, Size;
      RecountAt(q, k);
      RecountSegments(q, bio);
      RecountVecs(q, old(bio.Value()));
      ok := NewSegments(q, bio);
    }

    /** `ll_back_merge_fn` and the caller's append. */
    method MergeBack(q: Queue, bio: BioNode)
      requires Valid() && bio !in bios && bio.size == Size(bio.vecs)
      modifies this, bios, bio
      ensures Valid() && Value() == BackMerge(q, old(Value()), old(bio.Value()))
    {
      hide Recount, Size, Vecs, Distinct;
      if dataLen / 512 + bio.size / 512 > q.maxSectors {
        return;
      }
      var ok := Admit(q, bio, |bios| - 1);
      if ok {
        Append(bio);
      }
    }

    /** `ll_front_merge_fn` and the caller's prepend. */
    method MergeFront(q: Queue, bio: BioNode)
      requires Valid() && bio !in bios && bio.size == Size(bio.vecs)
      modifies this, bios, bio
      ensures Valid() && Value() == FrontMerge(q, old(Value()), old(bio.Value()))
    {
      hide Recount, Size, Vecs, Distinct;
      if dataLen / 512 + bio.size / 512 > q.maxSectors {
        return;
      }
      var ok := Admit(q, bio, 0);
      if ok {
        Prepend(bio);
      }
    }

    method SetFront(size: nat)
      requires bios != [] && Distinct(bios)
      modifies bios[0]
      ensures Values(bios) == old(Values(bios))[0 := old(Values(bios))[0].(front := size)]
    {
      bios[0].front := size;
    }

    method SetBack(size: nat)
      requires bios != [] && Distinct(bios)
      modifies bios[|bios| - 1]
      ensures Values(bios) == old(Values(bios))[|bios| - 1 := old(Values(bios))[|bios| - 1].(back := size)]
    {
      bios[|bios| - 1].back := size;
    }

    /** The end sizes `ll_merge_requests_fn` widens when the two requests meet. */
    method Widen(q: Queue, next: RequestNode) returns (contig: bool)
      requires Valid() && next.Valid() && Data(Value()) && Data(next.Value())
      requires this != next && forall x :: x in bios ==> x !in next.bios
      modifies bios, next.bios
      ensures contig == Meet(q, old(Value()), old(next.Value()))
      ensures Value() == Widened(q, old(Value()), old(next.Value()))
      ensures next.Value() == WidenedNext(q, old(Value()), old(next.Value()))
    {
      hide Vecs, Size;
      var tail, head := bios[|bios| - 1], next.bios[0];
      assert Values(bios)[|bios| - 1] == tail.Value() && Values(next.bios)[0] == head.Value();
      var size := tail.back + head.front;
      contig := q.cluster && size <= q.maxSize && q.joinable(tail.vecs[|tail.vecs| - 1], head.vecs[0]);
      assert bios[0] in bios && next.bios[|next.bios| - 1] in next.bios;
      if contig && nr == 1 {
        SetFront(size);
      }
      if contig && next.nr == 1 {
        next.SetBack(size);
      }
    }

    method Absorb(next: RequestNode)
      requires Valid() && next.Valid() && this != next && forall x :: x in bios ==> x !in next.bios
      modifies `bios, `dataLen
      ensures Valid() && Values(bios) == old(Values(bios)) + Values(next.bios)
    {
      hide Vecs, Size;
      ghost var a, b := Values(bios), Values(next.bios);
      VecsConcat(a, b);
      SizeConcat(Vecs(a), Vecs(b));
      DistinctConcat(bios, next.bios);
      bios, dataLen := bios + next.bios, dataLen + next.dataLen;
      assert Values(bios) == a + b;
    }

    /** `ll_merge_requests_fn`, and `attempt_merge`'s relinking when it agrees. */
    method MergeNext(q: Queue, next: RequestNode) returns (ok: bool)
      requires Valid() && next.Valid() && Data(Value()) && Data(next.Value())
      requires this != next && forall x :: x in bios ==> x !in next.bios
      modifies this, bios, next.bios
      ensures ok == Merges(q, old(Value()), old(next.Value()))
      ensures Valid() && Value() == Merge(q, old(Value()), old(next.Value()))
      ensures !ok ==> next.Value() == Refused(q, old(Value()), old(next.Value()))
    {
      hide Vecs, Size, Meet, Distinct;
      if dataLen / 512 + next.dataLen / 512 > q.maxSectors {
        return false;
      }
      ghost var r, s := Value(), next.Value();
      var contig := Widen(q, next);
      WidenKeepsVecs(q, r, s);
      var total: int := nr + next.nr - (if contig then 1 else 0);
      if total < 0 || total > q.maxPhys || total > q.maxHw {
        return false;
      }
      Absorb(next);
      nr := total;
      return true;
    }
  }

  lemma DistinctConcat(a: seq<BioNode>, b: seq<BioNode>)
    requires Distinct(a) && Distinct(b) && forall x :: x in a ==> x !in b
    ensures Distinct(a + b)
  {
    var c := a + b;
    forall i, j | 0 <= i < j < |c| ensures c[i] != c[j] {
      if i < |a| <= j { assert a[i] in a && b[j - |a|] in b; }
    }
  }

  lemma WidenKeepsVecs(q: Queue, r: Request, s: Request)
    requires Data(r) && Data(s)
    ensures Vecs(Widened(q, r, s).bios) == Vecs(r.bios) && Vecs(WidenedNext(q, r, s).bios) == Vecs(s.bios)
  {
    hide Meet, Vecs;
    VecsSame(r.bios, Widened(q, r, s).bios);
    VecsSame(s.bios, WidenedNext(q, r, s).bios);
  }

  lemma RecountVecs(q: Queue, bio: Bio)
    ensures Recount(q, bio).vecs == bio.vecs
  {
    hide ScanAll, Vecs;
  }

  lemma RecountKeepsVecs(q: Queue, bios: seq<Bio>, k: nat)
    requires k < |bios|
    ensures Vecs(bios[k := Recount(q, bios[k])]) == Vecs(bios)
  {
    hide Recount;
    RecountVecs(q, bios[k]);
    VecsSame(bios, bios[k := Recount(q, bios[k])]);
  }

  lemma AppendSize(bios: seq<Bio>, bio: Bio)
    ensures Size(Vecs(bios + [bio])) == Size(Vecs(bios)) + Size(bio.vecs)
  {
    VecsConcat(bios, [bio]);
    assert Vecs([bio]) == bio.vecs;
    SizeConcat(Vecs(bios), bio.vecs);
  }

  lemma PrependSize(bio: Bio, bios: seq<Bio>)
    ensures Size(Vecs([bio] + bios)) == Size(bio.vecs) + Size(Vecs(bios))
  {
    VecsConcat([bio], bios);
    assert Vecs([bio]) == bio.vecs;
    SizeConcat(bio.vecs, Vecs(bios));
  }

  lemma MappedNone(q: Queue, prev: Vec)
    ensures Mapped(q, Vecs([]), [], prev)
  {
  }
}
