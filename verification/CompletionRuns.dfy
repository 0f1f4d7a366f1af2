/**
 * What a request still covers after merges and partial completions: where on
 * the disk it begins, and how eagerly each of its bios fails.
 */
module CompletionRuns {
  import opened Common
  import opened Completion

  // ---- the request's sector --------------------------------------------------------

  /** Each bio begins on the disk where the one before it ends. */
  ghost predicate Adjoined(bios: seq<Bio>) {
    forall i :: 0 < i < |bios| ==> bios[i].at == bios[i - 1].at + bios[i - 1].size
  }

  /** The request begins at its first byte, and covers whole sectors from there without a gap. */
  ghost predicate Placed(rq: Request) {
    rq.bios != [] ==> rq.sector * 512 == rq.bios[0].at && Adjoined(rq.bios) && rq.dataLen % 512 == 0
  }

  /** Bios of whole sectors, completed in whole sectors. */
  predicate Whole(h: History) {
    match h
    case Starts(b) => WholeBio(b)
    case Backs(g, b) => Whole(g) && WholeBio(b)
    case Fronts(g, b) => Whole(g) && WholeBio(b)
    case Joins(g, n) => Whole(g) && Whole(n)
    case Updates(g, n, _) => Whole(g) && n % 512 == 0
  }

  predicate WholeBio(b: Bio) {
    b.at % 512 == 0 && b.size % 512 == 0
  }

  lemma {:induction false} EndsAt(bios: seq<Bio>)
    requires Adjoined(bios) && bios != []
    ensures bios[|bios| - 1].at + bios[|bios| - 1].size == bios[0].at + Total(bios)
    decreases |bios|
  {
    if |bios| > 1 {
      forall i | 0 < i < |bios[1..]| ensures bios[1..][i].at == bios[1..][i - 1].at + bios[1..][i - 1].size {
        assert bios[1..][i] == bios[i + 1] && bios[1..][i - 1] == bios[i];
      }
      EndsAt(bios[1..]);
    }
  }

  lemma AdjoinedConcat(a: seq<Bio>, b: seq<Bio>)
    requires Adjoined(a) && Adjoined(b) && a != [] && b != [] && a[0].at + Total(a) == b[0].at
    ensures Adjoined(a + b)
  {
    hide Total;
    EndsAt(a);
    var c := a + b;
    forall i | 0 < i < |c| ensures c[i].at == c[i - 1].at + c[i - 1].size {
      if i > |a| { assert c[i] == b[i - |a|] && c[i - 1] == b[i - |a| - 1]; }
    }
  }

  /** Same places and sizes. */
  ghost predicate SamePlaces(a: seq<Bio>, b: seq<Bio>) {
    |a| == |b| && forall i :: 0 <= i < |a| ==> a[i].at == b[i].at && a[i].size == b[i].size
  }

  lemma MixedSame(rq: Request)
    ensures SamePlaces(rq.bios, SetMixed(rq).bios) && SetMixed(rq).sector == rq.sector
  {
  }

  lemma AdjoinedSame(a: seq<Bio>, b: seq<Bio>)
    requires Adjoined(a) && SamePlaces(a, b)
    ensures Adjoined(b)
  {
  }

  lemma BackPlaced(rq: Request, b: Bio)
    requires Good(rq) && Placed(rq) && rq.bios != [] && WholeBio(b) && EndSector(rq) == b.at / 512
    ensures Placed(BackMerge(rq, b))
  {
    hide Total, SetMixed;
    MixedSame(rq);
    AdjoinedSame(rq.bios, SetMixed(rq).bios);
    TotalSame(rq.bios, SetMixed(rq).bios);
    AdjoinedConcat(if rq.ff != b.ff then SetMixed(rq).bios else rq.bios, [b]);
    MixedLength(rq);
  }

  lemma MixedLength(rq: Request)
    ensures SetMixed(rq).dataLen == rq.dataLen
  {
  }

  lemma TotalOne(b: Bio)
    ensures Total([b]) == b.size
  {
  }

  lemma FrontPlaced(rq: Request, b: Bio)
    requires Good(rq) && Placed(rq) && rq.bios != [] && WholeBio(b) && b.at / 512 + b.size / 512 == rq.sector
    ensures Placed(FrontMerge(rq, b))
  {
    hide Total, SetMixed;
    MixedSame(rq);
    AdjoinedSame(rq.bios, SetMixed(rq).bios);
    TotalOne(b);
    AdjoinedConcat([b], if rq.ff != b.ff then SetMixed(rq).bios else rq.bios);
    MixedLength(rq);
  }

  lemma JoinPlaced(rq: Request, next: Request)
    requires Good(rq) && Good(next) && Placed(rq) && Placed(next)
    requires rq.bios != [] && next.bios != [] && EndSector(rq) == next.sector
    ensures Placed(Join(rq, next))
  {
    hide Total, SetMixed;
    MixedSame(rq);
    MixedSame(next);
    AdjoinedSame(rq.bios, SetMixed(rq).bios);
    AdjoinedSame(next.bios, SetMixed(next).bios);
    TotalSame(rq.bios, SetMixed(rq).bios);
    var mix := rq.mixed || next.mixed || rq.ff != next.ff;
    AdjoinedConcat(if mix then SetMixed(rq).bios else rq.bios, if mix then SetMixed(next).bios else next.bios);
    MixedLength(rq);
    MixedLength(next);
  }

  /** What completion leaves begins `n` bytes further on. */
  lemma {:induction false} AdvancePlaced(bios: seq<Bio>, n: nat, error: bool)
    requires Adjoined(bios)
    ensures var left := Advance(bios, n, error).left;
            Adjoined(left) && (left != [] ==> left[0].at == bios[0].at + n)
  {
    if bios != [] && n > 0 {
      if n >= bios[0].size {
        var rest := bios[1..];
        forall i | 0 < i < |rest| ensures rest[i].at == rest[i - 1].at + rest[i - 1].size {
          assert rest[i] == bios[i + 1] && rest[i - 1] == bios[i];
        }
        AdvancePlaced(rest, n - bios[0].size, error);
        AdvanceHead(bios, n, error);
      } else {
        assert Advance(bios, n, error).left == [Trim(bios[0], n, error)] + bios[1..];
      }
    }
  }

  lemma UpdatePlaced(rq: Request, n: nat, error: bool)
    requires Good(rq) && Placed(rq) && n % 512 == 0
    ensures Placed(Update(rq, n, error))
  {
    hide Advance, Total;
    AdvancePlaced(rq.bios, n, error);
    AdvanceTotal(rq.bios, n, error);
    if rq.bios == [] { NothingAdvances(n, error); }
  }

  lemma NothingAdvances(n: nat, error: bool)
    ensures Advance([], n, error).left == []
  {
  }

  /** Over every history in whole sectors, the request's sector is that of the first byte it has left. */
  lemma {:induction false} HistoryPlaced(h: History)
    requires AllFormed(h) && Whole(h)
    ensures Placed(Result(h))
  {
    hide Placed, Good, Update, BackMerge, FrontMerge, Join;
    match h
    case Starts(b) => StartPlaced(b);
    case Backs(g, b) =>
      HistoryPlaced(g);
      HistoryGood(g);
      if Result(g).bios != [] && EndSector(Result(g)) == b.at / 512 { BackPlaced(Result(g), b); }
    case Fronts(g, b) =>
      HistoryPlaced(g);
      HistoryGood(g);
      var r := Result(g);
      if r.bios != [] && b.at / 512 + b.size / 512 == r.sector { FrontPlaced(r, b); }
    case Joins(g, n) =>
      HistoryPlaced(g);
      HistoryPlaced(n);
      HistoryGood(g);
      HistoryGood(n);
      var r, s := Result(g), Result(n);
      if r.bios != [] && s.bios != [] && EndSector(r) == s.sector { JoinPlaced(r, s); }
    case Updates(g, n, error) =>
      HistoryPlaced(g);
      HistoryGood(g);
      UpdatePlaced(Result(g), n, error);
  }

  lemma StartPlaced(b: Bio)
    requires WholeBio(b)
    ensures Placed(Start(b))
  {
  }

  // ---- each bio's own flags -----------------------------------------------------------

  /** The bios a history submitted. */
  function Sources(h: History): seq<Bio> {
    match h
    case Starts(b) => [b]
    case Backs(g, b) => Sources(g) + [b]
    case Fronts(g, b) => Sources(g) + [b]
    case Joins(g, n) => Sources(g) + Sources(n)
    case Updates(g, _, _) => Sources(g)
  }

  /** The flags are those submitted, or all of them for read-ahead. */
  predicate SameFlags(src: Bio, b: Bio) {
    src.id == b.id && src.ahead == b.ahead && (b.ff == src.ff || (src.ahead && b.ff == ALL_FAILFAST))
  }

  ghost predicate Owned(srcs: seq<Bio>, b: Bio) {
    exists i :: 0 <= i < |srcs| && SameFlags(srcs[i], b)
  }

  ghost predicate AllOwned(srcs: seq<Bio>, bios: seq<Bio>) {
    forall i :: 0 <= i < |bios| ==> Owned(srcs, bios[i])
  }

  lemma OwnedMore(a: seq<Bio>, b: seq<Bio>, bios: seq<Bio>)
    ensures AllOwned(a, bios) ==> AllOwned(a + b, bios)
    ensures AllOwned(b, bios) ==> AllOwned(a + b, bios)
  {
    forall i | 0 <= i < |bios|
      ensures Owned(a, bios[i]) ==> Owned(a + b, bios[i])
      ensures Owned(b, bios[i]) ==> Owned(a + b, bios[i])
    {
      if k :| 0 <= k < |a| && SameFlags(a[k], bios[i]) { assert (a + b)[k] == a[k]; }
      if k :| 0 <= k < |b| && SameFlags(b[k], bios[i]) { assert (a + b)[|a| + k] == b[k]; }
    }
  }

  /** Distributing the request's flags changes only those of read-ahead bios. */
  lemma MixedOwned(srcs: seq<Bio>, rq: Request)
    requires Good(rq) && AllOwned(srcs, rq.bios)
    ensures AllOwned(srcs, SetMixed(rq).bios)
  {
    if !rq.mixed {
      var t := SetMixed(rq).bios;
      forall i | 0 <= i < |t| ensures Owned(srcs, t[i]) {
        assert Owned(srcs, rq.bios[i]) && Agrees(rq.bios[i], rq.ff);
        var k :| 0 <= k < |srcs| && SameFlags(srcs[k], rq.bios[i]);
        WidenedFlags(srcs[k], rq.bios[i], rq.ff);
      }
    }
  }

  lemma WidenedFlags(src: Bio, b: Bio, ff: set<Failfast>)
    requires SameFlags(src, b) && Agrees(b, ff)
    ensures SameFlags(src, b.(ff := b.ff + ff))
  {
    if b.ff != ff {
      forall x ensures x in b.ff + ALL_FAILFAST <==> x in ALL_FAILFAST {
        assert x == Dev || x == Transport || x == Driver;
      }
      assert b.ff + ff == ALL_FAILFAST;
    } else {
      assert b.ff + ff == b.ff;
    }
  }

  lemma {:induction false} AdvanceOwned(srcs: seq<Bio>, bios: seq<Bio>, n: nat, error: bool)
    requires AllOwned(srcs, bios)
    ensures AllOwned(srcs, Advance(bios, n, error).left)
  {
    if bios != [] && n > 0 {
      if n >= bios[0].size {
        AdvanceOwned(srcs, bios[1..], n - bios[0].size, error);
        AdvanceHead(bios, n, error);
      } else {
        var t := Trim(bios[0], n, error);
        assert Advance(bios, n, error).left == [t] + bios[1..];
        assert Owned(srcs, bios[0]);
        var k :| 0 <= k < |srcs| && SameFlags(srcs[k], bios[0]);
        assert SameFlags(srcs[k], t);
      }
    }
  }

  lemma OneOwned(srcs: seq<Bio>, b: Bio)
    ensures AllOwned(srcs + [b], [b])
  {
    assert (srcs + [b])[|srcs|] == b && SameFlags(b, b);
  }

  lemma MergesOwned(srcs: seq<Bio>, rq: Request, b: Bio)
    requires Good(rq) && AllOwned(srcs, rq.bios)
    ensures AllOwned(srcs + [b], rq.bios)
    ensures AllOwned(srcs + [b], BackMerge(rq, b).bios) && AllOwned(srcs + [b], FrontMerge(rq, b).bios)
  {
    hide Good, SetMixed, Owned;
    MixedOwned(srcs, rq);
    OwnedMore(srcs, [b], rq.bios);
    OwnedMore(srcs, [b], SetMixed(rq).bios);
    OneOwned(srcs, b);
    assert [b][0] == b;
  }

  lemma JoinOwned(a: seq<Bio>, b: seq<Bio>, rq: Request, next: Request)
    requires Good(rq) && Good(next) && AllOwned(a, rq.bios) && AllOwned(b, next.bios)
    ensures AllOwned(a + b, rq.bios) && AllOwned(a + b, Join(rq, next).bios)
  {
    hide Good, SetMixed, Owned;
    MixedOwned(a, rq);
    MixedOwned(b, next);
    OwnedMore(a, b, rq.bios);
    OwnedMore(a, b, next.bios);
    OwnedMore(a, b, SetMixed(rq).bios);
    OwnedMore(a, b, SetMixed(next).bios);
  }

  /** Over every history no bio fails fast in a way it did not ask for, but read-ahead may in every way. */
  lemma {:induction false} HistoryOwned(h: History)
    requires AllFormed(h)
    ensures AllOwned(Sources(h), Result(h).bios)
  {
    hide AllOwned, Good, Advance, BackMerge, FrontMerge, Join;
    match h
    case Starts(b) =>
      OneOwned([], b);
      assert [] + [b] == [b];
    case Backs(g, b) =>
      HistoryOwned(g);
      HistoryGood(g);
      MergesOwned(Sources(g), Result(g), b);
    case Fronts(g, b) =>
      HistoryOwned(g);
      HistoryGood(g);
      MergesOwned(Sources(g), Result(g), b);
    case Joins(g, n) =>
      HistoryOwned(g);
      HistoryOwned(n);
      HistoryGood(g);
      HistoryGood(n);
      JoinOwned(Sources(g), Sources(n), Result(g), Result(n));
    case Updates(g, n, error) =>
      HistoryOwned(g);
      AdvanceOwned(Sources(g), Result(g).bios, n, error);
      NoneOwned(Sources(g));
  }

  lemma NoneOwned(srcs: seq<Bio>)
    ensures AllOwned(srcs, [])
  {
  }
}
