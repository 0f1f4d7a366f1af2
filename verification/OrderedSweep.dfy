/**
  The order `elv_dispatch_sort` keeps: between the marks that stop it, the dispatch list is one upward sweep over the
  disk that begins at `end_sector` and wraps around once.
*/
module OrderedSweep {
  import opened Common
  import opened OrderedQueue
  import opened OrderedBase

  /** A sweep from sector `b` meets sector `x` no later than sector `y`. */
  predicate Along(b: nat, x: nat, y: nat) {
    if x >= b then y < b || x <= y else y < b && x <= y
  }

  predicate Plain(r: Request) { !r.soft && !r.hard && !r.started }

  predicate Alike(r: Request, t: Request) { r.write == t.write && r.discard == t.discard }

  /** Neighbours that nothing keeps apart are in sweep order. */
  ghost predicate InSweep(d: seq<Request>, b: nat) {
    forall i :: 0 < i < |d| && Plain(d[i - 1]) && Plain(d[i]) && Alike(d[i - 1], d[i]) ==>
      Along(b, d[i - 1].pos, d[i].pos)
  }

  lemma AlongTransitive(b: nat, x: nat, y: nat, z: nat)
    requires Along(b, x, y) && Along(b, y, z)
    ensures Along(b, x, z)
  {}

  /** So a stretch of unmarked requests of one kind is in sweep order throughout. */
  lemma {:induction false} StretchInSweep(d: seq<Request>, b: nat, i: nat, j: nat)
    requires InSweep(d, b) && i < j < |d|
    requires forall k :: i <= k <= j ==> Plain(d[k]) && Alike(d[i], d[k])
    ensures Along(b, d[i].pos, d[j].pos)
    decreases j
  {
    assert Alike(d[j - 1], d[j]);
    if i < j - 1 {
      StretchInSweep(d, b, i, j - 1);
      AlongTransitive(b, d[i].pos, d[j - 1].pos, d[j].pos);
    }
  }

  /** Where the walk stops: behind every mark, every other kind, and everything the sweep meets first. */
  lemma StopsThere(d: seq<Request>, x: Request, b: nat)
    ensures var k := SortIndex(d, x, b);
            && (forall i :: k <= i < |d| ==> Plain(d[i]) && Alike(d[i], x) && !Along(b, d[i].pos, x.pos))
            && (k > 0 && Plain(d[k - 1]) && Alike(d[k - 1], x) ==> Along(b, d[k - 1].pos, x.pos))
  {}

  lemma SortedInSweep(d: seq<Request>, x: Request, b: nat)
    requires InSweep(d, b)
    ensures InSweep(InsertAt(d, SortIndex(d, x, b), x), b)
  {
    var k := SortIndex(d, x, b);
    StopsThere(d, x, b);
    var e := InsertAt(d, k, x);
    forall i | 0 < i < |e| && Plain(e[i - 1]) && Plain(e[i]) && Alike(e[i - 1], e[i])
      ensures Along(b, e[i - 1].pos, e[i].pos)
    {
      if i < k {
        assert e[i - 1] == d[i - 1] && e[i] == d[i];
      } else if i > k + 1 {
        assert e[i - 1] == d[i - 2] && e[i] == d[i - 1];
      }
    }
  }

  /** Sorted moves, any number of them, keep the sweep. */
  lemma {:induction false} MovesInSweep(q: Queue, ps: seq<Pick>)
    requires InSweep(q.dispatch, q.endSector) && forall i :: 0 <= i < |ps| ==> !ps[i].tail
    ensures Moves(q, ps).endSector == q.endSector && InSweep(Moves(q, ps).dispatch, q.endSector)
    decreases ps
  {
    if ps != [] {
      hide InSweep;
      var p := ps[0];
      if p.index < |q.sched| { SortedInSweep(q.dispatch, q.sched[p.index], q.endSector); }
      MovesInSweep(Move(q, p), ps[1..]);
    }
  }

  /** Taking the head of a sweep moves its start to the sector behind the head, and what is left is still one. */
  lemma TakenInSweep(d: seq<Request>, b: nat)
    requires InSweep(d, b) && d != [] && forall i :: 0 <= i < |d| ==> Plain(d[i]) && Alike(d[0], d[i])
    requires forall i :: 0 < i < |d| ==> d[i].pos < d[0].pos || d[0].EndSector() <= d[i].pos
    ensures InSweep([d[0].(started := true)] + d[1..], d[0].EndSector())
  {
    var e := [d[0].(started := true)] + d[1..];
    forall i | 1 < i < |e| ensures Along(d[0].EndSector(), e[i - 1].pos, e[i].pos) {
      StretchInSweep(d, b, 0, i - 1);
      StretchInSweep(d, b, 0, i);
      assert Alike(d[i - 1], d[i]) && Along(b, d[i - 1].pos, d[i].pos);
    }
  }

  /** Nothing marks the list or splits it, and nothing in it overlaps its head. */
  ghost predicate OneSweep(d: seq<Request>) {
    && d != [] && (forall i :: 0 <= i < |d| ==> Plain(d[i]) && Alike(d[0], d[i]))
    && forall i :: 0 < i < |d| ==> d[i].pos < d[0].pos || d[0].EndSector() <= d[i].pos
  }

  /** A grant goes on with the sweep, unless an earlier boundary still bounds it. */
  lemma PeekInSweep(q: Queue, calls: seq<seq<Pick>>)
    requires NextRequest(q, calls).1.Some?
    requires var n := NextRequest(q, calls).0;
             && OneSweep(n.dispatch) && InSweep(n.dispatch, n.endSector)
             && (n.boundary.None? || n.boundary == Some(n.dispatch[0].id))
    ensures var p := Peek(q, calls).0; p.boundary.None? && InSweep(p.dispatch, p.endSector)
  {
    hide NextRequest, InSweep;
    var n := NextRequest(q, calls).0;
    TakenInSweep(n.dispatch, n.endSector);
  }
}
