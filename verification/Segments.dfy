/**
 * Physical segment counting for requests: the count kept up by merges against
 * the scatterlist `blk_rq_map_sg` finally builds.
 */
module Segments {

  datatype Vec = Vec(addr: nat, len: nat)

  /** One queue's limits, which pairs of vectors are contiguous within them, and which pages may be bounced. */
  datatype Queue = Queue(
    cluster: bool, maxSize: nat, maxSectors: nat, maxPhys: nat, maxHw: nat,
    joinable: (Vec, Vec) -> bool, high: Vec -> bool)

  /** A bio's place on the disk, in bytes, its pending vectors and its cached segment facts. */
  datatype Bio = Bio(at: nat, vecs: seq<Vec>, front: nat, back: nat, phys: nat, valid: bool)

  datatype Request = Request(bios: seq<Bio>, nr: nat)

  function Last<T>(s: seq<T>): T
    requires s != []
  {
    s[|s| - 1]
  }

  function Size(vs: seq<Vec>): nat {
    if vs == [] then 0 else Size(vs[..|vs| - 1]) + Last(vs).len
  }

  function Vecs(bios: seq<Bio>): seq<Vec> {
    if bios == [] then [] else Vecs(bios[..|bios| - 1]) + Last(bios).vecs
  }

  function Sectors(vs: seq<Vec>): nat {
    Size(vs) / 512
  }

  // ---- blk_rq_map_sg ------------------------------------------------------

  /** The scatterlist walk: entries made, bytes in the last one, previous vector. */
  datatype Map = Map(n: nat, len: nat, prev: Vec)

  predicate Extends(q: Queue, m: Map, v: Vec) {
    m.n > 0 && q.cluster && m.len + v.len <= q.maxSize && q.joinable(m.prev, v)
  }

  function MapVec(q: Queue, m: Map, v: Vec): Map {
    if Extends(q, m, v) then Map(m.n, m.len + v.len, v) else Map(m.n + 1, v.len, v)
  }

  function MapAll(q: Queue, vs: seq<Vec>): Map {
    if vs == [] then Map(0, 0, Vec(0, 0)) else MapVec(q, MapAll(q, vs[..|vs| - 1]), Last(vs))
  }

  function MapSg(q: Queue, rq: Request): nat {
    MapAll(q, Vecs(rq.bios)).n
  }

  // ---- __blk_recalc_rq_segments ---------------------------------------------

  /** The counting walk; `front` is the first bio's cached front size. */
  datatype Scan = Scan(n: nat, size: nat, prev: Vec, highPrev: bool, front: nat)

  predicate SameSegment(q: Queue, s: Scan, v: Vec) {
    !q.high(v) && !s.highPrev && q.cluster && s.size + v.len <= q.maxSize && q.joinable(s.prev, v)
  }

  function Raise(s: Scan): nat {
    if s.n == 1 && s.size > s.front then s.size else s.front
  }

  function ScanVec(q: Queue, s: Scan, v: Vec): Scan {
    if SameSegment(q, s, v) then s.(size := s.size + v.len, prev := v)
    else Scan(s.n + 1, v.len, v, q.high(v), Raise(s))
  }

  function ScanAll(q: Queue, front: nat, vs: seq<Vec>): Scan {
    if vs == [] then Scan(0, 0, Vec(0, 0), true, front) else ScanVec(q, ScanAll(q, front, vs[..|vs| - 1]), Last(vs))
  }

  function Max(a: nat, b: nat): nat {
    if a > b then a else b
  }

  /** The bios with front and back sizes brought up to date. */
  function Resized(bios: seq<Bio>, s: Scan): seq<Bio>
    requires bios != []
  {
    var fronted := bios[0 := bios[0].(front := Raise(s))];
    fronted[|bios| - 1 := Last(fronted).(back := Max(Last(fronted).back, s.size))]
  }

  /** `blk_recalc_rq_segments` */
  function Recalc(q: Queue, rq: Request): Request {
    if rq.bios == [] then rq.(nr := 0)
    else var s := ScanAll(q, rq.bios[0].front, Vecs(rq.bios)); Request(Resized(rq.bios, s), s.n)
  }

  /** `blk_recount_segments` on a single bio, and `bio_phys_segments`' use of it. */
  function Recount(q: Queue, bio: Bio): Bio {
    if bio.valid then bio
    else var r := Recalc(q, Request([bio], 0)); r.bios[0].(phys := r.nr, valid := true)
  }

  // ---- merging ------------------------------------------------------------------

  /** `blk_rq_bio_prep`: a new request around one bio. */
  function Start(q: Queue, bio: Bio): Request {
    var b := Recount(q, bio);
    Request([b], b.phys)
  }

  predicate Fits(q: Queue, rq: Request, bio: Bio) {
    rq.nr + bio.phys <= q.maxHw && rq.nr + bio.phys <= q.maxPhys
  }

  predicate FitsSectors(q: Queue, rq: Request, bio: Bio) {
    Sectors(Vecs(rq.bios)) + Sectors(bio.vecs) <= q.maxSectors
  }

  function RecountLast(q: Queue, rq: Request): Request
    requires rq.bios != []
  {
    rq.(bios := rq.bios[|rq.bios| - 1 := Recount(q, Last(rq.bios))])
  }

  function RecountFirst(q: Queue, rq: Request): Request
    requires rq.bios != []
  {
    rq.(bios := rq.bios[0 := Recount(q, rq.bios[0])])
  }

  /** `ll_back_merge_fn` and the append its caller makes when it agrees. */
  function BackMerge(q: Queue, rq: Request, bio: Bio): Request
    requires rq.bios != []
  {
    if !FitsSectors(q, rq, bio) then rq
    else
      var r, b := RecountLast(q, rq), Recount(q, bio);
      if Fits(q, r, b) then Request(r.bios + [b], r.nr + b.phys) else r
  }

  /** `ll_front_merge_fn` and the prepend its caller makes when it agrees. */
  function FrontMerge(q: Queue, rq: Request, bio: Bio): Request
    requires rq.bios != []
  {
    if !FitsSectors(q, rq, bio) then rq
    else
      var r, b := RecountFirst(q, rq), Recount(q, bio);
      if Fits(q, r, b) then Request([b] + r.bios, r.nr + b.phys) else r
  }

  /** `blk_phys_contig_segment` for bios that carry data. */
  predicate Contiguous(q: Queue, bio: Bio, next: Bio)
    requires bio.vecs != [] && next.vecs != []
  {
    q.cluster && bio.back + next.front <= q.maxSize && q.joinable(Last(bio.vecs), next.vecs[0])
  }

  /** Every bio carries data. */
  predicate Data(rq: Request) {
    rq.bios != [] && forall i :: 0 <= i < |rq.bios| ==> rq.bios[i].vecs != []
  }

  predicate Meet(q: Queue, rq: Request, next: Request)
    requires Data(rq) && Data(next)
  {
    Contiguous(q, Last(rq.bios), next.bios[0])
  }

  function JoinSize(rq: Request, next: Request): nat
    requires rq.bios != [] && next.bios != []
  {
    Last(rq.bios).back + next.bios[0].front
  }

  /** What `ll_merge_requests_fn` does to the first request's sizes before deciding. */
  function Widened(q: Queue, rq: Request, next: Request): Request
    requires Data(rq) && Data(next)
  {
    if Meet(q, rq, next) && rq.nr == 1
    then rq.(bios := rq.bios[0 := rq.bios[0].(front := JoinSize(rq, next))]) else rq
  }

  /** And to the second one's. */
  function WidenedNext(q: Queue, rq: Request, next: Request): Request
    requires Data(rq) && Data(next)
  {
    if Meet(q, rq, next) && next.nr == 1
    then next.(bios := next.bios[|next.bios| - 1 := Last(next.bios).(back := JoinSize(rq, next))]) else next
  }

  function Total(q: Queue, rq: Request, next: Request): int
    requires Data(rq) && Data(next)
  {
    rq.nr + next.nr - (if Meet(q, rq, next) then 1 else 0)
  }

  predicate TooWide(q: Queue, rq: Request, next: Request) {
    Sectors(Vecs(rq.bios)) + Sectors(Vecs(next.bios)) > q.maxSectors
  }

  predicate Merges(q: Queue, rq: Request, next: Request)
    requires Data(rq) && Data(next)
  {
    !TooWide(q, rq, next) && 0 <= Total(q, rq, next) <= q.maxPhys && Total(q, rq, next) <= q.maxHw
  }

  /** `attempt_merge`: the first request afterwards. */
  function Merge(q: Queue, rq: Request, next: Request): Request
    requires Data(rq) && Data(next)
  {
    if TooWide(q, rq, next) then rq
    else if !Merges(q, rq, next) then Widened(q, rq, next)
    else Request(Widened(q, rq, next).bios + WidenedNext(q, rq, next).bios, Total(q, rq, next))
  }

  /** `attempt_merge`: the second request afterwards, when it was refused. */
  function Refused(q: Queue, rq: Request, next: Request): Request
    requires Data(rq) && Data(next)
  {
    if TooWide(q, rq, next) then next else WidenedNext(q, rq, next)
  }

  /** Vectors without their first `n` bytes. */
  function Trim(vs: seq<Vec>, n: nat): seq<Vec> {
    if n == 0 || vs == [] then vs
    else if n >= vs[0].len then Trim(vs[1..], n - vs[0].len)
    else [Vec(vs[0].addr + n, vs[0].len - n)] + vs[1..]
  }

  /** What completing `n` bytes leaves: whole bios go, the first survivor is cut. */
  function Cut(bios: seq<Bio>, n: nat): seq<Bio> {
    if n == 0 || bios == [] then bios
    else if n >= Size(bios[0].vecs) then Cut(bios[1..], n - Size(bios[0].vecs))
    else [bios[0].(at := bios[0].at + n, vecs := Trim(bios[0].vecs, n))] + bios[1..]
  }

  // ---- histories -----------------------------------------------------------------

  /** How a request on one queue came to be. */
  datatype History =
    | Starts(bio: Bio)
    | Back(h: History, bio: Bio)
    | Front(h: History, bio: Bio)
    | Joined(h: History, next: History)
    | TurnedDown(h: History, next: History)
    | Recounted(h: History)
    | Completed(h: History, bytes: nat)

  /** A bio as submitted: it carries data and its cached count, if any, was made on this queue. */
  ghost predicate Fresh(q: Queue, bio: Bio) {
    bio.vecs != [] && (bio.valid ==> Witnessed(q, Request([bio], bio.phys)))
  }

  ghost predicate AllFresh(q: Queue, h: History) {
    match h
    case Starts(bio) => Fresh(q, bio)
    case Back(g, bio) => AllFresh(q, g) && Fresh(q, bio)
    case Front(g, bio) => AllFresh(q, g) && Fresh(q, bio)
    case Joined(g, next) => AllFresh(q, g) && AllFresh(q, next)
    case TurnedDown(g, next) => AllFresh(q, g) && AllFresh(q, next)
    case Recounted(g) => AllFresh(q, g)
    case Completed(g, _) => AllFresh(q, g)
  }

  /** The disk position behind the request's last byte. */
  function End(rq: Request): nat
    requires rq.bios != []
  {
    rq.bios[0].at + Size(Vecs(rq.bios))
  }

  /** `attempt_merge` looks at two requests that carry data and are neighbours on the disk. */
  predicate Neighbours(r: Request, s: Request) {
    Data(r) && Data(s) && End(r) == s.bios[0].at
  }

  /**
   * The request a history ends with. The elevator proposes a merge only at the disk position where the two meet; a
   * request that has completed altogether stays as it is.
   */
  function Result(q: Queue, h: History): Request {
    match h
    case Starts(bio) => Start(q, bio)
    case Back(g, bio) =>
      var r := Result(q, g);
      if r.bios == [] || End(r) != bio.at then r else BackMerge(q, r, bio)
    case Front(g, bio) =>
      var r := Result(q, g);
      if r.bios == [] || bio.at + Size(bio.vecs) != r.bios[0].at then r else FrontMerge(q, r, bio)
    case Joined(g, n) => var r, s := Result(q, g), Result(q, n); if Neighbours(r, s) then Merge(q, r, s) else r
    case TurnedDown(g, n) => var r, s := Result(q, g), Result(q, n); if Neighbours(r, s) then Refused(q, r, s) else s
    case Recounted(g) => Recalc(q, Result(q, g))
    case Completed(g, n) => var r := Result(q, g); Recalc(q, r.(bios := Cut(r.bios, n)))
  }

  // ---- segmentations ------------------------------------------------------------------

  /** One legal segment: a vector alone, or a contiguous stretch within the size limit. */
  ghost predicate Segment(q: Queue, run: seq<Vec>) {
    && run != []
    && (|run| > 1 ==> q.cluster && Size(run) <= q.maxSize)
    && forall i :: 0 < i < |run| ==> q.joinable(run[i - 1], run[i])
  }

  function Flat(runs: seq<seq<Vec>>): seq<Vec> {
    if runs == [] then [] else Flat(runs[..|runs| - 1]) + Last(runs)
  }

  ghost predicate Segmentation(q: Queue, vs: seq<Vec>, runs: seq<seq<Vec>>) {
    Flat(runs) == vs && forall i :: 0 <= i < |runs| ==> Segment(q, runs[i])
  }

  /** Some segmentation has as many segments as the request claims, its ends within the cached end sizes. */
  ghost predicate Witness(q: Queue, rq: Request, runs: seq<seq<Vec>>) {
    && rq.bios != [] && runs != [] && Segmentation(q, Vecs(rq.bios), runs) && |runs| == rq.nr
    && Size(runs[0]) <= rq.bios[0].front && Size(Last(runs)) <= Last(rq.bios).back
  }

  ghost predicate Witnessed(q: Queue, rq: Request) {
    exists runs :: Witness(q, rq, runs)
  }

  /** What every request keeps. */
  ghost predicate Good(q: Queue, rq: Request) {
    if rq.bios == [] then rq.nr == 0 else Data(rq) && Witnessed(q, rq)
  }

  // ---- the greedy walk is never behind ------------------------------------------------

  lemma SizeSnoc(vs: seq<Vec>, v: Vec)
    ensures Size(vs + [v]) == Size(vs) + v.len
  {
    assert (vs + [v])[..|vs|] == vs;
  }

  lemma MapSnoc(q: Queue, vs: seq<Vec>, v: Vec)
    ensures MapAll(q, vs + [v]) == MapVec(q, MapAll(q, vs), v)
  {
    assert (vs + [v])[..|vs|] == vs;
  }

  /**
   * After `j` vectors of segment number `k`, the walk has at most `k` entries and, if `k`, no more bytes in the last.
   */
  lemma {:induction false} GreedyInRun(q: Queue, before: seq<Vec>, run: seq<Vec>, j: nat, k: nat)
    requires Segment(q, run) && 0 < j <= |run| && MapAll(q, before).n < k
    ensures var m := MapAll(q, before + run[..j]);
            m.n <= k && (m.n == k ==> m.len <= Size(run[..j])) && m.prev == run[j - 1]
    decreases j
  {
    var vs := before + run[..j - 1];
    assert before + run[..j] == vs + [run[j - 1]];
    assert run[..j] == run[..j - 1] + [run[j - 1]];
    SizeSnoc(run[..j - 1], run[j - 1]);
    MapSnoc(q, vs, run[j - 1]);
    hide MapAll, Size;
    if j > 1 {
      GreedyInRun(q, before, run, j - 1, k);
      SizePrefix(run, j);
    } else {
      assert vs == before;
    }
  }

  lemma {:induction false} SizePrefix(vs: seq<Vec>, j: nat)
    requires j <= |vs|
    ensures Size(vs[..j]) <= Size(vs)
    decreases |vs|
  {
    if j < |vs| {
      SizePrefix(vs[..|vs| - 1], j);
      assert vs[..|vs| - 1][..j] == vs[..j];
    } else {
      assert vs[..j] == vs;
    }
  }

  /** The greedy split is the shortest segmentation. */
  lemma {:induction false} GreedyShortest(q: Queue, runs: seq<seq<Vec>>)
    requires forall i :: 0 <= i < |runs| ==> Segment(q, runs[i])
    ensures MapAll(q, Flat(runs)).n <= |runs|
  {
    if runs != [] {
      GreedyShortest(q, runs[..|runs| - 1]);
      var run := Last(runs);
      GreedyInRun(q, Flat(runs[..|runs| - 1]), run, |run|, |runs|);
      assert run[..|run|] == run;
    }
  }

  /** The entries the walk makes. */
  function MapRuns(q: Queue, vs: seq<Vec>): seq<seq<Vec>> {
    if vs == [] then []
    else
      var runs, v := MapRuns(q, vs[..|vs| - 1]), Last(vs);
      if Extends(q, MapAll(q, vs[..|vs| - 1]), v) && runs != [] then Grow(runs, v) else runs + [[v]]
  }

  /** A scatterlist entry: where its first vector starts and how many bytes it spans. */
  function Entries(runs: seq<seq<Vec>>): seq<Vec>
    requires forall i :: 0 <= i < |runs| ==> runs[i] != []
  {
    seq(|runs|, i requires 0 <= i < |runs| => Vec(runs[i][0].addr, Size(runs[i])))
  }

  lemma FlatSnoc(runs: seq<seq<Vec>>, run: seq<Vec>)
    ensures Flat(runs + [run]) == Flat(runs) + run
  {
    assert (runs + [run])[..|runs|] == runs;
  }

  lemma FlatGrow(runs: seq<seq<Vec>>, v: Vec)
    requires runs != []
    ensures Flat(runs[|runs| - 1 := Last(runs) + [v]]) == Flat(runs) + [v]
  {
    var n := |runs| - 1;
    assert runs[n := Last(runs) + [v]] == runs[..n] + [Last(runs) + [v]];
    FlatSnoc(runs[..n], Last(runs) + [v]);
  }

  lemma SegmentGrows(q: Queue, run: seq<Vec>, v: Vec)
    requires Segment(q, run) && q.cluster && Size(run) + v.len <= q.maxSize && q.joinable(Last(run), v)
    ensures Segment(q, run + [v])
  {
    SizeSnoc(run, v);
  }

  function Grow(runs: seq<seq<Vec>>, v: Vec): seq<seq<Vec>>
    requires runs != []
  {
    runs[|runs| - 1 := Last(runs) + [v]]
  }

  lemma GrowSegmentation(q: Queue, vs: seq<Vec>, runs: seq<seq<Vec>>, v: Vec)
    requires Segmentation(q, vs, runs) && runs != [] && Last(runs) != []
    requires q.cluster && Size(Last(runs)) + v.len <= q.maxSize && q.joinable(Last(Last(runs)), v)
    ensures Segmentation(q, vs + [v], Grow(runs, v)) && Size(Last(Grow(runs, v))) == Size(Last(runs)) + v.len
    ensures Last(Last(Grow(runs, v))) == v
  {
    FlatGrow(runs, v);
    SegmentGrows(q, Last(runs), v);
    SizeSnoc(Last(runs), v);
  }

  lemma OpenSegmentation(q: Queue, vs: seq<Vec>, runs: seq<seq<Vec>>, v: Vec)
    requires Segmentation(q, vs, runs)
    ensures Segmentation(q, vs + [v], runs + [[v]]) && Size([v]) == v.len
  {
    FlatSnoc(runs, [v]);
    SizeSnoc([], v);
    assert [] + [v] == [v];
  }

  /**
   * The scatterlist's entries are legal segments holding the request's vectors in order; so their number is the
   * least.
   */
  lemma {:induction false} MapIsSegmentation(q: Queue, vs: seq<Vec>)
    ensures var runs, m := MapRuns(q, vs), MapAll(q, vs);
            && Segmentation(q, vs, runs) && |runs| == m.n
            && (vs != [] ==> runs != [] && Last(runs) != [] && Size(Last(runs)) == m.len && Last(Last(runs)) == m.prev)
  {
    if vs != [] {
      hide Segmentation, Size;
      var pre, v := vs[..|vs| - 1], Last(vs);
      MapIsSegmentation(q, pre);
      var runs := MapRuns(q, pre);
      assert vs == pre + [v];
      if Extends(q, MapAll(q, pre), v) {
        GrowSegmentation(q, pre, runs, v);
      } else {
        OpenSegmentation(q, pre, runs, v);
      }
    }
  }

  // ---- recounting ------------------------------------------------------------------------

  /** The segments the counting walk sees. */
  function ScanRuns(q: Queue, front: nat, vs: seq<Vec>): seq<seq<Vec>> {
    if vs == [] then []
    else
      var runs, v := ScanRuns(q, front, vs[..|vs| - 1]), Last(vs);
      if SameSegment(q, ScanAll(q, front, vs[..|vs| - 1]), v) && runs != [] then Grow(runs, v)
      else runs + [[v]]
  }

  ghost predicate Scanned(q: Queue, front: nat, vs: seq<Vec>, runs: seq<seq<Vec>>, s: Scan) {
    && Segmentation(q, vs, runs) && |runs| == s.n && (vs == [] <==> runs == []) && (runs == [] ==> s.highPrev)
    && (runs != [] ==> Last(runs) != [] && Size(Last(runs)) == s.size && Last(Last(runs)) == s.prev)
    && s.front == if |runs| > 1 then Max(front, Size(runs[0])) else front
  }

  lemma ScanStays(q: Queue, front: nat, vs: seq<Vec>, runs: seq<seq<Vec>>, s: Scan, v: Vec)
    requires Scanned(q, front, vs, runs, s) && SameSegment(q, s, v)
    ensures runs != [] && Scanned(q, front, vs + [v], Grow(runs, v), ScanVec(q, s, v))
  {
    hide Segmentation, Size;
    GrowSegmentation(q, vs, runs, v);
  }

  lemma ScanOpens(q: Queue, front: nat, vs: seq<Vec>, runs: seq<seq<Vec>>, s: Scan, v: Vec)
    requires Scanned(q, front, vs, runs, s) && !SameSegment(q, s, v)
    ensures Scanned(q, front, vs + [v], runs + [[v]], ScanVec(q, s, v))
  {
    hide Segmentation, Size;
    OpenSegmentation(q, vs, runs, v);
  }

  /** One vector more. */
  lemma ScanIs(q: Queue, front: nat, vs: seq<Vec>)
    requires vs != []
    ensures var pre, v := vs[..|vs| - 1], Last(vs);
            var runs, s := ScanRuns(q, front, pre), ScanAll(q, front, pre);
            && ScanAll(q, front, vs) == ScanVec(q, s, v)
            && ScanRuns(q, front, vs) ==
               if SameSegment(q, s, v) && runs != [] then Grow(runs, v) else runs + [[v]]
  {
    hide SameSegment;
  }

  lemma ScanNothing(q: Queue, front: nat)
    ensures Scanned(q, front, [], ScanRuns(q, front, []), ScanAll(q, front, []))
  {
  }

  lemma {:induction false} ScanIsSegmentation(q: Queue, front: nat, vs: seq<Vec>)
    ensures Scanned(q, front, vs, ScanRuns(q, front, vs), ScanAll(q, front, vs))
  {
    hide Scanned, SameSegment, ScanRuns, ScanAll;
    if vs == [] {
      ScanNothing(q, front);
    } else {
      var pre, v := vs[..|vs| - 1], Last(vs);
      ScanIsSegmentation(q, front, pre);
      ScanIs(q, front, vs);
      var runs, s := ScanRuns(q, front, pre), ScanAll(q, front, pre);
      assert vs == pre + [v];
      if SameSegment(q, s, v) { ScanStays(q, front, pre, runs, s, v); } else { ScanOpens(q, front, pre, runs, s, v); }
    }
  }

  lemma {:induction false} VecsSame(a: seq<Bio>, b: seq<Bio>)
    requires |a| == |b| && forall i :: 0 <= i < |a| ==> a[i].vecs == b[i].vecs
    ensures Vecs(a) == Vecs(b)
  {
    if a != [] { VecsSame(a[..|a| - 1], b[..|b| - 1]); }
  }

  lemma VecsData(rq: Request)
    requires Data(rq)
    ensures Vecs(rq.bios) != [] && Last(Vecs(rq.bios)) == Last(Last(rq.bios).vecs)
  {
  }

  /** Enlarging the end bios to what the scan saw makes its runs a witness. */
  lemma ResizedWitness(q: Queue, bios: seq<Bio>, runs: seq<seq<Vec>>, s: Scan)
    requires Data(Request(bios, s.n)) && Scanned(q, bios[0].front, Vecs(bios), runs, s) && runs != []
    ensures Witness(q, Request(Resized(bios, s), s.n), runs)
  {
    hide Segmentation, Size, Vecs;
    VecsSame(bios, Resized(bios, s));
  }

  /** A recount starts over: whatever the request was, its count is witnessed again. */
  lemma RecalcGood(q: Queue, rq: Request)
    requires rq.bios == [] || Data(rq)
    ensures Good(q, Recalc(q, rq))
  {
    if rq.bios != [] {
      hide Segmentation, Size, ScanRuns, ScanAll, Vecs, Witness;
      var front, vs := rq.bios[0].front, Vecs(rq.bios);
      ScanIsSegmentation(q, front, vs);
      VecsData(rq);
      ResizedWitness(q, rq.bios, ScanRuns(q, front, vs), ScanAll(q, front, vs));
    }
  }

  // ---- every operation keeps a witness ------------------------------------------------------

  /** Same vectors and count, end sizes no smaller. */
  ghost predicate Grown(rq: Request, t: Request) {
    && |t.bios| == |rq.bios| && t.nr == rq.nr
    && forall i :: 0 <= i < |rq.bios| ==>
         && t.bios[i].vecs == rq.bios[i].vecs
         && t.bios[i].front >= rq.bios[i].front && t.bios[i].back >= rq.bios[i].back
  }

  lemma GrownGood(q: Queue, rq: Request, t: Request)
    requires Good(q, rq) && rq.bios != [] && Grown(rq, t)
    ensures Good(q, t) && Data(t)
  {
    VecsSame(rq.bios, t.bios);
    var runs :| Witness(q, rq, runs);
    assert Witness(q, t, runs);
  }

  lemma RecountBio(q: Queue, bio: Bio)
    requires Fresh(q, bio)
    ensures var b := Recount(q, bio); Good(q, Request([b], b.phys)) && b.vecs == bio.vecs
  {
    if !bio.valid {
      var one := Request([bio], 0);
      RecalcGood(q, one);
      var r := Recalc(q, one);
      var b := Recount(q, bio);
      assert r.bios == [r.bios[0]];
      GrownGood(q, r, Request([b], r.nr));
    }
  }

  lemma RecountGrows(q: Queue, bio: Bio)
    requires bio.vecs != []
    ensures var b := Recount(q, bio); b.vecs == bio.vecs && b.front >= bio.front && b.back >= bio.back
  {
    hide Segmentation, ScanRuns, ScanAll;
    ScanIsSegmentation(q, bio.front, Vecs([bio]));
  }

  lemma {:induction false} FlatConcat(a: seq<seq<Vec>>, b: seq<seq<Vec>>)
    ensures Flat(a + b) == Flat(a) + Flat(b)
    decreases |b|
  {
    if b == [] {
      assert a + b == a;
    } else {
      hide Flat;
      var n := |b| - 1;
      FlatConcat(a, b[..n]);
      assert a + b == (a + b[..n]) + [b[n]] && b == b[..n] + [b[n]];
      FlatSnoc(a + b[..n], b[n]);
      FlatSnoc(b[..n], b[n]);
    }
  }

  lemma {:induction false} VecsConcat(a: seq<Bio>, b: seq<Bio>)
    ensures Vecs(a + b) == Vecs(a) + Vecs(b)
    decreases |b|
  {
    if b == [] {
      assert a + b == a;
    } else {
      var n := |b| - 1;
      assert (a + b)[..|a + b| - 1] == a + b[..n];
      VecsConcat(a, b[..n]);
    }
  }

  /** Two witnessed requests laid end to end, without joining at the seam. */
  lemma AppendGood(q: Queue, r: Request, s: Request)
    requires Good(q, r) && Good(q, s) && r.bios != [] && s.bios != []
    ensures Good(q, Request(r.bios + s.bios, r.nr + s.nr))
  {
    var a :| Witness(q, r, a);
    var b :| Witness(q, s, b);
    FlatConcat(a, b);
    VecsConcat(r.bios, s.bios);
    assert Witness(q, Request(r.bios + s.bios, r.nr + s.nr), a + b);
  }

  lemma BackMergeGood(q: Queue, rq: Request, bio: Bio)
    requires Good(q, rq) && Data(rq) && Fresh(q, bio)
    ensures Good(q, BackMerge(q, rq, bio))
  {
    hide Good, Recount;
    var r, b := RecountLast(q, rq), Recount(q, bio);
    RecountGrows(q, Last(rq.bios));
    GrownGood(q, rq, r);
    RecountBio(q, bio);
    AppendGood(q, r, Request([b], b.phys));
  }

  lemma FrontMergeGood(q: Queue, rq: Request, bio: Bio)
    requires Good(q, rq) && Data(rq) && Fresh(q, bio)
    ensures Good(q, FrontMerge(q, rq, bio))
  {
    hide Good, Recount;
    var r, b := RecountFirst(q, rq), Recount(q, bio);
    RecountGrows(q, rq.bios[0]);
    GrownGood(q, rq, r);
    RecountBio(q, bio);
    AppendGood(q, Request([b], b.phys), r);
  }

  lemma {:induction false} SizeConcat(a: seq<Vec>, b: seq<Vec>)
    ensures Size(a + b) == Size(a) + Size(b)
    decreases |b|
  {
    if b == [] {
      assert a + b == a;
    } else {
      var n := |b| - 1;
      assert a + b == (a + b[..n]) + [b[n]];
      SizeSnoc(a + b[..n], b[n]);
      SizeConcat(a, b[..n]);
    }
  }

  /** The last segment of one list and the first of the next become one. */
  function Joint(a: seq<seq<Vec>>, b: seq<seq<Vec>>): seq<seq<Vec>>
    requires a != [] && b != []
  {
    a[..|a| - 1] + [Last(a) + b[0]] + b[1..]
  }

  lemma Reassociate(a: seq<Vec>, x: seq<Vec>, y: seq<Vec>, b: seq<Vec>)
    ensures a + (x + y) + b == (a + x) + (y + b)
  {
  }

  lemma FlatOne(run: seq<Vec>)
    ensures Flat([run]) == run
  {
    FlatSnoc([], run);
    assert [] + [run] == [run];
  }

  lemma JointFlat(a: seq<seq<Vec>>, b: seq<seq<Vec>>)
    requires a != [] && b != []
    ensures Flat(Joint(a, b)) == Flat(a) + Flat(b)
  {
    FlatOne(b[0]);
    hide Flat;
    var front, x, y := a[..|a| - 1], Last(a), b[0];
    FlatConcat(front + [x + y], b[1..]);
    FlatSnoc(front, x + y);
    assert a == front + [x] && b == [y] + b[1..];
    FlatSnoc(front, x);
    FlatConcat([y], b[1..]);
    Reassociate(Flat(front), x, y, Flat(b[1..]));
  }

  lemma JointSegment(q: Queue, x: seq<Vec>, y: seq<Vec>)
    requires Segment(q, x) && Segment(q, y) && q.cluster && Size(x) + Size(y) <= q.maxSize && q.joinable(Last(x), y[0])
    ensures Segment(q, x + y)
  {
    SizeConcat(x, y);
  }

  lemma FlatEnds(q: Queue, runs: seq<seq<Vec>>)
    requires runs != [] && forall i :: 0 <= i < |runs| ==> Segment(q, runs[i])
    ensures runs[0] != [] && Last(runs) != []
    ensures Flat(runs) != [] && Last(Flat(runs)) == Last(Last(runs)) && Flat(runs)[0] == runs[0][0]
  {
    assert [runs[0]] + runs[1..] == runs;
    FlatConcat([runs[0]], runs[1..]);
    FlatOne(runs[0]);
  }

  lemma VecsFirst(rq: Request)
    requires Data(rq)
    ensures Vecs(rq.bios) != [] && Vecs(rq.bios)[0] == rq.bios[0].vecs[0]
  {
    assert [rq.bios[0]] + rq.bios[1..] == rq.bios;
    VecsConcat([rq.bios[0]], rq.bios[1..]);
  }

  /** The seam of two contiguous requests can be closed: one segment fewer, within the cached sizes. */
  lemma SeamCloses(q: Queue, r: Request, s: Request, a: seq<seq<Vec>>, b: seq<seq<Vec>>)
    requires Data(r) && Data(s) && Witness(q, r, a) && Witness(q, s, b) && Meet(q, r, s)
    ensures Segmentation(q, Vecs(r.bios) + Vecs(s.bios), Joint(a, b)) && |Joint(a, b)| == |a| + |b| - 1
    ensures Size(Last(a) + b[0]) <= JoinSize(r, s)
  {
    VecsData(r);
    VecsFirst(s);
    FlatEnds(q, a);
    FlatEnds(q, b);
    JointSegment(q, Last(a), b[0]);
    SizeConcat(Last(a), b[0]);
    JointFlat(a, b);
  }

  lemma JoinGood(q: Queue, r: Request, s: Request)
    requires Data(r) && Data(s) && Good(q, r) && Good(q, s) && Meet(q, r, s)
    ensures Good(q, Request(Widened(q, r, s).bios + WidenedNext(q, r, s).bios, r.nr + s.nr - 1))
  {
    var a :| Witness(q, r, a);
    var b :| Witness(q, s, b);
    SeamCloses(q, r, s, a, b);
    var u, w := Widened(q, r, s).bios, WidenedNext(q, r, s).bios;
    VecsSame(r.bios, u);
    VecsSame(s.bios, w);
    VecsConcat(u, w);
    var t := Request(u + w, r.nr + s.nr - 1);
    JoinEnds(q, r, s, a, b);
    assert Witness(q, t, Joint(a, b));
  }

  lemma JoinEnds(q: Queue, r: Request, s: Request, a: seq<seq<Vec>>, b: seq<seq<Vec>>)
    requires Data(r) && Data(s) && Witness(q, r, a) && Witness(q, s, b) && Meet(q, r, s)
    requires Size(Last(a) + b[0]) <= JoinSize(r, s)
    ensures Size(Joint(a, b)[0]) <= Widened(q, r, s).bios[0].front
    ensures Size(Last(Joint(a, b))) <= Last(WidenedNext(q, r, s).bios).back
  {
  }

  lemma WidenedGood(q: Queue, r: Request, s: Request)
    requires Data(r) && Data(s) && Good(q, r) && Good(q, s)
    ensures Good(q, Widened(q, r, s)) && Good(q, WidenedNext(q, r, s))
  {
    var a :| Witness(q, r, a);
    var b :| Witness(q, s, b);
    VecsSame(r.bios, Widened(q, r, s).bios);
    VecsSame(s.bios, WidenedNext(q, r, s).bios);
    assert Witness(q, Widened(q, r, s), a);
    assert Witness(q, WidenedNext(q, r, s), b);
  }

  lemma MergeGood(q: Queue, r: Request, s: Request)
    requires Data(r) && Data(s) && Good(q, r) && Good(q, s)
    ensures Good(q, Merge(q, r, s)) && Good(q, Refused(q, r, s))
  {
    hide Good;
    WidenedGood(q, r, s);
    if Meet(q, r, s) {
      JoinGood(q, r, s);
    } else {
      AppendGood(q, r, s);
    }
  }

  lemma {:induction false} TrimData(vs: seq<Vec>, n: nat)
    requires n < Size(vs)
    ensures Trim(vs, n) != []
    decreases |vs|
  {
    assert [vs[0]] + vs[1..] == vs;
    SizeConcat([vs[0]], vs[1..]);
    SizeSnoc([], vs[0]);
    assert [] + [vs[0]] == [vs[0]];
    if vs[0].len <= n { TrimData(vs[1..], n - vs[0].len); }
  }

  /** Completion leaves no bio without data. */
  lemma {:induction false} CutData(rq: Request, n: nat)
    requires rq.bios == [] || Data(rq)
    ensures var t := rq.(bios := Cut(rq.bios, n)); t.bios == [] || Data(t)
    decreases |rq.bios|
  {
    var bios := rq.bios;
    if n > 0 && bios != [] {
      if n >= Size(bios[0].vecs) {
        CutData(rq.(bios := bios[1..]), n - Size(bios[0].vecs));
      } else {
        TrimData(bios[0].vecs, n);
      }
    }
  }

  /** Every history leaves a request whose count some segmentation witnesses. */
  lemma {:induction false} HistoryGood(q: Queue, h: History)
    requires AllFresh(q, h)
    ensures Good(q, Result(q, h))
    decreases h
  {
    match h
    case Starts(bio) => RecountBio(q, bio);
    case Back(g, bio) =>
      HistoryGood(q, g);
      if Result(q, g).bios != [] { BackMergeGood(q, Result(q, g), bio); }
    case Front(g, bio) =>
      HistoryGood(q, g);
      if Result(q, g).bios != [] { FrontMergeGood(q, Result(q, g), bio); }
    case Joined(g, n) =>
      HistoryGood(q, g);
      HistoryGood(q, n);
      if Neighbours(Result(q, g), Result(q, n)) { MergeGood(q, Result(q, g), Result(q, n)); }
    case TurnedDown(g, n) =>
      HistoryGood(q, g);
      HistoryGood(q, n);
      if Neighbours(Result(q, g), Result(q, n)) { MergeGood(q, Result(q, g), Result(q, n)); }
    case Recounted(g) =>
      HistoryGood(q, g);
      RecalcGood(q, Result(q, g));
    case Completed(g, n) =>
      HistoryGood(q, g);
      CutData(Result(q, g), n);
      RecalcGood(q, Result(q, g).(bios := Cut(Result(q, g).bios, n)));
  }

  /** So the scatterlist always fits: `blk_rq_map_sg` makes at most `nr_phys_segments` entries. */
  lemma MapFits(q: Queue, h: History)
    requires AllFresh(q, h)
    ensures MapSg(q, Result(q, h)) <= Result(q, h).nr
  {
    HistoryGood(q, h);
    var rq := Result(q, h);
    if rq.bios != [] {
      var runs :| Witness(q, rq, runs);
      GreedyShortest(q, runs);
    }
  }
}
