/** blk-tag.c on its arrays and lists. */
module TagsCode {
  import opened Common
  import opened Tags

  class TagMap {
    var bits: array<bool>
    var index: array<Option<Id>>
    var max: nat
    var busy: seq<Id>
    var tag: map<Id, nat>
    var queue: seq<Id>
    var spilt: bool

    ghost function View(): State
      reads this, bits, index
    {
      State(bits[..], index[..], max, busy, tag, queue, spilt)
    }

    /** `find_first_zero_bit` */
    method FindFirstZero(depth: nat) returns (t: nat)
      requires depth <= bits.Length
      ensures t == FirstZero(bits[..], depth)
    {
      t := 0;
      assert bits[..][0..] == bits[..];
      while t < depth && bits[t]
        invariant t <= depth && FirstZero(bits[..], depth) == t + FirstZero(bits[..][t..], depth - t)
      {
        assert bits[..][t..][1..] == bits[..][t + 1..];
        t := t + 1;
      }
    }

    /** `blk_queue_start_tag` for a request without a tag; `refused` is its return value 1. */
    method StartTag(x: Id, sync: bool, asyncInFlight: nat) returns (refused: bool)
      requires Ok(View()) && x !in tag
      modifies this, bits, index
      ensures View() == Tags.StartTag(old(View()), x, sync, asyncInFlight)
      ensures refused == Refuses(old(View()), sync, asyncInFlight)
    {
      hide FirstZero;
      var depth := max;
      if !sync && depth > 1 {
        depth := depth - 2;
        if depth == 0 {
          depth := 1;
        }
        if asyncInFlight > depth {
          return true;
        }
      }
      FirstZeroIs(bits[..], depth);
      var t := FindFirstZero(depth);
      if t >= depth {
        return true;
      }
      bits[t] := true;
      tag := tag[x := t];
      index[t] := Some(x);
      busy := [x] + busy;
      return false;
    }

    /** `blk_queue_end_tag` */
    method EndTag(x: Id)
      requires Ok(View()) && x in tag
      modifies this, bits, index
      ensures View() == Tags.EndTag(old(View()), x) && bits == old(bits) && index == old(index)
    {
      var t := tag[x];
      busy := Without(busy, x);
      tag := tag - {x};
      index[t] := None;
      bits[t] := false;
    }

    /** `blk_requeue_request` with no barrier in progress. */
    method RequeueRequest(x: Id)
      requires Ok(View()) && x in tag
      modifies this, bits, index
      ensures View() == Requeue(old(View()), x) && bits == old(bits) && index == old(index)
    {
      hide Ok, Tags.EndTag;
      EndTag(x);
      queue := [x] + queue;
    }

    /** `blk_queue_resize_tags` on a map this queue has to itself. */
    method ResizeTags(depth: nat, nrRequests: nat)
      requires Ok(View())
      modifies this
      ensures View() == Resize(old(View()), depth, nrRequests)
      ensures !spilt && Agrees(View()) <==> Fits(old(View()), depth, nrRequests)
    {
      ResizeExact(View(), depth, nrRequests);
      if depth <= index.Length {
        max := depth;
        return;
      }
      var n := Clamp(depth, nrRequests);
      var newIndex, spiltIndex := CopyInto(index, n, None);
      var newBits, spiltBits := CopyInto(bits, n, false);
      bits, index, max, spilt := newBits, newIndex, n, spilt || spiltIndex || spiltBits;
    }

    /** `blk_queue_invalidate_tags` */
    method InvalidateTags()
      requires Ok(View())
      modifies this, bits, index
      ensures View() == RequeueAll(old(View()), old(busy)) && Ok(View())
    {
      hide Ok, Requeue, RequeueAll, NoDup;
      ghost var s := View();
      InvalidateOrder(s);
      ShapedIfOk(s);
      while busy != []
        invariant Ok(View()) && Shaped(View()) && bits == old(bits) && index == old(index)
        invariant RequeueAll(s, s.busy) == RequeueAll(View(), busy)
        decreases |busy|
      {
        RequeueFirst(View());
        RequeueRequest(busy[0]);
        ShapedIfOk(View());
      }
      RequeueNone(View());
    }
  }

  /** `kzalloc` and `memcpy`: a fresh array of `n` cells; `spilt` when a cell past its end would have been written. */
  method CopyInto<T(0)>(from: array<T>, n: nat, fill: T) returns (a: array<T>, spilt: bool)
    ensures fresh(a) && a[..] == Copied(from[..], n, fill) && (spilt <==> from.Length > n)
  {
    a := new T[n](_ => fill);
    spilt := false;
    for t := 0 to from.Length
      invariant a[..] == Copied(from[..t], n, fill) && (spilt <==> t > n)
    {
      if t < n { a[t] := from[t]; } else { spilt := true; }
    }
    assert from[..from.Length] == from[..];
  }

  lemma RequeueFirst(s: State)
    requires Ok(s) && Shaped(s) && s.busy != []
    ensures s.busy[0] in s.tag
    ensures var t := Requeue(s, s.busy[0]);
            Ok(t) && Shaped(t) && |t.busy| < |s.busy| && RequeueAll(t, t.busy) == RequeueAll(s, s.busy)
  {
    HeadOnly(s);
    EndTagOk(s, s.busy[0]);
    RequeueKeeps(s, s.busy[0]);
    ShapedIfOk(Requeue(s, s.busy[0]));
  }

  lemma RequeueNone(s: State)
    requires Shaped(s) && s.busy == []
    ensures RequeueAll(s, s.busy) == s
  {
  }
}
