/** Small definitions shared by the models: options and list surgery on sequences. */
module Common {
  datatype Option<+T> = None | Some(value: T)

  /** `list_add` in the middle: `x` lands at index `k`. */
  function InsertAt<T>(s: seq<T>, k: nat, x: T): (r: seq<T>)
    requires k <= |s|
    ensures |r| == |s| + 1 && r[k] == x
    ensures forall i :: 0 <= i < k ==> r[i] == s[i]
    ensures forall i :: k < i <= |s| ==> r[i] == s[i - 1]
  {
    s[..k] + [x] + s[k..]
  }

  /** `list_del` of the element at index `k`. */
  function RemoveAt<T>(s: seq<T>, k: nat): (r: seq<T>)
    requires k < |s|
    ensures |r| == |s| - 1
    ensures forall i :: 0 <= i < k ==> r[i] == s[i]
    ensures forall i :: k <= i < |s| - 1 ==> r[i] == s[i + 1]
  {
    s[..k] + s[k + 1..]
  }

  ghost predicate NoDup<T>(s: seq<T>) {
    forall i, j :: 0 <= i < j < |s| ==> s[i] != s[j]
  }

  /** `list_del` by value: the first `x` is taken out. */
  function Without<T(==)>(s: seq<T>, x: T): seq<T> {
    if s == [] then [] else if s[0] == x then s[1..] else [s[0]] + Without(s[1..], x)
  }

  lemma {:induction false} WithoutIn<T>(s: seq<T>, x: T, y: T)
    requires NoDup(s)
    ensures y in Without(s, x) <==> y in s && y != x
  {
    if s != [] {
      assert s == [s[0]] + s[1..];
      WithoutIn(s[1..], x, y);
    }
  }

  /** Removing leaves the others in order: an order-preserving map of indices. */
  lemma {:induction false} WithoutOrder<T>(s: seq<T>, x: T, i: nat, j: nat) returns (k: nat, l: nat)
    requires i < j < |Without(s, x)|
    ensures k < l < |s| && Without(s, x)[i] == s[k] && Without(s, x)[j] == s[l]
  {
    if s[0] == x {
      k, l := i + 1, j + 1;
    } else if i == 0 {
      var m := WithoutOne(s[1..], x, j - 1);
      k, l := 0, m + 1;
    } else {
      k, l := WithoutOrder(s[1..], x, i - 1, j - 1);
      k, l := k + 1, l + 1;
    }
  }

  lemma {:induction false} WithoutOne<T>(s: seq<T>, x: T, i: nat) returns (k: nat)
    requires i < |Without(s, x)|
    ensures k < |s| && Without(s, x)[i] == s[k]
  {
    if s[0] == x {
      k := i + 1;
    } else if i == 0 {
      k := 0;
    } else {
      k := WithoutOne(s[1..], x, i - 1);
      k := k + 1;
    }
  }

  lemma WithoutNoDup<T>(s: seq<T>, x: T)
    requires NoDup(s)
    ensures NoDup(Without(s, x))
  {
    forall i: nat, j: nat | i < j < |Without(s, x)| ensures Without(s, x)[i] != Without(s, x)[j] {
      var k, l := WithoutOrder(s, x, i, j);
    }
  }

  lemma InsertIn<T>(s: seq<T>, k: nat, x: T, y: T)
    requires k <= |s|
    ensures y in InsertAt(s, k, x) <==> y in s || y == x
  {
    var t := InsertAt(s, k, x);
    assert s == s[..k] + s[k..];
    assert t == s[..k] + [x] + s[k..];
  }

  // ---- sums over a list -----------------------------------------------------

  function Sum<T>(ts: seq<T>, f: T -> nat): nat {
    if ts == [] then 0 else Sum(ts[..|ts| - 1], f) + f(ts[|ts| - 1])
  }

  lemma {:induction false} SumUpdate<T>(ts: seq<T>, i: nat, t: T, f: T -> nat)
    requires i < |ts|
    ensures Sum(ts[i := t], f) == Sum(ts, f) - f(ts[i]) + f(t)
    ensures Sum(ts, f) >= f(ts[i])
    decreases |ts|
  {
    var n := |ts| - 1;
    var us := ts[i := t];
    if i < n {
      SumUpdate(ts[..n], i, t, f);
      assert us[..n] == ts[..n][i := t];
    } else {
      assert us[..n] == ts[..n];
    }
  }

  lemma SumAppend<T>(ts: seq<T>, t: T, f: T -> nat)
    ensures Sum(ts + [t], f) == Sum(ts, f) + f(t)
  {
    assert (ts + [t])[..|ts|] == ts;
  }

  lemma {:induction false} SumPair<T>(ts: seq<T>, i: nat, j: nat, f: T -> nat)
    requires i < j < |ts|
    ensures Sum(ts, f) >= f(ts[i]) + f(ts[j])
    decreases |ts|
  {
    var n := |ts| - 1;
    if j < n {
      SumPair(ts[..n], i, j, f);
    } else {
      SumUpdate(ts[..n], i, ts[i], f);
    }
  }

  lemma {:induction false} SumConcat<T>(a: seq<T>, b: seq<T>, f: T -> nat)
    ensures Sum(a + b, f) == Sum(a, f) + Sum(b, f)
    decreases |b|
  {
    if b == [] {
      assert a + b == a;
    } else {
      var n := |b| - 1;
      assert (a + b)[..|a + b| - 1] == a + b[..n];
      SumConcat(a, b[..n], f);
    }
  }

  lemma SumInsert<T>(s: seq<T>, k: nat, x: T, f: T -> nat)
    requires k <= |s|
    ensures Sum(InsertAt(s, k, x), f) == Sum(s, f) + f(x)
  {
    hide Sum;
    assert s == s[..k] + s[k..];
    SumConcat(s[..k], s[k..], f);
    SumAppend(s[..k], x, f);
    SumConcat(s[..k] + [x], s[k..], f);
  }

  lemma SumRemove<T>(s: seq<T>, k: nat, f: T -> nat)
    requires k < |s|
    ensures Sum(RemoveAt(s, k), f) + f(s[k]) == Sum(s, f)
  {
    hide Sum, InsertAt, RemoveAt;
    SumInsert(RemoveAt(s, k), k, s[k], f);
    PutBack(s, k);
  }

  lemma PutBack<T>(s: seq<T>, k: nat)
    requires k < |s|
    ensures InsertAt(RemoveAt(s, k), k, s[k]) == s
  {
  }
}
