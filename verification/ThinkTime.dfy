/** The decayed mean think time of CFQ and the anticipatory scheduler, in fixed point. */
module ThinkTime {

  datatype Mean = Mean(samples: nat, total: nat, mean: nat)

  const UNKNOWN := Mean(0, 0, 0)

  /** One update; `samples` never reaches zero again, so the division is defined. */
  function Update(m: Mean, ttime: nat): Mean {
    var samples := (7 * m.samples + 256) / 8;
    var total := (7 * m.total + 256 * ttime) / 8;
    Mean(samples, total, (total + 128) / samples)
  }

  function Updates(ttimes: seq<nat>): Mean {
    if ttimes == [] then UNKNOWN else Update(Updates(ttimes[..|ttimes| - 1]), ttimes[|ttimes| - 1])
  }

  /** The weight stays within its limit; the total, which is in 256ths, within that share of the samples' bound. */
  ghost predicate Bounded(m: Mean, bound: nat) {
    m.samples <= 249 && 249 * m.total <= bound * (256 * m.samples)
  }

  lemma MulMono(a: nat, b: nat, c: nat)
    requires a <= b
    ensures c * a <= c * b
  {
  }

  lemma TotalStep(samples: nat, total: nat, ttime: nat, bound: nat)
    requires 249 * total <= bound * (256 * samples) && ttime <= bound
    ensures 249 * ((7 * total + 256 * ttime) / 8) <= bound * (256 * ((7 * samples + 256) / 8))
  {
    var s, t := (7 * samples + 256) / 8, (7 * total + 256 * ttime) / 8;
    calc {
      8 * (249 * t);
    <=
      7 * (249 * total) + 249 * 256 * bound;
    <=
      7 * (bound * (256 * samples)) + 249 * 256 * bound;
    ==
      bound * (256 * (7 * samples + 249));
    <= { MulMono(256 * (7 * samples + 249), 8 * (256 * s), bound); }
      bound * (8 * (256 * s));
    ==
      8 * (bound * (256 * s));
    }
  }

  lemma {:induction false} UpdatesBounded(ttimes: seq<nat>, bound: nat)
    requires forall i :: 0 <= i < |ttimes| ==> ttimes[i] <= bound
    ensures Bounded(Updates(ttimes), bound)
    ensures ttimes != [] ==> Updates(ttimes).samples >= 32
  {
    if ttimes != [] {
      var pre := ttimes[..|ttimes| - 1];
      UpdatesBounded(pre, bound);
      TotalStep(Updates(pre).samples, Updates(pre).total, ttimes[|ttimes| - 1], bound);
    }
  }

  /** So the total never exceeds the bound by more than 7 samples' worth. */
  lemma TotalBounded(ttimes: seq<nat>, bound: nat)
    requires forall i :: 0 <= i < |ttimes| ==> ttimes[i] <= bound
    ensures Updates(ttimes).total <= bound * (Updates(ttimes).samples + 7)
  {
    UpdatesBounded(ttimes, bound);
    SevenMore(Updates(ttimes).samples, Updates(ttimes).total, bound);
  }

  lemma SevenMore(s: nat, total: nat, bound: nat)
    requires s <= 249 && 249 * total <= bound * (256 * s)
    ensures total <= bound * (s + 7)
  {
    MulMono(256 * s, 249 * (s + 7), bound);
    assert bound * (249 * (s + 7)) == 249 * (bound * (s + 7));
  }

  lemma TotalStepUp(samples: nat, total: nat, ttime: nat, least: nat)
    requires total + 7 >= least * samples && ttime >= least
    ensures (7 * total + 256 * ttime) / 8 + 7 >= least * ((7 * samples + 256) / 8)
  {
    var s, t := (7 * samples + 256) / 8, (7 * total + 256 * ttime) / 8;
    calc {
      8 * (least * s);
    ==
      least * (8 * s);
    <= { MulMono(8 * s, 7 * samples + 256, least); }
      least * (7 * samples + 256);
    ==
      7 * (least * samples) + 256 * least;
    <=
      8 * t + 56;
    }
  }

  /** From below: with think times of at least `least`, total and mean do not fall short of it. */
  lemma {:induction false} UpdatesAtLeast(ttimes: seq<nat>, least: nat)
    requires forall i :: 0 <= i < |ttimes| ==> ttimes[i] >= least
    ensures Updates(ttimes).total + 7 >= least * Updates(ttimes).samples
    ensures ttimes != [] ==> Updates(ttimes).mean >= least
  {
    if ttimes != [] {
      var n := |ttimes| - 1;
      UpdatesAtLeast(ttimes[..n], least);
      TotalStepUp(Updates(ttimes[..n]).samples, Updates(ttimes[..n]).total, ttimes[n], least);
      var m := Updates(ttimes);
      UpdatesBounded(ttimes, Largest(ttimes));
      DivAbove(m.total + 128, m.samples, least);
    }
  }

  function Largest(s: seq<nat>): (m: nat)
    ensures forall i :: 0 <= i < |s| ==> s[i] <= m
  {
    if s == [] then 0
    else var m := Largest(s[..|s| - 1]); if s[|s| - 1] > m then s[|s| - 1] else m
  }

  lemma DivAbove(n: nat, s: nat, k: nat)
    requires s > 0 && n >= k * s
    ensures n / s >= k
  {
    if n / s < k { MulMono(n / s + 1, k, s); }
  }

  /** After any updates with think times up to `bound`, the mean is at most its 256/249th, and 4. */
  lemma MeanBounded(ttimes: seq<nat>, bound: nat)
    requires ttimes != [] && forall i :: 0 <= i < |ttimes| ==> ttimes[i] <= bound
    ensures Updates(ttimes).mean <= 256 * bound / 249 + 4
  {
    UpdatesBounded(ttimes, bound);
    var m := Updates(ttimes);
    MeanStep(m.samples, m.total, bound);
    assert m.mean == (m.total + 128) / m.samples;
  }

  lemma MeanStep(s: nat, total: nat, bound: nat)
    requires 32 <= s && 249 * total <= bound * (256 * s)
    ensures (total + 128) / s <= 256 * bound / 249 + 4
  {
    var q := 256 * bound / 249;
    MulMono(256 * bound, 249 * q + 248, s);
    assert bound * (256 * s) == s * (256 * bound);
    assert s * (249 * q + 248) == 249 * (s * q) + 248 * s;
    assert s * (q + 5) == s * q + 5 * s;
    DivBelow(total + 128, s, q + 5);
  }

  lemma DivBelow(n: nat, s: nat, k: nat)
    requires s > 0 && n < s * k
    ensures n / s < k
  {
    if n / s >= k { MulMono(k, n / s, s); }
  }
}
