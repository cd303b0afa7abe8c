/** The minimum-interval pacer of one endpoint. */
module Pacer {
  import opened Wrappers

  /** The clock readings around one `acquire`: on entry, and after the sleep if it slept. */
  datatype Readings = Readings(entered: real, woke: real)

  /** How long an `acquire` sleeps. */
  function Gap(minInterval: real, last: Option<real>, entered: real): real {
    if last.Some? && minInterval > 0.0 && minInterval - (entered - last.value) > 0.0
    then minInterval - (entered - last.value) else 0.0
  }

  /** A monotone clock, and a sleep that advances it by at least what was asked. */
  predicate FairClock(minInterval: real, last: Option<real>, r: Readings) {
    && (last.Some? ==> r.entered >= last.value)
    && r.woke >= r.entered + Gap(minInterval, last, r.entered)
  }

  /** The moment one `acquire` is granted at. */
  function Granted(minInterval: real, last: Option<real>, r: Readings): real {
    if Gap(minInterval, last, r.entered) > 0.0 then r.woke else r.entered
  }

  class QpsPacer {
    const minInterval: real
    var last: Option<real>

    constructor (qps: real, override: Option<real>)
      ensures last == None
      ensures minInterval >= 0.0
      ensures override.Some? && override.value >= 0.0 ==> minInterval == override.value
      ensures override.None? && qps > 0.0 ==> minInterval * qps == 1.0
    {
      minInterval := if override.Some? then (if override.value < 0.0 then 0.0 else override.value)
                     else if qps > 0.0 then 1.0 / qps else 0.0;
      last := None;
    }

    method Acquire(r: Readings) returns (waited: real)
      requires FairClock(minInterval, last, r)
      modifies this
      ensures last == Some(Granted(minInterval, old(last), r))
      ensures waited == Gap(minInterval, old(last), r.entered)
      ensures old(last).None? || r.entered - old(last).value >= minInterval ==> waited == 0.0 && last == Some(r.entered)
      ensures old(last).Some? && r.entered - old(last).value < minInterval && minInterval > 0.0 ==>
                waited == minInterval - (r.entered - old(last).value) && last == Some(r.woke)
      ensures old(last).Some? ==> last.value - old(last).value >= minInterval || minInterval <= 0.0
    {
      var now := r.entered;
      waited := 0.0;
      if last.Some? && minInterval > 0.0 {
        var gap := minInterval - (now - last.value);
        if gap > 0.0 {
          waited := gap;
          now := r.woke;
        }
      }
      last := Some(now);
    }
  }

  /** The grants of a run of `acquire` calls, oldest first. */
  function Grants(minInterval: real, run: seq<Readings>): seq<real> {
    if run == [] then []
    else
      var before := Grants(minInterval, run[..|run| - 1]);
      before + [Granted(minInterval, if before == [] then None else Some(before[|before| - 1]), run[|run| - 1])]
  }

  ghost predicate FairRun(minInterval: real, run: seq<Readings>) {
    run == [] ||
    (FairRun(minInterval, run[..|run| - 1]) &&
     var before := Grants(minInterval, run[..|run| - 1]);
     FairClock(minInterval, if before == [] then None else Some(before[|before| - 1]), run[|run| - 1]))
  }

  lemma {:induction false} ConsecutiveGrants(minInterval: real, run: seq<Readings>)
    requires minInterval >= 0.0 && FairRun(minInterval, run)
    ensures var g := Grants(minInterval, run);
            |g| == |run| && forall i :: 0 <= i < |g| - 1 ==> g[i + 1] - g[i] >= minInterval
  {
    if run != [] {
      ConsecutiveGrants(minInterval, run[..|run| - 1]);
    }
  }

  lemma {:induction false} SpanOf(minInterval: real, g: seq<real>, i: nat, k: nat)
    requires i + k < |g| && forall j :: 0 <= j < |g| - 1 ==> g[j + 1] - g[j] >= minInterval
    ensures g[i + k] - g[i] >= k as real * minInterval
  {
    if k > 0 {
      SpanOf(minInterval, g, i, k - 1);
      assert g[i + (k - 1) + 1] - g[i + (k - 1)] >= minInterval;
      assert k as real * minInterval == (k - 1) as real * minInterval + minInterval;
    }
  }

  /** k + 1 consecutive grants span at least k intervals. */
  lemma GrantsSpan(minInterval: real, run: seq<Readings>, i: nat, k: nat)
    requires minInterval >= 0.0 && FairRun(minInterval, run) && i + k < |run|
    ensures |Grants(minInterval, run)| == |run|
    ensures Grants(minInterval, run)[i + k] - Grants(minInterval, run)[i] >= k as real * minInterval
  {
    ConsecutiveGrants(minInterval, run);
    SpanOf(minInterval, Grants(minInterval, run), i, k);
  }

  predicate InWindow(x: real, start: real, length: real) { start <= x <= start + length }

  /** How many of the first `n` grants fall inside a window. */
  function GrantsIn(g: seq<real>, n: nat, start: real, length: real): nat
    requires n <= |g|
  {
    if n == 0 then 0 else GrantsIn(g, n - 1, start, length) + if InWindow(g[n - 1], start, length) then 1 else 0
  }

  /** The grants inside a window reach at least that far apart in the run. */
  lemma {:induction false} WindowEnds(g: seq<real>, n: nat, start: real, length: real) returns (i: nat, j: nat)
    requires n <= |g|
    ensures var c := GrantsIn(g, n, start, length);
            c > 0 ==> i + c - 1 <= j < n && InWindow(g[i], start, length) && InWindow(g[j], start, length)
  {
    i, j := 0, 0;
    if n > 0 {
      i, j := WindowEnds(g, n - 1, start, length);
      if InWindow(g[n - 1], start, length) {
        if GrantsIn(g, n - 1, start, length) == 0 { i := n - 1; }
        j := n - 1;
      }
    }
  }

  /** No window of length T holds more than floor(T / interval) + 1 grants. */
  lemma WindowBound(minInterval: real, run: seq<Readings>, start: real, length: real)
    requires minInterval > 0.0 && FairRun(minInterval, run) && length >= 0.0
    ensures var g := Grants(minInterval, run); GrantsIn(g, |g|, start, length) <= (length / minInterval).Floor + 1
  {
    ConsecutiveGrants(minInterval, run);
    SpacedBound(minInterval, Grants(minInterval, run), start, length);
  }

  lemma SpacedBound(m: real, g: seq<real>, start: real, length: real)
    requires m > 0.0 && length >= 0.0 && forall i :: 0 <= i < |g| - 1 ==> g[i + 1] - g[i] >= m
    ensures GrantsIn(g, |g|, start, length) <= (length / m).Floor + 1
  {
    var c := GrantsIn(g, |g|, start, length);
    if c > 0 {
      var i, j := WindowEnds(g, |g|, start, length);
      EndsFit(m, g, i, j, c - 1, start, length);
      CountFits(c - 1, length, m);
    } else {
      NoneFits(length, m);
    }
  }

  lemma EndsFit(m: real, g: seq<real>, i: nat, j: nat, k: nat, start: real, length: real)
    requires m > 0.0 && forall l :: 0 <= l < |g| - 1 ==> g[l + 1] - g[l] >= m
    requires i + k <= j < |g| && InWindow(g[i], start, length) && InWindow(g[j], start, length)
    ensures k as real * m <= length
  {
    SpanOf(m, g, i, k);
    SpanOf(m, g, i + k, j - (i + k));
    NotNegative((j - (i + k)) as real, m);
  }

  lemma NotNegative(x: real, m: real)
    requires x >= 0.0 && m > 0.0
    ensures x * m >= 0.0
  {
  }

  lemma NoneFits(length: real, m: real)
    requires m > 0.0 && length >= 0.0
    ensures (length / m).Floor >= 0
  {
    CountFits(0, length, m);
  }

  lemma CountFits(k: nat, length: real, m: real)
    requires m > 0.0 && k as real * m <= length
    ensures k <= (length / m).Floor
  {
    var q := length / m;
    assert q * m == length;
    if q < k as real { Smaller(q, k as real, m); }
  }

  lemma Smaller(x: real, y: real, m: real)
    requires x < y && m > 0.0
    ensures x * m < y * m
  {
  }
}
