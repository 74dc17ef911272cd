/**
 * The bookkeeping values of the training loop in python/main.py: what one batch
 * reports, the five accumulators it is added into, and the averages printed from them.
 */
module Accumulators {
  import opened Arithmetic

  /**
   * What one batch contributes. `matches` is the number of predictions equal to
   * their label (`(predicted == labels).sum()`); loss, timer reading and memory
   * reading are plain addends here, since the harness only ever sums them.
   */
  datatype Observation = Observation(matches: nat, loss: real, time: real, mem: real)

  /**
   * The five accumulators `loss_val`, `tp_count`, `sample_count`, `elapsed_time`
   * and `used_mem` (and their `running_` counterparts), as one record.
   */
  datatype Acc = Acc(loss: real, tp: nat, samples: nat, time: real, mem: real)

  /** All five accumulators reset to zero. */
  const ZERO := Acc(0.0, 0, 0, 0.0, 0.0)

  /** Folding one set of accumulators into another, field by field. */
  function Plus(a: Acc, b: Acc): Acc
  {
    Acc(a.loss + b.loss, a.tp + b.tp, a.samples + b.samples, a.time + b.time, a.mem + b.mem)
  }

  /** Folding in all-zero accumulators changes nothing. */
  lemma PlusZero(a: Acc)
    ensures Plus(a, ZERO) == a && Plus(ZERO, a) == a
  {
  }

  /** One batch added into the accumulators: every batch counts `batchSize` samples. */
  function Absorb(a: Acc, o: Observation, batchSize: nat): Acc
  {
    Acc(a.loss + o.loss, a.tp + o.matches, a.samples + batchSize, a.time + o.time, a.mem + o.mem)
  }

  /** The accumulators after absorbing batches `lo .. hi-1` of `obs`, starting from zero. */
  function Totals(obs: seq<Observation>, lo: nat, hi: nat, batchSize: nat): Acc
    requires lo <= hi <= |obs|
    decreases hi
  {
    if hi == lo then ZERO
    else Absorb(Totals(obs, lo, hi - 1, batchSize), obs[hi - 1], batchSize)
  }

  /** Every batch in `obs` reports at most `batchSize` matches. */
  predicate MatchesBounded(obs: seq<Observation>, batchSize: nat)
  {
    forall i :: 0 <= i < |obs| ==> obs[i].matches <= batchSize
  }

  /** The true-positive count never exceeds the sample count. */
  predicate Sound(a: Acc)
  {
    a.tp <= a.samples
  }

  /**
   * `loss / float(sample_count)`: the loss per sample, so it times the sample count
   * gives back the summed loss, and it is never negative when the summed loss is not.
   */
  function AvgLoss(a: Acc): (avg: real)
    requires a.samples > 0
    ensures avg * a.samples as real == a.loss
    ensures a.loss >= 0.0 ==> avg >= 0.0
  {
    a.loss / a.samples as real
  }

  /** `100.0 * float(tp_count) / sample_count`: a percentage whenever the counts are sound. */
  function Accuracy(a: Acc): (pct: real)
    requires a.samples > 0
    ensures Sound(a) ==> 0.0 <= pct <= 100.0
    ensures pct == 100.0 <==> a.tp == a.samples
  {
    var ratio := a.tp as real / a.samples as real;
    assert Sound(a) ==> ratio <= 1.0;
    assert ratio == 1.0 <==> a.tp == a.samples;
    100.0 * ratio
  }

  /**
   * `elapsed_time / sample_count`: the time per sample, so it times the sample count
   * gives back the summed time, and it is never negative when the summed time is not.
   */
  function AvgSampleTime(a: Acc): (avg: real)
    requires a.samples > 0
    ensures avg * a.samples as real == a.time
    ensures a.time >= 0.0 ==> avg >= 0.0
  {
    a.time / a.samples as real
  }

  /**
   * `used_mem / monitoring_step`, the memory average of a progress line: the memory
   * sum shared out over the `monitoring_step` batches of a window.
   */
  function WindowMem(a: Acc, monitoringStep: nat): (avg: real)
    requires monitoringStep > 0
    ensures avg * monitoringStep as real == a.mem
  {
    a.mem / monitoringStep as real
  }

  /**
   * `used_mem / (sample_count / batch_size)`, the memory average of a summary line:
   * the memory sum divided by the number of batches the sample count stands for.
   */
  function BatchMem(a: Acc, batchSize: nat): (avg: real)
    requires a.samples > 0 && batchSize > 0
    ensures a.samples % batchSize == 0 ==> avg * (a.samples / batchSize) as real == a.mem
  {
    var batches := a.samples as real / batchSize as real;
    assert a.samples % batchSize == 0 ==> batches == (a.samples / batchSize) as real;
    a.mem / batches
  }

  /**
   * For accumulators that count `m` batches, the progress line's memory average (per
   * monitoring step) and the summary lines' (per batch of the sample count) agree.
   */
  lemma WindowMemIsBatchMem(a: Acc, batchSize: nat, monitoringStep: nat)
    requires batchSize > 0 && monitoringStep > 0 && a.samples == monitoringStep * batchSize
    ensures a.samples > 0 && WindowMem(a, monitoringStep) == BatchMem(a, batchSize)
  {
    DivModUnique(a.samples, batchSize, monitoringStep, 0);
    var w, b, m := WindowMem(a, monitoringStep), BatchMem(a, batchSize), monitoringStep as real;
    assert w * m == b * m;
    assert (w - b) * m == 0.0;
  }

  /** Every batch in `obs` reports a loss of at least zero. */
  predicate LossesNonNegative(obs: seq<Observation>)
  {
    forall i :: 0 <= i < |obs| ==> obs[i].loss >= 0.0
  }

  /** With losses of at least zero, the summed loss of any range is at least zero. */
  lemma {:induction false} TotalsLossNonNegative(obs: seq<Observation>, lo: nat, hi: nat, batchSize: nat)
    requires lo <= hi <= |obs| && LossesNonNegative(obs)
    ensures Totals(obs, lo, hi, batchSize).loss >= 0.0
    decreases hi
  {
    if hi > lo {
      TotalsLossNonNegative(obs, lo, hi - 1, batchSize);
    }
  }

  /** Each batch of a range counts exactly `batchSize` samples, however many it really holds. */
  lemma {:induction false} TotalsSamples(obs: seq<Observation>, lo: nat, hi: nat, batchSize: nat)
    requires lo <= hi <= |obs|
    ensures Totals(obs, lo, hi, batchSize).samples == batchSize * (hi - lo)
    decreases hi
  {
    if hi > lo {
      TotalsSamples(obs, lo, hi - 1, batchSize);
      assert batchSize * (hi - 1 - lo) + batchSize == batchSize * (hi - lo);
    }
  }

  /** Totals over adjacent ranges add up to the totals over their union. */
  lemma {:induction false} TotalsSplit(obs: seq<Observation>, lo: nat, mid: nat, hi: nat, batchSize: nat)
    requires lo <= mid <= hi <= |obs|
    ensures Totals(obs, lo, hi, batchSize) == Plus(Totals(obs, lo, mid, batchSize), Totals(obs, mid, hi, batchSize))
    decreases hi
  {
    if hi > mid {
      TotalsSplit(obs, lo, mid, hi - 1, batchSize);
      var a, b := Totals(obs, lo, mid, batchSize), Totals(obs, mid, hi - 1, batchSize);
      assert Totals(obs, lo, hi, batchSize) == Absorb(Plus(a, b), obs[hi - 1], batchSize);
    }
  }

  /** When every batch matches at most `batchSize` labels, any range of totals is sound. */
  lemma {:induction false} TotalsSound(obs: seq<Observation>, lo: nat, hi: nat, batchSize: nat)
    requires lo <= hi <= |obs| && MatchesBounded(obs, batchSize)
    ensures Sound(Totals(obs, lo, hi, batchSize))
    decreases hi
  {
    if hi > lo {
      TotalsSound(obs, lo, hi - 1, batchSize);
    }
  }

  /**
   * With a clock that reads the same `t` for every batch, the average sample time of
   * any non-empty range is `t / batchSize`.
   */
  lemma {:induction false} ConstantClockAverage(obs: seq<Observation>, lo: nat, hi: nat, batchSize: nat, t: real)
    requires lo < hi <= |obs| && batchSize > 0
    requires forall i :: lo <= i < hi ==> obs[i].time == t
    ensures AvgSampleTime(Totals(obs, lo, hi, batchSize)) == t / batchSize as real
  {
    TotalsTime(obs, lo, hi, batchSize, t);
    TotalsSamples(obs, lo, hi, batchSize);
    var n := (hi - lo) as real;
    var b := batchSize as real;
    var a := Totals(obs, lo, hi, batchSize);
    assert a.samples as real == b * n;
    assert a.time == t * n;
    CancelCommonFactor(t, b, n);
    assert AvgSampleTime(a) == (t * n) / (b * n);
  }

  /** Helper: `(t * n) / (b * n) == t / b` for positive `b` and `n`. */
  lemma CancelCommonFactor(t: real, b: real, n: real)
    requires b > 0.0 && n > 0.0
    ensures (t * n) / (b * n) == t / b
  {
    var x := t / b;
    assert x * b == t;
    assert x * (b * n) == t * n;
  }

  /** Helper: with a constant clock the summed time is `t` per batch. */
  lemma {:induction false} TotalsTime(obs: seq<Observation>, lo: nat, hi: nat, batchSize: nat, t: real)
    requires lo <= hi <= |obs|
    requires forall i :: lo <= i < hi ==> obs[i].time == t
    ensures Totals(obs, lo, hi, batchSize).time == t * (hi - lo) as real
    decreases hi
  {
    if hi > lo {
      TotalsTime(obs, lo, hi - 1, batchSize, t);
    }
  }
}
