/**
 * What the bookkeeping of `train` in python/main.py guarantees: when progress lines
 * are written and what they report, what the epoch summary leaves out, what the
 * evaluation line inherits, when a run raises, and that every written accuracy is a
 * percentage.
 */
module MonitorProperties {
  import opened Arithmetic
  import opened Accumulators
  import opened Monitor

  /** The batches of the completed windows, `k - k % m`, are `m * (k / m)` of them. */
  lemma WholeWindows(k: nat, m: nat)
    requires m > 0
    ensures k % m <= k
    ensures k - k % m == m * (k / m)
    ensures (k - k % m) % m == 0 && (k - k % m) / m == k / m
  {
    assert k == m * (k / m) + k % m;
    DivModUnique(k - k % m, m, k / m, 0);
  }

  /** A multiple of `m` is zero or at least `m`. */
  lemma MultipleIsZeroOrLarge(done: nat, m: nat)
    requires m > 0 && done % m == 0
    ensures done == 0 || done >= m
  {
    assert done == m * (done / m);
    MulMonotone(m, done / m);
  }

  /** Strictly between two window boundaries no batch count is a multiple of `m`. */
  lemma InsideWindow(done: nat, k: nat, m: nat)
    requires m > 0 && done % m == 0 && done < k < done + m
    ensures k % m != 0
  {
    assert done == m * (done / m);
    DivModUnique(k, m, done / m, k - done);
  }

  /** The window boundary before a nonzero boundary `done` is `done - m`. */
  lemma PreviousWindow(done: nat, m: nat)
    requires m > 0 && done % m == 0 && done >= m
    ensures (done - m) % m == 0 && (done - m) / m == done / m - 1
    ensures m * (done / m - 1) + m == done
  {
    var q := done / m;
    assert done == m * q;
    assert q >= 1;
    assert done - m == m * (q - 1);
    DivModUnique(done - m, m, q - 1, 0);
  }

  /** The progress records of the windows that end at or before batch count `hi`, in order. */
  function Windows(epoch: nat, batches: seq<Observation>, hi: nat, batchSize: nat, monitoringStep: nat): seq<Record>
    requires monitoringStep > 0 && hi <= |batches|
  {
    if hi < monitoringStep then []
    else
      Windows(epoch, batches, hi - monitoringStep, batchSize, monitoringStep)
        + [Progress(epoch, hi - 1, Totals(batches, hi - monitoringStep, hi, batchSize))]
  }

  /** There is one progress record per completed window. */
  lemma {:induction false} WindowsLength(epoch: nat, batches: seq<Observation>, hi: nat, batchSize: nat, monitoringStep: nat)
    requires monitoringStep > 0 && hi <= |batches| && hi % monitoringStep == 0
    ensures |Windows(epoch, batches, hi, batchSize, monitoringStep)| == hi / monitoringStep
    decreases hi
  {
    MultipleIsZeroOrLarge(hi, monitoringStep);
    if hi >= monitoringStep {
      PreviousWindow(hi, monitoringStep);
      WindowsLength(epoch, batches, hi - monitoringStep, batchSize, monitoringStep);
    }
  }

  /**
   * The `j`-th progress line is written after batch `m*j + m - 1` and reports exactly the
   * `m` batches `m*j .. m*j + m - 1`, which together count `m * batch_size` samples.
   */
  lemma {:induction false} WindowsAt(epoch: nat, batches: seq<Observation>, hi: nat, batchSize: nat, monitoringStep: nat, j: nat)
    requires monitoringStep > 0 && hi <= |batches| && hi % monitoringStep == 0 && j < hi / monitoringStep
    ensures |Windows(epoch, batches, hi, batchSize, monitoringStep)| == hi / monitoringStep
    ensures monitoringStep * j + monitoringStep <= hi
    ensures var m := monitoringStep;
      Windows(epoch, batches, hi, batchSize, m)[j]
        == Progress(epoch, m * j + m - 1, Totals(batches, m * j, m * j + m, batchSize))
    ensures RecordTotals(Windows(epoch, batches, hi, batchSize, monitoringStep)[j]).samples
        == monitoringStep * batchSize
    decreases hi
  {
    var m := monitoringStep;
    MultipleIsZeroOrLarge(hi, m);
    assert hi >= m;
    PreviousWindow(hi, m);
    var prev := Windows(epoch, batches, hi - m, batchSize, m);
    var last := Progress(epoch, hi - 1, Totals(batches, hi - m, hi, batchSize));
    assert Windows(epoch, batches, hi, batchSize, m) == prev + [last];
    WindowsLength(epoch, batches, hi - m, batchSize, m);
    if j < |prev| {
      WindowsAt(epoch, batches, hi - m, batchSize, m, j);
      assert (prev + [last])[j] == prev[j];
    } else {
      assert j == hi / m - 1;
      assert m * j + m == hi;
      TotalsSamples(batches, hi - m, hi, batchSize);
      assert (prev + [last])[j] == last;
    }
  }

  /**
   * After `k` training batches (with nonzero batch size and monitoring step) the pass
   * has not raised; the running totals hold exactly the completed windows, the first
   * `k - k % m` batches, the window holds the batches since the last boundary, and one
   * progress record per completed window has been written.
   */
  lemma TrainPassShape(epoch: nat, batches: seq<Observation>, k: nat, batchSize: nat, monitoringStep: nat)
    requires monitoringStep > 0 && batchSize > 0 && k <= |batches|
    ensures k % monitoringStep <= k
    ensures var done := k - k % monitoringStep;
      TrainPass(epoch, batches, k, batchSize, monitoringStep)
        == Going(PassState(Totals(batches, done, k, batchSize),
                           Totals(batches, 0, done, batchSize),
                           Windows(epoch, batches, done, batchSize, monitoringStep)))
  {
    WholeWindows(k, monitoringStep);
    TrainPassAt(epoch, batches, k, k - k % monitoringStep, batchSize, monitoringStep);
  }

  /** `TrainPassShape` with the last boundary `done` given, by induction on `k`. */
  lemma {:induction false} TrainPassAt(epoch: nat, batches: seq<Observation>, k: nat, done: nat, batchSize: nat, monitoringStep: nat)
    requires monitoringStep > 0 && batchSize > 0 && k <= |batches|
    requires done % monitoringStep == 0 && done <= k < done + monitoringStep
    ensures TrainPass(epoch, batches, k, batchSize, monitoringStep)
      == Going(PassState(Totals(batches, done, k, batchSize),
                         Totals(batches, 0, done, batchSize),
                         Windows(epoch, batches, done, batchSize, monitoringStep)))
    decreases k
  {
    var m := monitoringStep;
    if k > done {
      TrainPassAt(epoch, batches, k - 1, done, batchSize, m);
      InsideWindow(done, k, m);
      StepWithinWindow(epoch, batches, done, k, batchSize, m, Windows(epoch, batches, done, batchSize, m));
    } else if k > 0 {
      MultipleIsZeroOrLarge(done, m);
      PreviousWindow(done, m);
      TrainPassAt(epoch, batches, k - 1, done - m, batchSize, m);
      StepClosingWindow(epoch, batches, done - m, done, batchSize, m, Windows(epoch, batches, done - m, batchSize, m));
    }
  }

  /** A batch that does not end a window only grows the window. */
  lemma StepWithinWindow(epoch: nat, batches: seq<Observation>, lo: nat, k: nat, batchSize: nat, monitoringStep: nat,
                         written: seq<Record>)
    requires monitoringStep > 0 && lo < k <= |batches| && k % monitoringStep != 0
    requires TrainPass(epoch, batches, k - 1, batchSize, monitoringStep)
      == Going(PassState(Totals(batches, lo, k - 1, batchSize), Totals(batches, 0, lo, batchSize), written))
    ensures TrainPass(epoch, batches, k, batchSize, monitoringStep)
      == Going(PassState(Totals(batches, lo, k, batchSize), Totals(batches, 0, lo, batchSize), written))
  {
    var s := PassState(Totals(batches, lo, k - 1, batchSize), Totals(batches, 0, lo, batchSize), written);
    assert TrainPass(epoch, batches, k, batchSize, monitoringStep)
      == TrainStep(epoch, k - 1, batches[k - 1], s, batchSize, monitoringStep);
  }

  /**
   * The batch that ends a window writes its progress line, folds the window into the
   * running totals and zeroes the window.
   */
  lemma StepClosingWindow(epoch: nat, batches: seq<Observation>, lo: nat, k: nat, batchSize: nat, monitoringStep: nat,
                          written: seq<Record>)
    requires monitoringStep > 0 && batchSize > 0 && lo + monitoringStep == k <= |batches| && k % monitoringStep == 0
    requires TrainPass(epoch, batches, k - 1, batchSize, monitoringStep)
      == Going(PassState(Totals(batches, lo, k - 1, batchSize), Totals(batches, 0, lo, batchSize), written))
    ensures TrainPass(epoch, batches, k, batchSize, monitoringStep)
      == Going(PassState(ZERO, Totals(batches, 0, k, batchSize), written + [Progress(epoch, k - 1, Totals(batches, lo, k, batchSize))]))
  {
    var s := PassState(Totals(batches, lo, k - 1, batchSize), Totals(batches, 0, lo, batchSize), written);
    assert TrainPass(epoch, batches, k, batchSize, monitoringStep)
      == TrainStep(epoch, k - 1, batches[k - 1], s, batchSize, monitoringStep);
    TotalsSamples(batches, lo, k, batchSize);
    MulMonotone(batchSize, monitoringStep);
    TotalsSplit(batches, 0, lo, k, batchSize);
  }

  /**
   * Whatever the batch size and monitoring step, as long as the training pass has not
   * raised, nothing is lost or counted twice: the running totals folded together with
   * the window are exactly the totals of every batch seen so far.
   */
  lemma {:induction false} PassConserves(epoch: nat, batches: seq<Observation>, k: nat, batchSize: nat, monitoringStep: nat)
    requires k <= |batches|
    ensures var p := TrainPass(epoch, batches, k, batchSize, monitoringStep);
      p.Going? ==> Plus(p.state.running, p.state.window) == Totals(batches, 0, k, batchSize)
  {
    if k > 0 {
      PassConserves(epoch, batches, k - 1, batchSize, monitoringStep);
      var before := TrainPass(epoch, batches, k - 1, batchSize, monitoringStep);
      if before.Going? {
        var s, o := before.state, batches[k - 1];
        StepConserves(epoch, k - 1, o, s, batchSize, monitoringStep);
        var after := TrainStep(epoch, k - 1, o, s, batchSize, monitoringStep);
        assert TrainPass(epoch, batches, k, batchSize, monitoringStep) == after;
        if after.Going? {
          var sum := Plus(after.state.running, after.state.window);
          assert sum == Absorb(Plus(s.running, s.window), o, batchSize);
          assert Plus(s.running, s.window) == Totals(batches, 0, k - 1, batchSize);
          assert sum == Totals(batches, 0, k, batchSize);
        }
      } else {
        assert TrainPass(epoch, batches, k, batchSize, monitoringStep) == before;
      }
    } else {
      PlusZero(ZERO);
    }
  }

  /** One batch that does not raise adds itself to the running totals plus the window. */
  lemma StepConserves(epoch: nat, n: nat, o: Observation, s: PassState, batchSize: nat, monitoringStep: nat)
    ensures var p := TrainStep(epoch, n, o, s, batchSize, monitoringStep);
      p.Going? ==> Plus(p.state.running, p.state.window) == Absorb(Plus(s.running, s.window), o, batchSize)
  {
  }

  /**
   * The training pass raises exactly when `monitoring_step` is zero and there is a batch,
   * or when `batch_size` is zero and the first window boundary is reached; either way
   * before it has written anything.
   */
  lemma TrainPassRaises(epoch: nat, batches: seq<Observation>, k: nat, batchSize: nat, monitoringStep: nat)
    requires k <= |batches|
    ensures TrainPass(epoch, batches, k, batchSize, monitoringStep).Raised?
        <==> (monitoringStep == 0 && k > 0) || (monitoringStep > 0 && batchSize == 0 && k >= monitoringStep)
    ensures TrainPass(epoch, batches, k, batchSize, monitoringStep).Raised?
        ==> TrainPass(epoch, batches, k, batchSize, monitoringStep).written == []
  {
    if monitoringStep > 0 && batchSize > 0 {
      TrainPassShape(epoch, batches, k, batchSize, monitoringStep);
    } else if monitoringStep == 0 {
      if k > 0 {
        RaisedStays(epoch, batches, 1, k, batchSize, monitoringStep);
      }
    } else {
      ZeroBatchSize(epoch, batches, k, monitoringStep);
    }
  }

  /** With `batch_size == 0` nothing is counted, so the first boundary divides by zero. */
  lemma {:induction false} ZeroBatchSize(epoch: nat, batches: seq<Observation>, k: nat, monitoringStep: nat)
    requires monitoringStep > 0 && k <= |batches|
    ensures k < monitoringStep ==>
      var p := TrainPass(epoch, batches, k, 0, monitoringStep);
      p.Going? && p.state.log == [] && p.state.window.samples == 0 && p.state.running == ZERO
    ensures k >= monitoringStep ==> TrainPass(epoch, batches, k, 0, monitoringStep) == Raised([])
  {
    if k > 0 {
      ZeroBatchSize(epoch, batches, k - 1, monitoringStep);
      if k < monitoringStep {
        DivModUnique(k, monitoringStep, 0, k);
      } else if k == monitoringStep {
        DivModUnique(k, monitoringStep, 1, 0);
      }
    }
  }

  /**
   * A full epoch (nonzero batch size and monitoring step, at least one full window):
   * one progress line per full window, the training summary of the full windows only,
   * then the evaluation line, which starts from the training window's leftover time.
   * The epoch raises exactly when there are no test batches.
   */
  lemma EpochShape(epoch: nat, data: EpochData, batchSize: nat, monitoringStep: nat)
    requires monitoringStep > 0 && batchSize > 0 && |data.train| >= monitoringStep
    ensures |data.train| % monitoringStep <= |data.train|
    ensures var n, m := |data.train|, monitoringStep;
      var done := n - n % m;
      var eval := Plus(EvalStart(Totals(data.train, done, n, batchSize)), Totals(data.test, 0, |data.test|, batchSize));
      EpochOutcome(epoch, data, batchSize, m)
        == Outcome(Windows(epoch, data.train, done, batchSize, m)
                     + [TrainSummary(Totals(data.train, 0, done, batchSize))]
                     + (if |data.test| == 0 then [] else [EvalSummary(eval)]),
                   |data.test| == 0)
  {
    var n, m := |data.train|, monitoringStep;
    WholeWindows(n, m);
    var done := n - n % m;
    MultipleIsZeroOrLarge(done, m);
    TotalsSamples(data.train, 0, done, batchSize);
    MulMonotone(batchSize, done);
    TotalsSamples(data.test, 0, |data.test|, batchSize);
    MulMonotone(batchSize, |data.test|);
    TrainPassShape(epoch, data.train, n, batchSize, m);
  }

  /**
   * An epoch writes nothing at all and raises exactly when `monitoring_step` or
   * `batch_size` is zero, or there are fewer training batches than `monitoring_step`:
   * then the training summary divides by a zero running sample count.
   */
  lemma EpochWritesNothing(epoch: nat, data: EpochData, batchSize: nat, monitoringStep: nat)
    ensures EpochOutcome(epoch, data, batchSize, monitoringStep) == Outcome([], true)
        <==> monitoringStep == 0 || batchSize == 0 || |data.train| < monitoringStep
  {
    var n, m := |data.train|, monitoringStep;
    if m > 0 && batchSize > 0 {
      if n >= m {
        EpochShape(epoch, data, batchSize, m);
      } else {
        DivModUnique(n, m, 0, n);
        TrainPassShape(epoch, data.train, n, batchSize, m);
      }
    } else if m == 0 {
      TrainPassRaises(epoch, data.train, n, batchSize, m);
    } else {
      ZeroBatchSize(epoch, data.train, n, m);
    }
  }

  /**
   * The training summary of a full epoch covers only the full windows: it counts
   * `batch_size * m * (n / m)` samples, the leftover window makes up the rest of the
   * epoch's totals, it counts every batch exactly when `m` divides `n`, and the
   * batch count its memory average divides by is the number of folded batches.
   */
  lemma SummaryDropsTrailingWindow(epoch: nat, data: EpochData, batchSize: nat, monitoringStep: nat)
    requires monitoringStep > 0 && batchSize > 0 && |data.train| >= monitoringStep
    ensures var n, m := |data.train|, monitoringStep;
      var log := EpochOutcome(epoch, data, batchSize, m).log;
      var done := n - n % m;
      n % m <= n && done == m * (n / m) && n / m < |log| && log[n / m].TrainSummary?
      && var summary := RecordTotals(log[n / m]);
      && summary == Totals(data.train, 0, done, batchSize)
      && summary.samples == batchSize * m * (n / m)
      && Plus(summary, Totals(data.train, done, n, batchSize)) == Totals(data.train, 0, n, batchSize)
      && (summary.samples == batchSize * n <==> n % m == 0)
      && summary.samples / batchSize == m * (n / m)
  {
    var n, m := |data.train|, monitoringStep;
    WholeWindows(n, m);
    var done := n - n % m;
    FullWindowsArith(batchSize, n, m);
    WindowsLength(epoch, data.train, done, batchSize, m);
    TotalsSplit(data.train, 0, done, n, batchSize);
    TotalsSamples(data.train, 0, done, batchSize);
    EpochShape(epoch, data, batchSize, m);
  }

  /** The arithmetic behind `SummaryDropsTrailingWindow`. */
  lemma FullWindowsArith(batchSize: nat, n: nat, m: nat)
    requires m > 0 && batchSize > 0
    ensures n % m <= n
    ensures batchSize * (n - n % m) == batchSize * m * (n / m)
    ensures batchSize * (n - n % m) == batchSize * n <==> n % m == 0
    ensures (batchSize * (n - n % m)) / batchSize == m * (n / m)
  {
    WholeWindows(n, m);
    var done := n - n % m;
    MulMonotone(batchSize, n - done);
    assert batchSize * n - batchSize * done == batchSize * (n - done);
    DivModUnique(batchSize * done, batchSize, done, 0);
  }

  /**
   * The evaluation line zeroes loss, true positives, samples and memory but keeps the
   * elapsed time of the last, unfolded training window; so its time is that leftover
   * plus the test batches' times, and only when `m` divides `n` is it the test time alone.
   */
  lemma EvalInheritsLeftoverTime(epoch: nat, data: EpochData, batchSize: nat, monitoringStep: nat)
    requires monitoringStep > 0 && batchSize > 0 && |data.train| >= monitoringStep && |data.test| > 0
    ensures var n, m := |data.train|, monitoringStep;
      var log := EpochOutcome(epoch, data, batchSize, m).log;
      var test := Totals(data.test, 0, |data.test|, batchSize);
      n % m <= n && |log| > 0 && log[|log| - 1].EvalSummary?
      && var eval := RecordTotals(log[|log| - 1]);
      && eval.time == Totals(data.train, n - n % m, n, batchSize).time + test.time
      && eval.samples == batchSize * |data.test|
      && eval.tp == test.tp && eval.loss == test.loss && eval.mem == test.mem
      && (n % m == 0 ==> eval.time == test.time)
  {
    TotalsSamples(data.test, 0, |data.test|, batchSize);
    EpochShape(epoch, data, batchSize, monitoringStep);
  }

  /**
   * Within a full epoch, a progress line is written for training batch `b` exactly
   * when `(b + 1) % m == 0`, and it then reports `m * batch_size` samples.
   */
  lemma ProgressAtBoundaries(epoch: nat, data: EpochData, batchSize: nat, monitoringStep: nat, b: nat)
    requires monitoringStep > 0 && batchSize > 0 && |data.train| >= monitoringStep && b < |data.train|
    ensures var log := EpochOutcome(epoch, data, batchSize, monitoringStep).log;
      (exists j :: 0 <= j < |log| && log[j].Progress? && log[j].batch == b) <==> (b + 1) % monitoringStep == 0
    ensures var log := EpochOutcome(epoch, data, batchSize, monitoringStep).log;
      forall j :: 0 <= j < |log| && log[j].Progress? ==> log[j].window.samples == monitoringStep * batchSize
  {
    var n, m := |data.train|, monitoringStep;
    EpochProgress(epoch, data, batchSize, m);
    var log := EpochOutcome(epoch, data, batchSize, m).log;
    if (b + 1) % m == 0 {
      var j := BoundaryWindow(b, n, m);
      assert log[j].Progress? && log[j].batch == b;
    }
    if exists j :: 0 <= j < |log| && log[j].Progress? && log[j].batch == b {
      var j :| 0 <= j < |log| && log[j].Progress? && log[j].batch == b;
      assert m * (j + 1) == m * j + m;
      DivModUnique(b + 1, m, j + 1, 0);
    }
  }

  /** The first `n / m` records of a full epoch are its progress lines, and no later one is. */
  lemma EpochProgress(epoch: nat, data: EpochData, batchSize: nat, monitoringStep: nat)
    requires monitoringStep > 0 && batchSize > 0 && |data.train| >= monitoringStep
    ensures var log, m := EpochOutcome(epoch, data, batchSize, monitoringStep).log, monitoringStep;
      var count := |data.train| / m;
      count <= |log|
      && (forall j :: 0 <= j < |log| ==> (log[j].Progress? <==> j < count))
      && (forall j :: 0 <= j < count ==>
            log[j].batch == m * j + m - 1 && log[j].window.samples == m * batchSize)
  {
    var n, m := |data.train|, monitoringStep;
    WholeWindows(n, m);
    var done := n - n % m;
    var w := Windows(epoch, data.train, done, batchSize, m);
    WindowsProgress(epoch, data.train, done, batchSize, m);
    EpochShape(epoch, data, batchSize, m);
    var log := EpochOutcome(epoch, data, batchSize, m).log;
    var tail := log[|w|..];
    assert log == w + tail;
    assert forall r :: r in tail ==> !r.Progress?;
    AppendProgress(w, tail);
  }

  /** Records kept in front of non-progress records keep their indices. */
  lemma AppendProgress(w: seq<Record>, tail: seq<Record>)
    requires forall r :: r in tail ==> !r.Progress?
    ensures forall j :: 0 <= j < |w| + |tail| ==>
      (w + tail)[j] == if j < |w| then w[j] else tail[j - |w|]
    ensures forall j :: |w| <= j < |w| + |tail| ==> !(w + tail)[j].Progress?
  {
  }

  /** Every record of `Windows` is a progress line of `m * batch_size` samples, the `j`-th after batch `m*j + m - 1`. */
  lemma WindowsProgress(epoch: nat, batches: seq<Observation>, hi: nat, batchSize: nat, monitoringStep: nat)
    requires monitoringStep > 0 && hi <= |batches| && hi % monitoringStep == 0
    ensures var w := Windows(epoch, batches, hi, batchSize, monitoringStep);
      |w| == hi / monitoringStep
      && forall j :: 0 <= j < |w| ==>
        w[j].Progress? && w[j].batch == monitoringStep * j + monitoringStep - 1
        && w[j].window.samples == monitoringStep * batchSize
  {
    var w := Windows(epoch, batches, hi, batchSize, monitoringStep);
    WindowsLength(epoch, batches, hi, batchSize, monitoringStep);
    forall j | 0 <= j < |w|
      ensures w[j].Progress? && w[j].batch == monitoringStep * j + monitoringStep - 1
        && w[j].window.samples == monitoringStep * batchSize
    {
      WindowsAt(epoch, batches, hi, batchSize, monitoringStep, j);
    }
  }

  /** Batch `b` closing a window is the last batch of window `(b + 1) / m - 1`, a full one. */
  lemma BoundaryWindow(b: nat, n: nat, m: nat) returns (j: nat)
    requires m > 0 && b < n && (b + 1) % m == 0
    ensures j == (b + 1) / m - 1 && j < n / m && m * j + m - 1 == b
  {
    j := (b + 1) / m - 1;
    assert b + 1 == m * (j + 1);
    assert n == m * (n / m) + n % m;
    MulMonotone(m, j + 1 - n / m);
    assert m * (j + 1) - m * (n / m) == m * (j + 1 - n / m);
  }

  /** Every written record has a positive sample count, so none of its averages divides by zero. */
  predicate Printable(log: seq<Record>)
  {
    forall i :: 0 <= i < |log| ==> RecordTotals(log[i]).samples > 0
  }

  /** Every written record counts at most as many true positives as samples. */
  predicate SoundLog(log: seq<Record>)
  {
    forall i :: 0 <= i < |log| ==> Sound(RecordTotals(log[i]))
  }

  /** Every batch of every epoch reports at most `batchSize` matches. */
  predicate RunMatchesBounded(runs: seq<EpochData>, batchSize: nat)
  {
    forall e :: 0 <= e < |runs| ==> MatchesBounded(runs[e].train, batchSize) && MatchesBounded(runs[e].test, batchSize)
  }

  /** The records a pass has written so far, whether or not it has raised. */
  function PassLog(p: Pass): seq<Record>
  {
    if p.Going? then p.state.log else p.written
  }

  /**
   * Whatever the batch size and monitoring step, every record a training pass writes
   * is printable; when no batch matches more labels than it has samples, the window,
   * the running totals and every record are sound.
   */
  lemma {:induction false} TrainPassSound(epoch: nat, batches: seq<Observation>, k: nat, batchSize: nat, monitoringStep: nat)
    requires k <= |batches|
    ensures Printable(PassLog(TrainPass(epoch, batches, k, batchSize, monitoringStep)))
    ensures MatchesBounded(batches, batchSize) ==>
      var p := TrainPass(epoch, batches, k, batchSize, monitoringStep);
      SoundLog(PassLog(p)) && (p.Going? ==> Sound(p.state.window) && Sound(p.state.running))
  {
    if k > 0 {
      TrainPassSound(epoch, batches, k - 1, batchSize, monitoringStep);
      var p := TrainPass(epoch, batches, k - 1, batchSize, monitoringStep);
      if p.Going? {
        assert MatchesBounded(batches, batchSize) ==> batches[k - 1].matches <= batchSize;
      }
    }
  }

  /** Every record an epoch writes is printable, and sound when the matches are bounded. */
  lemma EpochSound(epoch: nat, data: EpochData, batchSize: nat, monitoringStep: nat)
    ensures Printable(EpochOutcome(epoch, data, batchSize, monitoringStep).log)
    ensures MatchesBounded(data.train, batchSize) && MatchesBounded(data.test, batchSize)
      ==> SoundLog(EpochOutcome(epoch, data, batchSize, monitoringStep).log)
    ensures |EpochOutcome(epoch, data, batchSize, monitoringStep).log| > 0 ==> batchSize > 0 && monitoringStep > 0
  {
    EpochWritesNothing(epoch, data, batchSize, monitoringStep);
    var bounded := MatchesBounded(data.train, batchSize) && MatchesBounded(data.test, batchSize);
    TrainPassSound(epoch, data.train, |data.train|, batchSize, monitoringStep);
    match TrainPass(epoch, data.train, |data.train|, batchSize, monitoringStep)
    case Raised(l) =>
    case Going(s) =>
      if !SummaryDividesByZero(s.running, batchSize) {
        var log := s.log + [TrainSummary(s.running)];
        var eval := Plus(EvalStart(s.window), Totals(data.test, 0, |data.test|, batchSize));
        assert Printable(log);
        assert bounded ==> SoundLog(log);
        if bounded {
          TotalsSound(data.test, 0, |data.test|, batchSize);
          assert Sound(eval);
        }
        if !SummaryDividesByZero(eval, batchSize) {
          assert Printable(log + [EvalSummary(eval)]);
          assert bounded ==> SoundLog(log + [EvalSummary(eval)]);
        }
      }
  }

  /** Records of epochs `e ..`: printable, and sound when the matches are bounded. */
  lemma {:induction false} OutcomeFromSound(runs: seq<EpochData>, e: nat, batchSize: nat, monitoringStep: nat)
    requires e <= |runs|
    ensures Printable(OutcomeFrom(runs, e, batchSize, monitoringStep).log)
    ensures RunMatchesBounded(runs, batchSize) ==> SoundLog(OutcomeFrom(runs, e, batchSize, monitoringStep).log)
    ensures |OutcomeFrom(runs, e, batchSize, monitoringStep).log| > 0 ==> batchSize > 0 && monitoringStep > 0
    decreases |runs| - e
  {
    if e < |runs| {
      EpochSound(e, runs[e], batchSize, monitoringStep);
      OutcomeFromSound(runs, e + 1, batchSize, monitoringStep);
      OutcomeFromUnfold(runs, e, batchSize, monitoringStep);
    }
  }

  /**
   * No line a run writes divides by zero: its sample count, `batch_size` and
   * `monitoring_step` are all positive. When no batch reports more matches than
   * `batch_size`, every accuracy it writes lies in [0, 100].
   */
  lemma AccuracyIsPercentage(runs: seq<EpochData>, batchSize: nat, monitoringStep: nat)
    ensures |RunOutcome(runs, batchSize, monitoringStep).log| > 0 ==> batchSize > 0 && monitoringStep > 0
    ensures var log := RunOutcome(runs, batchSize, monitoringStep).log;
      forall i :: 0 <= i < |log| ==>
        RecordTotals(log[i]).samples > 0
        && (RunMatchesBounded(runs, batchSize) ==> 0.0 <= Accuracy(RecordTotals(log[i])) <= 100.0)
  {
    OutcomeFromSound(runs, 0, batchSize, monitoringStep);
  }

  /** Every written record has a summed loss of at least zero. */
  predicate LossLog(log: seq<Record>)
  {
    forall i :: 0 <= i < |log| ==> RecordTotals(log[i]).loss >= 0.0
  }

  /** Every batch of every epoch reports a loss of at least zero. */
  predicate RunLossesNonNegative(runs: seq<EpochData>)
  {
    forall e :: 0 <= e < |runs| ==> LossesNonNegative(runs[e].train) && LossesNonNegative(runs[e].test)
  }

  /** With losses of at least zero, the window, the running totals and every record of a pass sum a loss of at least zero. */
  lemma {:induction false} TrainPassLoss(epoch: nat, batches: seq<Observation>, k: nat, batchSize: nat, monitoringStep: nat)
    requires k <= |batches| && LossesNonNegative(batches)
    ensures var p := TrainPass(epoch, batches, k, batchSize, monitoringStep);
      LossLog(PassLog(p)) && (p.Going? ==> p.state.window.loss >= 0.0 && p.state.running.loss >= 0.0)
  {
    if k > 0 {
      TrainPassLoss(epoch, batches, k - 1, batchSize, monitoringStep);
      var p := TrainPass(epoch, batches, k - 1, batchSize, monitoringStep);
      if p.Going? {
        assert batches[k - 1].loss >= 0.0;
        assert TrainPass(epoch, batches, k, batchSize, monitoringStep)
          == TrainStep(epoch, k - 1, batches[k - 1], p.state, batchSize, monitoringStep);
      }
    }
  }

  /** With losses of at least zero, every record an epoch writes sums a loss of at least zero. */
  lemma EpochLoss(epoch: nat, data: EpochData, batchSize: nat, monitoringStep: nat)
    requires LossesNonNegative(data.train) && LossesNonNegative(data.test)
    ensures LossLog(EpochOutcome(epoch, data, batchSize, monitoringStep).log)
  {
    TrainPassLoss(epoch, data.train, |data.train|, batchSize, monitoringStep);
    TotalsLossNonNegative(data.test, 0, |data.test|, batchSize);
    match TrainPass(epoch, data.train, |data.train|, batchSize, monitoringStep)
    case Raised(l) =>
    case Going(s) =>
      var log := s.log + [TrainSummary(s.running)];
      assert LossLog(log);
      assert LossLog(log + [EvalSummary(Plus(EvalStart(s.window), Totals(data.test, 0, |data.test|, batchSize)))]);
  }

  /** Records of epochs `e ..` sum a loss of at least zero when every batch's loss is. */
  lemma {:induction false} OutcomeFromLoss(runs: seq<EpochData>, e: nat, batchSize: nat, monitoringStep: nat)
    requires e <= |runs| && RunLossesNonNegative(runs)
    ensures LossLog(OutcomeFrom(runs, e, batchSize, monitoringStep).log)
    decreases |runs| - e
  {
    if e < |runs| {
      EpochLoss(e, runs[e], batchSize, monitoringStep);
      OutcomeFromLoss(runs, e + 1, batchSize, monitoringStep);
      OutcomeFromUnfold(runs, e, batchSize, monitoringStep);
    }
  }

  /** When the loss function never reports a negative loss, no line a run writes prints a negative average loss. */
  lemma LossAverageNonNegative(runs: seq<EpochData>, batchSize: nat, monitoringStep: nat)
    requires RunLossesNonNegative(runs)
    ensures var log := RunOutcome(runs, batchSize, monitoringStep).log;
      forall i :: 0 <= i < |log| ==>
        RecordTotals(log[i]).samples > 0 && AvgLoss(RecordTotals(log[i])) >= 0.0
  {
    OutcomeFromSound(runs, 0, batchSize, monitoringStep);
    OutcomeFromLoss(runs, 0, batchSize, monitoringStep);
  }

  /**
   * A progress line's memory average, `used_mem / monitoring_step`, is the memory per
   * batch of its window: the same as dividing by the batches its sample count stands for.
   */
  lemma ProgressMemPerBatch(epoch: nat, data: EpochData, batchSize: nat, monitoringStep: nat)
    ensures var log := EpochOutcome(epoch, data, batchSize, monitoringStep).log;
      forall j :: 0 <= j < |log| && log[j].Progress? ==>
        monitoringStep > 0 && batchSize > 0 && log[j].window.samples > 0
        && WindowMem(log[j].window, monitoringStep) == BatchMem(log[j].window, batchSize)
  {
    EpochWritesNothing(epoch, data, batchSize, monitoringStep);
    if monitoringStep > 0 && batchSize > 0 && |data.train| >= monitoringStep {
      EpochProgress(epoch, data, batchSize, monitoringStep);
      var log := EpochOutcome(epoch, data, batchSize, monitoringStep).log;
      forall j | 0 <= j < |log| && log[j].Progress?
        ensures log[j].window.samples > 0
          && WindowMem(log[j].window, monitoringStep) == BatchMem(log[j].window, batchSize)
      {
        WindowMemIsBatchMem(log[j].window, batchSize, monitoringStep);
      }
    }
  }

  /** A run raises exactly when one of its epochs, each run on its own counters, raises. */
  lemma {:induction false} RunRaises(runs: seq<EpochData>, e: nat, batchSize: nat, monitoringStep: nat)
    requires e <= |runs|
    ensures OutcomeFrom(runs, e, batchSize, monitoringStep).raised
        <==> exists d :: e <= d < |runs| && EpochOutcome(d, runs[d], batchSize, monitoringStep).raised
    decreases |runs| - e
  {
    if e < |runs| {
      RunRaises(runs, e + 1, batchSize, monitoringStep);
      OutcomeFromUnfold(runs, e, batchSize, monitoringStep);
    }
  }
}
