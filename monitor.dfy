/**
 * The epoch loop of `train` in python/main.py: the window accumulators a progress
 * line is printed from, the running accumulators the epoch summary is printed from,
 * and the evaluation pass. The functions give the records a run writes; the method
 * `Train` performs the same bookkeeping with the source's own counters and loops.
 */
module Monitor {
  import opened Accumulators

  /** The observations of one epoch: its training batches, then its test batches. */
  datatype EpochData = EpochData(train: seq<Observation>, test: seq<Observation>)

  /**
   * A line written to the profile file, holding the raw accumulators it is printed from
   * (the averages are the functions of module Accumulators).
   */
  datatype Record =
    | Progress(epoch: nat, batch: nat, window: Acc) // "[TRAIN] epoch: ..."
    | TrainSummary(running: Acc)                     // "[TRAIN SUMMARY] ..."
    | EvalSummary(eval: Acc)                         // "[EVAL] ..."

  /** The accumulators a record is printed from. */
  function RecordTotals(r: Record): Acc
  {
    match r
    case Progress(_, _, w) => w
    case TrainSummary(a) => a
    case EvalSummary(a) => a
  }

  /** The records a run wrote, and whether it ended by raising ZeroDivisionError. */
  datatype Outcome = Outcome(log: seq<Record>, raised: bool)

  /** The training loop's counters mid-epoch, with the records this epoch has written. */
  datatype PassState = PassState(window: Acc, running: Acc, log: seq<Record>)

  /** A training pass either goes on or has raised, keeping the records written so far. */
  datatype Pass = Going(state: PassState) | Raised(written: seq<Record>)

  /**
   * One training batch `n`: absorb it into the window; on a window boundary write a
   * progress line, fold the window into the running totals and zero the window.
   * Raises when `% monitoring_step` or `/ float(sample_count)` divides by zero.
   */
  function TrainStep(epoch: nat, n: nat, o: Observation, s: PassState, batchSize: nat, monitoringStep: nat): Pass
  {
    var w := Absorb(s.window, o, batchSize);
    if monitoringStep == 0 then Raised(s.log)
    else if (n + 1) % monitoringStep != 0 then Going(PassState(w, s.running, s.log))
    else if w.samples == 0 then Raised(s.log)
    else Going(PassState(ZERO, Plus(s.running, w), s.log + [Progress(epoch, n, w)]))
  }

  /** The training pass after its first `k` batches; every accumulator starts at zero. */
  function TrainPass(epoch: nat, batches: seq<Observation>, k: nat, batchSize: nat, monitoringStep: nat): Pass
    requires k <= |batches|
  {
    if k == 0 then Going(PassState(ZERO, ZERO, []))
    else match TrainPass(epoch, batches, k - 1, batchSize, monitoringStep)
      case Raised(l) => Raised(l)
      case Going(s) => TrainStep(epoch, k - 1, batches[k - 1], s, batchSize, monitoringStep)
  }

  /**
   * What the evaluation pass starts from: sample, true-positive, loss and memory
   * counters zeroed, the elapsed time left over from the training window kept.
   */
  function EvalStart(window: Acc): Acc
  {
    Acc(0.0, 0, 0, window.time, 0.0)
  }

  /** A summary line divides by its sample count and by `batch_size`. */
  predicate SummaryDividesByZero(a: Acc, batchSize: nat)
  {
    a.samples == 0 || batchSize == 0
  }

  /** One epoch: the training pass, its summary, the evaluation pass and its summary. */
  function EpochOutcome(epoch: nat, data: EpochData, batchSize: nat, monitoringStep: nat): Outcome
  {
    match TrainPass(epoch, data.train, |data.train|, batchSize, monitoringStep)
    case Raised(l) => Outcome(l, true)
    case Going(s) =>
      if SummaryDividesByZero(s.running, batchSize) then Outcome(s.log, true)
      else
        var log := s.log + [TrainSummary(s.running)];
        var eval := Plus(EvalStart(s.window), Totals(data.test, 0, |data.test|, batchSize));
        if SummaryDividesByZero(eval, batchSize) then Outcome(log, true)
        else Outcome(log + [EvalSummary(eval)], false)
  }

  /** Epochs `e ..` in order; a raising epoch ends the run. */
  function OutcomeFrom(runs: seq<EpochData>, e: nat, batchSize: nat, monitoringStep: nat): Outcome
    requires e <= |runs|
    decreases |runs| - e
  {
    if e == |runs| then Outcome([], false)
    else
      var here := EpochOutcome(e, runs[e], batchSize, monitoringStep);
      if here.raised then here
      else
        var rest := OutcomeFrom(runs, e + 1, batchSize, monitoringStep);
        Outcome(here.log + rest.log, rest.raised)
  }

  /** A whole run of `train` over `|runs|` epochs. */
  function RunOutcome(runs: seq<EpochData>, batchSize: nat, monitoringStep: nat): Outcome
  {
    OutcomeFrom(runs, 0, batchSize, monitoringStep)
  }

  /** A raised training pass stays raised, with the same records, to the end of the epoch. */
  lemma {:induction false} RaisedStays(epoch: nat, batches: seq<Observation>, k: nat, n: nat, batchSize: nat, monitoringStep: nat)
    requires k <= n <= |batches|
    requires TrainPass(epoch, batches, k, batchSize, monitoringStep).Raised?
    ensures TrainPass(epoch, batches, n, batchSize, monitoringStep) == TrainPass(epoch, batches, k, batchSize, monitoringStep)
    decreases n
  {
    if n > k {
      RaisedStays(epoch, batches, k, n - 1, batchSize, monitoringStep);
    }
  }

  /** One step of `OutcomeFrom`, stated without unfolding the epoch itself. */
  lemma OutcomeFromUnfold(runs: seq<EpochData>, e: nat, batchSize: nat, monitoringStep: nat)
    requires e < |runs|
    ensures var here := EpochOutcome(e, runs[e], batchSize, monitoringStep);
      var rest := OutcomeFrom(runs, e + 1, batchSize, monitoringStep);
      OutcomeFrom(runs, e, batchSize, monitoringStep) == if here.raised then here else Outcome(here.log + rest.log, rest.raised)
  {
  }

  /**
   * `train` with the source's counters: `runs[e]` holds what epoch `e`'s batches report.
   * Returns the records written to the profile file and whether a division by zero ended it.
   */
  method Train(runs: seq<EpochData>, batchSize: nat, monitoringStep: nat) returns (log: seq<Record>, raised: bool)
    ensures Outcome(log, raised) == RunOutcome(runs, batchSize, monitoringStep)
  {
    log, raised := [], false;
    var epoch := 0;
    while epoch < |runs| && !raised
      invariant epoch <= |runs|
      invariant raised ==> RunOutcome(runs, batchSize, monitoringStep) == Outcome(log, true)
      invariant !raised ==>
        var rest := OutcomeFrom(runs, epoch, batchSize, monitoringStep);
        RunOutcome(runs, batchSize, monitoringStep) == Outcome(log + rest.log, rest.raised)
    {
      ghost var rest := OutcomeFrom(runs, epoch + 1, batchSize, monitoringStep);
      var written;
      written, raised := TrainEpoch(epoch, runs[epoch], batchSize, monitoringStep);
      OutcomeFromUnfold(runs, epoch, batchSize, monitoringStep);
      assert (log + written) + rest.log == log + (written + rest.log);
      log := log + written;
      epoch := epoch + 1;
    }
  }

  /**
   * The body of `train`'s epoch loop: reset every counter, run the training batches,
   * write the summary, re-zero the evaluation counters, run the test batches and
   * write the evaluation line. Returns this epoch's records.
   */
  method TrainEpoch(epoch: nat, data: EpochData, batchSize: nat, monitoringStep: nat) returns (log: seq<Record>, raised: bool)
    ensures Outcome(log, raised) == EpochOutcome(epoch, data, batchSize, monitoringStep)
  {
    log, raised := [], false;
    var trainBatches := data.train;

    var runningElapsedTime, lossVal, runningLoss := 0.0, 0.0, 0.0;
    var elapsedTime: real, runningSampleCount: nat, tpCount: nat, runningTpCount: nat, sampleCount: nat := 0.0, 0, 0, 0, 0;
    var runningUsedMem, usedMem := 0.0, 0.0;

    var batchN := 0;
    while batchN < |trainBatches|
      invariant batchN <= |trainBatches|
      invariant TrainPass(epoch, trainBatches, batchN, batchSize, monitoringStep)
        == Going(PassState(Acc(lossVal, tpCount, sampleCount, elapsedTime, usedMem),
                           Acc(runningLoss, runningTpCount, runningSampleCount, runningElapsedTime, runningUsedMem),
                           log))
    {
      var o := trainBatches[batchN];
      ghost var before := PassState(Acc(lossVal, tpCount, sampleCount, elapsedTime, usedMem),
                                    Acc(runningLoss, runningTpCount, runningSampleCount, runningElapsedTime, runningUsedMem),
                                    log);
      assert TrainPass(epoch, trainBatches, batchN + 1, batchSize, monitoringStep)
        == TrainStep(epoch, batchN, o, before, batchSize, monitoringStep);
      lossVal := lossVal + o.loss;
      tpCount := tpCount + o.matches;
      sampleCount := sampleCount + batchSize;
      elapsedTime := elapsedTime + o.time;
      usedMem := usedMem + o.mem;

      if monitoringStep == 0 || ((batchN + 1) % monitoringStep == 0 && sampleCount == 0) {
        RaisedStays(epoch, trainBatches, batchN + 1, |trainBatches|, batchSize, monitoringStep);
        raised := true;
        return;
      }
      if (batchN + 1) % monitoringStep == 0 {
        log := log + [Progress(epoch, batchN, Acc(lossVal, tpCount, sampleCount, elapsedTime, usedMem))];
        runningElapsedTime := runningElapsedTime + elapsedTime;
        runningLoss := runningLoss + lossVal;
        runningTpCount := runningTpCount + tpCount;
        runningSampleCount := runningSampleCount + sampleCount;
        runningUsedMem := runningUsedMem + usedMem;
        usedMem, elapsedTime, tpCount, sampleCount, lossVal := 0.0, 0.0, 0, 0, 0.0;
      }
      batchN := batchN + 1;
    }

    if runningSampleCount == 0 || batchSize == 0 {
      raised := true;
      return;
    }
    log := log + [TrainSummary(Acc(runningLoss, runningTpCount, runningSampleCount, runningElapsedTime, runningUsedMem))];

    sampleCount, tpCount, lossVal := 0, 0, 0.0;
    usedMem := 0.0;

    var testBatches := data.test;
    var evalStart := Acc(lossVal, tpCount, sampleCount, elapsedTime, usedMem);
    var i := 0;
    while i < |testBatches|
      invariant i <= |testBatches|
      invariant Acc(lossVal, tpCount, sampleCount, elapsedTime, usedMem) == Plus(evalStart, Totals(testBatches, 0, i, batchSize))
    {
      var o := testBatches[i];
      lossVal := lossVal + o.loss;
      tpCount := tpCount + o.matches;
      sampleCount := sampleCount + batchSize;
      elapsedTime := elapsedTime + o.time;
      usedMem := usedMem + o.mem;
      i := i + 1;
    }

    if sampleCount == 0 || batchSize == 0 {
      raised := true;
      return;
    }
    log := log + [EvalSummary(Acc(lossVal, tpCount, sampleCount, elapsedTime, usedMem))];
  }
}
