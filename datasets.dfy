/**
 * The dataset dispatch of `main` in python/main.py and the run it starts: the
 * `if/elif` chain choosing the dataset and the model's input channels and classes,
 * and the fixed training settings it calls `train` with.
 */
module Datasets {
  import opened Wrappers
  import opened Accumulators
  import opened Monitor
  import MonitorProperties
  import PascalCategories

  /** `epochs`, `batch_size` and `monitoring_step` of `main`. */
  const EPOCHS: nat := 100
  const BATCH_SIZE: nat := 32
  const MONITORING_STEP: nat := 20

  datatype Dataset = Cifar10 | Mnist | Pascal

  /** What the chosen branch sets up: the dataset and `ResNet50(in_channels, num_classes)`. */
  datatype Config = Config(dataset: Dataset, inChannels: nat, numClasses: nat)

  /** `raise Exception("unsupported dataset")` */
  datatype ConfigError = UnsupportedDataset

  /**
   * The `if/elif` chain on `sys.argv[1]`: CIFAR-10 images have three channels and ten
   * classes, MNIST one channel and ten classes, PASCAL VOC three channels and one class
   * per category name; any other name is refused.
   */
  function SelectDataset(name: string): (r: Result<Config, ConfigError>)
    ensures r.Success? <==> name == "cifar10" || name == "mnist" || name == "pascal"
    ensures name == "cifar10" ==> r == Success(Config(Cifar10, 3, 10))
    ensures name == "mnist" ==> r == Success(Config(Mnist, 1, 10))
    ensures name == "pascal" ==> r == Success(Config(Pascal, 3, |PascalCategories.OBJECT_CATEGORIES|))
  {
    if name == "cifar10" then Success(Config(Cifar10, 3, 10))
    else if name == "mnist" then Success(Config(Mnist, 1, 10))
    else if name == "pascal" then Success(Config(Pascal, 3, 20))
    else Failure(UnsupportedDataset)
  }

  /**
   * `main`: select the dataset, then train with the fixed settings. `runs` holds what the
   * `EPOCHS` epochs' batches report; an unsupported name fails before any of them is used.
   */
  function MainOutcome(name: string, runs: seq<EpochData>): Result<Outcome, ConfigError>
    requires |runs| == EPOCHS
  {
    match SelectDataset(name)
    case Failure(e) => Failure(e)
    case Success(_) => Success(RunOutcome(runs, BATCH_SIZE, MONITORING_STEP))
  }

  /** `main` refuses exactly the names other than the three datasets, before training. */
  lemma MainRefusesUnknownDatasets(name: string, runs: seq<EpochData>)
    requires |runs| == EPOCHS
    ensures MainOutcome(name, runs).Failure? <==> !(name == "cifar10" || name == "mnist" || name == "pascal")
    ensures MainOutcome(name, runs).Failure? ==> MainOutcome(name, runs) == Failure(UnsupportedDataset)
  {
  }

  /**
   * With `main`'s settings, a dataset of fewer than 20 training batches makes the very
   * first epoch's summary divide by zero before any line is written.
   */
  lemma ShortDatasetWritesNothing(name: string, runs: seq<EpochData>)
    requires |runs| == EPOCHS && SelectDataset(name).Success?
    requires |runs[0].train| < MONITORING_STEP
    ensures MainOutcome(name, runs) == Success(Outcome([], true))
  {
    MonitorProperties.EpochWritesNothing(0, runs[0], BATCH_SIZE, MONITORING_STEP);
    OutcomeFromUnfold(runs, 0, BATCH_SIZE, MONITORING_STEP);
  }

  /** Every label `transform_pascal` produces is a valid class of the PASCAL model. */
  lemma PascalLabelsFitModel(x: PascalCategories.Annotation)
    requires PascalCategories.TransformPascal(x).Success?
    ensures PascalCategories.TransformPascal(x).value < SelectDataset("pascal").value.numClasses
  {
  }
}
