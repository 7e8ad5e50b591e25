/**
 * The dataset records of the API: the request that creates a dataset, its
 * two specification variants and sampling variants, and the persisted
 * dataset row. Field bounds declared with `Field(gt=..., le=...)` are
 * validity predicates here.
 */
module Models {
  import opened Wrappers

  /** The closed set of dataset splits. */
  datatype DatasetSplit = Train | Validation | Test

  /** The enum's string value. */
  function SplitValue(s: DatasetSplit): string
  {
    match s
    case Train => "train"
    case Validation => "validation"
    case Test => "test"
  }

  /** Reads an enum value back; any other string is rejected. */
  function ParseSplit(v: string): (r: Option<DatasetSplit>)
    ensures r.Some? <==> v in {"train", "validation", "test"}
  {
    if v == "train" then Some(Train)
    else if v == "validation" then Some(Validation)
    else if v == "test" then Some(Test)
    else None
  }

  lemma SplitValueRoundTrip(s: DatasetSplit, v: string)
    ensures ParseSplit(SplitValue(s)) == Some(s)
    ensures ParseSplit(v) == Some(s) ==> SplitValue(s) == v
  {
  }

  /** The `uniqueItems` declaration on `splits`. */
  predicate UniqueSplits(splits: seq<DatasetSplit>)
  {
    forall i, j :: 0 <= i < j < |splits| ==> splits[i] != splits[j]
  }

  lemma {:induction false} DistinctCard<T>(xs: seq<T>)
    requires forall i, j :: 0 <= i < j < |xs| ==> xs[i] != xs[j]
    ensures |set x | x in xs| == |xs|
  {
    if xs != [] {
      var init := xs[..|xs| - 1];
      DistinctCard(init);
      assert (set x | x in xs) == (set x | x in init) + {xs[|xs| - 1]};
      assert xs[|xs| - 1] !in init;
    }
  }

  /** A list of unique splits names each of the three splits at most once. */
  lemma UniqueSplitsAtMostThree(splits: seq<DatasetSplit>)
    requires UniqueSplits(splits)
    ensures |splits| <= 3
  {
    DistinctCard(splits);
    var all: set<DatasetSplit> := {Train, Validation, Test};
    assert (set x | x in splits) <= all by {
      forall x | x in splits ensures x in all {
        match x
        case Train =>
        case Validation =>
        case Test =>
      }
    }
    var used := set x | x in splits;
    assert all == used + (all - used);
    assert |all| == |used| + |all - used|;
  }

  datatype DlgkeAvailableDataset = KGDatasetFB15k | OtherDataset

  datatype DglkeDatasetSpecifications =
    DglkeDatasetSpecifications(initialDataset: DlgkeAvailableDataset, splits: seq<DatasetSplit>)

  datatype StixDatasetSpecifications = StixDatasetSpecifications(fileContent: string)

  /** `DglkeDatasetSpecifications | StixDatasetSpecifications`. */
  datatype Specifications =
    | Dglke(dglke: DglkeDatasetSpecifications)
    | Stix(stix: StixDatasetSpecifications)

  /** `DatasetRatioSampling | DatasetCountSampling`; a missing sampling is `None`. */
  datatype DatasetSampling =
    | DatasetRatioSampling(ratio: real)
    | DatasetCountSampling(count: int)

  /** `ratio: float = Field(gt=0, le=1)`, `count: int = Field(gt=0)`. */
  predicate ValidSampling(s: DatasetSampling)
  {
    match s
    case DatasetRatioSampling(r) => 0.0 < r <= 1.0
    case DatasetCountSampling(c) => c > 0
  }

  datatype DatasetCreate =
    DatasetCreate(name: string, specifications: Specifications, sampling: Option<DatasetSampling>)

  /** What request validation accepts. */
  predicate ValidDatasetCreate(d: DatasetCreate)
  {
    d.sampling.Some? ==> ValidSampling(d.sampling.value)
  }

  /** The persisted dataset row. */
  datatype Dataset = Dataset(
    name: string,
    kuzuPath: string,
    ownerId: int,
    specificationsClass: string,
    specificationsValue: string,
    samplingRatio: Option<real>,
    samplingCount: Option<int>)

  /** `sampling_ratio: float | None = Field(gt=0, le=1)`, `sampling_count: int | None = Field(gt=0)`. */
  predicate ValidDataset(d: Dataset)
  {
    && (d.samplingRatio.Some? ==> 0.0 < d.samplingRatio.value <= 1.0)
    && (d.samplingCount.Some? ==> d.samplingCount.value > 0)
  }

  /** `sampling_count is not None or sampling_ratio is not None`: whether the adapters sample the nodes. */
  predicate SamplingRequested(d: Dataset)
  {
    d.samplingCount.Some? || d.samplingRatio.Some?
  }
}
