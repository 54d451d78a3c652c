/** The benchmark schedule of `rdt/performance/performance.py`: which
    (fit size, transform size) pairs a transformer is profiled on, the extra
    constructor arguments looked up by class name, and the one-row-per-size loop. */
module Performance {
  import opened Wrappers

  const DATASET_SIZES: seq<nat> := [1000, 10000, 100000]

  /** Categorical datasets above this size are not profiled. */
  const CATEGORICAL_MAX_SIZE: nat := 10000
  /** Categorical datasets are transformed on at least this many rows. */
  const CATEGORICAL_MIN_TRANSFORM: nat := 1000

  /** A keyword argument value of a transformer constructor. */
  datatype ArgValue = IntArg(i: int) | StrArg(s: string) | BoolArg(b: bool)

  const MEAN_MISSING: map<string, ArgValue> :=
    map["missing_value_replacement" := StrArg("mean"), "model_missing_values" := BoolArg(true)]

  const TRANSFORMER_ARGS: map<string, map<string, ArgValue>> := map[
    "BinaryEncoder" := map["missing_value_replacement" := IntArg(-1), "model_missing_values" := BoolArg(true)],
    "DatetimeTransformer" := MEAN_MISSING,
    "DatetimeRoundedTransformer" := MEAN_MISSING,
    "FloatFormatter" := MEAN_MISSING,
    "NumericalRoundedBoundedTransformer" := MEAN_MISSING,
    "NumericalBoundedTransformer" := MEAN_MISSING,
    "GaussianNormalizer" := MEAN_MISSING,
    "ClusterBasedNormalizer" := MEAN_MISSING
  ]

  function Max(a: nat, b: nat): nat { if a >= b then a else b }

  /** `[(s, s) for s in sizes]`. */
  function SamePairs(sizes: seq<nat>): (r: seq<(nat, nat)>)
  {
    if |sizes| == 0 then [] else [(sizes[0], sizes[0])] + SamePairs(sizes[1..])
  }

  /** `[(s, max(s, 1000)) for s in sizes if s <= 10000]`. */
  function CategoricalPairs(sizes: seq<nat>): (r: seq<(nat, nat)>)
  {
    if |sizes| == 0 then []
    else if sizes[0] <= CATEGORICAL_MAX_SIZE then
      [(sizes[0], Max(sizes[0], CATEGORICAL_MIN_TRANSFORM))] + CategoricalPairs(sizes[1..])
    else CategoricalPairs(sizes[1..])
  }

  /** `_get_dataset_sizes`, over any list of sizes. */
  function DatasetSizesFrom(sizes: seq<nat>, dataType: string): seq<(nat, nat)>
  {
    if dataType == "categorical" then CategoricalPairs(sizes) else SamePairs(sizes)
  }

  /** `_get_dataset_sizes(data_type)`. */
  function GetDatasetSizes(dataType: string): seq<(nat, nat)>
  {
    DatasetSizesFrom(DATASET_SIZES, dataType)
  }

  /** The sizes, in their original order, that are at most `bound`. */
  function AtMost(sizes: seq<nat>, bound: nat): seq<nat>
  {
    if |sizes| == 0 then []
    else if sizes[0] <= bound then [sizes[0]] + AtMost(sizes[1..], bound)
    else AtMost(sizes[1..], bound)
  }

  function FitSizes(pairs: seq<(nat, nat)>): (r: seq<nat>)
    ensures |r| == |pairs|
    ensures forall i :: 0 <= i < |pairs| ==> r[i] == pairs[i].0
  {
    if |pairs| == 0 then [] else [pairs[0].0] + FitSizes(pairs[1..])
  }

  /** Outside the categorical type, every size is both fitted and transformed on, in order. */
  lemma {:induction false} SamePairsShape(sizes: seq<nat>)
    ensures |SamePairs(sizes)| == |sizes|
    ensures forall i :: 0 <= i < |sizes| ==> SamePairs(sizes)[i] == (sizes[i], sizes[i])
  {
    if |sizes| > 0 {
      SamePairsShape(sizes[1..]);
    }
  }

  /** For the categorical type the fit sizes are the sizes up to 10000, in their
      original order, and each transform size is at least its fit size and at least 1000. */
  lemma {:induction false} CategoricalPairsShape(sizes: seq<nat>)
    ensures FitSizes(CategoricalPairs(sizes)) == AtMost(sizes, CATEGORICAL_MAX_SIZE)
    ensures |CategoricalPairs(sizes)| <= |sizes|
    ensures forall i :: 0 <= i < |CategoricalPairs(sizes)| ==>
      var (fit, transform) := CategoricalPairs(sizes)[i];
      fit <= CATEGORICAL_MAX_SIZE && transform == Max(fit, CATEGORICAL_MIN_TRANSFORM)
      && transform >= fit && transform >= CATEGORICAL_MIN_TRANSFORM
  {
    if |sizes| > 0 {
      CategoricalPairsShape(sizes[1..]);
    }
  }

  /** Every fit size of the schedule is one of the sizes, and sizes are never repeated
      or reordered: the fit sizes form a subsequence of `sizes`. */
  lemma {:induction false} AtMostIsSubsequence(sizes: seq<nat>, bound: nat)
    ensures |AtMost(sizes, bound)| <= |sizes|
    ensures forall x :: x in AtMost(sizes, bound) <==> x in sizes && x <= bound
    ensures forall k :: 0 <= k <= |sizes| ==> AtMost(sizes, bound) == AtMost(sizes[..k], bound) + AtMost(sizes[k..], bound)
  {
    if |sizes| > 0 {
      AtMostIsSubsequence(sizes[1..], bound);
      assert sizes == [sizes[0]] + sizes[1..];
    }
    forall k | 0 <= k <= |sizes|
      ensures AtMost(sizes, bound) == AtMost(sizes[..k], bound) + AtMost(sizes[k..], bound)
    {
      assert sizes == sizes[..k] + sizes[k..];
      AtMostAppend(sizes[..k], sizes[k..], bound);
    }
  }

  /** Filtering two runs of sizes one after the other keeps the kept sizes of
      the first run ahead of those of the second. */
  lemma {:induction false} AtMostAppend(a: seq<nat>, b: seq<nat>, bound: nat)
    ensures AtMost(a + b, bound) == AtMost(a, bound) + AtMost(b, bound)
    decreases |a|
  {
    if |a| > 0 {
      assert (a + b)[0] == a[0];
      assert (a + b)[1..] == a[1..] + b;
      AtMostAppend(a[1..], b, bound);
    } else {
      assert a + b == b;
    }
  }

  /** The schedule for the library's own size list. */
  lemma DefaultSchedules(dataType: string)
    ensures dataType != "categorical" ==>
      GetDatasetSizes(dataType) == [(1000, 1000), (10000, 10000), (100000, 100000)]
    ensures dataType == "categorical" ==>
      GetDatasetSizes(dataType) == [(1000, 1000), (10000, 10000)]
    ensures |GetDatasetSizes(dataType)| <= 3
  {
    assert DATASET_SIZES[1..] == [10000, 100000];
    assert DATASET_SIZES[1..][1..] == [100000];
    assert DATASET_SIZES[1..][1..][1..] == [];
  }

  /** `TRANSFORMER_ARGS.get(name, {})`. */
  function TransformerArgs(name: string): (r: map<string, ArgValue>)
    ensures name !in TRANSFORMER_ARGS ==> r == map[]
    ensures name in TRANSFORMER_ARGS ==> r == TRANSFORMER_ARGS[name]
  {
    if name in TRANSFORMER_ARGS then TRANSFORMER_ARGS[name] else map[]
  }

  /** Every transformer with extra arguments is asked to model missing values,
      and only the BinaryEncoder does not replace them by the mean. */
  lemma TransformerArgsModelMissing(name: string)
    requires name in TRANSFORMER_ARGS
    ensures "model_missing_values" in TransformerArgs(name)
    ensures TransformerArgs(name)["model_missing_values"] == BoolArg(true)
    ensures name != "BinaryEncoder" ==>
      TransformerArgs(name)["missing_value_replacement"] == StrArg("mean")
  {
  }

  /** The extra columns a verbose run adds to each row. */
  datatype Details = Details(fitRows: nat, transformRows: nat, dataset: string, transformer: string)

  /** One row of the performance summary: the profile for one size pair and,
      when verbose, what it was measured on. */
  datatype Row<P> = Row(performance: P, details: Option<Details>)

  /** The loop of `evaluate_transformer_performance`: one row per size pair, in
      schedule order. Profiling, and its division by the sizes, is the abstract
      `profile` (timings and memory are not modelled). */
  method EvaluateTransformerPerformance<P>(
    transformerName: string, transformerModule: string, datasetName: string, dataType: string,
    verbose: bool, profile: (nat, nat) -> P)
    returns (out: seq<Row<P>>)
    ensures |out| == |GetDatasetSizes(dataType)|
    ensures forall i :: 0 <= i < |out| ==>
      var (fit, transform) := GetDatasetSizes(dataType)[i];
      out[i].performance == profile(fit, transform)
      && out[i].details == (if verbose
                            then Some(Details(fit, transform, datasetName, transformerModule + "." + transformerName))
                            else None)
  {
    var sizes := GetDatasetSizes(dataType);
    out := [];
    var i := 0;
    while i < |sizes|
      invariant 0 <= i <= |sizes|
      invariant |out| == i
      invariant forall k :: 0 <= k < i ==>
        out[k].performance == profile(sizes[k].0, sizes[k].1)
        && out[k].details == (if verbose
                              then Some(Details(sizes[k].0, sizes[k].1, datasetName, transformerModule + "." + transformerName))
                              else None)
    {
      var (fitSize, transformSize) := sizes[i];
      var performance := profile(fitSize, transformSize);
      var details: Option<Details> := None;
      if verbose {
        details := Some(Details(fitSize, transformSize, datasetName, transformerModule + "." + transformerName));
      }
      out := out + [Row(performance, details)];
      i := i + 1;
    }
  }
}
