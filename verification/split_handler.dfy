/** The train/test split handler: three mutually exclusive ways of writing the
    `splitParams` record of an ML task's settings (random split, k-fold split,
    explicit extracts of one or two datasets). Each writer touches a fixed set
    of keys and leaves every other key as it was. */
module SplitHandler {
  import opened Wrappers
  import opened JsonValues

  const SplitSingleDataset: string := "SPLIT_SINGLE_DATASET"
  const ExplicitSingleDataset: string := "EXPLICIT_FILTERING_SINGLE_DATASET"
  const ExplicitTwoDatasets: string := "EXPLICIT_FILTERING_TWO_DATASETS"

  /** The default arguments of the random and k-fold writers. */
  const DefaultTrainRatio: real := 0.8
  const DefaultFolds: int := 5

  /** One side (train or test) of an explicit split: an optional dataset name
      (only in the two-dataset shape), and an optional row selection and
      filter. A freshly written extract holds exactly the keys given. */
  datatype Extract = Extract(datasetSmartName: Option<string>, selection: Option<Json>, filter: Option<Json>)

  /** The keys of `splitParams` that the handler reads or writes, `None`
      standing for a key that is absent, and every other key in `others`. */
  datatype SplitParams = SplitParams(
    ttPolicy: Option<string>,
    ssdSelection: Option<Json>,
    ssdTrainingRatio: Option<real>,
    kfold: Option<bool>,
    nFolds: Option<int>,
    ssdDatasetSmartName: Option<string>,
    efsdDatasetSmartName: Option<string>,
    efsdTrain: Option<Extract>,
    efsdTest: Option<Extract>,
    eftdTrain: Option<Extract>,
    eftdTest: Option<Extract>,
    others: map<string, Json>)

  /** An optional argument overwrites a key only when it is given. */
  function Overwrite<T>(arg: Option<T>, current: Option<T>): (r: Option<T>)
    ensures arg.Some? ==> r == arg
    ensures arg.None? ==> r == current
  {
    if arg.Some? then arg else current
  }

  /** Random split of a single dataset. */
  function SetSplitRandom(sp: SplitParams, trainRatio: real, selection: Option<Arg>, datasetName: Option<string>)
    : (r: SplitParams)
    ensures r.ttPolicy == Some(SplitSingleDataset)
    ensures r.ssdTrainingRatio == Some(trainRatio) && r.kfold == Some(false)
    ensures selection.Some? ==> r.ssdSelection == Some(Resolve(selection.value))
    ensures selection.None? ==> r.ssdSelection == sp.ssdSelection
    ensures datasetName.Some? ==> r.ssdDatasetSmartName == datasetName
    ensures datasetName.None? ==> r.ssdDatasetSmartName == sp.ssdDatasetSmartName
    // nothing but these five keys changes
    ensures r == sp.(ttPolicy := r.ttPolicy, ssdSelection := r.ssdSelection, ssdTrainingRatio := r.ssdTrainingRatio,
                     kfold := r.kfold, ssdDatasetSmartName := r.ssdDatasetSmartName)
  {
    sp.(ttPolicy := Some(SplitSingleDataset),
        ssdSelection := Overwrite(ResolveOpt(selection), sp.ssdSelection),
        ssdTrainingRatio := Some(trainRatio),
        kfold := Some(false),
        ssdDatasetSmartName := Overwrite(datasetName, sp.ssdDatasetSmartName))
  }

  /** K-fold split of a single dataset. */
  function SetSplitKfold(sp: SplitParams, nFolds: int, selection: Option<Arg>, datasetName: Option<string>)
    : (r: SplitParams)
    ensures r.ttPolicy == Some(SplitSingleDataset)
    ensures r.kfold == Some(true) && r.nFolds == Some(nFolds)
    ensures selection.Some? ==> r.ssdSelection == Some(Resolve(selection.value))
    ensures selection.None? ==> r.ssdSelection == sp.ssdSelection
    ensures datasetName.Some? ==> r.ssdDatasetSmartName == datasetName
    ensures datasetName.None? ==> r.ssdDatasetSmartName == sp.ssdDatasetSmartName
    // nothing but these five keys changes; in particular the training ratio survives
    ensures r == sp.(ttPolicy := r.ttPolicy, ssdSelection := r.ssdSelection, kfold := r.kfold,
                     nFolds := r.nFolds, ssdDatasetSmartName := r.ssdDatasetSmartName)
  {
    sp.(ttPolicy := Some(SplitSingleDataset),
        ssdSelection := Overwrite(ResolveOpt(selection), sp.ssdSelection),
        kfold := Some(true),
        nFolds := Some(nFolds),
        ssdDatasetSmartName := Overwrite(datasetName, sp.ssdDatasetSmartName))
  }

  /** Whether an explicit split uses the single-dataset shape: the test
      dataset is not given, or is the train dataset again. */
  predicate IsSingleDataset(datasetName: Option<string>, testDatasetName: Option<string>)
  {
    testDatasetName.None? || testDatasetName == datasetName
  }

  /** Explicit train and test extracts of one dataset, or of two. A missing
      `datasetName` raises before anything is written. */
  function SetSplitExplicit(sp: SplitParams, trainSelection: Option<Arg>, testSelection: Option<Arg>,
                            datasetName: Option<string>, testDatasetName: Option<string>,
                            trainFilter: Option<Arg>, testFilter: Option<Arg>)
    : (r: Result<SplitParams, Error>)
    ensures r.Failure? <==> datasetName.None?
    ensures r.Failure? ==> r.error == MissingDatasetName
    ensures r.Success? && IsSingleDataset(datasetName, testDatasetName) ==>
      && r.value.ttPolicy == Some(ExplicitSingleDataset)
      && r.value.efsdDatasetSmartName == datasetName
      && r.value.efsdTrain == Some(Extract(None, ResolveOpt(trainSelection), ResolveOpt(trainFilter)))
      && r.value.efsdTest == Some(Extract(None, ResolveOpt(testSelection), ResolveOpt(testFilter)))
      && r.value == sp.(ttPolicy := r.value.ttPolicy, efsdDatasetSmartName := r.value.efsdDatasetSmartName,
                        efsdTrain := r.value.efsdTrain, efsdTest := r.value.efsdTest)
    ensures r.Success? && !IsSingleDataset(datasetName, testDatasetName) ==>
      && r.value.ttPolicy == Some(ExplicitTwoDatasets)
      && r.value.eftdTrain == Some(Extract(datasetName, ResolveOpt(trainSelection), ResolveOpt(trainFilter)))
      && r.value.eftdTest == Some(Extract(testDatasetName, ResolveOpt(testSelection), ResolveOpt(testFilter)))
      && r.value == sp.(ttPolicy := r.value.ttPolicy, eftdTrain := r.value.eftdTrain, eftdTest := r.value.eftdTest)
  {
    if datasetName.None? then Failure(MissingDatasetName)
    else if IsSingleDataset(datasetName, testDatasetName) then
      Success(sp.(ttPolicy := Some(ExplicitSingleDataset),
                  efsdDatasetSmartName := datasetName,
                  efsdTrain := Some(Extract(None, ResolveOpt(trainSelection), ResolveOpt(trainFilter))),
                  efsdTest := Some(Extract(None, ResolveOpt(testSelection), ResolveOpt(testFilter)))))
    else
      Success(sp.(ttPolicy := Some(ExplicitTwoDatasets),
                  eftdTrain := Some(Extract(datasetName, ResolveOpt(trainSelection), ResolveOpt(trainFilter))),
                  eftdTest := Some(Extract(testDatasetName, ResolveOpt(testSelection), ResolveOpt(testFilter)))))
  }

  /** The split a `splitParams` record denotes, read back key by key. */
  datatype SplitMode =
    | RandomSplit(trainRatio: real, dataset: Option<string>, selection: Option<Json>)
    | KFoldSplit(folds: int, dataset: Option<string>, selection: Option<Json>)
    | ExplicitSingle(datasetName: string, train: Extract, test: Extract)
    | ExplicitTwo(train: Extract, test: Extract)

  /** Reads the split mode from the keys of its policy; `None` when the
      keys the policy needs are missing or the policy is another one. */
  function ActiveSplit(sp: SplitParams): Option<SplitMode>
  {
    if sp.ttPolicy == Some(SplitSingleDataset) then
      if sp.kfold == Some(true) && sp.nFolds.Some? then
        Some(KFoldSplit(sp.nFolds.value, sp.ssdDatasetSmartName, sp.ssdSelection))
      else if sp.kfold == Some(false) && sp.ssdTrainingRatio.Some? then
        Some(RandomSplit(sp.ssdTrainingRatio.value, sp.ssdDatasetSmartName, sp.ssdSelection))
      else None
    else if sp.ttPolicy == Some(ExplicitSingleDataset) then
      if sp.efsdDatasetSmartName.Some? && sp.efsdTrain.Some? && sp.efsdTest.Some? then
        Some(ExplicitSingle(sp.efsdDatasetSmartName.value, sp.efsdTrain.value, sp.efsdTest.value))
      else None
    else if sp.ttPolicy == Some(ExplicitTwoDatasets) then
      if sp.eftdTrain.Some? && sp.eftdTest.Some? then Some(ExplicitTwo(sp.eftdTrain.value, sp.eftdTest.value))
      else None
    else None
  }

  /** A random split reads back as the random split just written, whatever
      mode was configured before; omitted arguments keep the previous
      dataset and selection. */
  lemma RandomSplitReadsBack(sp: SplitParams, trainRatio: real, selection: Option<Arg>, datasetName: Option<string>)
    ensures ActiveSplit(SetSplitRandom(sp, trainRatio, selection, datasetName))
         == Some(RandomSplit(trainRatio, Overwrite(datasetName, sp.ssdDatasetSmartName),
                             Overwrite(ResolveOpt(selection), sp.ssdSelection)))
  {
  }

  /** A k-fold split reads back as the k-fold split just written. */
  lemma KFoldSplitReadsBack(sp: SplitParams, nFolds: int, selection: Option<Arg>, datasetName: Option<string>)
    ensures ActiveSplit(SetSplitKfold(sp, nFolds, selection, datasetName))
         == Some(KFoldSplit(nFolds, Overwrite(datasetName, sp.ssdDatasetSmartName),
                            Overwrite(ResolveOpt(selection), sp.ssdSelection)))
  {
  }

  /** A successful explicit split reads back as the single-dataset shape
      exactly when the test dataset is absent or the same, and as the
      two-dataset shape naming both datasets otherwise. */
  lemma ExplicitSplitReadsBack(sp: SplitParams, trainSelection: Option<Arg>, testSelection: Option<Arg>,
                               datasetName: Option<string>, testDatasetName: Option<string>,
                               trainFilter: Option<Arg>, testFilter: Option<Arg>)
    requires datasetName.Some?
    ensures var r := SetSplitExplicit(sp, trainSelection, testSelection, datasetName, testDatasetName,
                                      trainFilter, testFilter);
      && r.Success?
      && (IsSingleDataset(datasetName, testDatasetName) ==>
           ActiveSplit(r.value) == Some(ExplicitSingle(datasetName.value,
             Extract(None, ResolveOpt(trainSelection), ResolveOpt(trainFilter)),
             Extract(None, ResolveOpt(testSelection), ResolveOpt(testFilter)))))
      && (!IsSingleDataset(datasetName, testDatasetName) ==>
           ActiveSplit(r.value) == Some(ExplicitTwo(
             Extract(datasetName, ResolveOpt(trainSelection), ResolveOpt(trainFilter)),
             Extract(testDatasetName, ResolveOpt(testSelection), ResolveOpt(testFilter)))))
  {
  }

  /** Writing the same split twice is the same as writing it once. */
  lemma SplitWritersIdempotent(sp: SplitParams, ratio: real, nFolds: int, selection: Option<Arg>,
                               datasetName: Option<string>)
    ensures SetSplitRandom(SetSplitRandom(sp, ratio, selection, datasetName), ratio, selection, datasetName)
         == SetSplitRandom(sp, ratio, selection, datasetName)
    ensures SetSplitKfold(SetSplitKfold(sp, nFolds, selection, datasetName), nFolds, selection, datasetName)
         == SetSplitKfold(sp, nFolds, selection, datasetName)
  {
  }

  /** Switching from k-fold to random and back keeps the fold count and the
      training ratio, since each writer leaves the other's key alone: the
      final record is the k-fold record with the new ratio. */
  lemma SwitchingModesKeepsOtherModesKeys(sp: SplitParams, ratio: real, nFolds: int)
    ensures SetSplitKfold(SetSplitRandom(SetSplitKfold(sp, nFolds, None, None), ratio, None, None), nFolds, None, None)
         == SetSplitKfold(sp, nFolds, None, None).(ssdTrainingRatio := Some(ratio))
  {
  }
}
