/** The settings of an ML task and the local edits the client makes to them
    before saving: feature roles, sample weighting, the evaluation metric,
    per-algorithm settings, and the per-feature rewrite. Every edit is a pure
    old-settings to new-settings function; an edit that raises before
    writing anything returns `Failure` and the caller keeps the old
    settings. */
module TaskSettings {
  import opened Wrappers
  import opened JsonValues
  import opened SplitHandler
  import opened AlgorithmRemap

  const Input: string := "INPUT"
  const Reject: string := "REJECT"
  const Target: string := "TARGET"
  const WeightRole: string := "WEIGHT"

  const NoWeighting: string := "NO_WEIGHTING"
  const SampleWeight: string := "SAMPLE_WEIGHT"
  const CustomMetric: string := "CUSTOM"

  /** One entry of `preprocessing.per_feature`: its role, its type, and the
      remaining preprocessing parameters. */
  datatype Feature = Feature(role: string, featureType: string, params: map<string, Json>)

  /** The `weight` record. */
  datatype Weight = Weight(weightMethod: Option<string>, sampleWeightVariable: Option<string>,
                           others: map<string, Json>)

  /** The `modeling.metrics` record: the four keys the metric setter writes,
      and the others it leaves alone. `None` stands both for an absent key
      and for a key holding Python's `None`, which the setter writes as the
      custom code when no custom metric is given. */
  datatype Metrics = Metrics(
    evaluationMetric: Option<string>,
    customEvaluationMetricCode: Option<string>,
    customEvaluationMetricGIB: Option<bool>,
    customEvaluationMetricNeedsProba: Option<bool>,
    others: map<string, Json>)

  /** The settings of one algorithm under `modeling`. */
  datatype Algorithm = Algorithm(enabled: bool, params: map<string, Json>)

  /** The task's settings: the parts the client edits, and every other
      top-level key, which no edit touches. */
  datatype Settings = Settings(
    taskType: string,
    splitParams: SplitParams,
    perFeature: map<string, Feature>,
    weight: Weight,
    metrics: Metrics,
    algorithms: map<string, Algorithm>,
    others: map<string, Json>)

  /** The result of an edit that may raise after it has already written. */
  datatype Applied = Applied(settings: Settings, outcome: Outcome<Error>)

  // ---------------------------------------------------------------------------
  // Feature roles

  /** The preprocessing entry of a feature; an unknown name raises. */
  function FeaturePreprocessing(s: Settings, name: string): (r: Result<Feature, Error>)
    ensures r.Success? <==> name in s.perFeature
    ensures r.Success? ==> r.value == s.perFeature[name]
    ensures r.Failure? ==> r.error == KeyError(name)
  {
    if name in s.perFeature then Success(s.perFeature[name]) else Failure(KeyError(name))
  }

  /** Saving an edit made through the entry `FeaturePreprocessing` returns
      (a reference into the settings): fetching the entry raises for an
      unknown feature, and otherwise the edited entry `f` replaces it and
      nothing else changes. */
  function UpdateFeaturePreprocessing(s: Settings, name: string, f: Feature): (r: Result<Settings, Error>)
    ensures r.Failure? <==> name !in s.perFeature
    ensures r.Failure? ==> r.error == KeyError(name)
    ensures r.Success? ==> FeaturePreprocessing(r.value, name) == Success(f)
    ensures r.Success? ==> r.value.perFeature.Keys == s.perFeature.Keys
    ensures r.Success? ==> forall k :: k in s.perFeature && k != name ==> r.value.perFeature[k] == s.perFeature[k]
    ensures r.Success? ==> r.value == s.(perFeature := r.value.perFeature)
  {
    var current :- FeaturePreprocessing(s, name);
    Success(s.(perFeature := s.perFeature[name := f]))
  }

  /** Writing back the entry just read changes nothing. */
  lemma UnchangedFeatureWriteBack(s: Settings, name: string)
    requires name in s.perFeature
    ensures UpdateFeaturePreprocessing(s, name, FeaturePreprocessing(s, name).value) == Success(s)
  {
    assert s.perFeature[name := s.perFeature[name]] == s.perFeature;
  }

  /** `s'` is `s` with only the role of feature `name` changed, to `role`. */
  ghost predicate OnlyRoleChanged(s: Settings, s': Settings, name: string, role: string)
  {
    && name in s.perFeature
    && s'.perFeature.Keys == s.perFeature.Keys
    && s'.perFeature[name] == s.perFeature[name].(role := role)
    && (forall k :: k in s.perFeature && k != name ==> s'.perFeature[k] == s.perFeature[k])
    && s' == s.(perFeature := s'.perFeature)
  }

  function SetRole(s: Settings, name: string, role: string): (r: Result<Settings, Error>)
    ensures r.Failure? <==> name !in s.perFeature
    ensures r.Failure? ==> r.error == KeyError(name)
    ensures r.Success? ==> OnlyRoleChanged(s, r.value, name, role)
  {
    var f :- FeaturePreprocessing(s, name);
    Success(s.(perFeature := s.perFeature[name := f.(role := role)]))
  }

  /** Marks a feature as rejected. */
  function RejectFeature(s: Settings, name: string): (r: Result<Settings, Error>)
    ensures r.Failure? <==> name !in s.perFeature
    ensures r.Success? ==> OnlyRoleChanged(s, r.value, name, Reject)
    ensures r.Success? ==> FeaturePreprocessing(r.value, name).value.role == Reject
  {
    SetRole(s, name, Reject)
  }

  /** Marks a feature as an input of training. */
  function UseFeature(s: Settings, name: string): (r: Result<Settings, Error>)
    ensures r.Failure? <==> name !in s.perFeature
    ensures r.Success? ==> OnlyRoleChanged(s, r.value, name, Input)
    ensures r.Success? ==> FeaturePreprocessing(r.value, name).value.role == Input
  {
    SetRole(s, name, Input)
  }

  /** A role edit is an edit of the feature's entry through its reference. */
  lemma RoleEditIsEntryEdit(s: Settings, name: string, role: string)
    requires name in s.perFeature
    ensures SetRole(s, name, role) == UpdateFeaturePreprocessing(s, name, s.perFeature[name].(role := role))
  {
  }

  /** Rejecting an input feature and using it again gives back the original
      settings, and so does the reverse round trip. */
  lemma RoleEditsRoundTrip(s: Settings, name: string)
    requires name in s.perFeature
    ensures s.perFeature[name].role == Input ==> UseFeature(RejectFeature(s, name).value, name) == Success(s)
    ensures s.perFeature[name].role == Reject ==> RejectFeature(UseFeature(s, name).value, name) == Success(s)
  {
    var f := s.perFeature[name];
    assert s.perFeature[name := f.(role := Reject)][name := f] == s.perFeature;
    assert s.perFeature[name := f.(role := Input)][name := f] == s.perFeature;
  }

  // ---------------------------------------------------------------------------
  // Sample weighting

  /** The features whose role is WEIGHT. */
  function WeightFeatures(pf: map<string, Feature>): (r: set<string>)
    ensures forall k :: k in r <==> k in pf && pf[k].role == WeightRole
  {
    set k | k in pf && pf[k].role == WeightRole
  }

  /** At most one feature has role WEIGHT. */
  ghost predicate AtMostOneWeight(pf: map<string, Feature>)
  {
    forall a, b :: a in WeightFeatures(pf) && b in WeightFeatures(pf) ==> a == b
  }

  /** The weight record agrees with the feature roles: no WEIGHT feature
      without weighting, and exactly the sample weight variable as WEIGHT
      feature under sample weighting. */
  ghost predicate WeightConsistent(s: Settings)
  {
    && (s.weight.weightMethod == Some(NoWeighting) ==> WeightFeatures(s.perFeature) == {})
    && (s.weight.weightMethod == Some(SampleWeight) ==>
          && s.weight.sampleWeightVariable.Some?
          && WeightFeatures(s.perFeature) == {s.weight.sampleWeightVariable.value})
  }

  /** Turns weighting off; every WEIGHT feature goes back to INPUT. The
      sample weight variable is left as it was. */
  function RemoveSampleWeighting(s: Settings): (r: Settings)
    ensures r.weight == s.weight.(weightMethod := Some(NoWeighting))
    ensures r.perFeature.Keys == s.perFeature.Keys
    ensures WeightFeatures(r.perFeature) == {}
    ensures forall k :: k in s.perFeature && s.perFeature[k].role == WeightRole ==>
              r.perFeature[k] == s.perFeature[k].(role := Input)
    ensures forall k :: k in s.perFeature && s.perFeature[k].role != WeightRole ==>
              r.perFeature[k] == s.perFeature[k]
    ensures r == s.(weight := r.weight, perFeature := r.perFeature)
  {
    var pf := map k | k in s.perFeature ::
      if s.perFeature[k].role == WeightRole then s.perFeature[k].(role := Input) else s.perFeature[k];
    assert WeightFeatures(pf) == {} by {
      forall k | k in pf ensures pf[k].role != WeightRole {
      }
    }
    s.(weight := s.weight.(weightMethod := Some(NoWeighting)), perFeature := pf)
  }

  /** Uses a feature as sample weight. Weighting is first removed; only then
      is the name checked, so an unknown name raises with weighting already
      removed. */
  function UseSampleWeighting(s: Settings, name: string): (r: Applied)
    ensures r.outcome.Fail? <==> name !in s.perFeature
    ensures r.outcome.Fail? ==>
      r.outcome.error == UnknownWeightFeature(name) && r.settings == RemoveSampleWeighting(s)
    ensures r.outcome.Pass? ==>
      && WeightFeatures(r.settings.perFeature) == {name}
      && r.settings.weight == s.weight.(weightMethod := Some(SampleWeight), sampleWeightVariable := Some(name))
      && r.settings.perFeature.Keys == s.perFeature.Keys
      && r.settings.perFeature[name] == s.perFeature[name].(role := WeightRole)
      && (forall k :: k in s.perFeature && k != name ==>
            r.settings.perFeature[k] == RemoveSampleWeighting(s).perFeature[k])
      && r.settings == s.(weight := r.settings.weight, perFeature := r.settings.perFeature)
  {
    var reset := RemoveSampleWeighting(s);
    if name !in reset.perFeature then
      Applied(reset, Fail(UnknownWeightFeature(name)))
    else
      var pf := reset.perFeature[name := reset.perFeature[name].(role := WeightRole)];
      assert WeightFeatures(pf) == {name} by {
        forall k | k in pf && k != name ensures pf[k].role != WeightRole {
          assert k !in WeightFeatures(reset.perFeature);
        }
      }
      Applied(reset.(weight := reset.weight.(weightMethod := Some(SampleWeight), sampleWeightVariable := Some(name)),
                     perFeature := pf),
              Pass)
  }

  /** Removing weighting leaves consistent settings, and removing it again
      changes nothing. */
  lemma RemoveSampleWeightingSettles(s: Settings)
    ensures WeightConsistent(RemoveSampleWeighting(s))
    ensures RemoveSampleWeighting(RemoveSampleWeighting(s)) == RemoveSampleWeighting(s)
  {
    var r := RemoveSampleWeighting(s);
    assert r.perFeature == RemoveSampleWeighting(r).perFeature;
  }

  /** Whatever the starting settings (even several WEIGHT features), a
      successful weighting edit leaves consistent settings with exactly one
      WEIGHT feature. */
  lemma UseSampleWeightingEstablishesConsistency(s: Settings, name: string)
    requires name in s.perFeature
    ensures UseSampleWeighting(s, name).outcome.Pass?
    ensures WeightConsistent(UseSampleWeighting(s, name).settings)
    ensures AtMostOneWeight(UseSampleWeighting(s, name).settings.perFeature)
  {
  }

  /** Switching the weight to another feature turns the former weight
      feature into an INPUT feature, whatever its role was before it
      became the weight. */
  lemma SwitchingWeightFeature(s: Settings, a: string, b: string)
    requires a in s.perFeature && b in s.perFeature && a != b
    ensures var r := UseSampleWeighting(UseSampleWeighting(s, a).settings, b).settings;
      && WeightFeatures(r.perFeature) == {b}
      && r.perFeature[a] == s.perFeature[a].(role := Input)
      && r.weight.sampleWeightVariable == Some(b)
  {
  }

  /** Editing the role of a feature never creates a WEIGHT feature, and
      keeps the settings consistent as long as the feature is not the
      sample weight. */
  lemma RoleEditsPreserveWeighting(s: Settings, name: string)
    requires name in s.perFeature
    requires AtMostOneWeight(s.perFeature)
    ensures AtMostOneWeight(RejectFeature(s, name).value.perFeature)
    ensures AtMostOneWeight(UseFeature(s, name).value.perFeature)
    ensures WeightConsistent(s) && name !in WeightFeatures(s.perFeature) ==>
      WeightConsistent(RejectFeature(s, name).value) && WeightConsistent(UseFeature(s, name).value)
  {
    var rj, us := RejectFeature(s, name).value, UseFeature(s, name).value;
    assert WeightFeatures(rj.perFeature) == WeightFeatures(s.perFeature) - {name};
    assert WeightFeatures(us.perFeature) == WeightFeatures(s.perFeature) - {name};
  }

  /** Rejecting the feature that is the sample weight leaves sample
      weighting on with no WEIGHT feature: the settings are no longer
      consistent. */
  lemma RejectingWeightFeatureBreaksConsistency(s: Settings, name: string)
    requires name in s.perFeature
    requires WeightConsistent(s)
    requires s.weight.weightMethod == Some(SampleWeight) && s.weight.sampleWeightVariable == Some(name)
    ensures !WeightConsistent(RejectFeature(s, name).value)
  {
    var rj := RejectFeature(s, name).value;
    assert WeightFeatures(rj.perFeature) == WeightFeatures(s.perFeature) - {name};
  }

  // ---------------------------------------------------------------------------
  // Evaluation metric

  /** The default arguments of the metric setter. */
  const DefaultGreaterIsBetter: bool := true
  const DefaultUseProbas: bool := false

  /** Sets the evaluation metric: a named metric, or custom code (which wins
      over a named metric). Raises, writing nothing, when both are absent. */
  function SetMetric(s: Settings, metric: Option<string>, customMetric: Option<string>,
                     greaterIsBetter: bool, useProbas: bool): (r: Result<Settings, Error>)
    ensures r.Failure? <==> metric.None? && customMetric.None?
    ensures r.Failure? ==> r.error == MissingMetric
    ensures r.Success? ==>
      && r.value.metrics.evaluationMetric == (if customMetric.Some? then Some(CustomMetric) else metric)
      && r.value.metrics.customEvaluationMetricCode == customMetric
      && r.value.metrics.customEvaluationMetricGIB == Some(greaterIsBetter)
      && r.value.metrics.customEvaluationMetricNeedsProba == Some(useProbas)
      && r.value.metrics.others == s.metrics.others
      && r.value == s.(metrics := r.value.metrics)
  {
    if customMetric.None? && metric.None? then Failure(MissingMetric)
    else
      Success(s.(metrics := s.metrics.(
        evaluationMetric := if customMetric.None? then metric else Some(CustomMetric),
        customEvaluationMetricCode := customMetric,
        customEvaluationMetricGIB := Some(greaterIsBetter),
        customEvaluationMetricNeedsProba := Some(useProbas))))
  }

  /** After a successful call the evaluation metric is always set, and it
      reads CUSTOM exactly when custom code was given or the named metric is
      itself "CUSTOM". */
  lemma SetMetricDefinesEvaluationMetric(s: Settings, metric: Option<string>, customMetric: Option<string>,
                                         greaterIsBetter: bool, useProbas: bool)
    requires metric.Some? || customMetric.Some?
    ensures var r := SetMetric(s, metric, customMetric, greaterIsBetter, useProbas);
      && r.Success?
      && r.value.metrics.evaluationMetric.Some?
      && (r.value.metrics.evaluationMetric == Some(CustomMetric) <==>
            customMetric.Some? || metric == Some(CustomMetric))
  {
  }

  /** Custom code makes the named metric irrelevant. */
  lemma CustomMetricOverridesNamedMetric(s: Settings, metric: string, code: string,
                                         greaterIsBetter: bool, useProbas: bool)
    ensures SetMetric(s, Some(metric), Some(code), greaterIsBetter, useProbas)
         == SetMetric(s, None, Some(code), greaterIsBetter, useProbas)
  {
  }

  /** Setting the same metric twice is setting it once. */
  lemma SetMetricIdempotent(s: Settings, metric: Option<string>, customMetric: Option<string>,
                            greaterIsBetter: bool, useProbas: bool)
    requires metric.Some? || customMetric.Some?
    ensures SetMetric(SetMetric(s, metric, customMetric, greaterIsBetter, useProbas).value,
                      metric, customMetric, greaterIsBetter, useProbas)
         == SetMetric(s, metric, customMetric, greaterIsBetter, useProbas)
  {
  }

  // ---------------------------------------------------------------------------
  // Algorithm settings

  /** The settings of an algorithm, found under its remapped, lower-cased
      key; an unknown key raises. */
  function AlgorithmSettings(s: Settings, name: string): (r: Result<Algorithm, Error>)
    ensures var key := AlgorithmKey(KindOf(s.taskType), name);
      && (r.Success? <==> key in s.algorithms)
      && (r.Success? ==> r.value == s.algorithms[key])
      && (r.Failure? ==> r.error == KeyError(key))
  {
    var key := AlgorithmKey(KindOf(s.taskType), name);
    if key in s.algorithms then Success(s.algorithms[key]) else Failure(KeyError(key))
  }

  /** Enables or disables an algorithm; every other algorithm entry and
      every other parameter stays as it was. */
  function SetAlgorithmEnabled(s: Settings, name: string, enabled: bool): (r: Result<Settings, Error>)
    ensures r.Failure? <==> AlgorithmSettings(s, name).Failure?
    ensures r.Success? ==>
      var key := AlgorithmKey(KindOf(s.taskType), name);
      && AlgorithmSettings(r.value, name) == Success(s.algorithms[key].(enabled := enabled))
      && r.value.algorithms.Keys == s.algorithms.Keys
      && (forall k :: k in s.algorithms && k != key ==> r.value.algorithms[k] == s.algorithms[k])
      && r.value == s.(algorithms := r.value.algorithms)
  {
    var a :- AlgorithmSettings(s, name);
    var key := AlgorithmKey(KindOf(s.taskType), name);
    Success(s.(algorithms := s.algorithms[key := a.(enabled := enabled)]))
  }

  /** Saving an edit made through the entry `AlgorithmSettings` returns (a
      reference into the settings): the lookup raises as it does there, and
      otherwise the edited entry `a` replaces the one under the algorithm's
      key and nothing else changes. */
  function UpdateAlgorithmSettings(s: Settings, name: string, a: Algorithm): (r: Result<Settings, Error>)
    ensures r.Failure? <==> AlgorithmSettings(s, name).Failure?
    ensures r.Success? ==> AlgorithmSettings(r.value, name) == Success(a)
    ensures r.Success? ==>
      var key := AlgorithmKey(KindOf(s.taskType), name);
      && r.value.algorithms.Keys == s.algorithms.Keys
      && (forall k :: k in s.algorithms && k != key ==> r.value.algorithms[k] == s.algorithms[k])
      && r.value == s.(algorithms := r.value.algorithms)
  {
    var current :- AlgorithmSettings(s, name);
    Success(s.(algorithms := s.algorithms[AlgorithmKey(KindOf(s.taskType), name) := a]))
  }

  /** Toggling `enabled` is an edit of the algorithm's entry through its
      reference, and writing back the entry just read changes nothing. */
  lemma AlgorithmEditsAreEntryEdits(s: Settings, name: string, enabled: bool)
    requires AlgorithmSettings(s, name).Success?
    ensures SetAlgorithmEnabled(s, name, enabled)
         == UpdateAlgorithmSettings(s, name, AlgorithmSettings(s, name).value.(enabled := enabled))
    ensures UpdateAlgorithmSettings(s, name, AlgorithmSettings(s, name).value) == Success(s)
  {
    var key := AlgorithmKey(KindOf(s.taskType), name);
    assert s.algorithms[key := s.algorithms[key]] == s.algorithms;
  }

  /** In a prediction task, enabling or disabling one XGBoost name does the
      same to the other. */
  lemma XGBoostNamesToggleTogether(s: Settings, enabled: bool)
    requires KindOf(s.taskType) == Prediction
    requires "xgboost" in s.algorithms
    ensures var r := SetAlgorithmEnabled(s, "XGBOOST_CLASSIFICATION", enabled);
      && r.Success?
      && AlgorithmSettings(r.value, "XGBOOST_REGRESSION").Success?
      && AlgorithmSettings(r.value, "XGBOOST_REGRESSION").value.enabled == enabled
  {
    XGBoostNamesShareKey();
  }

  // ---------------------------------------------------------------------------
  // Per-feature rewrite

  /** Whether `foreach_feature` hands feature `f` to the function: not the
      target, and of the requested type when one is given. */
  predicate Selected(f: Feature, onlyOfType: Option<string>)
  {
    f.role != Target && (onlyOfType.None? || f.featureType == onlyOfType.value)
  }

  /** `order` lists the features of `pf`: the order a Python mapping
      iterates in, which a Dafny map does not carry. */
  ghost predicate ListsKeys(order: seq<string>, pf: map<string, Feature>)
  {
    forall k :: k in order <==> k in pf
  }

  /** The per-feature rewrite as the client performs it: every feature is
      visited, in `order`, and the mapping is rebuilt from the selected ones
      only, each replaced by `fn`'s result; the target and features of
      another type are dropped. The first call of `fn` that raises aborts
      the rewrite with its error, before anything is written. */
  function ForeachFeature(pf: map<string, Feature>, fn: (string, Feature) -> Result<Feature, Error>,
                          onlyOfType: Option<string>, order: seq<string>)
    : (r: Result<map<string, Feature>, Error>)
    requires ListsKeys(order, pf)
    ensures r.Success? <==> forall k :: k in pf && Selected(pf[k], onlyOfType) ==> fn(k, pf[k]).Success?
    ensures r.Failure? ==> exists i :: FirstFailureAt(pf, fn, onlyOfType, order, i, r.error)
    ensures r.Success? ==> forall k :: k in r.value <==> k in pf && Selected(pf[k], onlyOfType)
    ensures r.Success? ==> forall k :: k in r.value ==> fn(k, pf[k]) == Success(r.value[k])
    ensures r.Success? ==> forall k :: k in pf && pf[k].role == Target ==> k !in r.value
  {
    RewriteVisited(pf, fn, onlyOfType, order)
  }

  /** The loop of the rewrite, over the features `order` still to visit. */
  function RewriteVisited(pf: map<string, Feature>, fn: (string, Feature) -> Result<Feature, Error>,
                          onlyOfType: Option<string>, order: seq<string>)
    : (r: Result<map<string, Feature>, Error>)
    requires forall k :: k in order ==> k in pf
    ensures r.Success? <==>
      forall i :: 0 <= i < |order| && Selected(pf[order[i]], onlyOfType) ==> fn(order[i], pf[order[i]]).Success?
    ensures r.Failure? ==> exists i :: FirstFailureAt(pf, fn, onlyOfType, order, i, r.error)
    ensures r.Success? ==> forall k :: k in r.value <==> k in order && Selected(pf[k], onlyOfType)
    ensures r.Success? ==> forall k :: k in r.value ==> fn(k, pf[k]) == Success(r.value[k])
    ensures r.Success? ==> forall k :: k in pf && pf[k].role == Target ==> k !in r.value
    decreases |order|
  {
    if order == [] then Success(map[])
    else
      var k := order[0];
      if Selected(pf[k], onlyOfType) && fn(k, pf[k]).Failure? then
        assert FirstFailureAt(pf, fn, onlyOfType, order, 0, fn(k, pf[k]).error);
        Failure(fn(k, pf[k]).error)
      else
        var rest := RewriteVisited(pf, fn, onlyOfType, order[1..]);
        if rest.Failure? then
          FirstFailureOfTail(pf, fn, onlyOfType, order, rest.error);
          rest
        else if Selected(pf[k], onlyOfType) then Success(rest.value[k := fn(k, pf[k]).value])
        else rest
  }

  /** Whether the `i`-th visited feature is the first whose rewrite raises,
      and raises `e`. */
  ghost predicate FirstFailureAt(pf: map<string, Feature>, fn: (string, Feature) -> Result<Feature, Error>,
                                 onlyOfType: Option<string>, order: seq<string>, i: int, e: Error)
    requires forall k :: k in order ==> k in pf
  {
    && 0 <= i < |order| && Selected(pf[order[i]], onlyOfType)
    && fn(order[i], pf[order[i]]) == Failure(e)
    && forall j :: 0 <= j < i && Selected(pf[order[j]], onlyOfType) ==> fn(order[j], pf[order[j]]).Success?
  }

  /** When the first feature's rewrite does not raise, the first failure
      among the rest is the first failure overall. */
  lemma FirstFailureOfTail(pf: map<string, Feature>, fn: (string, Feature) -> Result<Feature, Error>,
                           onlyOfType: Option<string>, order: seq<string>, e: Error)
    requires forall k :: k in order ==> k in pf
    requires order != [] && !(Selected(pf[order[0]], onlyOfType) && fn(order[0], pf[order[0]]).Failure?)
    requires exists i :: FirstFailureAt(pf, fn, onlyOfType, order[1..], i, e)
    ensures exists i :: FirstFailureAt(pf, fn, onlyOfType, order, i, e)
  {
    var i :| FirstFailureAt(pf, fn, onlyOfType, order[1..], i, e);
    assert FirstFailureAt(pf, fn, onlyOfType, order, i + 1, e);
  }

  /** The rewrite the documentation describes: `fn` applies to the selected
      features, and every other feature stays in the mapping unchanged. A
      raising `fn` aborts it just as it aborts the rewrite as written. */
  function ForeachFeatureIntended(pf: map<string, Feature>, fn: (string, Feature) -> Result<Feature, Error>,
                                  onlyOfType: Option<string>, order: seq<string>)
    : (r: Result<map<string, Feature>, Error>)
    requires ListsKeys(order, pf)
    ensures r.Success? <==> forall k :: k in pf && Selected(pf[k], onlyOfType) ==> fn(k, pf[k]).Success?
    ensures r.Success? ==> r.value.Keys == pf.Keys
    ensures r.Success? ==> forall k :: k in pf && Selected(pf[k], onlyOfType) ==> fn(k, pf[k]) == Success(r.value[k])
    ensures r.Success? ==> forall k :: k in pf && !Selected(pf[k], onlyOfType) ==> r.value[k] == pf[k]
  {
    var rewritten := ForeachFeature(pf, fn, onlyOfType, order);
    if rewritten.Failure? then
      assert exists k :: k in pf && Selected(pf[k], onlyOfType) && !fn(k, pf[k]).Success?;
      Failure(rewritten.error)
    else
      Success(map k | k in pf :: if k in rewritten.value then rewritten.value[k] else pf[k])
  }

  /** `foreach_feature` on the task's settings: only `per_feature` changes,
      and a raising `fn` leaves the settings as they were. */
  function ForeachFeatureOfTask(s: Settings, fn: (string, Feature) -> Result<Feature, Error>,
                                onlyOfType: Option<string>, order: seq<string>)
    : (r: Result<Settings, Error>)
    requires ListsKeys(order, s.perFeature)
    ensures r.Success? <==>
      forall k :: k in s.perFeature && Selected(s.perFeature[k], onlyOfType) ==> fn(k, s.perFeature[k]).Success?
    ensures r.Success? ==> r.value == s.(perFeature := r.value.perFeature)
    ensures r.Success? ==>
      forall k :: k in r.value.perFeature <==> k in s.perFeature && Selected(s.perFeature[k], onlyOfType)
    ensures r.Success? ==>
      forall k :: k in r.value.perFeature ==> fn(k, s.perFeature[k]) == Success(r.value.perFeature[k])
  {
    var pf :- ForeachFeature(s.perFeature, fn, onlyOfType, order);
    Success(s.(perFeature := pf))
  }

  /** The rewrite that hands every feature back as it is. */
  function KeepFeature(name: string, f: Feature): Result<Feature, Error>
  {
    Success(f)
  }

  /** The identity function as rewrite: as written, the rewrite loses the
      target and every unselected feature; the intended rewrite changes
      nothing. */
  lemma ForeachFeatureIdentity(pf: map<string, Feature>, onlyOfType: Option<string>, order: seq<string>)
    requires ListsKeys(order, pf)
    ensures ForeachFeatureIntended(pf, KeepFeature, onlyOfType, order) == Success(pf)
    ensures ForeachFeature(pf, KeepFeature, onlyOfType, order) == Success(pf) <==>
              forall k :: k in pf ==> Selected(pf[k], onlyOfType)
  {
    var r := ForeachFeature(pf, KeepFeature, onlyOfType, order);
    assert r.Success?;
    forall k | k in r.value ensures r.value[k] == pf[k] {
      assert KeepFeature(k, pf[k]) == Success(r.value[k]);
    }
    if forall k :: k in pf ==> Selected(pf[k], onlyOfType) {
      assert r.value.Keys == pf.Keys;
      assert r.value == pf;
    } else {
      var k :| k in pf && !Selected(pf[k], onlyOfType);
      assert k !in r.value && k in pf;
      assert r != Success(pf);
    }
    var t := ForeachFeatureIntended(pf, KeepFeature, onlyOfType, order);
    assert t.Success?;
    forall k | k in pf ensures t.value[k] == pf[k] {
      if Selected(pf[k], onlyOfType) {
        assert KeepFeature(k, pf[k]) == Success(t.value[k]);
      }
    }
    assert t.value == pf;
  }

  /** A concrete task where the two disagree: a target feature "y" and an
      input feature "x"; the rewrite as written drops "y" and so removes
      the task's target. */
  lemma ForeachFeatureDropsTarget()
    ensures var pf := map["y" := Feature(Target, "NUMERIC", map[]), "x" := Feature(Input, "NUMERIC", map[])];
      && "y" !in ForeachFeature(pf, KeepFeature, None, ["y", "x"]).value
      && ForeachFeatureIntended(pf, KeepFeature, None, ["y", "x"]).value["y"].role == Target
  {
  }

  /** The two fail together, with the same error, and on every key the
      as-written rewrite keeps, they agree. */
  lemma ForeachFeatureAgreesOnSelected(pf: map<string, Feature>, fn: (string, Feature) -> Result<Feature, Error>,
                                       onlyOfType: Option<string>, order: seq<string>)
    requires ListsKeys(order, pf)
    ensures var r := ForeachFeature(pf, fn, onlyOfType, order);
      && r.Failure? == ForeachFeatureIntended(pf, fn, onlyOfType, order).Failure?
      && (r.Failure? ==> ForeachFeatureIntended(pf, fn, onlyOfType, order).error == r.error)
      && (r.Success? ==> forall k :: k in r.value ==> r.value[k] == ForeachFeatureIntended(pf, fn, onlyOfType, order).value[k])
  {
  }
}
