/** How an algorithm name given by the caller becomes a key of the task's
    `modeling` mapping: the task type's static remap table is consulted first,
    then the name is lower-cased. */
module AlgorithmRemap {

  /** Which settings variant the client builds for a task. */
  datatype TaskKind = Prediction | Clustering

  /** The settings variant is chosen from the task type the server reports:
      "PREDICTION", and clustering for every other value. */
  function KindOf(taskType: string): (k: TaskKind)
    ensures k == Prediction <==> taskType == "PREDICTION"
  {
    if taskType == "PREDICTION" then Prediction else Clustering
  }

  const PredictionRemap: map<string, string> := map[
    "SVC_CLASSIFICATION" := "svc_classifier",
    "SGD_CLASSIFICATION" := "sgd_classifier",
    "SPARKLING_DEEP_LEARNING" := "deep_learning_sparkling",
    "SPARKLING_GBM" := "gbm_sparkling",
    "SPARKLING_RF" := "rf_sparkling",
    "SPARKLING_GLM" := "glm_sparkling",
    "SPARKLING_NB" := "nb_sparkling",
    "XGBOOST_CLASSIFICATION" := "xgboost",
    "XGBOOST_REGRESSION" := "xgboost",
    "MLLIB_LOGISTIC_REGRESSION" := "mllib_logit",
    "MLLIB_LINEAR_REGRESSION" := "mllib_linreg",
    "MLLIB_RANDOM_FOREST" := "mllib_rf"
  ]

  const ClusteringRemap: map<string, string> := map[
    "DBSCAN" := "db_scan_clustering"
  ]

  function Remap(kind: TaskKind): map<string, string>
  {
    match kind
    case Prediction => PredictionRemap
    case Clustering => ClusteringRemap
  }

  /** Python `str.lower()` on one character, for the ASCII letters. */
  function LowerChar(c: char): char
  {
    if 'A' <= c <= 'Z' then (c as int + 32) as char else c
  }

  predicate IsUpperChar(c: char)
  {
    'A' <= c <= 'Z'
  }

  /** No upper-case ASCII letter occurs in `s`. */
  predicate IsLowerCase(s: string)
  {
    forall i :: 0 <= i < |s| ==> !IsUpperChar(s[i])
  }

  /** Python `str.lower()`: every character lower-cased, nothing else. */
  function Lower(s: string): (r: string)
    ensures |r| == |s|
    ensures forall i :: 0 <= i < |s| ==> r[i] == LowerChar(s[i])
    ensures IsLowerCase(r)
  {
    if s == [] then [] else [LowerChar(s[0])] + Lower(s[1..])
  }

  /** The `modeling` key looked up for `name`. */
  function AlgorithmKey(kind: TaskKind, name: string): (key: string)
    ensures IsLowerCase(key)
    ensures name in Remap(kind) ==> key == Lower(Remap(kind)[name])
    ensures name !in Remap(kind) ==> key == Lower(name)
  {
    var remapped := if name in Remap(kind) then Remap(kind)[name] else name;
    Lower(remapped)
  }

  /** Lower-casing twice is lower-casing once. */
  lemma LowerIdempotent(s: string)
    ensures Lower(Lower(s)) == Lower(s)
  {
  }

  /** A lower-case string is its own lower-case form. */
  lemma LowerOfLowerCase(s: string)
    requires IsLowerCase(s)
    ensures Lower(s) == s
  {
  }

  /** Every remap key starts with an upper-case letter, so no lower-case
      string is a remap key. */
  lemma RemapKeysAreUpperCase(kind: TaskKind, name: string)
    requires name in Remap(kind)
    ensures !IsLowerCase(name)
  {
    assert IsUpperChar(name[0]);
  }

  /** Every remap target is already lower-case, so the remapped name is the
      key verbatim. */
  lemma {:induction false} RemapTargetsAreKeys(kind: TaskKind, name: string)
    requires name in Remap(kind)
    ensures AlgorithmKey(kind, name) == Remap(kind)[name]
  {
    var v := Remap(kind)[name];
    assert IsLowerCase(v) by {
      assert v in {"svc_classifier", "sgd_classifier", "deep_learning_sparkling", "gbm_sparkling", "rf_sparkling",
                   "glm_sparkling", "nb_sparkling", "xgboost", "mllib_logit", "mllib_linreg", "mllib_rf",
                   "db_scan_clustering"};
    }
    LowerOfLowerCase(v);
  }

  /** Names outside the remap table are looked up case-insensitively: the
      lower-case spelling of a name finds the same key. */
  lemma UnmappedLookupIgnoresCase(kind: TaskKind, name: string)
    requires name !in Remap(kind)
    ensures AlgorithmKey(kind, Lower(name)) == AlgorithmKey(kind, name)
  {
    if Lower(name) in Remap(kind) {
      RemapKeysAreUpperCase(kind, Lower(name));
    }
    LowerIdempotent(name);
  }

  /** The remap table is case-sensitive: the lower-case spelling of a
      remapped name is not itself remapped, so unless the remap target
      happens to be that spelling, it reaches another key. */
  lemma RemapIsCaseSensitive(kind: TaskKind, name: string)
    requires name in Remap(kind)
    requires Remap(kind)[name] != Lower(name)
    ensures AlgorithmKey(kind, Lower(name)) != AlgorithmKey(kind, name)
  {
    RemapTargetsAreKeys(kind, name);
    if Lower(name) in Remap(kind) {
      RemapKeysAreUpperCase(kind, Lower(name));
    }
    LowerIdempotent(name);
  }

  /** The two XGBoost names of a prediction task share one settings entry. */
  lemma XGBoostNamesShareKey()
    ensures AlgorithmKey(Prediction, "XGBOOST_CLASSIFICATION") == AlgorithmKey(Prediction, "XGBOOST_REGRESSION")
         == "xgboost"
  {
    RemapTargetsAreKeys(Prediction, "XGBOOST_CLASSIFICATION");
    RemapTargetsAreKeys(Prediction, "XGBOOST_REGRESSION");
  }

  lemma DBSCANLowerCased()
    ensures AlgorithmKey(Prediction, "DBSCAN") == "dbscan"
  {
    assert "DBSCAN" !in PredictionRemap;
    assert Lower("DBSCAN") == "dbscan";
  }

  lemma ClusteringIsNotPrediction()
    ensures KindOf("CLUSTERING") == Clustering
  {
    assert "CLUSTERING"[0] != "PREDICTION"[0];
  }

  /** The clustering table is consulted only for clustering tasks: "DBSCAN"
      is remapped there, but a prediction task merely lower-cases it. */
  lemma DBSCANRemappedOnlyForClustering()
    ensures AlgorithmKey(KindOf("CLUSTERING"), "DBSCAN") == "db_scan_clustering"
    ensures AlgorithmKey(KindOf("PREDICTION"), "DBSCAN") == "dbscan"
  {
    ClusteringIsNotPrediction();
    RemapTargetsAreKeys(Clustering, "DBSCAN");
    DBSCANLowerCased();
  }
}
