/** Read-side shaping of a trained model: the performance-metrics view of
    its snippet (the snippet without the training bookkeeping keys), the
    cluster facts of a clustering model, and the choice between the
    prediction and the clustering variant of the details. */
module TrainedModelDetails {
  import opened Wrappers
  import opened JsonValues
  import opened Lists

  /** Snippet keys that are bookkeeping of the training run, not metrics. */
  const PredictionBookkeeping: seq<string> := [
    "gridsearchData", "trainDate", "topImportance", "backendType", "userMeta", "sessionDate",
    "trainInfo", "fullModelId", "gridLength", "algorithm", "sessionId"]

  const ClusteringBookkeeping: seq<string> := [
    "fullModelId", "algorithm", "trainInfo", "userMeta", "backendType", "sessionId", "sessionDate", "facts"]

  /** The details of a trained model with its snippet, in one of the two
      variants. */
  datatype ModelDetails =
    | PredictionDetails(details: map<string, Json>, snippet: map<string, Json>)
    | ClusteringDetails(details: map<string, Json>, snippet: map<string, Json>)

  function Bookkeeping(d: ModelDetails): seq<string>
  {
    match d
    case PredictionDetails(_, _) => PredictionBookkeeping
    case ClusteringDetails(_, _) => ClusteringBookkeeping
  }

  /** Deletes each listed key that is present, one after the other. */
  function StripKeys(m: map<string, Json>, keys: seq<string>): (r: map<string, Json>)
    ensures forall k :: k in r <==> k in m && k !in keys
    ensures forall k :: k in r ==> r[k] == m[k]
    decreases |keys|
  {
    if keys == [] then m
    else StripKeys(if keys[0] in m then m - {keys[0]} else m, keys[1..])
  }

  /** The performance metrics of a model: its snippet without the
      bookkeeping keys of its variant, every other entry as it is. */
  function PerformanceMetrics(d: ModelDetails): (r: map<string, Json>)
    ensures forall k :: k in r <==> k in d.snippet && k !in Bookkeeping(d)
    ensures forall k :: k in r ==> r[k] == d.snippet[k]
  {
    StripKeys(d.snippet, Bookkeeping(d))
  }

  /** The metrics view depends only on the non-bookkeeping part of the
      snippet: two snippets that agree there give the same view. */
  lemma MetricsIgnoreBookkeeping(d1: ModelDetails, d2: ModelDetails)
    requires d1.PredictionDetails? == d2.PredictionDetails?
    requires forall k :: k !in Bookkeeping(d1) ==> (k in d1.snippet <==> k in d2.snippet)
    requires forall k :: k !in Bookkeeping(d1) && k in d1.snippet ==> d1.snippet[k] == d2.snippet[k]
    ensures PerformanceMetrics(d1) == PerformanceMetrics(d2)
  {
  }

  /** The metrics view holds no bookkeeping key, so stripping again changes
      nothing. */
  lemma MetricsViewIsStripped(d: ModelDetails)
    ensures StripKeys(PerformanceMetrics(d), Bookkeeping(d)) == PerformanceMetrics(d)
  {
    StripKeysIdempotent(d.snippet, Bookkeeping(d));
  }

  lemma StripKeysIdempotent(m: map<string, Json>, keys: seq<string>)
    ensures StripKeys(StripKeys(m, keys), keys) == StripKeys(m, keys)
  {
    var once := StripKeys(m, keys);
    assert StripKeys(once, keys).Keys == once.Keys;
  }

  /** The two variants strip different keys: "facts" is bookkeeping only for
      clustering models, and "trainDate" only for prediction models. */
  lemma VariantsStripDifferentKeys(details: map<string, Json>, snippet: map<string, Json>)
    requires "facts" in snippet && "trainDate" in snippet
    ensures "facts" in PerformanceMetrics(PredictionDetails(details, snippet))
    ensures "facts" !in PerformanceMetrics(ClusteringDetails(details, snippet))
    ensures "trainDate" !in PerformanceMetrics(PredictionDetails(details, snippet))
    ensures "trainDate" in PerformanceMetrics(ClusteringDetails(details, snippet))
  {
    assert "facts" !in PredictionBookkeeping;
    assert "trainDate" !in ClusteringBookkeeping;
  }

  /** The variant of fetched details: clustering exactly when they carry
      cluster facts. */
  function DetailsFor(details: map<string, Json>, snippet: map<string, Json>): (r: ModelDetails)
    ensures r.ClusteringDetails? <==> "facts" in details
    ensures r.details == details && r.snippet == snippet
  {
    if "facts" in details then ClusteringDetails(details, snippet) else PredictionDetails(details, snippet)
  }

  /** The cluster facts of a clustering model. */
  function Facts(d: ModelDetails): (r: Result<Json, Error>)
    requires d.ClusteringDetails?
    ensures r.Success? <==> "facts" in d.details
    ensures r.Success? ==> r.value == d.details["facts"]
  {
    if "facts" in d.details then Success(d.details["facts"]) else Failure(KeyError("facts"))
  }

  /** Reading the facts of details dispatched as clustering never fails. */
  lemma DispatchedClusteringHasFacts(details: map<string, Json>, snippet: map<string, Json>)
    requires DetailsFor(details, snippet).ClusteringDetails?
    ensures Facts(DetailsFor(details, snippet)) == Success(details["facts"])
  {
  }

  /** The facts value of the cluster at `clusterIndex`, whatever its shape
      (Python indexing, so a negative index counts from the last cluster).
      It raises unless `clusters` is a list, the index is in range and that
      cluster is a mapping with "facts". */
  function FactsForCluster(clustersFacts: Json, clusterIndex: int): (r: Result<Json, Error>)
    ensures r.Success? <==>
      && Index(clustersFacts, "clusters").Success?
      && Index(clustersFacts, "clusters").value.JArray?
      && var clusters := Index(clustersFacts, "clusters").value.items;
         && -|clusters| <= clusterIndex < |clusters|
         && var cluster := clusters[if clusterIndex < 0 then |clusters| + clusterIndex else clusterIndex];
            cluster.JObject? && "facts" in cluster.fields
    ensures r.Success? ==>
      var clusters := clustersFacts.fields["clusters"].items;
      r.value == clusters[if clusterIndex < 0 then |clusters| + clusterIndex else clusterIndex].fields["facts"]
  {
    var clusters :- Index(clustersFacts, "clusters");
    if !clusters.JArray? then Failure(TypeError("clusters"))
    else
      var cluster :- At(clusters.items, clusterIndex);
      Index(cluster, "facts")
  }

  /** Whether a fact is about feature `name`; a fact without a label raises. */
  function LabelIs(name: string, fact: Json): Result<bool, Error>
  {
    var featureLabel :- Index(fact, "feature_label");
    Success(featureLabel == JString(name))
  }

  /** The facts of one cluster that concern one feature, in their order. A
      facts value that is an empty mapping or string yields no facts, as
      Python's comprehension over it does. */
  function FactsForClusterAndFeature(clustersFacts: Json, clusterIndex: int, name: string)
    : (r: Result<seq<Json>, Error>)
    ensures r.Success? <==>
      && FactsForCluster(clustersFacts, clusterIndex).Success?
      && var facts := FactsForCluster(clustersFacts, clusterIndex).value;
         && (facts.JArray? || facts == JObject(map[]) || facts == JString(""))
         && (facts.JArray? ==> forall x :: x in facts.items ==> Index(x, "feature_label").Success?)
    ensures r.Success? ==>
      var facts := FactsForCluster(clustersFacts, clusterIndex).value;
      var all := if facts.JArray? then facts.items else [];
      && IsSubseq(r.value, all)
      && (forall x :: x in r.value ==> x in all && Index(x, "feature_label") == Success(JString(name)))
      && (forall x :: x in all && Index(x, "feature_label") == Success(JString(name)) ==>
            multiset(r.value)[x] == multiset(all)[x])
  {
    var facts :- FactsForCluster(clustersFacts, clusterIndex);
    var all :- Elements(facts, "facts");
    FilterOrFail(all, x => LabelIs(name, x))
  }

  /** Facts about two different features never overlap. */
  lemma FeatureFactsDisjoint(clustersFacts: Json, clusterIndex: int, a: string, b: string)
    requires a != b
    requires FactsForClusterAndFeature(clustersFacts, clusterIndex, a).Success?
    ensures var fa := FactsForClusterAndFeature(clustersFacts, clusterIndex, a).value;
            var fb := FactsForClusterAndFeature(clustersFacts, clusterIndex, b).value;
      forall x :: x in fa ==> x !in fb
  {
  }
}
