# ML task settings and trained-model shaping, modelled in Dafny

This project models the local logic of the ML-task client in
`dataikuapi/dss/ml.py` of the DSS Python API client. The client talks to the
DSS "lab" over HTTP, and almost all of that is glue. The part worth modelling is
the set of deterministic edits the client makes to a task's settings record
before saving it, plus the shaping it does on values read back from the server:

- **Split handler** (`PredictionSplitParamsHandler`, module `SplitHandler`).
  It has three writers into `splitParams`: random, k-fold, and explicit over
  one dataset or two.
- **Task settings edits** (`DSSMLTaskSettings`, module `TaskSettings`). These
  cover feature roles, sample weighting, the evaluation metric, per-algorithm
  `enabled` flags and the per-feature rewrite `foreach_feature`.
- **Algorithm names** (module `AlgorithmRemap`). Each task type has a static
  remap table. A name goes through that table and is then lower-cased to give
  its key under `modeling`. The task type the server reports selects the
  table.
- **Trained-model shaping** (module `TrainedModelDetails`). This covers the
  performance-metrics view of a snippet, the prediction-vs-clustering choice
  of details, and the cluster-facts lookups.
- **Model listing** (module `MLTask`). This is the session filter applied to
  the `fullModelIds` of a task status.

Every edit is a pure function from old settings to new settings. An edit that
raises before it writes anything returns `Failure`, and the caller keeps the
old settings, just as the Python object is left untouched. `use_sample_weighting`
is different: it raises only after it has removed weighting. So it returns an
`Applied` record that holds both the new settings and the outcome. Settings
are typed records, so a key that may be absent is an `Option`. Values the
server hands back without a fixed shape are a small `Json` datatype, and the
Python lookups `d[k]`, `d.get(k, default)` and list indexing (negative indices
included) are modelled on it with their raising cases. A selection or filter
argument is either raw or a builder. A builder is represented by the value its
`build()` returns (`JsonValues.Arg`).

Where the code departs from what the methods' documentation suggests, the model follows the code:

- `set_metric` accepts a metric name and custom code together. The custom
  code wins. It does not demand exactly one of the two.
- `foreach_feature` drops the target and, with a type filter, every feature of
  another type. It does not leave them in place (see Findings).
- `set_split_explicit` documents a missing `dataset_name` as "use the main
  dataset". The code raises instead (ml.py:72-73), and so does
  `SetSplitExplicit`.
- `set_split_explicit` documents a missing selection or filter as "won't be
  changed". The code installs fresh train and test extracts (ml.py:75-86), so
  an earlier selection or filter of that shape is erased. `SetSplitExplicit`
  states this: a missing argument leaves the key out of the fresh extract.
- `set_split_random` and `set_split_kfold` document a missing `dataset_name`
  as "the main dataset". The code writes nothing then (ml.py:35-36, 57-58), so
  a name set by an earlier call stays in force. The two writers keep
  `ssdDatasetSmartName` as it was.

## Model

| member | source | states |
|---|---|---|
| SplitHandler.SetSplitRandom | dataikuapi/dss/ml.py:16-36 | policy SPLIT_SINGLE_DATASET, kfold false, the ratio stored; selection and dataset name overwrite only when given; no other key changes |
| SplitHandler.SetSplitKfold | dataikuapi/dss/ml.py:38-58 | policy SPLIT_SINGLE_DATASET, kfold true, the fold count stored; selection and dataset name overwrite only when given; the training ratio and every other key survive |
| SplitHandler.SetSplitExplicit | dataikuapi/dss/ml.py:60-108 | fails with the missing-dataset error, writing nothing, exactly when no dataset name is given; a missing or equal test dataset gives the single-dataset shape (dataset name plus fresh train/test extracts), a different one the two-dataset shape naming each dataset; selection/filter appear in an extract only when given, so an earlier one is not kept; the other shape's keys and every random/k-fold key are untouched |
| SplitHandler.RandomSplitReadsBack | dataikuapi/dss/ml.py:24-36 | after a random split, the settings denote that random split whatever was configured before |
| SplitHandler.KFoldSplitReadsBack | dataikuapi/dss/ml.py:46-58 | after a k-fold split, the settings denote that k-fold split whatever was configured before |
| SplitHandler.ExplicitSplitReadsBack | dataikuapi/dss/ml.py:71-108 | a successful explicit split denotes the single-dataset mode iff the test dataset is absent or equal, and the two-dataset mode with both names otherwise |
| SplitHandler.SplitWritersIdempotent | dataikuapi/dss/ml.py:16-58 | writing the same random or k-fold split twice equals writing it once |
| SplitHandler.SwitchingModesKeepsOtherModesKeys | dataikuapi/dss/ml.py:24-58 | k-fold, then random, then k-fold again yields the k-fold record carrying the random split's ratio: neither writer clears the other's key |
| AlgorithmRemap.KindOf | dataikuapi/dss/ml.py:550-553 | a task is treated as prediction iff its type is "PREDICTION", as clustering otherwise |
| AlgorithmRemap.Lower | dataikuapi/dss/ml.py:220 | lower-casing keeps the length and lower-cases each character, so the result has no upper-case letter |
| AlgorithmRemap.AlgorithmKey | dataikuapi/dss/ml.py:217-220 | the lookup key is the lower-cased remap target for a remapped name and the lower-cased name otherwise; it is always lower-case |
| AlgorithmRemap.LowerIdempotent | dataikuapi/dss/ml.py:220 | lower-casing twice equals lower-casing once |
| AlgorithmRemap.LowerOfLowerCase | dataikuapi/dss/ml.py:220 | a string with no upper-case letter is its own lower-case form |
| AlgorithmRemap.RemapKeysAreUpperCase | dataikuapi/dss/ml.py:255-274 | no remap key is a lower-case string |
| AlgorithmRemap.RemapTargetsAreKeys | dataikuapi/dss/ml.py:255-274 | every remap target is already lower-case, so a remapped name's key is its target verbatim |
| AlgorithmRemap.UnmappedLookupIgnoresCase | dataikuapi/dss/ml.py:217-220 | for a name outside the table, its lower-case spelling finds the same key |
| AlgorithmRemap.RemapIsCaseSensitive | dataikuapi/dss/ml.py:217-218 | the lower-case spelling of a remapped name is not remapped and reaches a different key whenever the target differs from that spelling |
| AlgorithmRemap.XGBoostNamesShareKey | dataikuapi/dss/ml.py:263-264 | XGBOOST_CLASSIFICATION and XGBOOST_REGRESSION both reach the key "xgboost" |
| AlgorithmRemap.DBSCANRemappedOnlyForClustering | dataikuapi/dss/ml.py:270-274 | "DBSCAN" reaches db_scan_clustering in a clustering task but only "dbscan" in a prediction task |
| TaskSettings.FeaturePreprocessing | dataikuapi/dss/ml.py:142-150 | the entry of a known feature; an unknown feature raises a key error |
| TaskSettings.RejectFeature | dataikuapi/dss/ml.py:169-174 | fails iff the feature is unknown; otherwise only that feature's role changes, to REJECT, with its type, parameters, every other feature and every other setting unchanged |
| TaskSettings.UseFeature | dataikuapi/dss/ml.py:176-181 | fails iff the feature is unknown; otherwise only that feature's role changes, to INPUT |
| TaskSettings.UpdateFeaturePreprocessing | dataikuapi/dss/ml.py:142-150 | an edit saved through the returned entry: fails with a key error iff the feature is unknown; otherwise the entry reads back as the edited one and every other feature and setting is unchanged |
| TaskSettings.UnchangedFeatureWriteBack | dataikuapi/dss/ml.py:142-150 | writing back the entry just read leaves the settings as they were |
| TaskSettings.RoleEditIsEntryEdit | dataikuapi/dss/ml.py:169-181 | reject and use are edits of the feature's entry that change only its role |
| TaskSettings.RoleEditsRoundTrip | dataikuapi/dss/ml.py:169-181 | rejecting an INPUT feature and using it again gives back the original settings, and the reverse for a REJECT feature |
| TaskSettings.RemoveSampleWeighting | dataikuapi/dss/ml.py:196-203 | weight method NO_WEIGHTING, no WEIGHT feature left, former WEIGHT features become INPUT, all other features and roles unchanged, the sample weight variable kept |
| TaskSettings.UseSampleWeighting | dataikuapi/dss/ml.py:183-193 | fails iff the feature is unknown, and then the settings equal those after removing weighting; on success the named feature is the only WEIGHT feature, the method is SAMPLE_WEIGHT and the variable is the name |
| TaskSettings.RemoveSampleWeightingSettles | dataikuapi/dss/ml.py:196-203 | after removal the weight record agrees with the roles, and removing again changes nothing |
| TaskSettings.UseSampleWeightingEstablishesConsistency | dataikuapi/dss/ml.py:183-193 | from any settings, even with several WEIGHT features, a known name yields consistent settings with at most one WEIGHT feature |
| TaskSettings.SwitchingWeightFeature | dataikuapi/dss/ml.py:183-203 | moving the weight from a to b makes b the only WEIGHT feature and a an INPUT feature, whatever a's role was before |
| TaskSettings.RoleEditsPreserveWeighting | dataikuapi/dss/ml.py:169-181 | rejecting or using a feature never creates a WEIGHT feature, and keeps the weighting consistent unless the feature is the weight |
| TaskSettings.RejectingWeightFeatureBreaksConsistency | dataikuapi/dss/ml.py:169-174 | rejecting the sample-weight feature leaves sample weighting on with no WEIGHT feature |
| TaskSettings.SetMetric | dataikuapi/dss/ml.py:230-244 | fails, writing nothing, iff both metric and custom code are absent; otherwise the evaluation metric is CUSTOM when custom code is given and the named metric when not, the custom code is stored verbatim (absent included), the two flags equal their arguments, and the other metric keys are unchanged |
| TaskSettings.SetMetricDefinesEvaluationMetric | dataikuapi/dss/ml.py:239-244 | after success the evaluation metric is always set, and reads CUSTOM iff custom code was given or the named metric is "CUSTOM" |
| TaskSettings.CustomMetricOverridesNamedMetric | dataikuapi/dss/ml.py:241 | with custom code given, the named metric has no effect |
| TaskSettings.SetMetricIdempotent | dataikuapi/dss/ml.py:239-244 | setting the same metric twice equals setting it once |
| TaskSettings.AlgorithmSettings | dataikuapi/dss/ml.py:205-220 | the entry under the remapped lower-cased key for the task's type; an absent key raises a key error naming that key |
| TaskSettings.UpdateAlgorithmSettings | dataikuapi/dss/ml.py:205-220 | an edit saved through the returned entry: fails iff the lookup fails; otherwise the entry reads back as the edited one and every other algorithm and setting is unchanged |
| TaskSettings.AlgorithmEditsAreEntryEdits | dataikuapi/dss/ml.py:205-228 | toggling `enabled` is an edit of the algorithm's entry through its reference, and writing back the entry just read changes nothing |
| TaskSettings.SetAlgorithmEnabled | dataikuapi/dss/ml.py:222-228 | fails iff the lookup fails; otherwise the looked-up entry reads back with the new flag and its other parameters, while every other algorithm and setting is unchanged |
| TaskSettings.XGBoostNamesToggleTogether | dataikuapi/dss/ml.py:222-228 | in a prediction task, toggling XGBOOST_CLASSIFICATION toggles XGBOOST_REGRESSION too |
| TaskSettings.ForeachFeature | dataikuapi/dss/ml.py:152-167 | every feature is visited; fails iff fn raises on some selected feature, and then with the error of the first such feature in iteration order; on success the new mapping's keys are exactly the old keys whose role is not TARGET and, with a type filter, whose type matches; each value is fn's result on (key, old value); original TARGET features are absent |
| TaskSettings.RewriteVisited | dataikuapi/dss/ml.py:161-166 | over the features still to visit: fails iff fn raises on one of them that is selected, with the first such error; otherwise holds exactly the visited selected features, each mapped to fn's result |
| TaskSettings.FirstFailureOfTail | dataikuapi/dss/ml.py:161-166 | when the first visited feature does not raise, the first raising feature among the rest is the first overall |
| TaskSettings.ForeachFeatureOfTask | dataikuapi/dss/ml.py:160-167 | on the settings: a raising fn fails before anything is written (the mapping is assigned only after the loop); on success only per_feature changes, to the rewritten mapping |
| TaskSettings.ForeachFeatureIntended | dataikuapi/dss/ml.py:152-158 | the documented rewrite: fails exactly when some selected feature's fn raises; otherwise the same keys, fn applied to non-target features of the requested type, every other feature unchanged |
| TaskSettings.ForeachFeatureIdentity | dataikuapi/dss/ml.py:160-167 | with the identity as fn, the intended rewrite changes nothing, and the as-written rewrite changes nothing iff every feature is selected |
| TaskSettings.ForeachFeatureDropsTarget | dataikuapi/dss/ml.py:162-163 | a task with target "y" loses "y" under the as-written rewrite and keeps it, still TARGET, under the intended one |
| TaskSettings.ForeachFeatureAgreesOnSelected | dataikuapi/dss/ml.py:164-166 | the two fail together with the same error, and on every key the as-written rewrite keeps they agree |
| TrainedModelDetails.StripKeys | dataikuapi/dss/ml.py:372-374 | the result holds exactly the entries whose key is not listed, with their values unchanged |
| TrainedModelDetails.PerformanceMetrics | dataikuapi/dss/ml.py:370-375 | the snippet without its variant's bookkeeping keys, every other entry unchanged |
| TrainedModelDetails.MetricsIgnoreBookkeeping | dataikuapi/dss/ml.py:476-481 | two snippets of the same variant that agree outside the bookkeeping keys give the same metrics view |
| TrainedModelDetails.MetricsViewIsStripped | dataikuapi/dss/ml.py:476-481 | the metrics view holds no bookkeeping key: stripping it again changes nothing |
| TrainedModelDetails.StripKeysIdempotent | dataikuapi/dss/ml.py:372-374 | deleting the same keys twice equals deleting them once |
| TrainedModelDetails.VariantsStripDifferentKeys | dataikuapi/dss/ml.py:478 | "facts" is removed only from clustering snippets and "trainDate" only from prediction snippets |
| TrainedModelDetails.DetailsFor | dataikuapi/dss/ml.py:664-667 | the clustering variant iff the details carry "facts", the prediction variant otherwise; details and snippet carried over |
| TrainedModelDetails.Facts | dataikuapi/dss/ml.py:462-468 | the "facts" entry of a clustering model's details; a key error when absent |
| TrainedModelDetails.DispatchedClusteringHasFacts | dataikuapi/dss/ml.py:664-665 | reading the facts of details that were dispatched as clustering never fails |
| TrainedModelDetails.FactsForCluster | dataikuapi/dss/ml.py:420-426 | succeeds iff "clusters" is a list, the index lies within Python's range (negative counts from the end) and that cluster is a mapping with "facts"; the result is that "facts" value, whatever its shape |
| TrainedModelDetails.FactsForClusterAndFeature | dataikuapi/dss/ml.py:428-434 | succeeds iff the cluster's facts are found, are a list, an empty mapping or an empty string, and every listed fact has a label; the result is the ordered sub-list of facts labelled with the feature, with every such fact kept as often as it occurs, and empty for the empty mapping or string |
| TrainedModelDetails.FeatureFactsDisjoint | dataikuapi/dss/ml.py:434 | facts returned for two different features never overlap |
| JsonValues.Elements | dataikuapi/dss/ml.py:613-615 | a comprehension that subscripts each element succeeds over a list, an empty mapping or an empty string and raises over anything else; it sees a list's items and nothing otherwise |
| Lists.FilterOrFail | dataikuapi/dss/ml.py:434 | a filtering comprehension succeeds iff every test succeeds; the result is an ordered sub-list holding each passing element as often as the input does and nothing else |
| Lists.MapOrFail | dataikuapi/dss/ml.py:615 | a mapping comprehension succeeds iff every call succeeds; the result is element-wise the calls' results |
| Lists.SubseqMap | dataikuapi/dss/ml.py:613-615 | mapping an ordered sub-list gives an ordered sub-list of the mapped list |
| MLTask.SessionOf | dataikuapi/dss/ml.py:614 | an entry's session is its fullModelId's sessionId, the empty string when either is missing; a non-mapping entry or fullModelId raises |
| MLTask.ListedModels | dataikuapi/dss/ml.py:612-615 | the entries of the status's fullModelIds list; an empty mapping or string lists nothing; a missing key or any other value raises |
| MLTask.TrainedModelIds | dataikuapi/dss/ml.py:612-615 | without a session, succeeds iff every listed entry has an id, and returns them in order; with a session, succeeds iff every entry's session is readable and every entry of the session has an id, and returns the ids of the session's entries in listed order, each entry as often as it is listed |
| MLTask.SessionFilterSucceeds | dataikuapi/dss/ml.py:613-615 | a successful session filter keeps exactly the session's entries, in order and with their multiplicity, and their ids can be read iff every entry of the session has one |
| MLTask.SessionIdsAreSublist | dataikuapi/dss/ml.py:613-615 | the ids of one session form an ordered sub-list of all ids |
| MLTask.EmptyListingHasNoModels | dataikuapi/dss/ml.py:612-615 | a fullModelIds that is an empty mapping or string yields no ids, with or without a session |
| MLTask.EntriesWithoutFullIdAreInEmptySession | dataikuapi/dss/ml.py:614 | an entry without fullModelId matches the session named by the empty string |

## Findings

| source | as written | input that shows it | evidently intended | confidence | as-written member | corrected member |
|---|---|---|---|---|---|---|
| dataikuapi/dss/ml.py:160-167 | `foreach_feature` rebuilds `per_feature` from the features it hands to `fn`, so the target, and every feature of another type when a type is given, disappear from the settings | `per_feature = {"y": TARGET, "x": INPUT}` with the identity as `fn`: the result has no "y", so a save would remove the task's target | as its documentation says, apply `fn` to non-target features of the requested type and keep every other feature unchanged | high; not executed | TaskSettings.ForeachFeature (shown by TaskSettings.ForeachFeatureDropsTarget) | TaskSettings.ForeachFeatureIntended |

## Left out

- HTTP calls are not modelled, because their behaviour lives on the server. These are `save`, `get_status`, the settings fetch in `get_settings`, `start_train`, `start_ensembling`, `get_trained_model_snippet`, the details fetch, `deploy_to_flow`, `redeploy_to_flow` and the endpoint choice of `save_user_meta`. Only the dispatch on the fetched values is modelled (`KindOf`, `DetailsFor`, `TrainedModelIds`).
- `wait_guess_complete` and `wait_train_complete` are not modelled. They poll a remote status with `time.sleep` and have no bound and no termination argument.
- The algorithm filter of `get_trained_models_ids` (ml.py:616-618) is not modelled. It needs a second remote fetch and uses Python 2's `iteritems`.
- `DSSDatasetSelectionBuilder.build()` and `DSSFilterBuilder.build()` are defined in another module. A builder argument is represented by the value it builds.
- `get_roc_curve_data` is not modelled. Neither are the getters that only return a field (`get_raw`, `get_raw_snippet`, `get_train_info`, `get_user_meta`, `get_preprocessing_settings`, `get_modeling_settings`, `get_actual_modeling_params`, `get_cluster_size`, `get_split_params`). They have nothing to state beyond "returns the field".
- `copy.deepcopy` needs no model, because Dafny values are immutable.
- Key errors for a settings record that lacks `taskType` (ml.py:550), `splitParams`, `preprocessing`, `per_feature`, `weight`, `modeling` or `modeling.metrics` are not modelled. These records are typed, so the keys are always present.
- A feature entry without `role` or `type` is not modelled, because `Feature` always has both. The Python code would raise a key error inside `foreach_feature` or `remove_sample_weighting`.
- AlgorithmRemap.Lower: lower-cases ASCII letters only. Python's `str.lower()` also maps non-ASCII letters. Algorithm names are ASCII.
- TaskSettings.AlgorithmSettings: looks names up among the algorithms only. In Python, the name "METRICS" lower-cases to `metrics` and would return the `modeling.metrics` record. The typed model keeps that record apart, so this lookup fails with a key error.
- Python's `AttributeError` (a `.get` on a value that is not a mapping) and `TypeError` are both reported as `TypeError`, and the exception messages are not modelled. Likewise `FactsForCluster` reports every `clusters` value that is not a list as `TypeError("clusters")`, where Python raises `KeyError(cluster_index)` for a mapping, and `IndexError` or a `TypeError` after indexing for a string. Only the error kind differs: all of these fail.
- TaskSettings.FeaturePreprocessing: returns the entry as a value, where Python returns a reference whose edits are saved with the settings. An edit through that reference is modelled as reading the entry and writing it back with `UpdateFeaturePreprocessing`.
- TaskSettings.AlgorithmSettings: returns the entry as a value, where Python returns a reference whose edits are saved with the settings. An edit through that reference is modelled as reading the entry and writing it back with `UpdateAlgorithmSettings`.
- The iteration order of `per_feature` is a parameter of `ForeachFeature`, because a Dafny map has no order. It decides only which error surfaces when several calls of `fn` would raise.
- `train_ratio` and `n_folds` are stored as given (a `real` and an `int`). The source checks neither range, and neither does the model. The default arguments (0.8 and 5) are constants in `SplitHandler`. The metric setter's defaults (`True` and `False`) are constants in `TaskSettings`.
