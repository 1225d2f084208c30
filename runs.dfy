/** The two entry points that set a runner up from the store
    (`run_dataset_validation` and `create_dataset_suggestions` in
    backend/app/core/runner.py). */
module Runs {
  import opened Json
  import opened Text
  import opened Entities
  import opened Search
  import opened Store
  import opened Runner

  /** The metadata template of a run: the datasource's expectation
      metadata with the dataset's name set. */
  function RunMeta(ds: Datasource, d: Dataset): (m: Dict)
    ensures Get(m, "dataset_name") == Some(Str(d.datasetName))
    ensures forall k :: k != "dataset_name" ==> Get(m, k) == Get(ds.expectationMeta, k)
  {
    SetEntries(ds.expectationMeta, "dataset_name", Str(d.datasetName));
    Set(ds.expectationMeta, "dataset_name", Str(d.datasetName))
  }

  /** The record the runner is handed for a stored expectation: its own
      meta is always `{"expectation_id": key}`. */
  function RunnerRecord(key: Key, e: StoredExpectation): (x: RunnerExpectation)
    ensures x.expectationType == e.expectationType && Dumps(x.kwargs) == e.kwargs
    ensures x.meta == Some([("expectation_id", Str(key))])
  {
    RunnerExpectation(e.expectationType, Loads(e.kwargs), Some([("expectation_id", Str(key))]))
  }

  /** The expectations a run covers: the enabled ones of the dataset. */
  predicate Selected(e: StoredExpectation, datasetKey: Key) {
    e.datasetId == datasetKey && e.enabled
  }

  /** An error the runner raises, as the caller sees it. */
  function Raise(e: RunnerError): (a: ApiError)
    ensures a.ServerError?
  {
    match e
    case SplitFailed(name) => ServerError("ValueError: " + name)
    case AssertionFailed(message) => ServerError("AssertionError: " + message)
    case MissingExpectationId(_) => ServerError("KeyError: 'expectation_id'")
  }

  /** Whatever the run's template and batch, an echoed check of a stored
      expectation normalises: its own meta overrides the template, so the
      result carries the expectation's key, the check's meta is left
      empty, and its kwargs have the stored entries again. */
  lemma EchoedResultNormalises(template: Dict, batch: Dataset, key: Key, e: StoredExpectation, raw: RawResult)
    requires raw.config == Compile(template, batch, RunnerRecord(key, e))
    ensures var n := NormalizeResult(raw);
      && n.Some?
      && n.value.expectationId == Str(key)
      && n.value.config.meta == []
      && n.value.config.expectationType == e.expectationType
      && (!HasKey(Loads(e.kwargs), "mostly") ==> SameEntries(n.value.config.kwargs, Loads(e.kwargs)))
  {
    var meta: Dict := [("expectation_id", Str(key))];
    assert raw.config.meta == meta;
    assert Remove(meta, "expectation_id") == [];
    if !HasKey(Loads(e.kwargs), "mostly") {
      RenameRoundTrip(Loads(e.kwargs));
    }
  }

  /** The runner records of the listed stored expectations, in order. */
  function Records(order: seq<Key>, stored: map<Key, StoredExpectation>): (rs: seq<RunnerExpectation>)
    requires forall i :: 0 <= i < |order| ==> order[i] in stored
    ensures |rs| == |order|
    ensures forall i :: 0 <= i < |order| ==> rs[i] == RunnerRecord(order[i], stored[order[i]])
  {
    seq(|order|, i requires 0 <= i < |order| => RunnerRecord(order[i], stored[order[i]]))
  }

  /** The suite a run compiles from the listed stored expectations. */
  function Suite(template: Dict, batch: Dataset, order: seq<Key>, stored: map<Key, StoredExpectation>): (s: seq<Check>)
    requires forall i :: 0 <= i < |order| ==> order[i] in stored
    ensures |s| == |order|
    ensures forall i :: 0 <= i < |order| ==> s[i] == Compile(template, batch, RunnerRecord(order[i], stored[order[i]]))
  {
    CompileAll(template, batch, Records(order, stored))
  }

  /** `ExpectationRepository.query_by_filter(dataset_id=..., enabled=True)`:
      every enabled expectation of the dataset once, in an order the
      search engine chooses. */
  method SelectExpectations(stored: map<Key, StoredExpectation>, datasetKey: Key)
    returns (order: seq<Key>)
    ensures forall i, j :: 0 <= i < j < |order| ==> order[i] != order[j]
    ensures forall k :: k in order <==> k in stored && Selected(stored[k], datasetKey)
  {
    var pending := set k | k in stored && Selected(stored[k], datasetKey);
    order := [];
    while pending != {}
      invariant forall k :: k in stored && Selected(stored[k], datasetKey) <==> k in pending || k in order
      invariant forall k :: k in order ==> k !in pending
      invariant forall i, j :: 0 <= i < j < |order| ==> order[i] != order[j]
      decreases pending
    {
      var k :| k in pending;
      order := order + [k];
      pending := pending - {k};
    }
  }

  /** The runner part of `run_dataset_validation`: a runner over the
      records of the listed stored expectations, without a dataset or datasource id of its own,
      validates once. */
  method ValidateRecords(ds: Datasource, d: Dataset, datasetKey: Key,
                         order: seq<Key>, stored: map<Key, StoredExpectation>,
                         execute: (Connection, BatchRequest, seq<Check>) -> RawValidation,
                         removeT: string -> string, runName: string, dispatcher: Dispatcher)
    returns (v: Attempt<Validation>)
    requires forall i :: 0 <= i < |order| ==> order[i] in stored
    modifies dispatcher
    ensures ConnectionFor(ds, d).Raised? ==> v == Raised(ConnectionFor(ds, d).error)
    ensures ConnectionFor(ds, d).Done? ==>
      var raw := execute(ConnectionFor(ds, d).value, BatchRequestFor(ds, d),
                         Suite(RunMeta(ds, d), d, order, stored));
      && (v.Done? <==> forall i :: 0 <= i < |raw.results| ==> HasKey(raw.results[i].config.meta, "expectation_id"))
      && (v.Done? ==>
          && v.value.success == raw.success
          && v.value.runId == RunId(runName, removeT(raw.runId.runTime))
          && v.value.meta == Update(raw.meta, IdentifiersDict(Identifiers(d.datasourceId, datasetKey)))
          && |v.value.results| == |raw.results|
          && (forall i :: 0 <= i < |raw.results| ==> Some(v.value.results[i]) == NormalizeResult(raw.results[i]))
          && dispatcher.sent == old(dispatcher.sent) +
               [Notification(datasetKey, "validation", Status(raw.success), v.value)])
      && (v.Raised? ==> v.error.MissingExpectationId?)
    ensures v.Raised? ==> dispatcher.sent == old(dispatcher.sent)
  {
    var records := Records(order, stored);
    var runner := new Runner(ds, d, RunMeta(ds, d), None, None, records, Identifiers(d.datasourceId, datasetKey), []);
    v := runner.Validate(execute, removeT, runName, dispatcher);
  }

  /** The part of `run_dataset_validation` after the lookups and the
      selection: hand the runner the listed stored expectations, validate,
      and store the validation under a fresh key. */
  method RunAndStore(store: DocumentStore, datasetKey: Key, ds: Datasource, d: Dataset, order: seq<Key>,
                     execute: (Connection, BatchRequest, seq<Check>) -> RawValidation,
                     removeT: string -> string, runName: string, newKey: Key,
                     viewOf: Validation -> FieldView, dispatcher: Dispatcher)
    returns (r: Outcome<Validation>)
    requires forall i :: 0 <= i < |order| ==> order[i] in store.expectations
    modifies store, dispatcher
    ensures ConnectionFor(ds, d).Raised? ==> r == Err(Raise(ConnectionFor(ds, d).error))
    ensures ConnectionFor(ds, d).Done? ==>
      var raw := execute(ConnectionFor(ds, d).value, BatchRequestFor(ds, d),
                         Suite(RunMeta(ds, d), d, order, old(store.expectations)));
      && (r.Ok? <==> forall i :: 0 <= i < |raw.results| ==> HasKey(raw.results[i].config.meta, "expectation_id"))
      && (r.Ok? ==>
          && r.value.success == raw.success
          && r.value.runId == RunId(runName, removeT(raw.runId.runTime))
          && r.value.meta == Update(raw.meta, IdentifiersDict(Identifiers(d.datasourceId, datasetKey)))
          && |r.value.results| == |raw.results|
          && (forall i :: 0 <= i < |raw.results| ==> Some(r.value.results[i]) == NormalizeResult(raw.results[i]))
          && dispatcher.sent == old(dispatcher.sent) +
               [Notification(datasetKey, "validation", Status(raw.success), r.value)]
          && store.validations == old(store.validations)[newKey := viewOf(r.value)])
      && (r.Err? ==> r == Err(ServerError("KeyError: 'expectation_id'")))
    ensures r.Err? ==> store.validations == old(store.validations)
    ensures r.Err? ==> dispatcher.sent == old(dispatcher.sent)
    ensures store.datasources == old(store.datasources) && store.datasets == old(store.datasets)
    ensures store.expectations == old(store.expectations)
  {
    var v := ValidateRecords(ds, d, datasetKey, order, store.expectations, execute, removeT, runName, dispatcher);
    if v.Raised? {
      return Err(Raise(v.error));
    }
    store.validations := store.validations[newKey := viewOf(v.value)];
    return Ok(v.value);
  }

  /** `run_dataset_validation`: look the dataset and its datasource up,
      select every enabled expectation of the dataset, then run and store.
      A missing dataset or datasource raises before any runner exists. */
  method RunDatasetValidation(store: DocumentStore, datasetKey: Key,
                              execute: (Connection, BatchRequest, seq<Check>) -> RawValidation,
                              removeT: string -> string, runName: string, newKey: Key,
                              viewOf: Validation -> FieldView, dispatcher: Dispatcher)
    returns (r: Outcome<Validation>, ghost order: seq<Key>)
    modifies store, dispatcher
    ensures datasetKey !in old(store.datasets) ==> r == Err(NotFound("dataset", datasetKey))
    ensures datasetKey in old(store.datasets) && old(store.datasets)[datasetKey].datasourceId !in old(store.datasources) ==>
      r == Err(NotFound("datasource", old(store.datasets)[datasetKey].datasourceId))
    ensures datasetKey in old(store.datasets) && old(store.datasets)[datasetKey].datasourceId in old(store.datasources) ==>
      var d := old(store.datasets)[datasetKey];
      var ds := old(store.datasources)[d.datasourceId];
      && (forall i, j :: 0 <= i < j < |order| ==> order[i] != order[j])
      && (forall k :: k in order <==> k in old(store.expectations) && Selected(old(store.expectations)[k], datasetKey))
      && (ConnectionFor(ds, d).Raised? ==> r == Err(Raise(ConnectionFor(ds, d).error)))
      && (ConnectionFor(ds, d).Done? ==>
          var raw := execute(ConnectionFor(ds, d).value, BatchRequestFor(ds, d),
                             Suite(RunMeta(ds, d), d, order, old(store.expectations)));
          && (r.Ok? <==> forall i :: 0 <= i < |raw.results| ==> HasKey(raw.results[i].config.meta, "expectation_id"))
          && (r.Ok? ==>
              && r.value.success == raw.success
              && r.value.runId == RunId(runName, removeT(raw.runId.runTime))
              && r.value.meta == Update(raw.meta, IdentifiersDict(Identifiers(d.datasourceId, datasetKey)))
              && |r.value.results| == |raw.results|
              && (forall i :: 0 <= i < |raw.results| ==> Some(r.value.results[i]) == NormalizeResult(raw.results[i]))
              && dispatcher.sent == old(dispatcher.sent) +
                   [Notification(datasetKey, "validation", Status(raw.success), r.value)]
              && store.validations == old(store.validations)[newKey := viewOf(r.value)])
          && (r.Err? ==> r == Err(ServerError("KeyError: 'expectation_id'"))))
    ensures r.Err? ==> store.validations == old(store.validations)
    ensures r.Err? ==> dispatcher.sent == old(dispatcher.sent)
    ensures store.datasources == old(store.datasources) && store.datasets == old(store.datasets)
    ensures store.expectations == old(store.expectations)
  {
    order := [];
    if datasetKey !in store.datasets {
      return Err(NotFound("dataset", datasetKey)), order;
    }
    var d := store.datasets[datasetKey];
    if d.datasourceId !in store.datasources {
      return Err(NotFound("datasource", d.datasourceId)), order;
    }
    var selected := SelectExpectations(store.expectations, datasetKey);
    order := selected;
    r := RunAndStore(store, datasetKey, store.datasources[d.datasourceId], d, selected,
                     execute, removeT, runName, newKey, viewOf, dispatcher);
  }

  /** The types the profiler must not propose: the unsupported ones and
      the "values between" check. */
  function SuggestionExclusions(unsupported: seq<string>): (r: seq<string>)
    ensures |r| == |unsupported| + 1 && r[..|unsupported|] == unsupported
    ensures r[|unsupported|] == "expect_column_values_to_be_between"
  {
    unsupported + ["expect_column_values_to_be_between"]
  }

  /** `create_dataset_suggestions`: profile the dataset with both its ids
      set and the exclusions above; nothing is stored. */
  method CreateDatasetSuggestions(store: DocumentStore, datasetKey: Key,
                                  profiler: (Connection, BatchRequest, seq<string>) -> seq<Candidate>,
                                  unsupported: seq<string>, now: string)
    returns (r: Outcome<seq<StoredExpectation>>)
    ensures datasetKey !in store.datasets ==> r == Err(NotFound("dataset", datasetKey))
    ensures datasetKey in store.datasets && store.datasets[datasetKey].datasourceId !in store.datasources ==>
      r == Err(NotFound("datasource", store.datasets[datasetKey].datasourceId))
    ensures datasetKey in store.datasets && store.datasets[datasetKey].datasourceId in store.datasources ==>
      var d := store.datasets[datasetKey];
      var ds := store.datasources[d.datasourceId];
      && (ConnectionFor(ds, d).Raised? ==> r == Err(Raise(ConnectionFor(ds, d).error)))
      && (ConnectionFor(ds, d).Done? ==>
          var cands := profiler(ConnectionFor(ds, d).value, BatchRequestFor(ds, d, true),
                                SuggestionExclusions(unsupported));
          && r.Ok? && |r.value| == |cands|
          && forall i :: 0 <= i < |cands| ==>
               r.value[i] == Suggestion(cands[i], d.datasourceId, datasetKey, now))
  {
    if datasetKey !in store.datasets {
      return Err(NotFound("dataset", datasetKey));
    }
    var d := store.datasets[datasetKey];
    if d.datasourceId !in store.datasources {
      return Err(NotFound("datasource", d.datasourceId));
    }
    var ds := store.datasources[d.datasourceId];
    var identifiers := Identifiers(d.datasourceId, datasetKey);
    var meta := RunMeta(ds, d);
    var runner := new Runner(ds, d, meta, Some(datasetKey), Some(d.datasourceId), [], identifiers,
                             SuggestionExclusions(unsupported));
    var p := runner.Profile(profiler, now);
    if p.Raised? {
      return Err(Raise(p.error));
    }
    return Ok(p.value);
  }
}
