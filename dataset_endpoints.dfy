/** The dataset endpoints (backend/app/api/api_v1/endpoints/dataset.py):
    the listing query, the sample query, the duplicate check, and the
    rules of create, update, delete and resample against the document
    store. */
module DatasetEndpoints {
  import opened Json
  import opened Entities
  import opened Search
  import opened Store

  /** The body `get_datasets_by_datasource` searches with. */
  function ListingQuery(datasourceId: Option<Key>, sortByKey: string := "dataset_name", asc: bool := true)
    : (q: SortedQuery)
    ensures q.sort == [(sortByKey, DirectionOf(asc))]
    ensures q.query.MatchAll? <==> datasourceId.None?
    ensures datasourceId.Some? ==> q.query == MatchFields([("datasource_id", datasourceId.value)])
    ensures forall doc {:trigger Selects(q.query, doc)} ::
      Selects(q.query, doc) <==> (datasourceId.Some? ==> FieldIs(doc, "datasource_id", datasourceId.value))
  {
    var sort := [(sortByKey, DirectionOf(asc))];
    if datasourceId.None? then SortedQuery(MatchAll, sort)
    else
      SelectsOneField("datasource_id", datasourceId.value);
      SortedQuery(MatchFields([("datasource_id", datasourceId.value)]), sort)
  }

  /** `get_dataset`: the stored dataset with its key and, when it has a
      sample, the sample's rows decoded from their JSON text. */
  function GetDataset(datasets: map<Key, Dataset>, key: Key): (r: Outcome<(Key, Dataset, Option<Value>)>)
    ensures key !in datasets ==> r == Err(NotFound("dataset", key))
    ensures key in datasets ==>
      && r.Ok? && r.value.0 == key && r.value.1 == datasets[key]
      && (r.value.2.Some? <==> datasets[key].sample.Some?)
      && (r.value.2.Some? ==> Dumps(r.value.2.value) == datasets[key].sample.value.rows)
  {
    if key !in datasets then Err(NotFound("dataset", key))
    else
      var d := datasets[key];
      Ok((key, d, if d.sample.Some? then Some(Loads(d.sample.value.rows)) else None))
  }

  // ---------------------------------------------------------------------
  // Sampling
  // ---------------------------------------------------------------------

  /** The SQL a preview runs: the dataset's own query, or a select of the
      whole table. */
  function SampleQueryText(d: Dataset): (q: string)
    ensures d.IsQuery() ==> q == d.runtimeParameters.value.query
    ensures !d.IsQuery() ==> q == "select * from " + d.datasetName
  {
    if d.runtimeParameters.Some? then d.runtimeParameters.value.query
    else "select * from " + d.datasetName
  }

  /** What `get_sample_query` answers: an exception message, or the
      column names and the rows. */
  datatype SampleResponse = Failure(exception: string) | Rows(columns: seq<string>, rows: Value)

  /** `get_sample_query(query, url)` for the datasource's connection. */
  type Sampler = (string, Datasource) -> SampleResponse

  /** `sample(dataset, response_format)`. The datasource is looked up
      first (a missing one raises); the raw answer is returned as it is
      when `responseFormat` is false; otherwise a non-empty exception
      message is a 422. */
  function SampleEndpoint(datasources: map<Key, Datasource>, d: Dataset, responseFormat: bool, getSample: Sampler)
    : (r: Outcome<SampleResponse>)
    ensures d.datasourceId !in datasources ==> r.Err? && r.error.ServerError?
    ensures d.datasourceId in datasources ==>
      var raw := getSample(SampleQueryText(d), datasources[d.datasourceId]);
      && (!responseFormat ==> r == Ok(raw))
      && (responseFormat && raw.Failure? && raw.exception != "" ==> r == Err(SampleFailed(raw.exception)))
      && (responseFormat && !(raw.Failure? && raw.exception != "") ==> r == Ok(raw))
  {
    if d.datasourceId !in datasources then Err(ServerError("NotFoundError"))
    else
      var raw := getSample(SampleQueryText(d), datasources[d.datasourceId]);
      if !responseFormat then Ok(raw)
      else if raw.Failure? && raw.exception != "" then Err(SampleFailed(raw.exception))
      else Ok(raw)
  }

  /** The resample step create, update and `update_sample` share: a
      non-empty exception is a 422; an answer without columns raises;
      otherwise the columns and the rows as JSON text. */
  function Resample(datasources: map<Key, Datasource>, d: Dataset, getSample: Sampler): (r: Outcome<Sample>)
    ensures d.datasourceId in datasources ==>
      var raw := getSample(SampleQueryText(d), datasources[d.datasourceId]);
      && (raw.Failure? && raw.exception != "" ==> r == Err(SampleFailed(raw.exception)))
      && (raw.Failure? && raw.exception == "" ==> r.Err? && r.error.ServerError?)
      && (raw.Rows? ==> r == Ok(Sample(raw.columns, Dumps(raw.rows))))
    ensures d.datasourceId !in datasources ==> r.Err?
  {
    var resp := SampleEndpoint(datasources, d, false, getSample);
    if resp.Err? then Err(resp.error)
    else match resp.value
      case Failure(e) => if e != "" then Err(SampleFailed(e)) else Err(ServerError("KeyError: 'columns'"))
      case Rows(columns, rows) => Ok(Sample(columns, Dumps(rows)))
  }

  // ---------------------------------------------------------------------
  // The duplicate check
  // ---------------------------------------------------------------------

  /** `split_dataset_resource`: the schema and the bare name a dataset
      addresses. */
  type Splitter = Dataset -> (string, string)

  /** A stored dataset the duplicate search finds for `d`: same datasource
      name, and either the same schema and bare name, or the same full
      dataset name. */
  predicate Duplicates(stored: Dataset, d: Dataset, schema: string, name: string) {
    && stored.datasourceName == d.datasourceName
    && (|| (stored.runtimeParameters.Some? && stored.runtimeParameters.value.schemaName == schema
            && stored.datasetName == name)
        || stored.datasetName == d.datasetName)
  }

  /** `_check_dataset_does_not_exists`: a conflict exactly when some stored
      dataset matches. */
  function ConflictCheck(datasets: map<Key, Dataset>, d: Dataset, split: Splitter): (r: Option<ApiError>)
    ensures r.Some? <==> exists k :: k in datasets && Duplicates(datasets[k], d, split(d).0, split(d).1)
    ensures r.Some? ==>
      r.value == Conflict("dataset '" + d.datasourceName + "." + split(d).0 + "." + split(d).1 + "' already exists")
  {
    var (schema, name) := split(d);
    if exists k :: k in datasets && Duplicates(datasets[k], d, schema, name) then
      Some(Conflict("dataset '" + d.datasourceName + "." + schema + "." + name + "' already exists"))
    else None
  }

  /** A dataset whose own full name is already stored under its datasource
      is always a conflict, whatever the split gives. */
  lemma SameNameConflicts(datasets: map<Key, Dataset>, d: Dataset, split: Splitter, k: Key)
    requires k in datasets
    requires datasets[k].datasourceName == d.datasourceName && datasets[k].datasetName == d.datasetName
    ensures ConflictCheck(datasets, d, split).Some?
  {
    assert Duplicates(datasets[k], d, split(d).0, split(d).1);
  }

  // ---------------------------------------------------------------------
  // Create, update, delete, resample
  // ---------------------------------------------------------------------

  /** `create_dataset`. */
  method CreateDataset(store: DocumentStore, d: Dataset, testQuery: bool, email: string, now: string,
                       newKey: Key, getSample: Sampler, split: Splitter)
    returns (r: Outcome<(Key, Dataset)>)
    modifies store
    ensures d.datasourceId !in old(store.datasources) ==> r == Err(NotFound("datasource", d.datasourceId))
    ensures d.datasourceId in old(store.datasources) && ConflictCheck(old(store.datasets), d, split).Some? ==>
      r == Err(ConflictCheck(old(store.datasets), d, split).value)
    ensures d.datasourceId in old(store.datasources) && ConflictCheck(old(store.datasets), d, split).None? &&
            testQuery && Resample(old(store.datasources), d, getSample).Err? ==>
      r == Err(Resample(old(store.datasources), d, getSample).error)
    ensures r.Ok? <==>
      && d.datasourceId in old(store.datasources)
      && ConflictCheck(old(store.datasets), d, split).None?
      && (testQuery ==> Resample(old(store.datasources), d, getSample).Ok?)
    ensures r.Ok? ==>
      && r.value.0 == newKey
      && r.value.1 == d.(sample := if testQuery then Some(Resample(old(store.datasources), d, getSample).value)
                                   else d.sample,
                         createdBy := Some(email), createDate := Some(now), modifiedDate := Some(now))
      && store.datasets == old(store.datasets)[newKey := r.value.1]
    ensures r.Err? ==> store.datasets == old(store.datasets)
    ensures store.datasources == old(store.datasources) && store.expectations == old(store.expectations)
    ensures store.validations == old(store.validations)
    ensures old(store.Consistent()) && (newKey in old(store.datasets) ==> old(store.datasets)[newKey].datasourceId == d.datasourceId)
      ==> store.Consistent()
  {
    if d.datasourceId !in store.datasources {
      return Err(NotFound("datasource", d.datasourceId));
    }
    var conflict := ConflictCheck(store.datasets, d, split);
    if conflict.Some? {
      return Err(conflict.value);
    }
    var dataset := d;
    if testQuery {
      var s := Resample(store.datasources, dataset, getSample);
      if s.Err? {
        return Err(s.error);
      }
      dataset := dataset.(sample := Some(s.value));
    }
    dataset := dataset.(createdBy := Some(email));
    dataset := dataset.(createDate := Some(now));
    dataset := dataset.(modifiedDate := Some(now));
    store.datasets := store.datasets[newKey := dataset];
    return Ok((newKey, dataset));
  }

  /** An update that runs a new preview: a renamed physical table, or a
      query dataset whose query changed. */
  predicate Resamples(original: Dataset, d: Dataset) {
    || (original.datasetName != d.datasetName && !d.IsQuery())
    || (original.IsQuery() && d.IsQuery() && original.runtimeParameters.value.query != d.runtimeParameters.value.query)
  }

  /** `update_dataset`. */
  method UpdateDataset(store: DocumentStore, d: Dataset, key: Key, now: string, getSample: Sampler, split: Splitter)
    returns (r: Outcome<(Key, Dataset)>)
    modifies store
    ensures key !in old(store.datasets) ==> r.Err? && r.error.ServerError?
    ensures key in old(store.datasets) ==>
      var original := old(store.datasets)[key];
      && (original == d ==> r == Ok((key, d)))
      && (original != d && original.datasourceId != d.datasourceId ==>
            r == Err(Unsupported("updates to dataset datasource_id are not supported")))
      && (original != d && original.datasourceId == d.datasourceId && d.datasourceId !in old(store.datasources) ==>
            r == Err(NotFound("datasource", d.datasourceId)))
      && (original != d && original.datasourceId == d.datasourceId && d.datasourceId in old(store.datasources) ==>
          && (original.datasetName != d.datasetName && ConflictCheck(old(store.datasets), d, split).Some? ==>
                r == Err(ConflictCheck(old(store.datasets), d, split).value))
          && (Resamples(original, d) && Resample(old(store.datasources), d, getSample).Err? &&
              (original.datasetName != d.datasetName ==> ConflictCheck(old(store.datasets), d, split).None?) ==>
                r == Err(Resample(old(store.datasources), d, getSample).error))
          && (r.Ok? <==>
                && (original.datasetName != d.datasetName ==> ConflictCheck(old(store.datasets), d, split).None?)
                && (Resamples(original, d) ==> Resample(old(store.datasources), d, getSample).Ok?))
          && (r.Ok? ==>
              && r.value.0 == key
              && r.value.1 == d.(sample := if Resamples(original, d)
                                           then Some(Resample(old(store.datasources), d, getSample).value)
                                           else d.sample,
                                 modifiedDate := Some(now), createDate := original.createDate,
                                 createdBy := original.createdBy)
              && store.datasets == old(store.datasets)[key := r.value.1]))
    ensures !(r.Ok? && key in old(store.datasets) && old(store.datasets)[key] != d) ==>
      store.datasets == old(store.datasets)
    ensures store.datasources == old(store.datasources) && store.expectations == old(store.expectations)
    ensures store.validations == old(store.validations)
    ensures old(store.Consistent()) ==> store.Consistent()
  {
    if key !in store.datasets {
      return Err(ServerError("NotFoundError"));
    }
    var original := store.datasets[key];
    if original == d {
      return Ok((key, d));
    }
    if original.datasourceId != d.datasourceId {
      return Err(Unsupported("updates to dataset datasource_id are not supported"));
    }
    if d.datasourceId !in store.datasources {
      return Err(NotFound("datasource", d.datasourceId));
    }
    var dataset := d;
    if original.datasetName != d.datasetName {
      var conflict := ConflictCheck(store.datasets, dataset, split);
      if conflict.Some? {
        return Err(conflict.value);
      }
      if dataset.runtimeParameters.None? {
        var s := Resample(store.datasources, dataset, getSample);
        if s.Err? {
          return Err(s.error);
        }
        dataset := dataset.(sample := Some(s.value));
      }
    }
    if original.runtimeParameters.Some? && dataset.runtimeParameters.Some?
       && original.runtimeParameters.value.query != dataset.runtimeParameters.value.query {
      var s := Resample(store.datasources, dataset, getSample);
      if s.Err? {
        return Err(s.error);
      }
      dataset := dataset.(sample := Some(s.value));
    }
    dataset := dataset.(modifiedDate := Some(now));
    dataset := dataset.(createDate := original.createDate);
    dataset := dataset.(createdBy := original.createdBy);
    store.datasets := store.datasets[key := dataset];
    return Ok((key, dataset));
  }

  /** `delete_dataset`: the dataset's validations and expectations go
      first, then the dataset; a missing dataset is reported after the
      cascades. */
  method DeleteDataset(store: DocumentStore, key: Key) returns (r: Outcome<string>)
    modifies store
    ensures store.validations == DeleteWhere(old(store.validations), v => v, "dataset_id", key)
    ensures store.expectations == DeleteWhere(old(store.expectations), ExpectationView, "dataset_id", key)
    ensures forall k :: k in store.expectations ==> store.expectations[k].datasetId != key
    ensures key in old(store.datasets) ==>
      r == Ok("dataset deleted") && store.datasets == old(store.datasets) - {key}
    ensures key !in old(store.datasets) ==>
      r == Err(NotFound("dataset", key)) && store.datasets == old(store.datasets)
    ensures store.datasources == old(store.datasources)
    ensures old(store.Consistent()) ==> store.Consistent()
  {
    store.validations := DeleteWhere(store.validations, v => v, "dataset_id", key);
    store.expectations := DeleteWhere(store.expectations, ExpectationView, "dataset_id", key);
    if key !in store.datasets {
      return Err(NotFound("dataset", key));
    }
    store.datasets := store.datasets - {key};
    return Ok("dataset deleted");
  }

  /** The cascade matches a top-level `dataset_id`. A validation that
      carries the dataset's id only under `meta.dataset_id`, the field the
      validation repository filters on, is not deleted with the dataset. */
  lemma CascadeKeepsMetaOnlyValidations(validations: map<Key, FieldView>, k: Key, key: Key)
    requires k in validations
    requires FieldIs(validations[k], "meta.dataset_id", key) && "dataset_id" !in validations[k]
    ensures k in DeleteWhere(validations, v => v, "dataset_id", key)
    ensures DeleteWhere(validations, v => v, "dataset_id", key)[k] == validations[k]
  {
  }

  /** `update_sample`: a fresh preview of a stored dataset replaces its
      sample. */
  method UpdateSample(store: DocumentStore, key: Key, getSample: Sampler) returns (r: Outcome<()>)
    modifies store
    ensures key !in old(store.datasets) ==> r.Err? && r.error.ServerError?
    ensures key in old(store.datasets) ==>
      var s := Resample(old(store.datasources), old(store.datasets)[key], getSample);
      && (s.Err? ==> r == Err(s.error) && store.datasets == old(store.datasets))
      && (s.Ok? ==>
            && r == Ok(())
            && store.datasets == old(store.datasets)[key := old(store.datasets)[key].(sample := Some(s.value))])
    ensures key !in old(store.datasets) ==> store.datasets == old(store.datasets)
    ensures store.datasources == old(store.datasources) && store.expectations == old(store.expectations)
    ensures store.validations == old(store.validations)
    ensures old(store.Consistent()) ==> store.Consistent()
  {
    if key !in store.datasets {
      return Err(ServerError("NotFoundError"));
    }
    var dataset := store.datasets[key];
    var s := Resample(store.datasources, dataset, getSample);
    if s.Err? {
      return Err(s.error);
    }
    store.datasets := store.datasets[key := dataset.(sample := Some(s.value))];
    return Ok(());
  }
}
