/** The stored entities the engine and the endpoints read and write:
    datasources, datasets and expectations, and the error outcomes the
    endpoints answer with. */
module Entities {
  import opened Json

  type Key = string

  /** The engine kinds the runner treats specially; every other kind
      behaves alike in the code modelled here. */
  datatype Engine = Snowflake | BigQuery | OtherEngine(name: string)

  /** A datasource as the runner sees it. `expectationMeta` is what the
      datasource's `expectation_meta()` returns; how it is computed is not
      part of this model. */
  datatype Datasource = Datasource(datasourceName: string, engine: Engine, expectationMeta: Dict)

  /** The parameters of a query-addressed dataset. */
  datatype RuntimeParameters = RuntimeParameters(schemaName: string, query: string)

  /** `runtime_parameters.dict(by_alias=True)`: `schema_name` goes by its
      alias `schema`, the name the duplicate search in the dataset endpoints
      matches on. */
  function RuntimeParametersDict(rp: RuntimeParameters): (d: Dict)
    ensures Get(d, "schema") == Some(Str(rp.schemaName))
    ensures Get(d, "query") == Some(Str(rp.query))
    ensures DistinctKeys(d)
  {
    [("schema", Str(rp.schemaName)), ("query", Str(rp.query))]
  }

  /** A cached preview: column names and the rows as JSON text. */
  datatype Sample = Sample(columns: seq<string>, rows: Json<Value>)

  /** A dataset: a physical table (no runtime parameters) or a named query. */
  datatype Dataset = Dataset(
    datasourceId: Key,
    datasourceName: string,
    datasetName: string,
    runtimeParameters: Option<RuntimeParameters>,
    sample: Option<Sample>,
    createdBy: Option<string>,
    createDate: Option<string>,
    modifiedDate: Option<string>)
  {
    predicate IsQuery() { runtimeParameters.Some? }
  }

  /** An expectation. The endpoints hold `kwargs` as a live dict (K = Dict)
      and store it as JSON text (K = Json<Dict>). Absent optional fields are
      the ones `dict(exclude_none=True)` drops. */
  datatype Expectation<K> = Expectation(
    expectationType: string,
    kwargs: K,
    datasourceId: Key,
    datasetId: Key,
    enabled: bool,
    suggested: bool,
    meta: Option<Dict>,
    createDate: Option<string>,
    modifiedDate: Option<string>)

  type StoredExpectation = Expectation<Json<Dict>>

  /** `copy["kwargs"] = json.dumps(copy["kwargs"])`. */
  function Encode(e: Expectation<Dict>): (s: StoredExpectation)
    ensures Loads(s.kwargs) == e.kwargs
  {
    Expectation(e.expectationType, Dumps(e.kwargs), e.datasourceId, e.datasetId, e.enabled,
                e.suggested, e.meta, e.createDate, e.modifiedDate)
  }

  /** `source["kwargs"] = json.loads(source["kwargs"])`. */
  function Decode(s: StoredExpectation): (e: Expectation<Dict>)
    ensures Encode(e) == s
  {
    Expectation(s.expectationType, Loads(s.kwargs), s.datasourceId, s.datasetId, s.enabled,
                s.suggested, s.meta, s.createDate, s.modifiedDate)
  }

  /** The outcomes the endpoints reject a request with. */
  datatype ApiError =
    | NotImplemented(expectationType: string)   // 422, unknown expectation type
    | InvalidBody                               // 422, schema validation failed
    | NotFound(resource: string, key: Key)      // 404
    | Mismatch(detail: string)                  // 422, datasource of dataset differs
    | Unsupported(detail: string)               // 422, re-pointing an existing record
    | Conflict(detail: string)                  // 409, dataset already exists
    | SampleFailed(exception: string)           // 422, the sample query failed
    | ServerError(reason: string)               // an exception the endpoint does not catch

  datatype Outcome<+T> = Ok(value: T) | Err(error: ApiError)
}
