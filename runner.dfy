/** The validation runner (backend/app/core/runner.py): it picks the
    connection for a datasource, describes the batch to read, compiles
    stored expectations into checks, normalises what the check engine
    returns, and serialises the profiler's suggestions.

    The check engine, the profiler and the data preview are outside this
    model; they are passed in as functions from the connection and batch
    request the runner builds to what the engine returns. */
module Runner {
  import opened Json
  import opened Text
  import opened Entities

  /** An exception the runner raises. */
  datatype RunnerError =
    | SplitFailed(datasetName: string)   // `schema, _ = name.split(".")` did not unpack
    | AssertionFailed(message: string)   // an `assert` in `profile`
    | MissingExpectationId(index: nat)   // `meta.pop("expectation_id")` raised KeyError

  datatype Attempt<+T> = Done(value: T) | Raised(error: RunnerError)

  // ---------------------------------------------------------------------
  // Connection choice (`_get_connection_string`)
  // ---------------------------------------------------------------------

  /** The call `datasource.connection_string(schema)`, or with no argument
      when `schema` is None. */
  datatype Connection = ConnectionString(datasource: Datasource, schema: Option<string>)

  /** For a BigQuery table the schema is the text before the one dot. */
  lemma BigQuerySchemaPrefix(name: string)
    requires Count(name, '.') == 1
    ensures var p := Split(name, '.')[0];
      '.' !in p && |p| < |name| && name[..|p|] == p && name[|p|] == '.' && '.' !in name[|p| + 1..]
  {
    var i := SplitAtOnlySeparator(name, '.');
    SplitProperties(name, '.');
    assert Split(name, '.')[0] == name[..i];
    assert Split(name, '.')[1] == name[i + 1..];
  }

  function ConnectionFor(ds: Datasource, batch: Dataset): (r: Attempt<Connection>)
    // Snowflake and BigQuery with a query embed the query's schema.
    ensures (ds.engine == Snowflake || ds.engine == BigQuery) && batch.IsQuery() ==>
      r == Done(ConnectionString(ds, Some(batch.runtimeParameters.value.schemaName)))
    // A BigQuery table embeds the segment before its one dot, and a name
    // with no dot or several dots fails to unpack.
    ensures ds.engine == BigQuery && !batch.IsQuery() ==>
      (r.Raised? <==> Count(batch.datasetName, '.') != 1)
    ensures r.Raised? ==> r.error == SplitFailed(batch.datasetName)
    ensures ds.engine == BigQuery && !batch.IsQuery() && r.Done? ==>
      r.value.datasource == ds && r.value.schema.Some? &&
      var s := r.value.schema.value;
      '.' !in s && |s| < |batch.datasetName| && batch.datasetName[..|s|] == s &&
      batch.datasetName[|s|] == '.' && '.' !in batch.datasetName[|s| + 1..]
    // Every other case, a Snowflake table included, passes no schema.
    ensures ds.engine != BigQuery && !(ds.engine == Snowflake && batch.IsQuery()) ==>
      r == Done(ConnectionString(ds, None))
  {
    if ds.engine == Snowflake && batch.runtimeParameters.Some? then
      Done(ConnectionString(ds, Some(batch.runtimeParameters.value.schemaName)))
    else if ds.engine == BigQuery && batch.runtimeParameters.Some? then
      Done(ConnectionString(ds, Some(batch.runtimeParameters.value.schemaName)))
    else if ds.engine == BigQuery && batch.runtimeParameters.None? then
      var parts := Split(batch.datasetName, '.');
      SplitProperties(batch.datasetName, '.');
      if |parts| == 2 then
        BigQuerySchemaPrefix(batch.datasetName);
        Done(ConnectionString(ds, Some(parts[0])))
      else
        Raised(SplitFailed(batch.datasetName))
    else
      Done(ConnectionString(ds, None))
  }

  // ---------------------------------------------------------------------
  // Batch request (`get_batch_request`)
  // ---------------------------------------------------------------------

  datatype BatchRequest =
    | RuntimeBatchRequest(datasourceName: string, dataConnectorName: string, dataAssetName: string,
                          runtimeParameters: Dict, batchIdentifiers: Dict,
                          batchSpecPassthrough: Option<Dict>)
    | TableBatchRequest(datasourceName: string, dataConnectorName: string, dataAssetName: string,
                        tablePassthrough: Dict)

  /** Whether the request asks the engine to materialise a temporary table. */
  predicate RequestsTempTable(r: BatchRequest) {
    match r
    case RuntimeBatchRequest(_, _, _, _, _, p) =>
      p.Some? && Get(p.value, "create_temp_table") == Some(Bool(true))
    case TableBatchRequest(_, _, _, p) =>
      Get(p, "create_temp_table") == Some(Bool(true))
  }

  /** `get_batch_request(is_profile)`; the source's default is
      `is_profile=True`, and `sample` and `validate` call it without an
      argument. */
  function BatchRequestFor(ds: Datasource, batch: Dataset, isProfile: bool := true): (r: BatchRequest)
    ensures r.RuntimeBatchRequest? <==> batch.IsQuery()
    ensures r.datasourceName == ds.datasourceName && r.dataAssetName == batch.datasetName
    ensures RequestsTempTable(r) <==> batch.IsQuery() && isProfile
    ensures r.RuntimeBatchRequest? ==>
      && r.dataConnectorName == "default_runtime_data_connector"
      && r.batchIdentifiers == [(batch.datasetName, Str(batch.datasetName))]
      && (r.batchSpecPassthrough.Some? <==> isProfile)
      && Get(r.runtimeParameters, "query") == Some(Str(batch.runtimeParameters.value.query))
    ensures r.TableBatchRequest? ==>
      && r.dataConnectorName == "default_inferred_data_connector_name"
      && Get(r.tablePassthrough, "create_temp_table") == Some(Bool(false))
  {
    if batch.runtimeParameters.Some? then
      var passthrough := if isProfile then Some([("create_temp_table", Bool(true))]) else None;
      RuntimeBatchRequest(ds.datasourceName, "default_runtime_data_connector", batch.datasetName,
                          RuntimeParametersDict(batch.runtimeParameters.value),
                          [(batch.datasetName, Str(batch.datasetName))], passthrough)
    else
      TableBatchRequest(ds.datasourceName, "default_inferred_data_connector_name", batch.datasetName,
                        [("create_temp_table", Bool(false))])
  }

  // ---------------------------------------------------------------------
  // Status (`_get_status`)
  // ---------------------------------------------------------------------

  function Status(success: bool): (s: string)
    ensures s == "success" || s == "failure"
    ensures s == "success" <==> success
  {
    if success then "success" else "failure"
  }

  // ---------------------------------------------------------------------
  // The objective/mostly rename
  // ---------------------------------------------------------------------

  /** Stored kwargs to the engine's: a truthy `objective` becomes `mostly`. */
  function ToEngineKwargs(kwargs: Dict): Dict {
    MoveIfTruthy(kwargs, "objective", "mostly")
  }

  /** Engine kwargs back to the public name: a truthy `mostly` becomes
      `objective`. */
  function ToPublicKwargs(kwargs: Dict): Dict {
    MoveIfTruthy(kwargs, "mostly", "objective")
  }

  /** Compiling renames a truthy `objective` and touches no other key; a
      falsy one (0, None, "") stays where it is. */
  lemma ToEngineKwargsEntries(kwargs: Dict, k: string)
    ensures TruthyAt(kwargs, "objective") ==>
      Get(ToEngineKwargs(kwargs), "mostly") == Get(kwargs, "objective") &&
      !HasKey(ToEngineKwargs(kwargs), "objective")
    ensures !TruthyAt(kwargs, "objective") ==> ToEngineKwargs(kwargs) == kwargs
    ensures k != "objective" && k != "mostly" ==> Get(ToEngineKwargs(kwargs), k) == Get(kwargs, k)
  {
    MoveIfTruthyEntries(kwargs, "objective", "mostly", k);
  }

  /** Normalising never leaves a truthy `mostly` behind. */
  lemma {:induction false} NoTruthyMostlyAfterNormalising(kwargs: Dict)
    ensures !TruthyAt(ToPublicKwargs(kwargs), "mostly")
  {
    MoveIfTruthyEntries(kwargs, "mostly", "objective", "");
  }

  /** The round trip: compiling and then normalising gives back the same
      entries (Python's dict `==`), provided the stored kwargs had no key
      `mostly` of their own. */
  lemma {:induction false} RenameRoundTrip(kwargs: Dict)
    requires !HasKey(kwargs, "mostly")
    ensures SameEntries(ToPublicKwargs(ToEngineKwargs(kwargs)), kwargs)
  {
    var mid := ToEngineKwargs(kwargs);
    forall k ensures Get(ToPublicKwargs(mid), k) == Get(kwargs, k) {
      MoveIfTruthyEntries(kwargs, "objective", "mostly", k);
      MoveIfTruthyEntries(mid, "mostly", "objective", k);
      if !TruthyAt(kwargs, "objective") {
        assert Get(kwargs, "mostly") == None;
      }
    }
  }

  /** The round trip keeps the entries but not their order: a renamed
      `objective` comes back as the last key. */
  lemma RenameRoundTripOrder(kwargs: Dict)
    requires !HasKey(kwargs, "mostly") && TruthyAt(kwargs, "objective")
    ensures ToPublicKwargs(ToEngineKwargs(kwargs)) ==
      Remove(kwargs, "objective") + [("objective", Get(kwargs, "objective").value)]
  {
    var v := Get(kwargs, "objective").value;
    var rest := Remove(kwargs, "objective");
    GetRemove(kwargs, "objective", "mostly");
    GetRemove(kwargs, "objective", "objective");
    SetAppends(rest, "mostly", v);
    var mid := rest + [("mostly", v)];
    GetSet(rest, "mostly", v, "mostly");
    assert TruthyAt(mid, "mostly");
    RemoveAbsent(rest, "mostly");
    RemoveTail(rest, "mostly", v);
    SetAppends(rest, "objective", v);
  }

  lemma {:induction false} RemoveTail(d: Dict, k: string, v: Value)
    requires !HasKey(d, k)
    ensures Remove(d + [(k, v)], k) == d
  {
    if d == [] {
      assert [(k, v)][1..] == [];
    } else {
      assert (d + [(k, v)])[1..] == d[1..] + [(k, v)];
      assert !HasKey(d[1..], k) by {
        forall i | 0 <= i < |d[1..]| ensures d[1..][i].0 != k {
          assert d[1..][i] == d[i + 1];
        }
      }
      RemoveTail(d[1..], k, v);
      assert d == [d[0]] + d[1..];
    }
  }

  /** A stored `mostly` of its own is lost on the way when `objective` is
      truthy: compiling overwrites it with the renamed `objective`, which
      then comes back under `objective`. Every other key is kept. */
  lemma RoundTripLosesOwnMostly(kwargs: Dict)
    requires HasKey(kwargs, "mostly") && TruthyAt(kwargs, "objective")
    ensures var rt := ToPublicKwargs(ToEngineKwargs(kwargs));
      && Get(rt, "mostly") == None
      && Get(rt, "objective") == Get(kwargs, "objective")
      && forall k :: k != "mostly" && k != "objective" ==> Get(rt, k) == Get(kwargs, k)
  {
    var mid := ToEngineKwargs(kwargs);
    MoveIfTruthyEntries(kwargs, "objective", "mostly", "");
    MoveIfTruthyEntries(mid, "mostly", "objective", "");
    forall k | k != "mostly" && k != "objective"
      ensures Get(ToPublicKwargs(mid), k) == Get(kwargs, k)
    {
      MoveIfTruthyEntries(kwargs, "objective", "mostly", k);
      MoveIfTruthyEntries(mid, "mostly", "objective", k);
    }
  }

  // ---------------------------------------------------------------------
  // Suite compilation (the first loop of `validate`)
  // ---------------------------------------------------------------------

  /** An expectation as the runner receives it: its type, its live kwargs
      and its own `meta` field when it has one. */
  datatype RunnerExpectation = RunnerExpectation(expectationType: string, kwargs: Dict, meta: Option<Dict>)

  /** An `ExpectationConfiguration`: one compiled check. */
  datatype Check = Check(expectationType: string, kwargs: Dict, meta: Dict)

  /** The per-check metadata: the template, merged with the query's
      parameters for a query-addressed dataset (theirs win), unless the
      record carries a non-empty `meta` of its own, which replaces it. */
  function CheckMeta(template: Dict, batch: Dataset, e: RunnerExpectation): (m: Dict)
    ensures e.meta.Some? && e.meta.value != [] ==> m == e.meta.value
    ensures !(e.meta.Some? && e.meta.value != []) && !batch.IsQuery() ==> m == template
    ensures !(e.meta.Some? && e.meta.value != []) && batch.IsQuery() ==>
      forall k :: Get(m, k) ==
        var q := RuntimeParametersDict(batch.runtimeParameters.value);
        if HasKey(q, k) then Get(q, k) else Get(template, k)
  {
    var merged :=
      if batch.runtimeParameters.Some? then
        MergeDicts(template, RuntimeParametersDict(batch.runtimeParameters.value))
      else template;
    if e.meta.Some? && e.meta.value != [] then e.meta.value else merged
  }

  /** The record after the loop has renamed its kwargs in place. */
  function Renamed(e: RunnerExpectation): RunnerExpectation {
    e.(kwargs := ToEngineKwargs(e.kwargs))
  }

  function Compile(template: Dict, batch: Dataset, e: RunnerExpectation): Check {
    Check(e.expectationType, ToEngineKwargs(e.kwargs), CheckMeta(template, batch, e))
  }

  /** The suite: one compiled check per record, in order. */
  function CompileAll(template: Dict, batch: Dataset, es: seq<RunnerExpectation>): (suite: seq<Check>)
    ensures |suite| == |es|
    ensures forall i :: 0 <= i < |es| ==> suite[i] == Compile(template, batch, es[i])
  {
    seq(|es|, i requires 0 <= i < |es| => Compile(template, batch, es[i]))
  }

  // ---------------------------------------------------------------------
  // Result normalisation (the second loop of `validate`)
  // ---------------------------------------------------------------------

  /** One raw outcome of the engine, with the configuration it echoes. */
  datatype RawResult = RawResult(success: bool, config: Check, result: Dict)

  datatype RunId = RunId(runName: string, runTime: string)

  /** What the engine returns for a suite: `meta` is the run metadata
      other than `run_id`. */
  datatype RawValidation = RawValidation(success: bool, results: seq<RawResult>, statistics: Dict,
                                         runId: RunId, meta: Dict)

  /** A normalised outcome: `expectation_id` promoted to the top level. */
  datatype ValidationResult = ValidationResult(success: bool, config: Check, result: Dict, expectationId: Value)

  /** The record the runner returns and the caller stores. */
  datatype Validation = Validation(success: bool, results: seq<ValidationResult>, statistics: Dict,
                                   runId: RunId, meta: Dict)

  /** The identifiers the caller hands the runner. */
  datatype Identifiers = Identifiers(datasourceId: Key, datasetId: Key)

  function IdentifiersDict(ids: Identifiers): (d: Dict)
    ensures DistinctKeys(d)
  {
    [("datasource_id", Str(ids.datasourceId)), ("dataset_id", Str(ids.datasetId))]
  }

  /** A list-valued `observed_value` moves to `observed_value_list`. */
  function ListObservation(result: Dict): (r: Dict)
    ensures Get(result, "observed_value").Some? && Get(result, "observed_value").value.List? ==>
      Get(r, "observed_value_list") == Get(result, "observed_value") &&
      Get(r, "observed_value") == None
    ensures !(Get(result, "observed_value").Some? && Get(result, "observed_value").value.List?) ==>
      r == result
    ensures forall k :: k != "observed_value" && k != "observed_value_list" ==> Get(r, k) == Get(result, k)
  {
    var ov := Get(result, "observed_value");
    if ov.Some? && ov.value.List? then
      MoveEntries(result, "observed_value", "observed_value_list", ov.value);
      var r := Set(Remove(result, "observed_value"), "observed_value_list", ov.value);
      r
    else result
  }

  /** One result normalised, or None when its configuration's meta has no
      `expectation_id` (the `pop` raises). */
  function NormalizeResult(raw: RawResult): (n: Option<ValidationResult>)
    ensures n.None? <==> !HasKey(raw.config.meta, "expectation_id")
    ensures n.Some? ==>
      && n.value.success == raw.success
      && n.value.config.expectationType == raw.config.expectationType
      && n.value.config.kwargs == ToPublicKwargs(raw.config.kwargs)
      && n.value.result == ListObservation(raw.result)
      && Some(n.value.expectationId) == Get(raw.config.meta, "expectation_id")
      && !HasKey(n.value.config.meta, "expectation_id")
      && forall k :: k != "expectation_id" ==> Get(n.value.config.meta, k) == Get(raw.config.meta, k)
  {
    var meta := raw.config.meta;
    var id := Get(meta, "expectation_id");
    if id.None? then None
    else
      RemoveEntries(meta, "expectation_id");
      Some(ValidationResult(raw.success,
                            Check(raw.config.expectationType, ToPublicKwargs(raw.config.kwargs),
                                  Remove(meta, "expectation_id")),
                            ListObservation(raw.result), id.value))
  }

  /** The loop over `validation["results"]`: every result normalised in
      order, or the position of the first one whose id is missing. */
  method NormalizeResults(raws: seq<RawResult>) returns (r: Attempt<seq<ValidationResult>>)
    ensures r.Done? <==> forall i :: 0 <= i < |raws| ==> HasKey(raws[i].config.meta, "expectation_id")
    ensures r.Done? ==>
      && |r.value| == |raws|
      && forall i :: 0 <= i < |raws| ==> Some(r.value[i]) == NormalizeResult(raws[i])
    ensures r.Raised? ==>
      && r.error.MissingExpectationId?
      && r.error.index < |raws|
      && !HasKey(raws[r.error.index].config.meta, "expectation_id")
      && forall i :: 0 <= i < r.error.index ==> HasKey(raws[i].config.meta, "expectation_id")
  {
    var out: seq<ValidationResult> := [];
    var i := 0;
    while i < |raws|
      invariant 0 <= i <= |raws| && |out| == i
      invariant forall j :: 0 <= j < i ==> Some(out[j]) == NormalizeResult(raws[j])
    {
      var n := NormalizeResult(raws[i]);
      if n.None? {
        return Raised(MissingExpectationId(i));
      }
      out := out + [n.value];
      i := i + 1;
    }
    return Done(out);
  }

  // ---------------------------------------------------------------------
  // Dispatch
  // ---------------------------------------------------------------------

  /** The arguments of one `action_dispatcher.dispatch` call. */
  datatype Notification = Notification(resourceKey: Key, actionType: string, actionStatus: string,
                                        validation: Validation)

  /** The dispatcher, reduced to the calls it has received. */
  class Dispatcher {
    var sent: seq<Notification>

    constructor ()
      ensures sent == []
    {
      sent := [];
    }

    method Dispatch(n: Notification)
      modifies this
      ensures sent == old(sent) + [n]
    {
      sent := sent + [n];
    }
  }

  // ---------------------------------------------------------------------
  // Profile serialisation
  // ---------------------------------------------------------------------

  /** A candidate expectation as the profiler's suite lists it. */
  datatype Candidate = Candidate(expectationType: string, kwargs: Dict, meta: Dict)

  const SummaryDefaults: Dict :=
    [("result_format", Str("SUMMARY")), ("include_config", Bool(true)), ("catch_exceptions", Bool(true))]

  /** A candidate's kwargs as stored: the summary defaults added, then a
      truthy `mostly` renamed to `objective`. */
  function SuggestedKwargs(kwargs: Dict): Dict {
    ToPublicKwargs(Update(kwargs, SummaryDefaults))
  }

  /** The summary defaults override their own keys and nothing else. */
  lemma DefaultsEntries(kwargs: Dict, k: string)
    ensures var u := Update(kwargs, SummaryDefaults);
      && Get(u, "result_format") == Some(Str("SUMMARY"))
      && Get(u, "include_config") == Some(Bool(true))
      && Get(u, "catch_exceptions") == Some(Bool(true))
      && Get(u, "mostly") == Get(kwargs, "mostly")
      && Get(u, "objective") == Get(kwargs, "objective")
      && (!HasKey(SummaryDefaults, k) ==> Get(u, k) == Get(kwargs, k))
  {
    assert DistinctKeys(SummaryDefaults);
    GetUpdate(kwargs, SummaryDefaults, "result_format");
    GetUpdate(kwargs, SummaryDefaults, "include_config");
    GetUpdate(kwargs, SummaryDefaults, "catch_exceptions");
    GetUpdate(kwargs, SummaryDefaults, "mostly");
    GetUpdate(kwargs, SummaryDefaults, "objective");
    GetUpdate(kwargs, SummaryDefaults, k);
  }

  lemma SuggestedKwargsEntries(kwargs: Dict, k: string)
    ensures var s := SuggestedKwargs(kwargs);
      && Get(s, "result_format") == Some(Str("SUMMARY"))
      && Get(s, "include_config") == Some(Bool(true))
      && Get(s, "catch_exceptions") == Some(Bool(true))
      && !TruthyAt(s, "mostly")
      && (TruthyAt(kwargs, "mostly") ==> Get(s, "objective") == Get(kwargs, "mostly"))
      && (!TruthyAt(kwargs, "mostly") ==> Get(s, "objective") == Get(kwargs, "objective"))
      && (k != "mostly" && k != "objective" && !HasKey(SummaryDefaults, k) ==> Get(s, k) == Get(kwargs, k))
  {
    var u := Update(kwargs, SummaryDefaults);
    DefaultsEntries(kwargs, k);
    MoveIfTruthyEntries(u, "mostly", "objective", "result_format");
    MoveIfTruthyEntries(u, "mostly", "objective", "include_config");
    MoveIfTruthyEntries(u, "mostly", "objective", "catch_exceptions");
    MoveIfTruthyEntries(u, "mostly", "objective", k);
    NoTruthyMostlyAfterNormalising(u);
  }

  /** One serialised suggestion. */
  function Suggestion(c: Candidate, datasourceId: Key, datasetId: Key, now: string): StoredExpectation {
    Expectation(c.expectationType, Dumps(SuggestedKwargs(c.kwargs)), datasourceId, datasetId,
                false, true, Some(c.meta), Some(now), Some(now))
  }

  // ---------------------------------------------------------------------
  // Sample cleaning
  // ---------------------------------------------------------------------

  /** A data preview: column names and one list of cells per row. */
  datatype Frame<T> = Frame(columns: seq<string>, rows: seq<seq<T>>)

  datatype SampleOutcome<T> = SampleException(exception: string) | SampleRows(columns: seq<string>, rows: seq<seq<T>>)

  /** One cell cleaned: a datetime becomes its text, then a null becomes None. */
  function CleanCell<T>(x: T, isDatetime: T -> bool, toText: T -> T, isNull: T -> bool, none: T): T {
    var y := if isDatetime(x) then toText(x) else x;
    if isNull(y) then none else y
  }

  /** The inner loop of `sample`: every cell of one row cleaned in place. */
  method CleanRow<T>(row: seq<T>, isDatetime: T -> bool, toText: T -> T, isNull: T -> bool, none: T)
    returns (record: seq<T>)
    ensures |record| == |row|
    ensures forall b :: 0 <= b < |row| ==> record[b] == CleanCell(row[b], isDatetime, toText, isNull, none)
  {
    record := row;
    var j := 0;
    while j < |record|
      invariant 0 <= j <= |record| == |row|
      invariant forall b :: 0 <= b < j ==> record[b] == CleanCell(row[b], isDatetime, toText, isNull, none)
      invariant forall b :: j <= b < |record| ==> record[b] == row[b]
    {
      var cell := record[j];
      if isDatetime(cell) {
        cell := toText(cell);
      }
      if isNull(cell) {
        cell := none;
      }
      record := record[j := cell];
      j := j + 1;
    }
  }

  lemma CleanCellCases<T>(x: T, isDatetime: T -> bool, toText: T -> T, isNull: T -> bool, none: T)
    ensures isDatetime(x) && !isNull(toText(x)) ==> CleanCell(x, isDatetime, toText, isNull, none) == toText(x)
    ensures !isDatetime(x) && isNull(x) ==> CleanCell(x, isDatetime, toText, isNull, none) == none
    ensures !isDatetime(x) && !isNull(x) ==> CleanCell(x, isDatetime, toText, isNull, none) == x
  {
  }

  /** The message for a preview the engine could not read. */
  function SampleErrorMessage(batch: Dataset): (m: string)
    ensures batch.IsQuery() ==> m == "Syntax error in query."
    ensures !batch.IsQuery() ==> m == batch.datasetName + " is not recognized."
  {
    if batch.runtimeParameters.Some? then "Syntax error in query."
    else batch.datasetName + " is not recognized."
  }

  // ---------------------------------------------------------------------
  // The runner
  // ---------------------------------------------------------------------

  class Runner {
    const datasource: Datasource
    const batch: Dataset
    const meta: Dict
    const datasetId: Option<Key>
    const datasourceId: Option<Key>
    const identifiers: Identifiers
    const excludedExpectations: seq<string>
    /** The caller's list: `validate` renames kwargs in these records. */
    var expectations: seq<RunnerExpectation>

    constructor (datasource: Datasource, batch: Dataset, meta: Dict, datasetId: Option<Key>,
                 datasourceId: Option<Key>, expectations: seq<RunnerExpectation>,
                 identifiers: Identifiers, excludedExpectations: seq<string>)
      ensures this.datasource == datasource && this.batch == batch && this.meta == meta
      ensures this.datasetId == datasetId && this.datasourceId == datasourceId
      ensures this.expectations == expectations && this.identifiers == identifiers
      ensures this.excludedExpectations == excludedExpectations
    {
      this.datasource := datasource;
      this.batch := batch;
      this.meta := meta;
      this.datasetId := datasetId;
      this.datasourceId := datasourceId;
      this.expectations := expectations;
      this.identifiers := identifiers;
      this.excludedExpectations := excludedExpectations;
    }

    /** `profile`: both ids must be set; every candidate the profiler
        proposes for the profiling batch is returned disabled, suggested,
        with the summary defaults and `objective` in its kwargs. */
    method Profile(profiler: (Connection, BatchRequest, seq<string>) -> seq<Candidate>, now: string)
      returns (r: Attempt<seq<StoredExpectation>>)
      ensures datasourceId.None? ==> r == Raised(AssertionFailed("Require \"datasource_id\" when profiling."))
      ensures datasourceId.Some? && datasetId.None? ==>
        r == Raised(AssertionFailed("Require \"dataset_id\" when profiling."))
      ensures datasourceId.Some? && datasetId.Some? && ConnectionFor(datasource, batch).Raised? ==>
        r == Raised(ConnectionFor(datasource, batch).error)
      ensures datasourceId.Some? && datasetId.Some? && ConnectionFor(datasource, batch).Done? ==> r.Done?
      ensures r.Done? ==>
        && datasourceId.Some? && datasetId.Some? && ConnectionFor(datasource, batch).Done?
        && var cands := profiler(ConnectionFor(datasource, batch).value,
                                 BatchRequestFor(datasource, batch, true), excludedExpectations);
        && |r.value| == |cands|
        && forall i :: 0 <= i < |cands| ==>
          && r.value[i].expectationType == cands[i].expectationType
          && Loads(r.value[i].kwargs) == SuggestedKwargs(cands[i].kwargs)
          && !r.value[i].enabled && r.value[i].suggested
          && r.value[i].datasourceId == datasourceId.value
          && r.value[i].datasetId == datasetId.value
          && r.value[i].meta == Some(cands[i].meta)
          && r.value[i].createDate == Some(now) && r.value[i].modifiedDate == Some(now)
    {
      if datasourceId.None? {
        return Raised(AssertionFailed("Require \"datasource_id\" when profiling."));
      }
      if datasetId.None? {
        return Raised(AssertionFailed("Require \"dataset_id\" when profiling."));
      }
      var conn := ConnectionFor(datasource, batch);
      if conn.Raised? {
        return Raised(conn.error);
      }
      var request := BatchRequestFor(datasource, batch, true);
      var cands := profiler(conn.value, request, excludedExpectations);
      var out: seq<StoredExpectation> := [];
      var i := 0;
      while i < |cands|
        invariant 0 <= i <= |cands| && |out| == i
        invariant forall j :: 0 <= j < i ==> out[j] == Suggestion(cands[j], datasourceId.value, datasetId.value, now)
      {
        out := out + [Suggestion(cands[i], datasourceId.value, datasetId.value, now)];
        i := i + 1;
      }
      forall j | 0 <= j < |cands|
        ensures Loads(out[j].kwargs) == SuggestedKwargs(cands[j].kwargs)
      {
        assert out[j] == Suggestion(cands[j], datasourceId.value, datasetId.value, now);
      }
      return Done(out);
    }

    /** `sample`: a preview the engine cannot read yields the message for
        a query or for a table; otherwise every cell is cleaned. */
    method Sample<T>(head: (Connection, BatchRequest) -> Option<Frame<T>>,
                     isDatetime: T -> bool, toText: T -> T, isNull: T -> bool, none: T)
      returns (r: Attempt<SampleOutcome<T>>)
      ensures ConnectionFor(datasource, batch).Raised? ==> r == Raised(ConnectionFor(datasource, batch).error)
      ensures ConnectionFor(datasource, batch).Done? ==>
        && r.Done?
        && var f := head(ConnectionFor(datasource, batch).value, BatchRequestFor(datasource, batch));
        && (f.None? ==> r.value == SampleException(SampleErrorMessage(batch)))
        && (f.Some? ==>
          && r.value.SampleRows?
          && r.value.columns == f.value.columns
          && |r.value.rows| == |f.value.rows|
          && forall i :: 0 <= i < |f.value.rows| ==>
            |r.value.rows[i]| == |f.value.rows[i]| &&
            forall j :: 0 <= j < |f.value.rows[i]| ==>
              r.value.rows[i][j] == CleanCell(f.value.rows[i][j], isDatetime, toText, isNull, none))
    {
      var conn := ConnectionFor(datasource, batch);
      if conn.Raised? {
        return Raised(conn.error);
      }
      var f := head(conn.value, BatchRequestFor(datasource, batch));
      if f.None? {
        return Done(SampleException(SampleErrorMessage(batch)));
      }
      var rows := f.value.rows;
      var i := 0;
      while i < |rows|
        invariant 0 <= i <= |rows| && |rows| == |f.value.rows|
        invariant forall a :: 0 <= a < |rows| ==> |rows[a]| == |f.value.rows[a]|
        invariant forall a :: 0 <= a < i ==> forall j :: 0 <= j < |rows[a]| ==>
          rows[a][j] == CleanCell(f.value.rows[a][j], isDatetime, toText, isNull, none)
        invariant forall a :: i <= a < |rows| ==> rows[a] == f.value.rows[a]
      {
        var record := CleanRow(rows[i], isDatetime, toText, isNull, none);
        rows := rows[i := record];
        i := i + 1;
      }
      return Done(SampleRows(f.value.columns, rows));
    }

    /** `validate`: compile the caller's expectations (renaming their
        kwargs in place), run the suite on the batch, normalise every
        result, stamp the run, merge the identifiers into its metadata and
        dispatch it exactly once. */
    method Validate(execute: (Connection, BatchRequest, seq<Check>) -> RawValidation,
                    removeT: string -> string, runName: string, dispatcher: Dispatcher)
      returns (r: Attempt<Validation>)
      modifies this, dispatcher
      ensures ConnectionFor(datasource, batch).Raised? ==>
        r == Raised(ConnectionFor(datasource, batch).error) &&
        expectations == old(expectations) && dispatcher.sent == old(dispatcher.sent)
      ensures ConnectionFor(datasource, batch).Done? ==>
        expectations == seq(|old(expectations)|, i requires 0 <= i < |old(expectations)| => Renamed(old(expectations)[i]))
      ensures ConnectionFor(datasource, batch).Done? ==>
        var raw := execute(ConnectionFor(datasource, batch).value, BatchRequestFor(datasource, batch),
                           CompileAll(meta, batch, old(expectations)));
        && (r.Done? <==> forall i :: 0 <= i < |raw.results| ==> HasKey(raw.results[i].config.meta, "expectation_id"))
        && (r.Done? ==>
          && r.value.success == raw.success
          && r.value.statistics == raw.statistics
          && r.value.runId == RunId(runName, removeT(raw.runId.runTime))
          && r.value.meta == Update(raw.meta, IdentifiersDict(identifiers))
          && |r.value.results| == |raw.results|
          && (forall i :: 0 <= i < |raw.results| ==> Some(r.value.results[i]) == NormalizeResult(raw.results[i]))
          && dispatcher.sent == old(dispatcher.sent) +
               [Notification(identifiers.datasetId, "validation", Status(raw.success), r.value)])
        && (r.Raised? ==>
          && r.error.MissingExpectationId? && r.error.index < |raw.results|
          && !HasKey(raw.results[r.error.index].config.meta, "expectation_id")
          && dispatcher.sent == old(dispatcher.sent))
    {
      var conn := ConnectionFor(datasource, batch);
      if conn.Raised? {
        return Raised(conn.error);
      }
      ghost var before := expectations;
      var suite: seq<Check> := [];
      var i := 0;
      while i < |expectations|
        modifies this
        invariant 0 <= i <= |expectations| == |before| && |suite| == i
        invariant forall j :: 0 <= j < i ==> expectations[j] == Renamed(before[j])
        invariant forall j :: i <= j < |expectations| ==> expectations[j] == before[j]
        invariant forall j :: 0 <= j < i ==> suite[j] == Compile(meta, batch, before[j])
      {
        var e := expectations[i];
        var checkMeta := CheckMeta(meta, batch, e);
        expectations := expectations[i := e.(kwargs := ToEngineKwargs(e.kwargs))];
        suite := suite + [Check(e.expectationType, ToEngineKwargs(e.kwargs), checkMeta)];
        i := i + 1;
      }
      assert suite == CompileAll(meta, batch, before);
      assert expectations == seq(|before|, k requires 0 <= k < |before| => Renamed(before[k]));
      var request := BatchRequestFor(datasource, batch);
      var raw := execute(conn.value, request, suite);
      var runId := RunId(runName, removeT(raw.runId.runTime));
      var runMeta := Update(raw.meta, IdentifiersDict(identifiers));
      var results := NormalizeResults(raw.results);
      if results.Raised? {
        return Raised(results.error);
      }
      var validation := Validation(raw.success, results.value, raw.statistics, runId, runMeta);
      dispatcher.Dispatch(Notification(identifiers.datasetId, "validation", Status(raw.success), validation));
      return Done(validation);
    }
  }
}
