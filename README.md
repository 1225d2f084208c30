# Swiple data-quality backend: validation runner and endpoint rules

This project models in Dafny the core of Swiple's backend. Swiple keeps
*datasources* (database connections), *datasets* (a physical table or a
named SQL query on a datasource), *expectations* (checks on a dataset,
stored with their keyword arguments as JSON text) and *validations* (the
outcome of running a dataset's enabled expectations). It models:

- **The runner** (`Runner` module, `backend/app/core/runner.py`). This covers:
  - the per-engine choice of connection schema;
  - the batch request and its temp-table flag;
  - compiling stored expectations into a suite, with the metadata merge
    and override and the `objective` → `mostly` rename;
  - normalising every result: the reverse rename, list-valued
    observations moved to `observed_value_list`, and `expectation_id`
    promoted out of the check metadata;
  - the run stamp, the identifiers merged into the run metadata, and the
    single dispatch;
  - serialising profiler candidates into suggestions;
  - sample error messages and cell cleaning.

  The class `Runner.Runner` keeps the caller's expectation list as a field
  that `Validate` rewrites in place, as the code does.
- **The runs** (`Runs` module). `run_dataset_validation` and
  `create_dataset_suggestions` set up a runner from the store.
- **The expectation and dataset endpoints** (`ExpectationEndpoints` and
  `DatasetEndpoints`). These cover:
  - the listing queries;
  - the create, update and delete rules against a document store
    (`Store.DocumentStore`, one map per index);
  - the duplicate-dataset check;
  - sample-query choice and resampling;
  - the grouping of validations under their expectations.
- **The validation repository** (`ValidationRepository`). This covers the
  `must` lists of its searches and deletions, and the shape of the
  statistics query.

Python dicts keep insertion order, so a JSON object is a sequence of
key/value pairs (`Json.Dict`). The `Json` module gives Python's `get`,
item assignment, `pop`, `update`, `{**a, **b}` and truthiness.
`Search.Satisfies` and `Search.Selects` give the meaning of a search
clause or `match` query over a document's field view. The query builders
are proved against them: they say which documents a query selects, not
only how it is spelled.

Library and I/O calls are function parameters. These are:

- the Great Expectations validator (`execute`), the profiler (`profiler`)
  and `validator.head()` (`head`);
- `uuid.uuid4()` (`newKey`, `runName`), `utils.current_time()` (`now`)
  and `utils.remove_t_from_date_string` (`removeT`);
- `utils.string_to_military_time` (`toMilitaryTime`);
- `get_sample_query` (`getSample`) and `split_dataset_resource` (`split`);
- each expectation type's pydantic schema (`Schemas`);
- the mapping of a validation record to the fields the search engine
  indexes (`viewOf`).

`json.dumps`/`json.loads` are the pair `Json.Dumps`/`Json.Loads`, which
round-trip exactly. An exception that the code does not catch becomes
`ServerError`. The `HTTPException`s and error `JSONResponse`s become the
other `Entities.ApiError` cases.

Behaviour of the code that the model keeps as written:

- A falsy `mostly` (for example `0`) is not renamed back to `objective`,
  so such a result keeps `mostly`. `Runner.NoTruthyMostlyAfterNormalising`
  states what the code guarantees: no truthy `mostly` remains.
- A stored expectation that has its own `mostly` and a truthy `objective`
  loses the `mostly` value; every other key comes back unchanged
  (`Runner.RoundTripLosesOwnMostly`).
- A result whose check metadata lacks `expectation_id` raises when
  normalised. An id that is present is not checked for being non-empty.
- The runner performs no check of the expectation type. Unknown types are
  rejected by the endpoints (`NotImplemented`).
- `delete_dataset` deletes the validations whose top-level `dataset_id`
  is the dataset's key. The runner puts the identifiers into the run's
  `meta`, and the validation repository filters on `meta.dataset_id`.
  A validation that carries the id only there survives the cascade
  (`DatasetEndpoints.CascadeKeepsMetaOnlyValidations`). The `Validation`
  schema that decides which fields a stored validation has is not part
  of this model.

Several definitions carry no contract of their own. The rows of the
members that state their meaning cover them:

- `Runner.ToEngineKwargs`: `Runner.ToEngineKwargsEntries`;
- `Runner.ToPublicKwargs`: `Runner.NoTruthyMostlyAfterNormalising`,
  `Runner.RenameRoundTrip` and `Runner.RenameRoundTripOrder`;
- `Runner.CleanCell`: `Runner.CleanCellCases` and `Runner.CleanRow`;
- `Runner.SuggestedKwargs`: `Runner.SuggestedKwargsEntries`;
- `Runner.Suggestion`: `Runner.Runner.Profile`;
- `DatasetEndpoints.Duplicates`: `DatasetEndpoints.ConflictCheck` and
  `DatasetEndpoints.SameNameConflicts`;
- `DatasetEndpoints.Resamples`: `DatasetEndpoints.UpdateDataset`.

## Model

| member | source | states |
|---|---|---|
| Json.Get | backend/app/core/runner.py:123 | `d.get(k)` is present exactly when some entry has key k, and then that entry's value |
| Json.GetSet | backend/app/core/runner.py:127 | assigning `d[k] = v` changes the value under k and no other key |
| Json.SetEntries | backend/app/core/runner.py:271-274 | the same fact for every key at once |
| Json.GetRemove | backend/app/core/runner.py:127 | `pop(k)` removes k and leaves every other key's value |
| Json.GetUpdate | backend/app/core/runner.py:146 | after `d.update(e)` a key of e has e's value and every other key keeps d's |
| Json.SetAppends | backend/app/core/runner.py:154 | assigning a new key appends it as the last entry |
| Json.RemoveAbsent | backend/app/core/runner.py:151 | popping an absent key leaves the dict as it was |
| Json.MoveIfTruthyEntries | backend/app/core/runner.py:126-127 | the guarded move puts a truthy value under the new key and drops the old key; a falsy or missing value changes nothing; all other keys are untouched |
| Json.MergeDicts | backend/app/core/runner.py:119 | `{**a, **b}`: b's value wins on every key b has, a's value elsewhere |
| Json.MergeDictsEntries | backend/app/core/runner.py:119 | the same per-key law for `a.update(b)` |
| Json.MoveEntries | backend/app/core/runner.py:154 | `d[to] = d.pop(from)` moves the value and changes no other key |
| Text.SplitProperties | backend/app/core/runner.py:246 | `str.split` yields one more piece than separators, no piece contains the separator, and joining the pieces restores the string |
| Text.Split | backend/app/core/runner.py:246 | `str.split` always yields at least one piece |
| Text.SplitAtOnlySeparator | backend/app/core/runner.py:246 | a name with exactly one dot splits into the text before and after that dot |
| Entities.RuntimeParametersDict | backend/app/core/runner.py:219 | the runtime parameters by alias: `schema` and `query`, distinct keys |
| Entities.Encode | backend/app/api/api_v1/endpoints/expectation.py:157-158 | the stored copy's kwargs text decodes back to the live kwargs |
| Entities.Decode | backend/app/api/api_v1/endpoints/expectation.py:167 | decoding is inverse to encoding: re-encoding the decoded document gives the stored one |
| Search.DirectionOf | backend/app/api/api_v1/endpoints/expectation.py:51 | the direction is ascending exactly when `asc` |
| Search.FieldPath | backend/app/repositories/validation.py:31 | a `.keyword` sub-field reads the field it is appended to; any other name reads itself |
| Search.KeywordPath | backend/app/repositories/validation.py:31 | `<base>.keyword` reads `<base>` |
| Search.SatisfiesAllAppend | backend/app/repositories/validation.py:30-34 | appending a clause to a `must` list narrows the selection by exactly that clause |
| Search.SelectsOneField | backend/app/api/api_v1/endpoints/dataset.py:45 | a one-field `match` selects exactly the documents with that value in that field |
| Search.DeleteWhere | backend/app/api/api_v1/endpoints/expectation.py:238-241 | a delete-by-query keeps exactly the documents that do not match, unchanged |
| Store.ExpectationView | backend/app/api/api_v1/endpoints/dataset.py:204 | a match on `dataset_id`, `datasource_id` or `expectation_type` in the expectation index compares that field of the stored expectation |
| Runner.BigQuerySchemaPrefix | backend/app/core/runner.py:245-247 | for a one-dot table name, the schema is the dot-free text before the dot |
| Runner.ConnectionFor | backend/app/core/runner.py:236-251 | Snowflake or BigQuery on a query uses the query's schema; a BigQuery table uses the part before its only dot and raises unless the name has exactly one dot; every other case passes no schema |
| Runner.BatchRequestFor | backend/app/core/runner.py:210-234 | a runtime request exactly for query datasets, with the runtime connector, the parameters and `{name: name}` identifiers; a temp table is requested exactly for a query batch when profiling (the default); tables always get `create_temp_table` false |
| Runner.Status | backend/app/core/runner.py:253-258 | the status is "success" or "failure", and "success" exactly when the run succeeded |
| Runner.ToEngineKwargsEntries | backend/app/core/runner.py:126-127 | a truthy `objective` moves to `mostly` and `objective` is gone; a falsy one stays; every other key is untouched |
| Runner.NoTruthyMostlyAfterNormalising | backend/app/core/runner.py:150-151 | after the reverse rename no truthy `mostly` remains |
| Runner.RenameRoundTrip | backend/app/core/runner.py:126-151 | for kwargs without their own `mostly`, renaming in and back out gives the same value under every key |
| Runner.RenameRoundTripOrder | backend/app/core/runner.py:126-151 | the round trip moves a truthy `objective` to the last position |
| Runner.RoundTripLosesOwnMostly | backend/app/core/runner.py:126-151 | for all kwargs with their own `mostly` and a truthy `objective`, the round trip has no `mostly`, keeps the `objective` value, and keeps every other key's value |
| Runner.RemoveTail | backend/app/core/runner.py:151 | popping the key that was just appended restores the dict |
| Runner.CheckMeta | backend/app/core/runner.py:117-124 | a non-empty own `meta` replaces the metadata; otherwise a table gets the template and a query gets the template merged with its parameters, the parameters winning |
| Runner.IdentifiersDict | backend/app/core/runner.py:146 | the identifiers as a dict with distinct keys |
| Runner.ListObservation | backend/app/core/runner.py:153-154 | a list-valued `observed_value` moves to `observed_value_list` and the old key is gone; any other result is unchanged; other keys keep their values |
| Runner.NormalizeResult | backend/app/core/runner.py:148-157 | a result normalises exactly when its check metadata has `expectation_id`; the id is promoted, removed from the metadata and every other metadata entry is kept; kwargs get the reverse rename, and the result gets the list move |
| Runner.NormalizeResults | backend/app/core/runner.py:148-157 | every result is normalised in order exactly when each has an id; otherwise the error names the first result without one |
| Runner.Dispatcher.Dispatch | backend/app/core/runner.py:159-164 | one call records exactly one notification |
| Runner.SuggestedKwargsEntries | backend/app/core/runner.py:64-67 | a suggestion's kwargs carry the SUMMARY, include-config and catch-exceptions defaults; a truthy `mostly` becomes `objective`; no truthy `mostly` remains; other keys are kept |
| Runner.DefaultsEntries | backend/app/core/runner.py:64 | the summary defaults set result_format SUMMARY, include_config and catch_exceptions true, and leave `mostly`, `objective` and every other key as they were |
| Runner.CleanCellCases | backend/app/core/runner.py:102-108 | a datetime cell becomes its text, a null cell becomes None, and any other cell is kept |
| Runner.SampleErrorMessage | backend/app/core/runner.py:92-97 | "Syntax error in query." for a query dataset, "<name> is not recognized." for a table |
| Runner.Runner.constructor | backend/app/core/runner.py:30-39 | the runner holds exactly the arguments it was given |
| Runner.Runner.Profile | backend/app/core/runner.py:41-77 | the runner raises the assertion for a missing datasource id, then for a missing dataset id, then the connection error; otherwise it returns one suggestion per candidate, in order, with the serialised kwargs, disabled, suggested, both ids and both dates |
| Runner.Runner.Sample | backend/app/core/runner.py:79-109 | an unreadable preview yields the error message; otherwise the columns are kept and every cell of every row is cleaned |
| Runner.CleanRow | backend/app/core/runner.py:102-107 | every cell of a row is cleaned: a datetime becomes its text, then a null becomes None; the row keeps its length |
| Runner.CompileAll | backend/app/core/runner.py:117-135 | the suite holds one compiled check per record, in the records' order |
| Runner.Runner.Validate | backend/app/core/runner.py:111-166 | the caller's records get their kwargs renamed; the suite compiled from them runs; every result is normalised; the run id holds the new run name and the cleaned run time; the identifiers are merged into the meta; exactly one notification (dataset id, "validation", status) is sent on success; a result without `expectation_id` raises that `KeyError`, naming such a result, and nothing is sent |
| Runs.RunMeta | backend/app/core/runner.py:271-274 | the template is the datasource's expectation metadata with `dataset_name` set, other keys unchanged |
| Runs.RunnerRecord | backend/app/core/runner.py:276-280 | a run record keeps the stored type and kwargs, and its own meta is `{"expectation_id": key}` |
| Runs.EchoedResultNormalises | backend/app/core/runner.py:117-157 | when the engine echoes a run record's compiled check, the result normalises: it carries the expectation's key, its check meta ends up empty, and its kwargs have the stored entries again |
| Runs.Records | backend/app/core/runner.py:276-280 | one run record per selected expectation, in order |
| Runs.Suite | backend/app/core/runner.py:117-135 | the compiled suite of a run, one check per selected expectation, in order |
| Runs.SelectExpectations | backend/app/core/runner.py:264 | every enabled expectation of the dataset is listed exactly once |
| Runs.RunDatasetValidation | backend/app/core/runner.py:261-297 | the dataset and then its datasource must exist; the runner validates the dataset's enabled expectations under the run template; on success the validation is dispatched once and stored under the fresh key; a missing `expectation_id` fails as that `KeyError`; on every failure nothing is dispatched and nothing is stored |
| Runs.ValidateRecords | backend/app/core/runner.py:276-287 | a runner over the records of the listed stored expectations, with the datasource/dataset identifiers, either raises the connection error or runs the suite compiled from them once, normalising each result, merging the identifiers into the metadata and dispatching the validation once; a failed normalisation is the missing-`expectation_id` error, and a raised run dispatches nothing |
| Runs.RunAndStore | backend/app/core/runner.py:265-297 | the listed expectations are run under the run template; on success the validation is dispatched once and stored under the fresh key; a connection error or a missing `expectation_id` becomes its server error, with nothing dispatched or stored; datasources, datasets and expectations are untouched |
| Runs.SuggestionExclusions | backend/app/core/runner.py:314-315 | the unsupported types, in order, followed by the "values between" check |
| Runs.CreateDatasetSuggestions | backend/app/core/runner.py:300-327 | the dataset's candidates are profiled with both ids set and the exclusions, and returned as suggestions; nothing is stored |
| ValidationRepository.FieldPaths | backend/app/repositories/validation.py:23-51 | the fields the clauses read: the run time, the meta dataset and datasource ids, and the top-level expectation id |
| ValidationRepository.QueryByFilter | backend/app/repositories/validation.py:13-36 | the `must` list starts with the run-time range of `period` days (default 14), then the dataset match, then the datasource match, each only when truthy; it selects exactly the runs in the window that match the given ids; sorted ascending by run time, size 2000 |
| ValidationRepository.DeleteByFilter | backend/app/repositories/validation.py:38-53 | one match per argument that is not None, in the order dataset, datasource, expectation; it deletes exactly the validations matching every given id (all of them when none is given) |
| ValidationRepository.DeleteByDataset | backend/app/repositories/validation.py:55-56 | a single dataset match |
| ValidationRepository.DeleteByDatasource | backend/app/repositories/validation.py:58-59 | a single datasource match |
| ValidationRepository.DeleteByExpectation | backend/app/repositories/validation.py:61-62 | a single expectation match |
| ValidationRepository.Statistics | backend/app/repositories/validation.py:64-116 | the query is restricted to the dataset and the last 31 days; it averages `statistics.success_percent` over 31-, 7- and 1-day windows, plus a daily histogram on the run time with a per-day average |
| ValidationRepository.WindowsSeeTheirOwnDays | backend/app/repositories/validation.py:64-102 | each window average sees exactly the dataset's runs of its own window: the 31-day restriction removes nothing from any window |
| ExpectationEndpoints.ListingQuery | backend/app/api/api_v1/endpoints/expectation.py:51-63 | sort on `expectation_type` in the requested direction; `match_all` exactly when both ids are None; otherwise a match on exactly the given ids (datasource first), selecting the documents that have them |
| ExpectationEndpoints.ListExpectations | backend/app/api/api_v1/endpoints/expectation.py:96-106 | every hit is returned in order with its key and decoded kwargs, exactly when every hit's type is implemented and accepted |
| ExpectationEndpoints.GetExpectation | backend/app/api/api_v1/endpoints/expectation.py:109-118 | the stored document with its key; a missing key raises |
| ExpectationEndpoints.Validated | backend/app/api/api_v1/endpoints/expectation.py:127-137 | an unknown type is not implemented; a body the type's schema rejects is invalid; otherwise the schema's output |
| ExpectationEndpoints.CreateExpectation | backend/app/api/api_v1/endpoints/expectation.py:121-168 | dates stamped; rejections in order: unknown type, invalid body, missing datasource, missing dataset, datasource mismatch; only on success is the encoded document stored under the fresh key and returned decoded; referential integrity is kept |
| ExpectationEndpoints.PartialUpdate | backend/app/api/api_v1/endpoints/expectation.py:244-249 | a partial update replaces every field the new document has and keeps the stored `meta` when the new one is absent |
| ExpectationEndpoints.UpdateExpectation | backend/app/api/api_v1/endpoints/expectation.py:171-251 | the update validates the body and takes `create_date` from the original; an identical document is a no-op under the same key, and only then; datasource or dataset re-pointing is rejected with the store unchanged; a type change stores under a fresh key, deletes the old key and its validations; a changed document of the same ids and type is, exactly then, applied in place under the same key; referential integrity is kept |
| ExpectationEndpoints.DeleteExpectation | backend/app/api/api_v1/endpoints/expectation.py:254-270 | the expectation's validations are deleted first, then the expectation; a missing expectation is a 404 after its validations are gone |
| ExpectationEndpoints.ValidationsOfMembers | backend/app/api/api_v1/endpoints/expectation.py:299-302 | an expectation's group holds the converted copy of every validation naming it, and every element of the group is such a copy |
| ExpectationEndpoints.Locate | backend/app/api/api_v1/endpoints/expectation.py:302 | the position of the entry with that key, or none exists |
| ExpectationEndpoints.EntriesOf | backend/app/api/api_v1/endpoints/expectation.py:289-297 | one entry per expectation in input order, keyed by its id, with its kwargs decoded and no validations yet, exactly when every type is implemented and accepted |
| ExpectationEndpoints.Attach | backend/app/api/api_v1/endpoints/expectation.py:299-302 | each entry gains exactly the validations naming it, in input order with converted run dates, exactly when every validation names an existing entry |
| ExpectationEndpoints.GroupedStep | backend/app/api/api_v1/endpoints/expectation.py:299-302 | appending one validation changes only the entry whose key it names, by adding its converted copy last |
| ExpectationEndpoints.Grouped | backend/app/api/api_v1/endpoints/expectation.py:296-302 | every entry, in order, gains exactly the validations naming it, appended after the ones it had |
| ExpectationEndpoints.Zip | backend/app/api/api_v1/endpoints/expectation.py:286-304 | one entry per expectation in input order with key = id and decoded document, each holding exactly its own validations in input order with converted run dates; fails exactly when a type is unknown or rejected, or a validation names an unknown expectation |
| ExpectationEndpoints.SameKeys | backend/app/api/api_v1/endpoints/expectation.py:289-296 | entries built one per expectation in order have exactly the expectation ids as keys, distinct when the ids are |
| ExpectationEndpoints.EveryValidationGroupedOnce | backend/app/api/api_v1/endpoints/expectation.py:299-304 | when every validation names one of the expectations, the groups together hold every validation exactly once |
| ExpectationEndpoints.GroupSizesAppend | backend/app/api/api_v1/endpoints/expectation.py:302 | one more validation grows the groups by the number of expectations with its id |
| ExpectationEndpoints.OccursOnce | backend/app/api/api_v1/endpoints/expectation.py:297 | a key among distinct keys occurs once |
| ExpectationEndpoints.NotOccurring | backend/app/api/api_v1/endpoints/expectation.py:302 | an absent key occurs zero times |
| ExpectationEndpoints.EmptyGroups | backend/app/api/api_v1/endpoints/expectation.py:296 | with no validations every group is empty |
| DatasetEndpoints.ListingQuery | backend/app/api/api_v1/endpoints/dataset.py:40-45 | `match_all` exactly when no datasource id is given, else a match on it, selecting exactly that datasource's datasets; sorted on `sort_by_key` in the requested direction |
| DatasetEndpoints.GetDataset | backend/app/api/api_v1/endpoints/dataset.py:67-81 | the stored dataset with its key and, exactly when it has a sample, its rows decoded; a missing key is a 404 |
| DatasetEndpoints.SampleQueryText | backend/app/api/api_v1/endpoints/dataset.py:233-242 | a query dataset samples its query; a table samples `select * from <name>` |
| DatasetEndpoints.SampleEndpoint | backend/app/api/api_v1/endpoints/dataset.py:223-256 | the datasource must exist; without response formatting the raw answer is returned unchanged; with it, a non-empty exception is a 422 |
| DatasetEndpoints.Resample | backend/app/api/api_v1/endpoints/dataset.py:94-105 | a non-empty exception is a 422, an answer without columns raises, and otherwise the sample holds the columns and the rows as JSON text |
| DatasetEndpoints.ConflictCheck | backend/app/api/api_v1/endpoints/dataset.py:297-331 | a conflict exactly when a stored dataset of the same datasource name has the split schema and bare name, or the same full name; the message names datasource, schema and name |
| DatasetEndpoints.SameNameConflicts | backend/app/api/api_v1/endpoints/dataset.py:311-318 | a stored dataset with the same datasource and full name always conflicts |
| DatasetEndpoints.CreateDataset | backend/app/api/api_v1/endpoints/dataset.py:84-124 | rejections in order: missing datasource, conflict, failed test sample; on success the sample (when tested), creator and both dates are set and the dataset is stored under the fresh key; nothing is written otherwise |
| DatasetEndpoints.UpdateDataset | backend/app/api/api_v1/endpoints/dataset.py:127-192 | an identical dataset is returned without a write; a changed datasource is rejected; the datasource must exist; a rename is conflict-checked; a renamed table or a changed query is resampled, and a failed resample is rejected with the sampler's own error; the stored dataset gets the new modified date and keeps the original creation date and creator |
| DatasetEndpoints.DeleteDataset | backend/app/api/api_v1/endpoints/dataset.py:195-220 | the validations whose top-level `dataset_id` is the key and the dataset's expectations are deleted first, then the dataset; a missing dataset is a 404 after the cascades; no expectation of the dataset survives; referential integrity is kept |
| DatasetEndpoints.CascadeKeepsMetaOnlyValidations | backend/app/api/api_v1/endpoints/dataset.py:201-203 | a validation with the dataset's id under `meta.dataset_id` and no top-level `dataset_id` survives the cascade unchanged |
| DatasetEndpoints.UpdateSample | backend/app/api/api_v1/endpoints/dataset.py:259-284 | a fresh sample replaces the stored dataset's sample, and nothing else changes; a failed sample writes nothing |

## Left out

- Great Expectations itself is a parameter: the data context, its
  configuration (`get_data_context_config`), the validator and the profiler
  heuristics. So is the suite's handling of two checks of the same type on
  the same column, which the suite may merge.
- `utils.list_to_string_mapper` is applied to each result between the
  list move and the id promotion. It is not visible, and the model leaves
  the result as the list move made it.
- The `documentation` added to listed expectations and the `result_type`
  added to zip entries come from the typed models, which are not visible.
  The model does not add them.
- Pydantic coercion of request bodies is not modelled. A body is the
  dataset or expectation as given, and an expectation's schema is an
  opaque accept/reject function.
- `utils.current_time()` is called twice for the two dates of a created
  expectation or suggestion. The model uses one `now` for both.
- The `Runner` constructor's defaults (`expectations=None`,
  `identifiers=None`) are not modelled. `create_dataset_suggestions`
  passes no `expectations`, and the model passes the empty list there.
  `profile` never reads that field, so the difference is not visible.
- A dispatch cannot fail in the model. Dispatch failures are not
  modelled.
- The `include_history` branch of `get_expectations` is not modelled. It
  issues a multi-search with `validations_query_body`, which is not
  visible. `Zip` models what that branch does with the answer.
- With both ids given, `get_expectations` puts two fields into one
  `match` query. The model gives that query its intended meaning, a match
  on both fields. Whether the search engine accepts such a query is
  outside the model. A rejected query would be the endpoint's "invalid
  sort_by_key" answer.
- The search engine's text analysis of `match` queries is not modelled. A
  `match` is exact equality of the field's value, and
  `runtime_parameters.schema` is compared with the stored schema name.
- Which fields a validation document exposes to the search engine is the
  parameter `viewOf` and the store's field views. The cascades of
  `delete_expectation` and `delete_dataset` match the top-level fields
  `expectation_id` and `dataset_id` of validations, as the code does.
  They delete exactly the validations whose view has that field.
- The scheduler request in `delete_dataset` is network I/O and is not
  modelled.
- HTTP status codes and response bodies are not modelled. Each rejection
  is an `ApiError` case.
- Runner.Runner.Sample: a preview row is a positional list of cells, one
  per column. The code turns each row into a record keyed by column name,
  so the stored sample rows are JSON objects rather than lists, and
  repeated column names collapse into one key. The model keeps every
  cell and does not collapse repeated names. The same holds for the rows
  that `DatasetEndpoints.Resample` and `DatasetEndpoints.UpdateSample`
  store.
- `Store.DocumentStore.constructor` builds an empty store. The code has
  no such step: it uses one module-level search client. The constructor
  only shows that an empty store meets referential integrity, and it has
  no row in the table.
- ExpectationEndpoints.PartialUpdate: the search engine merges nested
  objects of a partial update recursively. The model merges `meta` one
  level deep, like `dict.update`.
- ExpectationEndpoints.Zip: requires the expectation hits to have distinct
  ids, as the hits of one index do. With repeated ids Python's dict would
  keep the first position and the last document.
- ExpectationEndpoints.UpdateExpectation: the no-op comparison includes the
  fresh `modified_date`. Under schemas that keep the fields, the method's
  contract proves that the no-op fires only when the stored document
  already carries that same `modified_date`.
- DatasetEndpoints.CreateDataset: it keeps referential integrity unless
  the fresh key overwrites a stored dataset of another datasource. That
  case cannot arise with a fresh uuid.
- The repository base class that runs `query`, `delete_by_query` and
  `search` is not part of this model. The repository methods return the
  query they build, and `Search.SatisfiesAll` gives its meaning. The
  window averages and the histogram buckets are computed by the search
  engine and are not modelled.
- `ExpectationRepository`, `DatasetRepository` and `DatasourceRepository`
  are not part of this model. A missing dataset or datasource in a run is
  a `NotFound` outcome. `query_by_filter(dataset_id=…, enabled=True)` is
  modelled as selecting exactly the dataset's enabled expectations, in an
  arbitrary order.
- The `json_schema` and `supported_expectations` endpoints and the
  authentication dependency are not modelled.
