/** The validation repository (backend/app/repositories/validation.py):
    the searches and deletions it sends to the validation index. The
    repository base class that executes them is not part of this model;
    what a query selects is given by `Search.SatisfiesAll`. */
module ValidationRepository {
  import opened Json
  import opened Search

  const RunTimeField := "meta.run_id.run_time"
  const DatasetField := "meta.dataset_id.keyword"
  const DatasourceField := "meta.datasource_id.keyword"
  const ExpectationField := "expectation_id"
  const SuccessPercentField := "statistics.success_percent"

  /** The fields the clauses read. */
  lemma FieldPaths()
    ensures FieldPath(RunTimeField) == "meta.run_id.run_time"
    ensures FieldPath(DatasetField) == "meta.dataset_id"
    ensures FieldPath(DatasourceField) == "meta.datasource_id"
    ensures FieldPath(ExpectationField) == "expectation_id"
  {
    KeywordPath("meta.dataset_id");
    assert DatasetField == "meta.dataset_id" + ".keyword";
    KeywordPath("meta.datasource_id");
    assert DatasourceField == "meta.datasource_id" + ".keyword";
    assert RunTimeField[|RunTimeField| - 8] == 'r';
    assert ExpectationField[|ExpectationField| - 8] == 'a';
  }

  /** A search with a `bool`/`must` query, a sort and a size. */
  datatype SearchRequest = SearchRequest(must: seq<Clause>, sort: seq<(string, Direction)>, size: nat)

  /** Python's `if x:` on an optional string argument. */
  predicate Given(x: Option<string>) {
    x.Some? && x.value != ""
  }

  /** `query_by_filter`: the runs of the last `period` days, narrowed to a
      dataset and then to a datasource when those arguments are truthy,
      oldest first, at most 2000. */
  method QueryByFilter(datasourceId: Option<string> := None, datasetId: Option<string> := None,
                       period: int := 14)
    returns (q: SearchRequest)
    ensures |q.must| >= 1 && q.must[0] == Range(RunTimeField, DaysAgo(period), Now)
    ensures |q.must| == 1 + (if Given(datasetId) then 1 else 0) + (if Given(datasourceId) then 1 else 0)
    ensures Given(datasetId) ==> q.must[1] == Match(DatasetField, datasetId.value)
    ensures Given(datasourceId) ==> q.must[|q.must| - 1] == Match(DatasourceField, datasourceId.value)
    ensures q.sort == [(RunTimeField, Asc)] && q.size == 2000
    ensures forall doc: FieldView, now: int {:trigger SatisfiesAll(doc, q.must, now)} ::
      SatisfiesAll(doc, q.must, now) <==>
        && RanWithin(doc, "meta.run_id.run_time", period, now)
        && (Given(datasetId) ==> FieldIs(doc, "meta.dataset_id", datasetId.value))
        && (Given(datasourceId) ==> FieldIs(doc, "meta.datasource_id", datasourceId.value))
  {
    var must := [Range(RunTimeField, DaysAgo(period), Now)];
    ghost var m0 := must;
    if datasetId.Some? && datasetId.value != "" {
      must := must + [Match(DatasetField, datasetId.value)];
    }
    ghost var m1 := must;
    if datasourceId.Some? && datasourceId.value != "" {
      must := must + [Match(DatasourceField, datasourceId.value)];
    }
    q := SearchRequest(must, [(RunTimeField, Asc)], 2000);
    forall doc: FieldView, now: int
      ensures SatisfiesAll(doc, must, now) <==>
        && RanWithin(doc, "meta.run_id.run_time", period, now)
        && (Given(datasetId) ==> FieldIs(doc, "meta.dataset_id", datasetId.value))
        && (Given(datasourceId) ==> FieldIs(doc, "meta.datasource_id", datasourceId.value))
    {
      FieldPaths();
      assert SatisfiesAll(doc, m0, now) <==> RanWithin(doc, "meta.run_id.run_time", period, now) by {
        SatisfiesAllAppend(doc, [], m0[0], now);
        assert [] + [m0[0]] == m0;
      }
      if Given(datasetId) { SatisfiesAllAppend(doc, m0, m1[1], now); }
      if Given(datasourceId) { SatisfiesAllAppend(doc, m1, must[|must| - 1], now); }
    }
  }

  /** `delete_by_filter`: one `match` per argument that is not None, in
      the order dataset, datasource, expectation. */
  method DeleteByFilter(datasetId: Option<string> := None, datasourceId: Option<string> := None,
                        expectationId: Option<string> := None)
    returns (must: seq<Clause>)
    ensures |must| == (if datasetId.Some? then 1 else 0) + (if datasourceId.Some? then 1 else 0)
                      + (if expectationId.Some? then 1 else 0)
    ensures datasetId.Some? ==> must[0] == Match(DatasetField, datasetId.value)
    ensures expectationId.Some? ==> must[|must| - 1] == Match(ExpectationField, expectationId.value)
    ensures datasourceId.Some? ==>
      must[if datasetId.Some? then 1 else 0] == Match(DatasourceField, datasourceId.value)
    ensures forall doc: FieldView, now: int {:trigger SatisfiesAll(doc, must, now)} ::
      SatisfiesAll(doc, must, now) <==>
        && (datasetId.Some? ==> FieldIs(doc, "meta.dataset_id", datasetId.value))
        && (datasourceId.Some? ==> FieldIs(doc, "meta.datasource_id", datasourceId.value))
        && (expectationId.Some? ==> FieldIs(doc, "expectation_id", expectationId.value))
  {
    must := [];
    if datasetId.Some? {
      must := must + [Match(DatasetField, datasetId.value)];
    }
    ghost var m0 := must;
    if datasourceId.Some? {
      must := must + [Match(DatasourceField, datasourceId.value)];
    }
    ghost var m1 := must;
    if expectationId.Some? {
      must := must + [Match(ExpectationField, expectationId.value)];
    }
    forall doc: FieldView, now: int
      ensures SatisfiesAll(doc, must, now) <==>
        && (datasetId.Some? ==> FieldIs(doc, "meta.dataset_id", datasetId.value))
        && (datasourceId.Some? ==> FieldIs(doc, "meta.datasource_id", datasourceId.value))
        && (expectationId.Some? ==> FieldIs(doc, "expectation_id", expectationId.value))
    {
      FieldPaths();
      if datasetId.Some? { SatisfiesAllAppend(doc, [], m0[0], now); assert [] + [m0[0]] == m0; }
      if datasourceId.Some? { SatisfiesAllAppend(doc, m0, m1[|m1| - 1], now); }
      if expectationId.Some? { SatisfiesAllAppend(doc, m1, must[|must| - 1], now); }
    }
  }

  method DeleteByDataset(datasetId: string) returns (must: seq<Clause>)
    ensures must == [Match(DatasetField, datasetId)]
  {
    must := DeleteByFilter(datasetId := Some(datasetId));
  }

  method DeleteByDatasource(datasourceId: string) returns (must: seq<Clause>)
    ensures must == [Match(DatasourceField, datasourceId)]
  {
    must := DeleteByFilter(datasourceId := Some(datasourceId));
  }

  method DeleteByExpectation(expectationId: string) returns (must: seq<Clause>)
    ensures must == [Match(ExpectationField, expectationId)]
  {
    must := DeleteByFilter(expectationId := Some(expectationId));
  }

  // ---------------------------------------------------------------------
  // Statistics
  // ---------------------------------------------------------------------

  /** An aggregation of the statistics search: an average over a trailing
      window, or a daily histogram with an average per bucket. */
  datatype Aggregation =
    | WindowAverage(name: string, window: Clause, subName: string, avgField: string)
    | DailyHistogram(name: string, field: string, calendarInterval: string, format: string,
                     subName: string, avgField: string)

  datatype StatisticsQuery = StatisticsQuery(must: seq<Clause>, aggs: seq<Aggregation>)

  function Window(days: int): Clause {
    Range(RunTimeField, DaysAgo(days), Now)
  }

  /** `statistics(dataset_id)`. */
  function Statistics(datasetId: string): (q: StatisticsQuery)
    ensures q.must == [Match(DatasetField, datasetId), Window(31)]
    ensures |q.aggs| == 4
    ensures forall i :: 0 <= i < 3 ==> q.aggs[i].WindowAverage? && q.aggs[i].avgField == SuccessPercentField
    ensures q.aggs[0].window == Window(31) && q.aggs[1].window == Window(7) && q.aggs[2].window == Window(1)
    ensures q.aggs[3] == DailyHistogram("validation_counts", RunTimeField, "1d", "yyyy-MM-dd'T'HH:mm:ssZZZZZ",
                                        "1_day", SuccessPercentField)
  {
    StatisticsQuery(
      [Match(DatasetField, datasetId), Window(31)],
      [ WindowAverage("31_day", Window(31), "success_counts", SuccessPercentField),
        WindowAverage("7_day", Window(7), "success_counts", SuccessPercentField),
        WindowAverage("1_day", Window(1), "success_counts", SuccessPercentField),
        DailyHistogram("validation_counts", RunTimeField, "1d", "yyyy-MM-dd'T'HH:mm:ssZZZZZ",
                       "1_day", SuccessPercentField) ])
  }

  /** Each window average sees exactly the dataset's runs of its own
      trailing window, measured from the time of the query: the windows
      nest inside the 31 days the query keeps, so the outer restriction
      takes nothing away from any of them. */
  lemma {:induction false} WindowsSeeTheirOwnDays(datasetId: string, doc: FieldView, now: int, i: nat)
    requires i < 3
    ensures var q := Statistics(datasetId);
      SatisfiesAll(doc, q.must, now) && Satisfies(doc, q.aggs[i].window, now) <==>
        && FieldIs(doc, "meta.dataset_id", datasetId)
        && RanWithin(doc, "meta.run_id.run_time", [31, 7, 1][i], now)
  {
    var q := Statistics(datasetId);
    FieldPaths();
    assert SatisfiesAll(doc, q.must, now) <==>
      Satisfies(doc, q.must[0], now) && Satisfies(doc, q.must[1], now);
  }
}
