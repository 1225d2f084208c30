/** The document store the endpoints and the runner read and write: one
    keyed collection per index. Validations are kept as the search engine
    sees them, as field views. */
module Store {
  import opened Json
  import opened Entities
  import opened Search

  /** The fields of a stored expectation that a `match` on the expectation
      index reads. */
  function ExpectationView(e: StoredExpectation): (v: FieldView)
    ensures forall x :: FieldIs(v, "dataset_id", x) <==> e.datasetId == x
    ensures forall x :: FieldIs(v, "datasource_id", x) <==> e.datasourceId == x
    ensures forall x :: FieldIs(v, "expectation_type", x) <==> e.expectationType == x
  {
    map["expectation_type" := Str(e.expectationType),
        "datasource_id" := Str(e.datasourceId),
        "dataset_id" := Str(e.datasetId),
        "enabled" := Bool(e.enabled)]
  }

  class DocumentStore {
    var datasources: map<Key, Datasource>
    var datasets: map<Key, Dataset>
    var expectations: map<Key, StoredExpectation>
    var validations: map<Key, FieldView>

    constructor ()
      ensures datasources == map[] && datasets == map[]
      ensures expectations == map[] && validations == map[]
      ensures Consistent()
    {
      datasources := map[];
      datasets := map[];
      expectations := map[];
      validations := map[];
    }

    /** Referential integrity as the endpoints keep it: a dataset names a
        stored datasource, and an expectation names a stored datasource and
        a stored dataset of that same datasource. */
    ghost predicate Consistent()
      reads this
    {
      && (forall k :: k in datasets ==> datasets[k].datasourceId in datasources)
      && (forall k :: k in expectations ==>
            && expectations[k].datasourceId in datasources
            && expectations[k].datasetId in datasets
            && datasets[expectations[k].datasetId].datasourceId == expectations[k].datasourceId)
    }
  }
}
