/** The expectation endpoints (backend/app/api/api_v1/endpoints/expectation.py):
    the listing query, the rules of create, update and delete against the
    document store, and the grouping of validation history under the
    expectations it belongs to. */
module ExpectationEndpoints {
  import opened Json
  import opened Entities
  import opened Search
  import opened Store

  /** `exp.type_map`: for each implemented expectation type, its schema,
      which either accepts a body (as the typed model's `dict`) or rejects
      it with a validation error. */
  type Schemas = map<string, Expectation<Dict> -> Option<Expectation<Dict>>>

  // ---------------------------------------------------------------------
  // Listing
  // ---------------------------------------------------------------------

  /** The body `get_expectations` searches with: everything when neither
      id is given, otherwise a `match` on exactly the ids that are given;
      always sorted on the expectation type. */
  function ListingQuery(datasourceId: Option<Key>, datasetId: Option<Key>, asc: bool := true): (q: SortedQuery)
    ensures q.sort == [("expectation_type", DirectionOf(asc))]
    ensures q.query.MatchAll? <==> datasourceId.None? && datasetId.None?
    ensures q.query.MatchFields? ==>
      && |q.query.fields| == (if datasourceId.Some? then 1 else 0) + (if datasetId.Some? then 1 else 0)
      && (datasourceId.Some? ==> q.query.fields[0] == ("datasource_id", datasourceId.value))
      && (datasetId.Some? ==> q.query.fields[|q.query.fields| - 1] == ("dataset_id", datasetId.value))
    ensures forall doc {:trigger Selects(q.query, doc)} ::
      Selects(q.query, doc) <==>
        && (datasourceId.Some? ==> FieldIs(doc, "datasource_id", datasourceId.value))
        && (datasetId.Some? ==> FieldIs(doc, "dataset_id", datasetId.value))
  {
    var sort := [("expectation_type", DirectionOf(asc))];
    if datasourceId.None? && datasetId.None? then SortedQuery(MatchAll, sort)
    else
      var bySource := if datasourceId.Some? then [("datasource_id", datasourceId.value)] else [];
      var bySet := if datasetId.Some? then [("dataset_id", datasetId.value)] else [];
      SortedQuery(MatchFields(bySource + bySet), sort)
  }

  /** The response loop of `get_expectations`: each hit with its key and
      its kwargs decoded, provided its type is implemented and its schema
      accepts it (otherwise the lookup or the model raises). */
  method ListExpectations(schemas: Schemas, hits: seq<(Key, StoredExpectation)>)
    returns (r: Outcome<seq<(Key, Expectation<Dict>)>>)
    ensures r.Ok? <==> forall i :: 0 <= i < |hits| ==> Accepts(schemas, Decode(hits[i].1))
    ensures r.Ok? ==>
      |r.value| == |hits| && forall i :: 0 <= i < |hits| ==> r.value[i] == (hits[i].0, Decode(hits[i].1))
    ensures r.Err? ==> r.error.ServerError?
  {
    var out: seq<(Key, Expectation<Dict>)> := [];
    var i := 0;
    while i < |hits|
      invariant 0 <= i <= |hits| && |out| == i
      invariant forall j :: 0 <= j < i ==> Accepts(schemas, Decode(hits[j].1))
      invariant forall j :: 0 <= j < i ==> out[j] == (hits[j].0, Decode(hits[j].1))
    {
      var source := Decode(hits[i].1);
      if source.expectationType !in schemas {
        return Err(ServerError("KeyError: expectation_type"));
      }
      if schemas[source.expectationType](source).None? {
        return Err(ServerError("ValidationError"));
      }
      out := out + [(hits[i].0, source)];
      i := i + 1;
    }
    return Ok(out);
  }

  /** The type is implemented and its schema accepts the body. */
  predicate Accepts(schemas: Schemas, e: Expectation<Dict>) {
    e.expectationType in schemas && schemas[e.expectationType](e).Some?
  }

  /** `get_expectation`: the stored document as it is, kwargs still JSON
      text; a missing key raises out of the endpoint. */
  function GetExpectation(expectations: map<Key, StoredExpectation>, key: Key): (r: Outcome<(Key, StoredExpectation)>)
    ensures r.Ok? <==> key in expectations
    ensures r.Ok? ==> r.value == (key, expectations[key])
  {
    if key in expectations then Ok((key, expectations[key])) else Err(ServerError("NotFoundError"))
  }

  // ---------------------------------------------------------------------
  // Create, update, delete
  // ---------------------------------------------------------------------

  /** The body after the type's schema: unknown types and rejected bodies
      are the two 422 answers. */
  function Validated(schemas: Schemas, e: Expectation<Dict>): (r: Outcome<Expectation<Dict>>)
    ensures e.expectationType !in schemas ==> r == Err(NotImplemented(e.expectationType))
    ensures r.Ok? <==> Accepts(schemas, e)
    ensures r.Ok? ==> Some(r.value) == schemas[e.expectationType](e)
    ensures r.Err? && e.expectationType in schemas ==> r == Err(InvalidBody)
  {
    if e.expectationType !in schemas then Err(NotImplemented(e.expectationType))
    else
      var v := schemas[e.expectationType](e);
      if v.None? then Err(InvalidBody) else Ok(v.value)
  }

  /** `create_expectation`: both dates stamped, the body validated, the
      datasource and the dataset looked up, the dataset's datasource
      compared; only then is the document stored, kwargs as JSON text,
      under the fresh key, and the answer carries that key and the
      decoded document. */
  method CreateExpectation(store: DocumentStore, schemas: Schemas, e: Expectation<Dict>,
                           now: string, newKey: Key)
    returns (r: Outcome<(Key, Expectation<Dict>)>)
    modifies store
    ensures var stamped := e.(createDate := Some(now), modifiedDate := Some(now));
      var v := Validated(schemas, stamped);
      && (v.Err? ==> r == Err(v.error))
      && (v.Ok? && v.value.datasourceId !in old(store.datasources) ==>
            r == Err(NotFound("datasource", v.value.datasourceId)))
      && (v.Ok? && v.value.datasourceId in old(store.datasources) && v.value.datasetId !in old(store.datasets) ==>
            r == Err(NotFound("dataset_id", v.value.datasetId)))
      && (v.Ok? && v.value.datasourceId in old(store.datasources) && v.value.datasetId in old(store.datasets) &&
          old(store.datasets)[v.value.datasetId].datasourceId != v.value.datasourceId ==>
            r == Err(Mismatch("expectation datasource_id does not match dataset datasource_id")))
      && (v.Ok? && v.value.datasourceId in old(store.datasources) && v.value.datasetId in old(store.datasets)
          && old(store.datasets)[v.value.datasetId].datasourceId == v.value.datasourceId
          ==> r.Ok?)
      && (r.Ok? ==>
            && v.Ok? && r.value == (newKey, v.value)
            && store.expectations == old(store.expectations)[newKey := Encode(v.value)])
    ensures r.Err? ==> store.expectations == old(store.expectations)
    ensures store.datasources == old(store.datasources) && store.datasets == old(store.datasets)
    ensures store.validations == old(store.validations)
    ensures old(store.Consistent()) ==> store.Consistent()
  {
    var stamped := e.(createDate := Some(now), modifiedDate := Some(now));
    var v := Validated(schemas, stamped);
    if v.Err? {
      return Err(v.error);
    }
    var x := v.value;
    if x.datasourceId !in store.datasources {
      return Err(NotFound("datasource", x.datasourceId));
    }
    if x.datasetId !in store.datasets {
      return Err(NotFound("dataset_id", x.datasetId));
    }
    if store.datasets[x.datasetId].datasourceId != x.datasourceId {
      return Err(Mismatch("expectation datasource_id does not match dataset datasource_id"));
    }
    var copy := Encode(x);
    store.expectations := store.expectations[newKey := copy];
    return Ok((newKey, Decode(copy)));
  }

  /** Every schema keeps the dates and the identifying fields of a body
      it accepts, as the typed models do. */
  ghost predicate SchemasKeepFields(schemas: Schemas) {
    forall t, e :: t in schemas && schemas[t](e).Some? ==>
      var x := schemas[t](e).value;
      && x.expectationType == e.expectationType
      && x.datasourceId == e.datasourceId && x.datasetId == e.datasetId
      && x.createDate == e.createDate && x.modifiedDate == e.modifiedDate
  }

  /** What `update_expectation` decides once the body is validated and the
      original found. */
  datatype UpdateKind = NoChange | Rekey | InPlace

  /** `client.update` with a partial document: every field the new
      document has replaces the stored one. `meta` is dropped from the new
      document when it is None, so the stored one then stays; when both
      have one, the new keys are assigned into the stored object. */
  function PartialUpdate(original: StoredExpectation, copy: StoredExpectation): (u: StoredExpectation)
    ensures u.expectationType == copy.expectationType && u.kwargs == copy.kwargs
    ensures u.datasourceId == copy.datasourceId && u.datasetId == copy.datasetId
    ensures u.enabled == copy.enabled && u.suggested == copy.suggested
    ensures u.createDate == copy.createDate && u.modifiedDate == copy.modifiedDate
    ensures copy.meta.None? ==> u.meta == original.meta
    ensures copy.meta.Some? && original.meta.None? ==> u.meta == copy.meta
    ensures copy.meta.Some? && original.meta.Some? ==>
      u.meta.Some? && forall k :: DistinctKeys(copy.meta.value) ==>
        Get(u.meta.value, k) == if HasKey(copy.meta.value, k) then Get(copy.meta.value, k)
                                else Get(original.meta.value, k)
  {
    var meta :=
      if copy.meta.None? then original.meta
      else if original.meta.None? then copy.meta
      else Some(Update(original.meta.value, copy.meta.value));
    if copy.meta.Some? && original.meta.Some? && DistinctKeys(copy.meta.value) then
      MergeDictsEntries(original.meta.value, copy.meta.value);
      copy.(meta := meta)
    else copy.(meta := meta)
  }

  /** `update_expectation`. */
  method UpdateExpectation(store: DocumentStore, schemas: Schemas, e: Expectation<Dict>, key: Key,
                           now: string, newKey: Key)
    returns (r: Outcome<(Key, Expectation<Dict>)>, ghost kind: Option<UpdateKind>)
    modifies store
    ensures var v := Validated(schemas, e.(modifiedDate := Some(now)));
      && (v.Err? ==> r == Err(v.error) && kind.None?)
      && (v.Ok? && key !in old(store.expectations) ==> r == Err(NotFound("expectation", key)))
      && (v.Ok? && key in old(store.expectations) ==>
          var original := old(store.expectations)[key];
          var x := v.value.(createDate := original.createDate);
          var copy := Encode(x);
          && (original.createDate.None? ==> r == Err(ServerError("KeyError: create_date")))
          && (original.createDate.Some? ==>
              && (original == copy ==> r == Ok((key, x)) && kind == Some(NoChange))
              && (original != copy && original.datasourceId != copy.datasourceId ==>
                    r == Err(Unsupported("updates to expectation datasource_id are not supported")))
              && (original != copy && original.datasourceId == copy.datasourceId &&
                  original.datasetId != copy.datasetId ==>
                    r == Err(Unsupported("updates to expectation dataset_id are not supported")))
              && (kind == Some(Rekey) <==>
                    original != copy && original.datasourceId == copy.datasourceId &&
                    original.datasetId == copy.datasetId && original.expectationType != copy.expectationType)
              && (kind == Some(Rekey) ==>
                  && r == Ok((newKey, x))
                  && store.expectations == old(store.expectations)[newKey := copy] - {key}
                  && store.validations == DeleteWhere(old(store.validations), v => v, "expectation_id", key))
              && (kind == Some(NoChange) <==> original == copy)
              && (kind == Some(InPlace) <==>
                    original != copy && original.datasourceId == copy.datasourceId &&
                    original.datasetId == copy.datasetId && original.expectationType == copy.expectationType)
              && (kind == Some(InPlace) ==>
                  && r == Ok((key, x))
                  && store.expectations == old(store.expectations)[key := PartialUpdate(original, copy)])))
    ensures r.Err? ==> kind.None?
    ensures SchemasKeepFields(schemas) && kind == Some(NoChange) ==>
      old(store.expectations)[key].modifiedDate == Some(now)
    ensures kind != Some(Rekey) ==> store.validations == old(store.validations)
    ensures kind.None? || kind == Some(NoChange) ==> store.expectations == old(store.expectations)
    ensures store.datasources == old(store.datasources) && store.datasets == old(store.datasets)
    ensures old(store.Consistent()) ==> store.Consistent()
  {
    kind := None;
    var v := Validated(schemas, e.(modifiedDate := Some(now)));
    if v.Err? {
      return Err(v.error), kind;
    }
    if key !in store.expectations {
      return Err(NotFound("expectation", key)), kind;
    }
    var original := store.expectations[key];
    if original.createDate.None? {
      return Err(ServerError("KeyError: create_date")), kind;
    }
    var x := v.value.(createDate := original.createDate);
    var copy := Encode(x);
    if original == copy {
      kind := Some(NoChange);
      return Ok((key, x)), kind;
    }
    if original.datasourceId != copy.datasourceId {
      return Err(Unsupported("updates to expectation datasource_id are not supported")), kind;
    }
    if original.datasetId != copy.datasetId {
      return Err(Unsupported("updates to expectation dataset_id are not supported")), kind;
    }
    if original.expectationType != copy.expectationType {
      kind := Some(Rekey);
      store.expectations := store.expectations[newKey := copy];
      store.expectations := store.expectations - {key};
      store.validations := DeleteWhere(store.validations, v => v, "expectation_id", key);
      return Ok((newKey, x)), kind;
    }
    kind := Some(InPlace);
    store.expectations := store.expectations[key := PartialUpdate(original, copy)];
    return Ok((key, x)), kind;
  }

  /** `delete_expectation`: the expectation's validations go first, then
      the expectation; a missing expectation is reported after its
      validations are already gone. */
  method DeleteExpectation(store: DocumentStore, key: Key) returns (r: Outcome<string>)
    modifies store
    ensures store.validations == DeleteWhere(old(store.validations), v => v, "expectation_id", key)
    ensures key in old(store.expectations) ==>
      r == Ok("expectation deleted") && store.expectations == old(store.expectations) - {key}
    ensures key !in old(store.expectations) ==>
      r == Err(NotFound("expectation", key)) && store.expectations == old(store.expectations)
    ensures store.datasources == old(store.datasources) && store.datasets == old(store.datasets)
    ensures old(store.Consistent()) ==> store.Consistent()
  {
    store.validations := DeleteWhere(store.validations, v => v, "expectation_id", key);
    if key !in store.expectations {
      return Err(NotFound("expectation", key));
    }
    store.expectations := store.expectations - {key};
    return Ok("expectation deleted");
  }

  // ---------------------------------------------------------------------
  // Expectations with their validation history
  // ---------------------------------------------------------------------

  /** One expectation of the history listing: its key, its document with
      kwargs decoded, and its validations. */
  datatype Entry<V> = Entry(key: Key, expectation: Expectation<Dict>, validations: seq<V>)

  /** The validations of `vs` that belong to `key`, in order, each with
      its run date converted. */
  function ValidationsOf<V>(vs: seq<V>, idOf: V -> Key, convert: V -> V, key: Key): seq<V> {
    if vs == [] then []
    else
      var last := vs[|vs| - 1];
      ValidationsOf(vs[..|vs| - 1], idOf, convert, key) + (if idOf(last) == key then [convert(last)] else [])
  }

  /** A group holds the converted copy of every validation naming its key,
      and nothing else. */
  lemma {:induction false} ValidationsOfMembers<V>(vs: seq<V>, idOf: V -> Key, convert: V -> V, key: Key)
    ensures var r := ValidationsOf(vs, idOf, convert, key);
      && (forall j :: 0 <= j < |vs| && idOf(vs[j]) == key ==> convert(vs[j]) in r)
      && (forall i :: 0 <= i < |r| ==> exists j :: 0 <= j < |vs| && idOf(vs[j]) == key && r[i] == convert(vs[j]))
  {
    if vs != [] {
      var init := vs[..|vs| - 1];
      var last := |vs| - 1;
      ValidationsOfMembers(init, idOf, convert, key);
      assert forall j :: 0 <= j < |init| ==> init[j] == vs[j];
      var before := ValidationsOf(init, idOf, convert, key);
      var r := ValidationsOf(vs, idOf, convert, key);
      assert r == before + (if idOf(vs[last]) == key then [convert(vs[last])] else []);
      assert forall i :: 0 <= i < |before| ==>
        exists j :: 0 <= j < |init| && idOf(init[j]) == key && before[i] == convert(init[j]);
      forall i | 0 <= i < |r|
        ensures exists j :: 0 <= j < |vs| && idOf(vs[j]) == key && r[i] == convert(vs[j])
      {
        if i < |before| {
          assert r[i] == before[i];
          var j :| 0 <= j < |init| && idOf(init[j]) == key && before[i] == convert(init[j]);
          assert vs[j] == init[j];
        } else {
          assert idOf(vs[last]) == key && r[i] == convert(vs[last]);
        }
      }
    }
  }

  predicate DistinctIds<D>(hits: seq<(Key, D)>) {
    forall i, j :: 0 <= i < j < |hits| ==> hits[i].0 != hits[j].0
  }

  predicate IsId<D>(hits: seq<(Key, D)>, id: Key) {
    exists i :: 0 <= i < |hits| && hits[i].0 == id
  }

  /** The position of the entry with this key, if there is one. */
  method Locate<V>(entries: seq<Entry<V>>, id: Key) returns (at: Option<nat>)
    ensures at.Some? ==> at.value < |entries| && entries[at.value].key == id
    ensures at.None? ==> forall i :: 0 <= i < |entries| ==> entries[i].key != id
  {
    var i := 0;
    while i < |entries|
      invariant 0 <= i <= |entries|
      invariant forall j :: 0 <= j < i ==> entries[j].key != id
    {
      if entries[i].key == id {
        return Some(i);
      }
      i := i + 1;
    }
    return None;
  }

  /** The first loop of the zip: one entry per expectation, in order,
      with no validations yet; an unknown or rejected type raises. */
  method EntriesOf<V>(schemas: Schemas, expectations: seq<(Key, StoredExpectation)>)
    returns (r: Outcome<seq<Entry<V>>>)
    ensures r.Ok? <==> forall i :: 0 <= i < |expectations| ==> Accepts(schemas, Decode(expectations[i].1))
    ensures r.Ok? ==>
      && |r.value| == |expectations|
      && forall i :: 0 <= i < |expectations| ==>
           r.value[i] == Entry(expectations[i].0, Decode(expectations[i].1), [])
    ensures r.Err? ==> r.error.ServerError?
  {
    var entries: seq<Entry<V>> := [];
    var i := 0;
    while i < |expectations|
      invariant 0 <= i <= |expectations| && |entries| == i
      invariant forall j :: 0 <= j < i ==> Accepts(schemas, Decode(expectations[j].1))
      invariant forall j :: 0 <= j < i ==> entries[j] == Entry(expectations[j].0, Decode(expectations[j].1), [])
    {
      var source := Decode(expectations[i].1);
      if source.expectationType !in schemas {
        return Err(ServerError("KeyError: expectation_type"));
      }
      if schemas[source.expectationType](source).None? {
        return Err(ServerError("ValidationError"));
      }
      entries := entries + [Entry(expectations[i].0, source, [])];
      i := i + 1;
    }
    return Ok(entries);
  }

  predicate DistinctEntryKeys<V>(entries: seq<Entry<V>>) {
    forall i, j :: 0 <= i < j < |entries| ==> entries[i].key != entries[j].key
  }

  predicate HasEntry<V>(entries: seq<Entry<V>>, id: Key) {
    exists a :: 0 <= a < |entries| && entries[a].key == id
  }

  /** The second loop of the zip: each validation, its run date
      converted, appended to the entry of its expectation; a validation of
      an unknown expectation raises. */
  method Attach<V>(entries: seq<Entry<V>>, validations: seq<V>, idOf: V -> Key, toMilitaryTime: V -> V)
    returns (r: Outcome<seq<Entry<V>>>)
    requires DistinctEntryKeys(entries)
    ensures r.Ok? <==> forall j :: 0 <= j < |validations| ==> HasEntry(entries, idOf(validations[j]))
    ensures r.Ok? ==>
      && |r.value| == |entries|
      && forall a :: 0 <= a < |entries| ==>
           r.value[a] == entries[a].(validations := entries[a].validations +
                                       ValidationsOf(validations, idOf, toMilitaryTime, entries[a].key))
    ensures r.Err? ==> r.error.ServerError?
  {
    var out := entries;
    var j := 0;
    assert validations[..0] == [];
    forall a | 0 <= a < |entries| ensures Grouped(entries, [], idOf, toMilitaryTime)[a] == entries[a] {
      assert entries[a].validations + [] == entries[a].validations;
    }
    while j < |validations|
      invariant 0 <= j <= |validations|
      invariant forall b :: 0 <= b < j ==> HasEntry(entries, idOf(validations[b]))
      invariant out == Grouped(entries, validations[..j], idOf, toMilitaryTime)
    {
      var v := validations[j];
      var at := Locate(out, idOf(v));
      if at.None? {
        assert !HasEntry(entries, idOf(v));
        return Err(ServerError("KeyError: expectation_id"));
      }
      var a := at.value;
      assert validations[..j + 1] == validations[..j] + [v];
      GroupedStep(entries, validations[..j], v, a, idOf, toMilitaryTime);
      out := out[a := out[a].(validations := out[a].validations + [toMilitaryTime(v)])];
      j := j + 1;
    }
    assert validations[..j] == validations;
    return Ok(out);
  }

  /** Every entry with the validations of `vs` that belong to it appended. */
  function Grouped<V>(entries: seq<Entry<V>>, vs: seq<V>, idOf: V -> Key, convert: V -> V): (r: seq<Entry<V>>)
    ensures |r| == |entries|
    ensures forall a :: 0 <= a < |entries| ==>
      r[a] == entries[a].(validations := entries[a].validations + ValidationsOf(vs, idOf, convert, entries[a].key))
  {
    seq(|entries|, a requires 0 <= a < |entries| =>
      entries[a].(validations := entries[a].validations + ValidationsOf(vs, idOf, convert, entries[a].key)))
  }

  /** One more validation changes only the entry of its own expectation. */
  lemma GroupedStep<V>(entries: seq<Entry<V>>, vs: seq<V>, v: V, a: nat, idOf: V -> Key, convert: V -> V)
    requires DistinctEntryKeys(entries) && a < |entries| && entries[a].key == idOf(v)
    ensures var g := Grouped(entries, vs, idOf, convert);
      Grouped(entries, vs + [v], idOf, convert) == g[a := g[a].(validations := g[a].validations + [convert(v)])]
  {
    var g := Grouped(entries, vs, idOf, convert);
    var g' := Grouped(entries, vs + [v], idOf, convert);
    var h := g[a := g[a].(validations := g[a].validations + [convert(v)])];
    assert (vs + [v])[..|vs + [v]| - 1] == vs;
    forall b | 0 <= b < |entries| ensures g'[b] == h[b] {
      var k := entries[b].key;
      assert ValidationsOf(vs + [v], idOf, convert, k)
          == ValidationsOf(vs, idOf, convert, k) + (if idOf(v) == k then [convert(v)] else []);
      if b != a {
        assert k != idOf(v);
      }
    }
  }

  /** Entries built one per expectation, in order, carry the same keys. */
  lemma SameKeys<V>(expectations: seq<(Key, StoredExpectation)>, entries: seq<Entry<V>>)
    requires |entries| == |expectations|
    requires forall i :: 0 <= i < |expectations| ==> entries[i].key == expectations[i].0
    ensures forall k :: IsId(expectations, k) <==> HasEntry(entries, k)
    ensures DistinctIds(expectations) ==> DistinctEntryKeys(entries)
  {
    forall k ensures IsId(expectations, k) <==> HasEntry(entries, k) {
      if IsId(expectations, k) {
        var i :| 0 <= i < |expectations| && expectations[i].0 == k;
        assert entries[i].key == k;
      }
      if HasEntry(entries, k) {
        var i :| 0 <= i < |entries| && entries[i].key == k;
        assert expectations[i].0 == k;
      }
    }
  }

  /** `zip_expectations_and_validations`: one entry per expectation, in
      order, each holding exactly its own validations in order. An
      expectation whose type is unknown or whose schema rejects it, or a
      validation of an unknown expectation, raises. */
  method Zip<V>(schemas: Schemas, expectations: seq<(Key, StoredExpectation)>, validations: seq<V>,
                idOf: V -> Key, toMilitaryTime: V -> V)
    returns (r: Outcome<seq<Entry<V>>>)
    requires DistinctIds(expectations)
    ensures r.Ok? <==>
      && (forall i :: 0 <= i < |expectations| ==> Accepts(schemas, Decode(expectations[i].1)))
      && (forall j :: 0 <= j < |validations| ==> IsId(expectations, idOf(validations[j])))
    ensures r.Ok? ==>
      && |r.value| == |expectations|
      && forall i :: 0 <= i < |expectations| ==>
           r.value[i] == Entry(expectations[i].0, Decode(expectations[i].1),
                               ValidationsOf(validations, idOf, toMilitaryTime, expectations[i].0))
    ensures r.Err? ==> r.error.ServerError?
  {
    var entries := EntriesOf<V>(schemas, expectations);
    if entries.Err? {
      return entries;
    }
    var es := entries.value;
    SameKeys(expectations, es);
    r := Attach(es, validations, idOf, toMilitaryTime);
    if r.Ok? {
      forall i | 0 <= i < |expectations|
        ensures r.value[i] == Entry(expectations[i].0, Decode(expectations[i].1),
                                    ValidationsOf(validations, idOf, toMilitaryTime, expectations[i].0))
      {
        assert es[i].validations == [];
        assert [] + ValidationsOf(validations, idOf, toMilitaryTime, es[i].key)
            == ValidationsOf(validations, idOf, toMilitaryTime, es[i].key);
      }
    }
  }

  /** How many of the keys are this id. */
  function Occurrences(keys: seq<Key>, id: Key): nat {
    if keys == [] then 0 else (if keys[0] == id then 1 else 0) + Occurrences(keys[1..], id)
  }

  /** The sizes of the groups, added up over the keys. */
  function GroupSizes<V>(keys: seq<Key>, vs: seq<V>, idOf: V -> Key, convert: V -> V): nat {
    if keys == [] then 0 else |ValidationsOf(vs, idOf, convert, keys[0])| + GroupSizes(keys[1..], vs, idOf, convert)
  }

  lemma {:induction false} GroupSizesAppend<V>(keys: seq<Key>, vs: seq<V>, v: V, idOf: V -> Key, convert: V -> V)
    ensures GroupSizes(keys, vs + [v], idOf, convert) == GroupSizes(keys, vs, idOf, convert) + Occurrences(keys, idOf(v))
  {
    assert (vs + [v])[..|vs + [v]| - 1] == vs;
    if keys != [] {
      GroupSizesAppend(keys[1..], vs, v, idOf, convert);
    }
  }

  lemma {:induction false} OccursOnce(keys: seq<Key>, id: Key)
    requires forall i, j :: 0 <= i < j < |keys| ==> keys[i] != keys[j]
    requires id in keys
    ensures Occurrences(keys, id) == 1
  {
    if keys[0] == id {
      NotOccurring(keys[1..], id);
    } else {
      OccursOnce(keys[1..], id);
    }
  }

  lemma {:induction false} NotOccurring(keys: seq<Key>, id: Key)
    requires id !in keys
    ensures Occurrences(keys, id) == 0
  {
    if keys != [] {
      NotOccurring(keys[1..], id);
    }
  }

  /** When every validation names one of the (distinct) expectations, the
      groups together hold every validation exactly once: none is lost and
      none is listed twice. */
  lemma {:induction false} EveryValidationGroupedOnce<V>(keys: seq<Key>, vs: seq<V>, idOf: V -> Key, convert: V -> V)
    requires forall i, j :: 0 <= i < j < |keys| ==> keys[i] != keys[j]
    requires forall j :: 0 <= j < |vs| ==> idOf(vs[j]) in keys
    ensures GroupSizes(keys, vs, idOf, convert) == |vs|
    decreases |vs|
  {
    if vs == [] {
      EmptyGroups(keys, idOf, convert);
    } else {
      var init := vs[..|vs| - 1];
      EveryValidationGroupedOnce(keys, init, idOf, convert);
      GroupSizesAppend(keys, init, vs[|vs| - 1], idOf, convert);
      OccursOnce(keys, idOf(vs[|vs| - 1]));
      assert init + [vs[|vs| - 1]] == vs;
    }
  }

  lemma {:induction false} EmptyGroups<V>(keys: seq<Key>, idOf: V -> Key, convert: V -> V)
    ensures GroupSizes(keys, [], idOf, convert) == 0
  {
    if keys != [] {
      EmptyGroups(keys[1..], idOf, convert);
    }
  }
}
