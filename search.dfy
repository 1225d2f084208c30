/** The search queries the code builds, and what they select. A document is
    seen by the search engine as a value per field path; a `match` on a
    `.keyword` sub-field compares with the field itself. */
module Search {
  import opened Json
  import opened Text

  /** `now` or `now-<n>d` in the search engine's date arithmetic. */
  datatype DateMath = Now | DaysAgo(days: int)

  /** One clause of a `bool` query's `must` list. */
  datatype Clause =
    | Match(field: string, value: string)
    | Range(field: string, gte: DateMath, lte: DateMath)

  datatype Direction = Asc | Desc

  /** `"asc" if asc else "desc"`. */
  function DirectionOf(asc: bool): (d: Direction)
    ensures d == Asc <==> asc
  {
    if asc then Asc else Desc
  }

  /** A top-level `match_all` or a `match` object with one entry per field. */
  datatype Query = MatchAll | MatchFields(fields: seq<(string, string)>)

  /** A search body: a query and its sort order. */
  datatype SortedQuery = SortedQuery(query: Query, sort: seq<(string, Direction)>)

  /** A document as the search engine sees it. Times are seconds. */
  type FieldView = map<string, Value>

  const SecondsPerDay: int := 86400

  /** The field a clause reads: `.keyword` names the exact-match sub-field
      of the same field. */
  function FieldPath(field: string): (p: string)
    ensures EndsWith(field, ".keyword") ==> p + ".keyword" == field
    ensures !EndsWith(field, ".keyword") ==> p == field
  {
    if EndsWith(field, ".keyword") then field[..|field| - 8] else field
  }

  lemma KeywordPath(base: string)
    ensures FieldPath(base + ".keyword") == base
  {
    var f := base + ".keyword";
    assert f[|f| - 8..] == ".keyword";
    assert f[..|f| - 8] == base;
  }

  predicate FieldIs(doc: FieldView, path: string, value: string) {
    path in doc && doc[path] == Str(value)
  }

  function Resolve(d: DateMath, now: int): int {
    match d
    case Now => now
    case DaysAgo(n) => now - n * SecondsPerDay
  }

  predicate Satisfies(doc: FieldView, c: Clause, now: int) {
    match c
    case Match(f, v) => FieldIs(doc, FieldPath(f), v)
    case Range(f, gte, lte) =>
      FieldPath(f) in doc && doc[FieldPath(f)].Num? &&
      Resolve(gte, now) as real <= doc[FieldPath(f)].n <= Resolve(lte, now) as real
  }

  /** A `bool` query with this `must` list selects the document. An empty
      list selects every document. */
  predicate SatisfiesAll(doc: FieldView, must: seq<Clause>, now: int) {
    forall i :: 0 <= i < |must| ==> Satisfies(doc, must[i], now)
  }

  /** Adding a clause to a `must` list narrows the selection by exactly
      that clause. */
  lemma SatisfiesAllAppend(doc: FieldView, must: seq<Clause>, c: Clause, now: int)
    ensures SatisfiesAll(doc, must + [c], now) <==> SatisfiesAll(doc, must, now) && Satisfies(doc, c, now)
  {
    if SatisfiesAll(doc, must, now) && Satisfies(doc, c, now) {
      forall i | 0 <= i < |must + [c]| ensures Satisfies(doc, (must + [c])[i], now) {
        if i < |must| { assert (must + [c])[i] == must[i]; }
      }
    }
    if SatisfiesAll(doc, must + [c], now) {
      forall i | 0 <= i < |must| ensures Satisfies(doc, must[i], now) {
        assert (must + [c])[i] == must[i];
      }
      assert (must + [c])[|must|] == c;
    }
  }

  /** The document was stamped within the last `days` days before `now`. */
  predicate RanWithin(doc: FieldView, field: string, days: int, now: int) {
    field in doc && doc[field].Num? &&
    (now - days * SecondsPerDay) as real <= doc[field].n <= now as real
  }

  predicate Selects(q: Query, doc: FieldView) {
    match q
    case MatchAll => true
    case MatchFields(fs) => forall i :: 0 <= i < |fs| ==> FieldIs(doc, fs[i].0, fs[i].1)
  }

  /** A `match` on one field selects the documents with that value there. */
  lemma SelectsOneField(field: string, value: string)
    ensures forall doc :: Selects(MatchFields([(field, value)]), doc) <==> FieldIs(doc, field, value)
  {
    forall doc ensures Selects(MatchFields([(field, value)]), doc) <==> FieldIs(doc, field, value) {
      assert [(field, value)][0] == (field, value);
    }
  }

  /** The documents a delete-by-query on one `match` field leaves behind. */
  function DeleteWhere<D>(docs: map<string, D>, view: D -> FieldView, field: string, value: string)
    : (r: map<string, D>)
    ensures r.Keys <= docs.Keys
    ensures forall k :: k in docs ==> (k in r <==> !FieldIs(view(docs[k]), field, value))
    ensures forall k :: k in r ==> r[k] == docs[k]
  {
    map k | k in docs && !FieldIs(view(docs[k]), field, value) :: docs[k]
  }
}
