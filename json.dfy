/** JSON-like values as the Python code handles them: dictionaries keep the
    order in which keys were inserted, so an object is a sequence of
    key/value pairs, and the dictionary operations below follow Python's
    `d.get(k)`, `d[k] = v`, `d.pop(k)`, `d.update(e)` and `{**a, **b}`. */
module Json {

  datatype Option<+T> = None | Some(value: T)

  datatype Value =
    | Null
    | Bool(b: bool)
    | Num(n: real)
    | Str(s: string)
    | List(items: seq<Value>)
    | Obj(fields: seq<(string, Value)>)

  /** A Python dict: entries in insertion order. */
  type Dict = seq<(string, Value)>

  /** Python truthiness: `None`, `False`, `0`, `""`, `[]` and `{}` are falsy. */
  predicate Truthy(v: Value) {
    match v
    case Null => false
    case Bool(b) => b
    case Num(n) => n != 0.0
    case Str(s) => s != ""
    case List(xs) => xs != []
    case Obj(fs) => fs != []
  }

  /** The text `json.dumps` produces for a value of type T. The encoding
      itself is not modelled: two texts are equal exactly when the encoded
      values are equal, key order included, as for the strings. */
  datatype Json<T> = Dumped(value: T)

  function Dumps<T>(x: T): (t: Json<T>)
    ensures t.value == x
  {
    Dumped(x)
  }

  function Loads<T>(t: Json<T>): (x: T)
    ensures Dumps(x) == t
  {
    t.value
  }

  predicate HasKey(d: Dict, k: string) {
    exists i :: 0 <= i < |d| && d[i].0 == k
  }

  predicate DistinctKeys(d: Dict) {
    forall i, j :: 0 <= i < j < |d| ==> d[i].0 != d[j].0
  }

  /** `d.get(k)`: the value stored under k, if any. */
  function Get(d: Dict, k: string): (r: Option<Value>)
    ensures r.Some? <==> HasKey(d, k)
    ensures r.Some? ==> (k, r.value) in d
  {
    if d == [] then None
    else if d[0].0 == k then Some(d[0].1)
    else Get(d[1..], k)
  }

  /** `bool(d.get(k))`. */
  predicate TruthyAt(d: Dict, k: string) {
    Get(d, k).Some? && Truthy(Get(d, k).value)
  }

  /** `d[k] = v`: an existing key keeps its position, a new key goes last. */
  function Set(d: Dict, k: string, v: Value): Dict {
    if d == [] then [(k, v)]
    else if d[0].0 == k then [(k, v)] + d[1..]
    else [d[0]] + Set(d[1..], k, v)
  }

  /** `d.pop(k)` for its effect on d (every entry under k goes). */
  function Remove(d: Dict, k: string): Dict {
    if d == [] then []
    else if d[0].0 == k then Remove(d[1..], k)
    else [d[0]] + Remove(d[1..], k)
  }

  /** `d.update(e)`: the entries of e assigned one after the other. */
  function Update(d: Dict, e: Dict): Dict
    decreases |e|
  {
    if e == [] then d else Update(Set(d, e[0].0, e[0].1), e[1..])
  }

  /** Python's `==` on dicts: the same value under every key, order aside. */
  ghost predicate SameEntries(a: Dict, b: Dict) {
    forall k :: Get(a, k) == Get(b, k)
  }

  /** `d[to] = d.pop(from)` guarded by `if d.get(from):` -- the pattern the
      code uses in both directions of the objective/mostly rename. */
  function MoveIfTruthy(d: Dict, from: string, to: string): Dict {
    if TruthyAt(d, from) then Set(Remove(d, from), to, Get(d, from).value) else d
  }

  lemma {:induction false} GetSet(d: Dict, k: string, v: Value, k': string)
    ensures Get(Set(d, k, v), k') == if k' == k then Some(v) else Get(d, k')
  {
    if d != [] && d[0].0 != k {
      GetSet(d[1..], k, v, k');
    }
  }

  /** `d[k] = v` changes the value under k and nothing else. */
  lemma SetEntries(d: Dict, k: string, v: Value)
    ensures forall k' :: Get(Set(d, k, v), k') == if k' == k then Some(v) else Get(d, k')
  {
    forall k' ensures Get(Set(d, k, v), k') == if k' == k then Some(v) else Get(d, k') {
      GetSet(d, k, v, k');
    }
  }

  lemma {:induction false} GetRemove(d: Dict, k: string, k': string)
    ensures Get(Remove(d, k), k') == if k' == k then None else Get(d, k')
  {
    if d != [] {
      GetRemove(d[1..], k, k');
    }
  }

  /** `d.pop(k)` removes k and changes no other key. */
  lemma RemoveEntries(d: Dict, k: string)
    ensures forall k' :: Get(Remove(d, k), k') == if k' == k then None else Get(d, k')
  {
    forall k' ensures Get(Remove(d, k), k') == if k' == k then None else Get(d, k') {
      GetRemove(d, k, k');
    }
  }

  lemma {:induction false} GetUpdate(d: Dict, e: Dict, k: string)
    requires DistinctKeys(e)
    ensures Get(Update(d, e), k) == if HasKey(e, k) then Get(e, k) else Get(d, k)
    decreases |e|
  {
    if e != [] {
      var d' := Set(d, e[0].0, e[0].1);
      assert DistinctKeys(e[1..]) by {
        forall i, j | 0 <= i < j < |e[1..]| ensures e[1..][i].0 != e[1..][j].0 {
          assert e[1..][i] == e[i + 1] && e[1..][j] == e[j + 1];
        }
      }
      GetUpdate(d', e[1..], k);
      GetSet(d, e[0].0, e[0].1, k);
      if k == e[0].0 {
        assert !HasKey(e[1..], k) by {
          forall i | 0 <= i < |e[1..]| ensures e[1..][i].0 != k {
            assert e[1..][i] == e[i + 1];
          }
        }
      } else {
        assert HasKey(e, k) <==> HasKey(e[1..], k) by {
          if HasKey(e, k) {
            var i :| 0 <= i < |e| && e[i].0 == k;
            assert e[1..][i - 1] == e[i];
          }
          if HasKey(e[1..], k) {
            var i :| 0 <= i < |e[1..]| && e[1..][i].0 == k;
            assert e[i + 1] == e[1..][i];
          }
        }
      }
    }
  }

  /** Assigning a key the dict does not yet have appends it. */
  lemma {:induction false} SetAppends(d: Dict, k: string, v: Value)
    requires !HasKey(d, k)
    ensures Set(d, k, v) == d + [(k, v)]
  {
    if d != [] {
      assert d[0].0 != k;
      assert !HasKey(d[1..], k) by {
        forall i | 0 <= i < |d[1..]| ensures d[1..][i].0 != k {
          assert d[1..][i] == d[i + 1];
        }
      }
      SetAppends(d[1..], k, v);
      assert d == [d[0]] + d[1..];
    }
  }

  /** Removing a key the dict does not have changes nothing. */
  lemma {:induction false} RemoveAbsent(d: Dict, k: string)
    requires !HasKey(d, k)
    ensures Remove(d, k) == d
  {
    if d != [] {
      assert d[0].0 != k;
      assert !HasKey(d[1..], k) by {
        forall i | 0 <= i < |d[1..]| ensures d[1..][i].0 != k {
          assert d[1..][i] == d[i + 1];
        }
      }
      RemoveAbsent(d[1..], k);
      assert d == [d[0]] + d[1..];
    }
  }

  /** The guarded move: a truthy value under `from` ends up under `to` and
      `from` is gone; a falsy or missing one leaves the dict as it was.
      Every other key keeps its value. */
  lemma MoveIfTruthyEntries(d: Dict, from: string, to: string, k: string)
    requires from != to
    ensures TruthyAt(d, from) ==> Get(MoveIfTruthy(d, from, to), to) == Get(d, from)
    ensures TruthyAt(d, from) ==> Get(MoveIfTruthy(d, from, to), from) == None
    ensures !TruthyAt(d, from) ==> MoveIfTruthy(d, from, to) == d
    ensures k != from && k != to ==> Get(MoveIfTruthy(d, from, to), k) == Get(d, k)
  {
    if TruthyAt(d, from) {
      var v := Get(d, from).value;
      GetSet(Remove(d, from), to, v, k);
      GetSet(Remove(d, from), to, v, to);
      GetSet(Remove(d, from), to, v, from);
      GetRemove(d, from, k);
      GetRemove(d, from, from);
    }
  }

  /** `{**a, **b}` is `a` updated with `b`: b wins on shared keys. */
  function MergeDicts(a: Dict, b: Dict): (m: Dict)
    requires DistinctKeys(b)
    ensures forall k :: Get(m, k) == if HasKey(b, k) then Get(b, k) else Get(a, k)
  {
    MergeDictsEntries(a, b);
    Update(a, b)
  }

  lemma MergeDictsEntries(a: Dict, b: Dict)
    requires DistinctKeys(b)
    ensures forall k :: Get(Update(a, b), k) == if HasKey(b, k) then Get(b, k) else Get(a, k)
  {
    forall k ensures Get(Update(a, b), k) == if HasKey(b, k) then Get(b, k) else Get(a, k) {
      GetUpdate(a, b, k);
    }
  }

  /** `d[to] = d.pop(from)` when `d.get(from)` satisfies a condition: the
      entries move and nothing else changes. */
  lemma MoveEntries(d: Dict, from: string, to: string, v: Value)
    requires from != to
    ensures forall k :: Get(Set(Remove(d, from), to, v), k) ==
                        if k == to then Some(v) else if k == from then None else Get(d, k)
  {
    forall k ensures Get(Set(Remove(d, from), to, v), k) ==
        if k == to then Some(v) else if k == from then None else Get(d, k) {
      GetSet(Remove(d, from), to, v, k);
      GetRemove(d, from, k);
    }
  }
}
