/**
 * A parsed JSON document, as `json.load` hands it to Python: objects become
 * dicts, which keep their insertion order and have distinct keys. A dict is
 * modelled by its ordered item list.
 */
module JsonValue {
  import opened Wrappers

  datatype Value =
    | Null
    | Bool(b: bool)
    | Num(n: real)
    | Str(s: string)
    | Arr(items: seq<Value>)
    | Obj(fields: seq<(string, Value)>)

  /** The keys of an item list are pairwise distinct, as in any Python dict. */
  predicate DistinctKeys(fields: seq<(string, Value)>) {
    forall i, j :: 0 <= i < j < |fields| ==> fields[i].0 != fields[j].0
  }

  /** Every object inside `v`, at any depth, has distinct keys. */
  predicate WellFormed(v: Value) {
    match v
    case Arr(items) => forall i :: 0 <= i < |items| ==> WellFormed(items[i])
    case Obj(fields) => DistinctKeys(fields) && forall i :: 0 <= i < |fields| ==> WellFormed(fields[i].1)
    case _ => true
  }

  /** An item list that could be a dict parsed from JSON. */
  predicate WellFormedFields(fields: seq<(string, Value)>) {
    WellFormed(Obj(fields))
  }

  /** `key in d`. */
  predicate HasKey(fields: seq<(string, Value)>, key: string) {
    exists i :: 0 <= i < |fields| && fields[i].0 == key
  }

  /** `d.get(key)`: the value stored under `key`, or None. */
  function Get(fields: seq<(string, Value)>, key: string): (r: Option<Value>)
    ensures r.Some? <==> HasKey(fields, key)
    ensures r.Some? ==> exists i :: 0 <= i < |fields| && fields[i] == (key, r.value)
  {
    if fields == [] then None
    else if fields[0].0 == key then Some(fields[0].1)
    else
      var r := Get(fields[1..], key);
      assert r.Some? ==> exists i :: 0 <= i < |fields[1..]| && fields[1..][i] == (key, r.value);
      assert HasKey(fields[1..], key) ==> HasKey(fields, key) by {
        if HasKey(fields[1..], key) {
          var i :| 0 <= i < |fields[1..]| && fields[1..][i].0 == key;
          assert fields[i + 1].0 == key;
        }
      }
      assert HasKey(fields, key) ==> HasKey(fields[1..], key) by {
        if HasKey(fields, key) {
          var i :| 0 <= i < |fields| && fields[i].0 == key;
          assert i > 0 && fields[1..][i - 1].0 == key;
        }
      }
      r
  }

  /** In a dict, `d.get(key)` is the value paired with `key`, wherever it sits. */
  lemma GetAt(fields: seq<(string, Value)>, i: nat)
    requires DistinctKeys(fields) && i < |fields|
    ensures Get(fields, fields[i].0) == Some(fields[i].1)
  {
    var key := fields[i].0;
    var r := Get(fields, key);
    var j :| 0 <= j < |fields| && fields[j] == (key, r.value);
    assert j == i;
  }

  /** `d.get(key, default)`. */
  function GetOr(fields: seq<(string, Value)>, key: string, default: Value): (r: Value)
    ensures HasKey(fields, key) ==> Get(fields, key) == Some(r)
    ensures !HasKey(fields, key) ==> r == default
  {
    match Get(fields, key)
    case Some(v) => v
    case None => default
  }
}
