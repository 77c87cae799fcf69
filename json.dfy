/**
 * JSON-like values as JavaScript sees them after `JSON.parse`, plus the
 * `undefined` that a missing property or index reads as.  Objects are
 * association lists in insertion order.
 */
module Json {
  import opened Wrappers

  datatype Json =
    | Undefined
    | Null
    | Bool(b: bool)
    | Num(n: real)
    | Str(s: string)
    | Arr(elems: seq<Json>)
    | Obj(fields: seq<(string, Json)>)

  /** JavaScript truthiness (NaN is not representable here). */
  predicate Truthy(v: Json) {
    match v
    case Undefined => false
    case Null => false
    case Bool(b) => b
    case Num(n) => n != 0.0
    case Str(s) => s != ""
    case Arr(_) => true
    case Obj(_) => true
  }

  /** `obj[key]` on an object built by successive assignments: the LAST binding wins. */
  function Lookup<V>(kvs: seq<(string, V)>, key: string): Option<V> {
    if |kvs| == 0 then None
    else if kvs[|kvs| - 1].0 == key then Some(kvs[|kvs| - 1].1)
    else Lookup(kvs[..|kvs| - 1], key)
  }

  /** A key is found exactly when it is bound, and then its last binding is the one found. */
  lemma {:induction false} LookupSpec<V>(kvs: seq<(string, V)>, key: string)
    ensures Lookup(kvs, key).None? <==> forall i :: 0 <= i < |kvs| ==> kvs[i].0 != key
    ensures Lookup(kvs, key).Some? ==>
              exists i :: 0 <= i < |kvs| && kvs[i] == (key, Lookup(kvs, key).value)
                          && forall j :: i < j < |kvs| ==> kvs[j].0 != key
    decreases |kvs|
  {
    if |kvs| > 0 && kvs[|kvs| - 1].0 != key {
      var init := kvs[..|kvs| - 1];
      LookupSpec(init, key);
      if Lookup(init, key).Some? {
        var i :| 0 <= i < |init| && init[i] == (key, Lookup(init, key).value)
                 && forall j :: i < j < |init| ==> init[j].0 != key;
        assert kvs[i] == init[i];
      }
    }
  }

  /** The keys of an association list, in order. */
  function Keys<V>(kvs: seq<(string, V)>): (r: seq<string>)
    ensures |r| == |kvs|
    ensures forall i :: 0 <= i < |kvs| ==> r[i] == kvs[i].0
  {
    seq(|kvs|, i requires 0 <= i < |kvs| => kvs[i].0)
  }

  /** No key occurs twice (what a parsed JSON object guarantees). */
  predicate UniqueKeys<V>(kvs: seq<(string, V)>) {
    forall i, j :: 0 <= i < j < |kvs| ==> kvs[i].0 != kvs[j].0
  }

  /**
   * `v[key]`: a field of an object, `undefined` otherwise.  Keys inherited
   * from a prototype (`length` of strings and arrays, `constructor`, ...)
   * are not modelled.
   */
  function Get(v: Json, key: string): Json {
    match v
    case Obj(fields) => Lookup(fields, key).GetOr(Undefined)
    case _ => Undefined
  }

  /**
   * How many times `for (i = 0; i < v.length; i++)` runs: the length of an
   * array or a string; for any other value `length` is undefined and the
   * loop does not run.
   */
  function Length(v: Json): nat {
    match v
    case Arr(es) => |es|
    case Str(s) => |s|
    case _ => 0
  }

  /** `v[i]`: an array element or a one-character string, `undefined` otherwise. */
  function At(v: Json, i: nat): Json {
    match v
    case Arr(es) => if i < |es| then es[i] else Undefined
    case Str(s) => if i < |s| then Str([s[i]]) else Undefined
    case _ => Undefined
  }
}
