/** The Python values `response.json()` produces, as far as the client looks
    at them.  A JSON object becomes a `dict`, which keeps its keys in
    insertion order; it is modelled as its list of (key, value) pairs. */
module JsonValues {
  import opened Wrappers

  datatype Json =
    | JNull
    | JBool(b: bool)
    | JInt(i: int)
    | JFloat(f: real)
    | JStr(s: string)
    | JArr(items: seq<Json>)
    | JObj(fields: seq<(string, Json)>)

  /** Python's `bool(v)`: `None`, `False`, zero and empty containers are
      falsy, everything else is truthy. */
  predicate Truthy(v: Json) {
    match v
    case JNull => false
    case JBool(b) => b
    case JInt(i) => i != 0
    case JFloat(f) => f != 0.0
    case JStr(s) => s != []
    case JArr(items) => items != []
    case JObj(fields) => fields != []
  }

  /** `d.get(key)` on a dict: the value stored under `key`, or `None`. */
  function Get(fields: seq<(string, Json)>, key: string): (r: Option<Json>)
    ensures r.None? <==> forall i :: 0 <= i < |fields| ==> fields[i].0 != key
    ensures r.Some? ==> exists i :: 0 <= i < |fields| && fields[i] == (key, r.value)
                                    && forall j :: 0 <= j < i ==> fields[j].0 != key
  {
    if fields == [] then None
    else if fields[0].0 == key then Some(fields[0].1)
    else
      var r := Get(fields[1..], key);
      assert forall i :: 1 <= i < |fields| ==> fields[i] == fields[1..][i - 1];
      r
  }

  /** `v.get(key)` when `v` is a dict; `None` for every other value (on which
      the `.get` call itself would fail). */
  function Lookup(v: Json, key: string): Option<Json> {
    if v.JObj? then Get(v.fields, key) else None
  }

  predicate HasKey(v: Json, key: string) {
    Lookup(v, key).Some?
  }

  /** The keys of a dict, in order, as the strings `for` binds. */
  function Keys(fields: seq<(string, Json)>): (ks: seq<Json>)
    ensures |ks| == |fields| && forall i :: 0 <= i < |fields| ==> ks[i] == JStr(fields[i].0)
  {
    seq(|fields|, i requires 0 <= i < |fields| => JStr(fields[i].0))
  }

  function Chars(s: string): (cs: seq<Json>)
    ensures |cs| == |s| && forall i :: 0 <= i < |s| ==> cs[i] == JStr([s[i]])
  {
    seq(|s|, i requires 0 <= i < |s| => JStr([s[i]]))
  }

  /** What `for x in v` visits: the items of a list, the one-character
      strings of a string, the keys of a dict; `None` when `v` is not
      iterable (the loop raises `TypeError`). */
  function Iterate(v: Json): (r: Option<seq<Json>>)
    ensures r.Some? <==> v.JArr? || v.JStr? || v.JObj?
    ensures v.JArr? ==> r == Some(v.items)
    ensures v.JStr? ==> r == Some(Chars(v.s))
    ensures v.JObj? ==> r == Some(Keys(v.fields))
    ensures r.Some? ==> (Truthy(v) <==> |r.value| > 0)
  {
    match v
    case JArr(items) => Some(items)
    case JStr(s) => Some(Chars(s))
    case JObj(fields) => Some(Keys(fields))
    case _ => None
  }
}
