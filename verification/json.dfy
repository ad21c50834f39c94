/** A small JSON value type for the rules data, request bodies and fetched
    records the source handles as Python dicts/lists and TypeScript objects.

    Objects are ordered field lists: Python dicts iterate in insertion order,
    and several operations of the model depend on that order. Floats are not
    part of the model. */
module Json {
  import opened Wrappers
  import opened Text

  datatype Json =
    | JNull
    | JBool(b: bool)
    | JInt(n: int)
    | JStr(s: string)
    | JArr(items: seq<Json>)
    | JObj(fields: seq<(string, Json)>)

  predicate HasKey(fields: seq<(string, Json)>, key: string) {
    exists i :: 0 <= i < |fields| && fields[i].0 == key
  }

  /** Python `key in d` / `d[key]`: the value of the first field named `key`. */
  function Lookup(fields: seq<(string, Json)>, key: string): (r: Option<Json>)
    ensures r.Some? <==> HasKey(fields, key)
    ensures r.Some? ==> exists i :: 0 <= i < |fields| && fields[i] == (key, r.value)
  {
    if |fields| == 0 then None
    else if fields[0].0 == key then Some(fields[0].1)
    else
      var r := Lookup(fields[1..], key);
      assert HasKey(fields, key) ==> HasKey(fields[1..], key) by {
        if HasKey(fields, key) {
          var i :| 0 <= i < |fields| && fields[i].0 == key;
          assert fields[1..][i - 1].0 == key;
        }
      }
      r
  }

  /** The value of a field whose key no earlier field has. */
  lemma {:induction false} LookupAt(fields: seq<(string, Json)>, i: nat)
    requires i < |fields| && forall j :: 0 <= j < i ==> fields[j].0 != fields[i].0
    ensures Lookup(fields, fields[i].0) == Some(fields[i].1)
  {
    if i > 0 {
      LookupAt(fields[1..], i - 1);
    }
  }

  /** `d.get(key)` on a value that may not be an object; a non-object has no fields. */
  function Get(j: Json, key: string): Option<Json> {
    if j.JObj? then Lookup(j.fields, key) else None
  }

  /** Python/JavaScript truthiness of a JSON value. */
  predicate Truthy(j: Json) {
    match j
    case JNull => false
    case JBool(b) => b
    case JInt(n) => n != 0
    case JStr(s) => |s| > 0
    case JArr(items) => |items| > 0
    case JObj(fields) => |fields| > 0
  }

  /** The list of keys of an object, in order. */
  function Keys(fields: seq<(string, Json)>): (r: seq<string>)
    ensures |r| == |fields|
    ensures forall i :: 0 <= i < |fields| ==> r[i] == fields[i].0
  {
    if |fields| == 0 then [] else [fields[0].0] + Keys(fields[1..])
  }

  /** Python `del d[key]` (the key occurs at most once in a real dict). */
  function Delete(fields: seq<(string, Json)>, key: string): (r: seq<(string, Json)>)
    ensures !HasKey(r, key)
    ensures forall k :: k != key ==> Lookup(r, k) == Lookup(fields, k)
  {
    if |fields| == 0 then []
    else if fields[0].0 == key then Delete(fields[1..], key)
    else [fields[0]] + Delete(fields[1..], key)
  }

  /** The keys of a real dict are pairwise distinct. */
  predicate DistinctKeys(fields: seq<(string, Json)>) {
    forall i, j :: 0 <= i < j < |fields| ==> fields[i].0 != fields[j].0
  }

  /** Python `d[key] = v`: replaces the value in place, or appends a new field. */
  function Put(fields: seq<(string, Json)>, key: string, v: Json): (r: seq<(string, Json)>)
    ensures Lookup(r, key) == Some(v)
    ensures forall k :: k != key ==> Lookup(r, k) == Lookup(fields, k)
    ensures HasKey(fields, key) ==> Keys(r) == Keys(fields)
  {
    if |fields| == 0 then [(key, v)]
    else if fields[0].0 == key then [(key, v)] + fields[1..]
    else [fields[0]] + Put(fields[1..], key, v)
  }

  /** Writing a key twice keeps only the second write. */
  lemma {:induction false} PutPut(fields: seq<(string, Json)>, key: string, v: Json, w: Json)
    ensures Put(Put(fields, key, v), key, w) == Put(fields, key, w)
  {
    if |fields| > 0 && fields[0].0 != key {
      PutPut(fields[1..], key, v, w);
    }
  }

  /** Writing back the value a key already has changes nothing. */
  lemma {:induction false} PutLookup(fields: seq<(string, Json)>, key: string)
    requires HasKey(fields, key)
    ensures Put(fields, key, Lookup(fields, key).value) == fields
  {
    if fields[0].0 != key {
      PutLookup(fields[1..], key);
      assert fields == [fields[0]] + fields[1..];
    }
  }

  function StrOr(j: Option<Json>, default: string): string {
    if j.Some? && j.value.JStr? then j.value.s else default
  }

  function IntOr(j: Option<Json>, default: int): int {
    if j.Some? && j.value.JInt? then j.value.n else default
  }

  /** Python `d.get(key, default)`: a dict gives the value of the key, or the
      default when it is absent; anything else has no `.get` and raises. */
  function PyGet(j: Json, key: string, default: Json): (r: Result<Json>)
    ensures r.Ok? <==> j.JObj?
    ensures j.JObj? && HasKey(j.fields, key) ==> r == Ok(Lookup(j.fields, key).value)
    ensures j.JObj? && !HasKey(j.fields, key) ==> r == Ok(default)
  {
    if j.JObj? then Ok(Lookup(j.fields, key).GetOr(default)) else Err("AttributeError: object has no attribute 'get'")
  }

  /** Python `key in container`: a key of a dict, an element of a list, a
      substring of a string; other values do not support `in` and raise. */
  function PyIn(container: Json, key: string): (r: Result<bool>)
    ensures r.Ok? <==> container.JObj? || container.JArr? || container.JStr?
    ensures container.JObj? ==> r == Ok(HasKey(container.fields, key))
    ensures container.JArr? ==> r == Ok(JStr(key) in container.items)
  {
    match container
    case JObj(fields) => Ok(HasKey(fields, key))
    case JArr(items) => Ok(JStr(key) in items)
    case JStr(s) => Ok(Occurs(key, s))
    case _ => Err("TypeError: argument is not iterable")
  }

  /** Python `d.get(key, default)` for a key that is itself a JSON value: a
      string is looked up; a list or a dict is unhashable and raises; any
      other key is absent, since every key of a decoded object is a string. */
  function PyGetKey(j: Json, key: Json, default: Json): (r: Result<Json>)
    ensures r.Ok? <==> j.JObj? && !key.JArr? && !key.JObj?
    ensures key.JStr? ==> r == PyGet(j, key.s, default)
    ensures r.Ok? && !key.JStr? ==> r.value == default
  {
    if !j.JObj? then Err("AttributeError: object has no attribute 'get'")
    else match key
      case JStr(k) => PyGet(j, k, default)
      case JArr(_) => Err("TypeError: unhashable type: 'list'")
      case JObj(_) => Err("TypeError: unhashable type: 'dict'")
      case _ => Ok(default)
  }

  /** The value as a Python number in arithmetic: an int, or a bool as 0/1;
      anything else raises a TypeError. */
  function Number(j: Json): (r: Option<int>)
    ensures r.Some? <==> j.JInt? || j.JBool?
    ensures j.JInt? ==> r == Some(j.n)
  {
    match j
    case JInt(n) => Some(n)
    case JBool(b) => Some(if b then 1 else 0)
    case _ => None
  }

  /** The fields of a value used as a dict (`d[key]`), failing for any other value. */
  function Fields(j: Json): (r: Result<seq<(string, Json)>>)
    ensures r.Ok? <==> j.JObj?
    ensures r.Ok? ==> JObj(r.value) == j
  {
    if j.JObj? then Ok(j.fields) else Err("TypeError: value is not a dict")
  }

  /** Python `for x in value`: a list yields its items, a dict its keys and a
      string its characters; any other value is not iterable and raises. */
  function Iterate(j: Json): (r: Result<seq<Json>>)
    ensures r.Ok? <==> j.JArr? || j.JObj? || j.JStr?
    ensures j.JArr? ==> r == Ok(j.items)
    ensures j.JObj? ==> r.Ok? && |r.value| == |j.fields| && forall i :: 0 <= i < |j.fields| ==> r.value[i] == JStr(j.fields[i].0)
    ensures j.JStr? ==> r.Ok? && |r.value| == |j.s| && forall i :: 0 <= i < |j.s| ==> r.value[i] == JStr([j.s[i]])
  {
    match j
    case JArr(items) => Ok(items)
    case JObj(fields) => Ok(seq(|fields|, i requires 0 <= i < |fields| => JStr(fields[i].0)))
    case JStr(s) => Ok(seq(|s|, i requires 0 <= i < |s| => JStr([s[i]])))
    case _ => Err("TypeError: object is not iterable")
  }

  /** `set(t.lower() for t in value)`: every element must be a string. */
  function LowerSet(items: seq<Json>): (r: Result<set<string>>)
    ensures r.Ok? <==> forall i :: 0 <= i < |items| ==> items[i].JStr?
    ensures r.Ok? ==> forall t :: t in r.value <==> exists i :: 0 <= i < |items| && items[i].JStr? && Lower(items[i].s) == t
  {
    if |items| == 0 then Ok({})
    else
      assert forall i :: 1 <= i < |items| ==> items[i] == items[1..][i - 1];
      if !items[0].JStr? then Err("AttributeError: object has no attribute 'lower'")
      else
        var rest :- LowerSet(items[1..]);
        assert forall t :: t in rest ==> exists i :: 0 <= i < |items| && items[i].JStr? && Lower(items[i].s) == t by {
          forall t | t in rest ensures exists i :: 0 <= i < |items| && items[i].JStr? && Lower(items[i].s) == t {
            var i :| 0 <= i < |items[1..]| && items[1..][i].JStr? && Lower(items[1..][i].s) == t;
            assert items[i + 1] == items[1..][i];
          }
        }
        Ok({Lower(items[0].s)} + rest)
  }

  /** The lowercased tags a dict lists under `field` (none when absent). */
  function TagSet(entry: Json, field: string): Result<set<string>> {
    var tags :- PyGet(entry, field, JArr([]));
    var items :- Iterate(tags);
    LowerSet(items)
  }
}
