/** Decoded JSON values, as `json.loads` hands them to the scraper, and the handful of
    Python operations the scraper applies to them (`d[k]`, `d.get(k)`, `k in d`, `len`,
    iteration, truthiness), each with the exception Python raises on the wrong type. */
module Json {
  import opened Wrappers

  /** JSON null is Python's None. An object is a list of bindings in document order. */
  datatype Json =
    | JNull
    | JBool(b: bool)
    | JNum(n: int)
    | JStr(s: string)
    | JArr(items: seq<Json>)
    | JObj(fields: seq<(string, Json)>)

  /** The value bound to `key`; the last binding wins, as it does in `json.loads`. */
  function Lookup(fields: seq<(string, Json)>, key: string): (r: Option<Json>)
    ensures r.Some? <==> exists i :: 0 <= i < |fields| && fields[i].0 == key
    ensures r.Some? ==> exists i :: 0 <= i < |fields| && fields[i] == (key, r.value)
                                    && forall k :: i < k < |fields| ==> fields[k].0 != key
  {
    if |fields| == 0 then None
    else
      var last := |fields| - 1;
      if fields[last].0 == key then
        assert fields[last] == (key, fields[last].1);
        Some(fields[last].1)
      else
        var init := fields[..last];
        assert forall i :: 0 <= i < last ==> init[i] == fields[i];
        Lookup(init, key)
  }

  /** Python `j[key]` for a string key. */
  function Field(j: Json, key: string): (r: Result<Json>)
    ensures r.Ok? <==> j.JObj? && Lookup(j.fields, key).Some?
    ensures r.Ok? ==> Lookup(j.fields, key) == Some(r.value)
    ensures j.JObj? && r.Err? ==> r.error == KeyError(key)
    ensures !j.JObj? ==> r == Err(TypeError)
  {
    match j
    case JObj(fields) =>
      (match Lookup(fields, key)
       case Some(v) => Ok(v)
       case None => Err(KeyError(key)))
    case _ => Err(TypeError)
  }

  /** Python `j[i]` for a non-negative integer index. */
  function Item(j: Json, i: nat): (r: Result<Json>)
    ensures j.JArr? ==> r == if i < |j.items| then Ok(j.items[i]) else Err(IndexError)
    ensures j.JStr? ==> r == if i < |j.s| then Ok(JStr([j.s[i]])) else Err(IndexError)
    ensures j.JObj? ==> r == Err(IntKeyError(i))
    ensures !(j.JArr? || j.JStr? || j.JObj?) ==> r == Err(TypeError)
  {
    match j
    case JArr(items) => if i < |items| then Ok(items[i]) else Err(IndexError)
    case JStr(s) => if i < |s| then Ok(JStr([s[i]])) else Err(IndexError)
    case JObj(_) => Err(IntKeyError(i))
    case _ => Err(TypeError)
  }

  /** Python `j.get(key)`: None for a missing key, AttributeError on a non-dict. */
  function Get(j: Json, key: string): (r: Result<Json>)
    ensures r.Ok? <==> j.JObj?
    ensures !j.JObj? ==> r == Err(AttributeError)
    ensures j.JObj? ==> r == Ok(if Lookup(j.fields, key).Some? then Lookup(j.fields, key).value else JNull)
    ensures j.JObj? && Field(j, key).Ok? ==> r == Field(j, key)
    ensures r.Ok? ==> JSize(r.value) <= JSize(j)
  {
    match j
    case JObj(fields) =>
      (match Lookup(fields, key)
       case Some(v) => LookupSize(fields, key); Ok(v)
       case None => Ok(JNull))
    case _ => Err(AttributeError)
  }

  /** `sub` occurs in `s` as a contiguous substring. */
  predicate IsSubstring(sub: string, s: string) {
    sub <= s || (s != [] && IsSubstring(sub, s[1..]))
  }

  /** Python `key in j`: a key of a dict, an element of a list, a substring of a string. */
  function Contains(j: Json, key: string): (r: Result<bool>)
    ensures j.JObj? ==> r == Ok(Lookup(j.fields, key).Some?)
    ensures j.JArr? ==> r == Ok(JStr(key) in j.items)
    ensures j.JStr? ==> r == Ok(IsSubstring(key, j.s))
    ensures r.Err? <==> !(j.JObj? || j.JArr? || j.JStr?)
    ensures r.Err? ==> r.error == TypeError
  {
    match j
    case JObj(fields) => Ok(Lookup(fields, key).Some?)
    case JArr(items) => Ok(JStr(key) in items)
    case JStr(s) => Ok(IsSubstring(key, s))
    case _ => Err(TypeError)
  }

  /** The keys of an object, as strings, in document order. */
  function Keys(fields: seq<(string, Json)>): (r: seq<Json>)
    ensures |r| == |fields|
    ensures forall i :: 0 <= i < |fields| ==> r[i] == JStr(fields[i].0)
  {
    seq(|fields|, i requires 0 <= i < |fields| => JStr(fields[i].0))
  }

  /** The one-character strings of `s`, in order. */
  function Chars(s: string): (r: seq<Json>)
    ensures |r| == |s|
    ensures forall i :: 0 <= i < |s| ==> r[i] == JStr([s[i]])
  {
    seq(|s|, i requires 0 <= i < |s| => JStr([s[i]]))
  }

  /** What `for x in j` visits: list elements, dict keys, or the characters of a string. */
  function Iterate(j: Json): (r: Result<seq<Json>>)
    ensures r.Ok? <==> j.JArr? || j.JObj? || j.JStr?
    ensures r.Err? ==> r.error == TypeError
    ensures j.JArr? ==> r == Ok(j.items)
    ensures j.JObj? ==> r == Ok(Keys(j.fields))
    ensures j.JStr? ==> r == Ok(Chars(j.s))
    ensures r.Ok? ==> |r.value| == Len(j).value
    ensures r.Ok? ==> forall i :: 0 <= i < |r.value| && r.value[i].JObj? ==> JSize(r.value[i]) < JSize(j)
  {
    match j
    case JArr(items) =>
      forall i | 0 <= i < |items|
        ensures JSize(items[i]) <= ItemsSize(items)
      {
        ItemSize(items, i);
      }
      Ok(items)
    case JObj(fields) => Ok(Keys(fields))
    case JStr(s) => Ok(Chars(s))
    case _ => Err(TypeError)
  }

  /** Python `len(j)`. */
  function Len(j: Json): (r: Result<nat>)
    ensures j.JArr? ==> r == Ok(|j.items|)
    ensures j.JObj? ==> r == Ok(|j.fields|)
    ensures j.JStr? ==> r == Ok(|j.s|)
    ensures r.Ok? <==> j.JArr? || j.JObj? || j.JStr?
    ensures r.Err? ==> r.error == TypeError
  {
    match j
    case JArr(items) => Ok(|items|)
    case JObj(fields) => Ok(|fields|)
    case JStr(s) => Ok(|s|)
    case _ => Err(TypeError)
  }

  /** Python truthiness: None, False, 0 and empty containers are false. */
  predicate Truthy(j: Json)
    ensures j == JNull ==> !Truthy(j)
    ensures Len(j).Ok? ==> (Truthy(j) <==> Len(j).value > 0)
  {
    match j
    case JNull => false
    case JBool(b) => b
    case JNum(n) => n != 0
    case JStr(s) => s != []
    case JArr(items) => items != []
    case JObj(fields) => fields != []
  }

  /** A size measure that strictly decreases from a container to what it holds. */
  function JSize(j: Json): (n: nat)
    ensures n >= 1
  {
    match j
    case JStr(s) => 1 + |s|
    case JArr(items) => 1 + ItemsSize(items)
    case JObj(fields) => 1 + FieldsSize(fields)
    case _ => 1
  }

  function ItemsSize(items: seq<Json>): nat {
    if items == [] then 0 else ItemsSize(items[..|items| - 1]) + JSize(items[|items| - 1])
  }

  function FieldsSize(fields: seq<(string, Json)>): nat {
    if fields == [] then 0 else FieldsSize(fields[..|fields| - 1]) + BindingSize(fields[|fields| - 1])
  }

  function BindingSize(binding: (string, Json)): nat {
    1 + |binding.0| + JSize(binding.1)
  }

  lemma {:induction false} LookupSize(fields: seq<(string, Json)>, key: string)
    requires Lookup(fields, key).Some?
    ensures JSize(Lookup(fields, key).value) <= FieldsSize(fields)
  {
    if fields[|fields| - 1].0 != key {
      LookupSize(fields[..|fields| - 1], key);
    }
  }

  lemma {:induction false} ItemSize(items: seq<Json>, i: nat)
    requires i < |items|
    ensures JSize(items[i]) <= ItemsSize(items)
  {
    if i < |items| - 1 {
      ItemSize(items[..|items| - 1], i);
    }
  }
}
