/**
 * JSON values as Python's json module hands them over: None, bool, int, float,
 * str, list and dict. A dict keeps its keys in insertion order, so an object is an
 * association list; `Get`, `Put` and `Keys` are `d.get(k)`, `d[k] = v` and
 * `list(d)` on it.
 */
module Json {
  import opened Wrappers

  datatype Json =
    | JNull
    | JBool(b: bool)
    | JInt(i: int)
    | JFloat(r: real)
    | JStr(s: string)
    | JArr(items: seq<Json>)
    | JObj(fields: seq<(string, Json)>)

  type Fields = seq<(string, Json)>

  /** The keys of a dict, in insertion order. */
  function Keys(fields: Fields): (ks: seq<string>)
    ensures |ks| == |fields|
    ensures forall i :: 0 <= i < |fields| ==> ks[i] == fields[i].0
  {
    if |fields| == 0 then [] else [fields[0].0] + Keys(fields[1..])
  }

  /** No key occurs twice, as in every Python dict. */
  ghost predicate DistinctKeys(fields: Fields) {
    forall i, j :: 0 <= i < j < |fields| ==> fields[i].0 != fields[j].0
  }

  /** `d.get(key)`: the value stored under `key`, if any. */
  function Get(fields: Fields, key: string): Option<Json> {
    if |fields| == 0 then None
    else if fields[0].0 == key then Some(fields[0].1)
    else Get(fields[1..], key)
  }

  /** A list of strings as JSON values. */
  function Strings(names: seq<string>): (r: seq<Json>)
    ensures |r| == |names| && forall i :: 0 <= i < |names| ==> r[i] == JStr(names[i])
  {
    seq(|names|, i requires 0 <= i < |names| => JStr(names[i]))
  }

  /** `d.get(key, default)`. */
  function GetOr(fields: Fields, key: string, default: Json): Json {
    Get(fields, key).GetOr(default)
  }

  /** `key in d`. */
  predicate Has(fields: Fields, key: string) {
    Get(fields, key).Some?
  }

  /** `d.get(key)` finds exactly the keys `list(d)` lists, and a found value is stored under its key. */
  lemma {:induction false} GetFindsKeys(fields: Fields, key: string)
    ensures Has(fields, key) <==> key in Keys(fields)
    ensures Has(fields, key) ==> (key, Get(fields, key).value) in fields
  {
    if |fields| > 0 {
      GetFindsKeys(fields[1..], key);
      assert Keys(fields) == [fields[0].0] + Keys(fields[1..]);
    }
  }

  /** `d[key] = v`: an existing key keeps its place, a new key goes last. */
  function Put(fields: Fields, key: string, v: Json): (r: Fields)
    ensures Get(r, key) == Some(v)
    ensures forall k :: k != key ==> Get(r, k) == Get(fields, k)
    ensures key in Keys(fields) ==> Keys(r) == Keys(fields)
    ensures key !in Keys(fields) ==> Keys(r) == Keys(fields) + [key]
  {
    if |fields| == 0 then [(key, v)]
    else if fields[0].0 == key then
      var r := [(key, v)] + fields[1..];
      assert r[1..] == fields[1..];
      r
    else
      var rest := Put(fields[1..], key, v);
      var r := [fields[0]] + rest;
      assert r[1..] == rest;
      r
  }

  /** `j.get(key)` when `j` is a dict; `None` for every other kind of value. */
  function Member(j: Json, key: string): (r: Option<Json>)
    ensures r.Some? <==> j.JObj? && Has(j.fields, key)
  {
    if j.JObj? then Get(j.fields, key) else None
  }

  lemma {:induction false} PutKeepsDistinct(fields: Fields, key: string, v: Json)
    requires DistinctKeys(fields)
    ensures DistinctKeys(Put(fields, key, v))
  {
    if |fields| > 0 && fields[0].0 != key {
      PutKeepsDistinct(fields[1..], key, v);
      var rest := Put(fields[1..], key, v);
      var r := [fields[0]] + rest;
      assert Keys(fields) == [fields[0].0] + Keys(fields[1..]);
      forall i, j | 0 <= i < j < |r| ensures r[i].0 != r[j].0 {
        if i == 0 {
          assert r[j].0 == Keys(rest)[j - 1];
          assert fields[0].0 !in Keys(fields[1..]) by {
            forall m | 0 <= m < |fields| - 1 ensures Keys(fields[1..])[m] != fields[0].0 {
              assert fields[m + 1].0 != fields[0].0;
            }
          }
        }
      }
    } else if |fields| > 0 {
      var r := [(key, v)] + fields[1..];
      forall i, j | 0 <= i < j < |r| ensures r[i].0 != r[j].0 {
        assert r[j].0 == fields[j].0;
        assert r[i].0 == fields[i].0;
      }
    }
  }
}
