/**
 * The dynamic values the configuration layer works on. A tokenizer or model
 * configuration is a parsed JSON document, so a Python value is modelled by
 * the JSON value it was loaded from; JSON `null` is Python `None`.
 * Python exceptions raised by lookups become an `Error` inside a `Result`.
 */
module PyValues {

  /** A parsed JSON value. `JNull` is Python's `None`. */
  datatype Json =
    | JNull
    | JBool(b: bool)
    | JInt(i: int)
    | JString(s: string)
    | JArray(items: seq<Json>)
    | JObject(fields: map<string, Json>)

  /** The Python exceptions the modelled code can raise. */
  datatype Error =
    | KeyError(key: string)
    | TypeError(message: string)
    | IndexError(message: string)
    | AssertionError(message: string)
      /** Raised by an enumeration for a value that names none of its members. */
    | ValueError(value: string, enumName: string, validValues: seq<string>)

  datatype Option<+T> = None | Some(value: T)

  datatype Result<+T> = Ok(value: T) | Err(error: Error) {
    predicate IsFailure() { Err? }

    function PropagateFailure<U>(): Result<U>
      requires Err?
    {
      Err(error)
    }

    function Extract(): T
      requires Ok?
    {
      value
    }
  }

  /** Python's `dict.get` and the `m[k] if k in m else None` idiom. */
  function Get<K, V>(m: map<K, V>, k: K): (r: Option<V>)
    ensures r.Some? <==> k in m
    ensures r.Some? ==> r.value == m[k]
  {
    if k in m then Some(m[k]) else None
  }

  /**
   * Python's `value[key]` for a string key: a dict yields the mapped value or
   * raises `KeyError`; any other value (a list, a string, a number, `None`)
   * cannot be indexed by a string and raises `TypeError`.
   */
  function Subscript(v: Json, key: string): (r: Result<Json>)
    ensures r.Ok? <==> v.JObject? && key in v.fields
    ensures r.Ok? ==> r.value == v.fields[key]
    ensures r.Err? && v.JObject? ==> r.error == KeyError(key)
    ensures r.Err? && !v.JObject? ==> r.error.TypeError?
  {
    match v
    case JObject(fields) =>
      if key in fields then Ok(fields[key]) else Err(KeyError(key))
    case JString(_) => Err(TypeError("string indices must be integers"))
    case JArray(_) => Err(TypeError("list indices must be integers or slices, not str"))
    case _ => Err(TypeError("object is not subscriptable"))
  }

  function Min(a: nat, b: nat): nat { if a < b then a else b }

  /**
   * The dict comprehension `{k: v for k, v in zip(keys, vals)}`: `zip` stops at
   * the shorter sequence, and a key repeated later overwrites the earlier one.
   */
  function ZipMap<V>(keys: seq<string>, vals: seq<V>): (r: map<string, V>)
    ensures forall k :: k in r ==> k in keys[..Min(|keys|, |vals|)]
    ensures forall i :: 0 <= i < Min(|keys|, |vals|) ==> keys[i] in r
  {
    if |keys| == 0 || |vals| == 0 then map[]
    else
      var rest := ZipMap(keys[1..], vals[1..]);
      assert forall i :: 1 <= i < Min(|keys|, |vals|) ==> keys[i] == keys[1..][i - 1];
      assert forall k :: k in keys[1..][..Min(|keys| - 1, |vals| - 1)] ==> k in keys[..Min(|keys|, |vals|)];
      map[keys[0] := vals[0]] + rest
  }

  /** A key maps to the value paired with its last occurrence among the zipped keys. */
  lemma {:induction false} ZipMapAt<V>(keys: seq<string>, vals: seq<V>, i: nat)
    requires i < |keys| && i < |vals|
    requires forall j :: i < j < |keys| && j < |vals| ==> keys[j] != keys[i]
    ensures keys[i] in ZipMap(keys, vals) && ZipMap(keys, vals)[keys[i]] == vals[i]
  {
    if i > 0 {
      forall j | i - 1 < j < |keys| - 1 && j < |vals| - 1
        ensures keys[1..][j] != keys[1..][i - 1]
      {
        assert keys[1..][j] == keys[j + 1];
      }
      ZipMapAt(keys[1..], vals[1..], i - 1);
    }
  }
}
