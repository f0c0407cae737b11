/** Decoded JSON values and the few Python operations the gateway applies to
    them: `dict.get`, `dict.update`, `float()` and `str.upper()`. */
module Values {

  datatype Option<+T> = None | Some(value: T)

  datatype Result<+T, +E> = Success(value: T) | Failure(error: E)

  /** A value produced by Python's `json` module: None, bool, int or float,
      str, list and dict. Numbers are kept as exact reals. */
  datatype Value =
    | JNull
    | JBool(b: bool)
    | JNum(n: real)
    | JStr(s: string)
    | JArray(items: seq<Value>)
    | JObject(fields: map<string, Value>)

  /** `d.get(key)`: Python answers None both for a missing key and for a
      key whose value is JSON null. */
  function Get(fields: map<string, Value>, key: string): (v: Value)
    ensures v == JNull <==> key !in fields || fields[key] == JNull
    ensures key in fields ==> v == fields[key]
  {
    if key in fields then fields[key] else JNull
  }

  /** `record.update(payload)` for a dict payload: every key of the payload
      is written, every other key of the record keeps its value, and no key
      is ever removed. */
  function Merge(record: map<string, Value>, payload: map<string, Value>): (r: map<string, Value>)
    ensures r.Keys == record.Keys + payload.Keys
    ensures forall k :: k in payload ==> r[k] == payload[k]
    ensures forall k :: k in record && k !in payload ==> r[k] == record[k]
  {
    record + payload
  }

  /** `record.update(v)` for any decoded value `v`: only a dict is accepted;
      anything else makes Python raise (TypeError or ValueError). */
  function Absorb(record: map<string, Value>, v: Value): (r: Option<map<string, Value>>)
    ensures r.Some? <==> v.JObject?
    ensures r.Some? ==> record.Keys <= r.value.Keys
    ensures v.JObject? ==> r == Some(Merge(record, v.fields))
  {
    match v
    case JObject(payload) => Some(Merge(record, payload))
    case _ => None
  }

  /** Python's `float(v)` for a decoded JSON value. None, lists and dicts
      raise TypeError (None); booleans convert to 1.0 and 0.0; numbers convert
      to themselves; for a string the outcome is `parseText`, which stands for
      Python's own text-to-float parser (None when it raises ValueError). */
  function ToFloat(v: Value, parseText: string -> Option<real>): (r: Option<real>)
    ensures v.JNull? || v.JArray? || v.JObject? ==> r.None?
    ensures v.JNum? ==> r == Some(v.n)
    ensures v.JBool? ==> r == Some(if v.b then 1.0 else 0.0)
    ensures v.JStr? ==> r == parseText(v.s)
  {
    match v
    case JNull => None
    case JBool(b) => Some(if b then 1.0 else 0.0)
    case JNum(n) => Some(n)
    case JStr(s) => parseText(s)
    case JArray(_) => None
    case JObject(_) => None
  }

  predicate IsLowerAscii(c: char) {
    'a' <= c <= 'z'
  }

  function UpperChar(c: char): (u: char)
    ensures !IsLowerAscii(u)
    ensures IsLowerAscii(c) ==> u as int == c as int - 32
    ensures !IsLowerAscii(c) ==> u == c
  {
    if IsLowerAscii(c) then (c as int - 32) as char else c
  }

  /** `s.upper()` on ASCII text: each lower-case letter is replaced by its
      capital, every other character is kept, and no lower-case letter is
      left. */
  function Upper(s: string): (r: string)
    ensures |r| == |s|
    ensures forall i :: 0 <= i < |s| ==> r[i] == UpperChar(s[i])
    ensures forall i :: 0 <= i < |r| ==> !IsLowerAscii(r[i])
  {
    if s == [] then [] else [UpperChar(s[0])] + Upper(s[1..])
  }
}
