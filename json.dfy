/** JSON values as Python's json module produces and consumes them. */
module Json {
  import opened Wrappers

  /** A decoded JSON value: None, bool, int, float, str, list or dict. */
  datatype Value =
    | JNull
    | JBool(b: bool)
    | JInt(i: int)
    | JFloat(r: real)
    | JStr(s: string)
    | JArray(items: seq<Value>)
    | JObject(fields: map<string, Value>)

  /** The name of the Python type a decoded value has, as `type(v).__name__` spells it. */
  function TypeName(v: Value): string
  {
    match v
    case JNull => "NoneType"
    case JBool(_) => "bool"
    case JInt(_) => "int"
    case JFloat(_) => "float"
    case JStr(_) => "str"
    case JArray(_) => "list"
    case JObject(_) => "dict"
  }

  /** An optional string as it is serialised: `None` becomes `null`, never `""`. */
  function FromOptional(o: Option<string>): (j: Value)
    ensures j == JNull <==> o == None
    ensures o.Some? ==> j == JStr(o.value)
  {
    match o
    case None => JNull
    case Some(s) => JStr(s)
  }

  /** The inverse of FromOptional; `None` when the value is neither null nor a string. */
  function ToOptional(j: Value): Option<Option<string>>
  {
    match j
    case JNull => Some(None)
    case JStr(s) => Some(Some(s))
    case _ => None
  }

  /** A `Dict[str, str]` as a JSON object. */
  function FromDict(d: map<string, string>): (j: Value)
    ensures j.JObject? && j.fields.Keys == d.Keys
    ensures forall k :: k in d ==> j.fields[k] == JStr(d[k])
  {
    JObject(map k | k in d :: JStr(d[k]))
  }

  /** The inverse of FromDict; `None` unless the value is an object of strings. */
  function ToDict(j: Value): Option<map<string, string>>
  {
    if j.JObject? && forall k :: k in j.fields ==> j.fields[k].JStr? then
      Some(map k | k in j.fields :: j.fields[k].s)
    else
      None
  }

  lemma OptionalRoundTrip(o: Option<string>)
    ensures ToOptional(FromOptional(o)) == Some(o)
  {
  }

  lemma DictRoundTrip(d: map<string, string>)
    ensures ToDict(FromDict(d)) == Some(d)
  {
    var j := FromDict(d);
    assert forall k :: k in j.fields ==> j.fields[k].JStr?;
    var back := map k | k in j.fields :: j.fields[k].s;
    assert back.Keys == d.Keys;
    assert forall k :: k in back ==> back[k] == d[k];
    assert back == d;
    assert ToDict(j) == Some(back);
  }
}
