/** A small JSON value: the shape of a request body once the HTTP layer has parsed
    it, and of a response body before it is written. Numbers are integers only. */
module Json {
  import opened Wrappers

  datatype Value =
    | JNull
    | JBool(b: bool)
    | JInt(n: int)
    | JStr(s: string)
    | JArray(items: seq<Value>)
    | JObject(fields: map<string, Value>)

  /** The entry for an optional field of a serialised model: a missing value is
      written as `null`, or dropped altogether when `excludeNone` is set
      (pydantic's `model_dump(exclude_none=True)`). */
  function OptionalField(key: string, v: Option<Value>, excludeNone: bool): (m: map<string, Value>)
    ensures v.Some? ==> m == map[key := v.value]
    ensures v.None? && excludeNone ==> m == map[]
    ensures v.None? && !excludeNone ==> m == map[key := JNull]
  {
    match v
    case Some(x) => map[key := x]
    case None => if excludeNone then map[] else map[key := JNull]
  }

  /** A required string field of an object. */
  function StringField(fields: map<string, Value>, key: string): (r: Result<string>)
    ensures r.Success? <==> key in fields && fields[key].JStr?
    ensures r.Success? ==> fields[key] == JStr(r.value)
  {
    if key in fields && fields[key].JStr? then Success(fields[key].s)
    else Failure(key + ": a string is required")
  }

  /** An optional string field: absent and `null` both read as no value. */
  function OptionalStringField(fields: map<string, Value>, key: string): (r: Result<Option<string>>)
    ensures r.Success? <==> key !in fields || fields[key].JNull? || fields[key].JStr?
    ensures r == Success(None) <==> key !in fields || fields[key].JNull?
    ensures r.Success? && r.value.Some? ==> fields[key] == JStr(r.value.value)
  {
    if key !in fields || fields[key].JNull? then Success(None)
    else if fields[key].JStr? then Success(Some(fields[key].s))
    else Failure(key + ": a string or null is required")
  }

  /** An optional integer field: absent and `null` both read as no value. */
  function OptionalIntField(fields: map<string, Value>, key: string): (r: Result<Option<int>>)
    ensures r.Success? <==> key !in fields || fields[key].JNull? || fields[key].JInt?
    ensures r == Success(None) <==> key !in fields || fields[key].JNull?
    ensures r.Success? && r.value.Some? ==> fields[key] == JInt(r.value.value)
  {
    if key !in fields || fields[key].JNull? then Success(None)
    else if fields[key].JInt? then Success(Some(fields[key].n))
    else Failure(key + ": an integer or null is required")
  }

  /** A list field written element by element. */
  function EncodeList<T>(xs: seq<T>, encode: T -> Value): (vs: seq<Value>)
    ensures |vs| == |xs|
    ensures forall i :: 0 <= i < |xs| ==> vs[i] == encode(xs[i])
  {
    if xs == [] then [] else [encode(xs[0])] + EncodeList(xs[1..], encode)
  }

  /** A list field read element by element; the first element that does not
      decode makes the whole list fail, so a list is never partly parsed. */
  function DecodeList<T>(vs: seq<Value>, decode: Value -> Result<T>): (r: Result<seq<T>>)
    ensures r.Success? ==> |r.value| == |vs|
    ensures r.Success? ==> forall i :: 0 <= i < |vs| ==> decode(vs[i]) == Success(r.value[i])
  {
    if vs == [] then Success([])
    else
      match decode(vs[0])
      case Failure(e) => Failure(e)
      case Success(x) =>
        match DecodeList(vs[1..], decode)
        case Failure(e) => Failure(e)
        case Success(rest) => Success([x] + rest)
  }

  /** Reading back a written list gives the list, provided that reading back
      each written element gives the element. */
  lemma {:induction false} ListRoundTrip<T>(xs: seq<T>, encode: T -> Value, decode: Value -> Result<T>)
    requires forall x :: decode(encode(x)) == Success(x)
    ensures DecodeList(EncodeList(xs, encode), decode) == Success(xs)
  {
    if xs != [] {
      var vs := EncodeList(xs, encode);
      assert vs[1..] == EncodeList(xs[1..], encode);
      ListRoundTrip(xs[1..], encode, decode);
      assert [xs[0]] + xs[1..] == xs;
    }
  }
}
