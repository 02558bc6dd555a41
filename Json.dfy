/**
 * An already-lexed JSON value (`JsonElement`) and the decoding rules the parser's
 * `Json { ignoreUnknownKeys = true; isLenient = true }` configuration applies to it: a decoder
 * reads only the keys it knows, a missing key takes the field's default or fails when there is
 * none, a JSON `null` is accepted only for a nullable field, a `String` field also takes an
 * unquoted number or boolean as its text, and enum values must match a serial name exactly.
 * Turning text into a `Json` value is not part of this module.
 */
module Json {
  import opened Wrappers

  /** A JSON value. Integer literals are kept as integers; other numbers by their text. */
  datatype Json =
    | JNull
    | JBool(b: bool)
    | JInt(i: int)
    | JFloat(text: string)
    | JString(s: string)
    | JArray(elems: seq<Json>)
    | JObject(fields: map<string, Json>)

  /** Kotlin's `Int`. */
  type Int32 = x: int | -0x8000_0000 <= x < 0x8000_0000

  function AsObject(j: Json): Option<map<string, Json>> {
    if j.JObject? then Some(j.fields) else None
  }

  /**
   * A `String` field under `isLenient`: a string, and also an unquoted number or boolean read
   * as its text; `null`, an array or an object does not decode.
   */
  function AsString(j: Json): (r: Option<string>)
    ensures r.Some? <==> j.JString? || j.JBool? || j.JInt? || j.JFloat?
    ensures j.JString? ==> r == Some(j.s)
  {
    match PrimitiveContent(j)
    case Ok(Some(t)) => Some(t)
    case _ => None
  }

  /** A `Boolean` field. */
  function AsBool(j: Json): Option<bool> {
    if j.JBool? then Some(j.b) else None
  }

  /** An `Int` field: an integer literal within the 32-bit range. */
  function AsInt32(j: Json): (r: Option<Int32>)
    ensures r.Some? <==> j.JInt? && -0x8000_0000 <= j.i < 0x8000_0000
    ensures r.Some? ==> r.value == j.i
  {
    if j.JInt? && -0x8000_0000 <= j.i < 0x8000_0000 then Some(j.i as Int32) else None
  }

  /** A `JsonElement` field: any value. */
  function AsElement(j: Json): Option<Json> {
    Some(j)
  }

  /** A field without a default: it must be present and decode. */
  function Required<T>(o: map<string, Json>, key: string, dec: Json -> Option<T>): Option<T> {
    if key in o then dec(o[key]) else None
  }

  /** A non-nullable field with a default: absent takes `default`, present must decode. */
  function WithDefault<T>(o: map<string, Json>, key: string, default: T, dec: Json -> Option<T>): Option<T> {
    if key in o then dec(o[key]) else Some(default)
  }

  /** A nullable field defaulting to `null`: absent or JSON `null` is `None`, anything else must decode. */
  function Nullable<T>(o: map<string, Json>, key: string, dec: Json -> Option<T>): Option<Option<T>> {
    if key !in o || o[key] == JNull then Some(None)
    else match dec(o[key])
      case None => None
      case Some(v) => Some(Some(v))
  }

  /** A `List<T>` value: an array whose every element decodes. */
  function AsList<T>(j: Json, dec: Json -> Option<T>): Option<seq<T>> {
    if j.JArray? then DecodeAll(j.elems, dec) else None
  }

  function DecodeAll<T>(js: seq<Json>, dec: Json -> Option<T>): (r: Option<seq<T>>)
    ensures r.Some? ==> |r.value| == |js|
    ensures r.Some? <==> forall i :: 0 <= i < |js| ==> dec(js[i]).Some?
    ensures r.Some? ==> forall i :: 0 <= i < |js| ==> dec(js[i]) == Some(r.value[i])
  {
    if js == [] then Some([])
    else match dec(js[0])
      case None => None
      case Some(x) =>
        match DecodeAll(js[1..], dec)
        case None => None
        case Some(xs) => Some([x] + xs)
  }

  /** The encoding of a list: an array of the encoded elements, in order. */
  function EncodeAll<T>(xs: seq<T>, enc: T -> Json): (r: seq<Json>)
    ensures |r| == |xs|
    ensures forall i :: 0 <= i < |xs| ==> r[i] == enc(xs[i])
  {
    if xs == [] then [] else [enc(xs[0])] + EncodeAll(xs[1..], enc)
  }

  /** Decoding the encoding of a list gives the list back when it does so for every element. */
  lemma ListRoundTrip<T>(xs: seq<T>, enc: T -> Json, dec: Json -> Option<T>)
    requires forall i :: 0 <= i < |xs| ==> dec(enc(xs[i])) == Some(xs[i])
    ensures AsList(JArray(EncodeAll(xs, enc)), dec) == Some(xs)
  {
    var r := DecodeAll(EncodeAll(xs, enc), dec);
    assert r.Some?;
    assert r.value == xs;
  }

  /** `m` with `key` set when the value is present: how a nullable field is written. */
  function WithOptional<T>(m: map<string, Json>, key: string, v: Option<T>, enc: T -> Json): map<string, Json> {
    if v.Some? then m[key := enc(v.value)] else m
  }

  /** The class discriminator of a polymorphic value: its `"type"` key. */
  datatype Tag = Named(name: string) | Untagged | BadTag

  const TypeKey := "type"

  /** The decimal digits of a natural number. */
  function Digits(n: nat): (r: string)
    ensures r != [] && forall k :: 0 <= k < |r| ==> '0' <= r[k] <= '9'
  {
    var d := ['0' + (n % 10) as char];
    if n < 10 then d else Digits(n / 10) + d
  }

  /** The text of an integer literal. */
  function IntText(i: int): (r: string)
    ensures r != [] && forall k :: 0 <= k < |r| ==> r[k] == '-' || '0' <= r[k] <= '9'
  {
    if i < 0 then "-" + Digits(-i) else Digits(i)
  }

  /**
   * `jsonPrimitive.contentOrNull` of a discriminator: the text of a string, number or boolean,
   * none for `null`; an object or an array is not a primitive and fails.
   */
  function PrimitiveContent(j: Json): (r: Result<Option<string>>)
    ensures r.Err? <==> j.JArray? || j.JObject?
    ensures r == Ok(None) <==> j == JNull
    ensures j.JString? ==> r == Ok(Some(j.s))
  {
    match j
    case JNull => Ok(None)
    case JBool(b) => Ok(Some(if b then "true" else "false"))
    case JInt(i) => Ok(Some(IntText(i)))
    case JFloat(text) => Ok(Some(text))
    case JString(s) => Ok(Some(s))
    case _ => Err("not a JSON primitive")
  }

  /**
   * The discriminator's content names the subclass; an absent or `null` one leaves the choice to
   * the default deserializer; an object or an array is rejected.
   */
  function TagOf(o: map<string, Json>): (t: Tag)
    ensures t.Named? <==> TypeKey in o && o[TypeKey] != JNull && !o[TypeKey].JArray? && !o[TypeKey].JObject?
    ensures TypeKey in o && o[TypeKey].JString? ==> t == Named(o[TypeKey].s)
    ensures TypeKey in o && o[TypeKey].JBool? ==> t == Named(if o[TypeKey].b then "true" else "false")
    ensures TypeKey in o && o[TypeKey].JInt? ==> t == Named(IntText(o[TypeKey].i))
    ensures t.Untagged? <==> TypeKey !in o || o[TypeKey] == JNull
    ensures t.Named? ==> AsString(o[TypeKey]) == Some(t.name)
  {
    if TypeKey !in o then Untagged
    else match PrimitiveContent(o[TypeKey])
      case Err(_) => BadTag
      case Ok(None) => Untagged
      case Ok(Some(n)) => Named(n)
  }
}
