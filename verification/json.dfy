/** JSON documents as Foundation's `JSONDecoder` sees them once the bytes are
    parsed, and the field decoders that a synthesized `Decodable` conformance
    runs for `String`, `String?`, `Int` and `Bool` properties. Byte-level
    parsing and text encoding are abstracted away: a frame is its parsed
    object. */
module Json {
  import opened Wrappers

  /** A parsed JSON value. Numbers are integers (no model of floating point). */
  datatype Value =
    | JString(str: string)
    | JNumber(num: int)
    | JBool(flag: bool)
    | JNull
    | JArray(items: seq<Value>)
    | JObject(fields: map<string, Value>)

  /** A JSON object: field name to value. */
  type Object = map<string, Value>

  /** The `DecodingError` cases a synthesized decoder raises, each naming the
      key being decoded. */
  datatype DecodeError =
    | KeyNotFound(key: string)
    | ValueNotFound(key: string)
    | TypeMismatch(key: string)
    | DataCorrupted(key: string)

  /** Bounds of Swift's `Int` on a 64-bit platform. */
  const INT_MIN: int := -0x8000_0000_0000_0000
  const INT_MAX: int := 0x7FFF_FFFF_FFFF_FFFF

  predicate FitsInt(n: int) {
    INT_MIN <= n <= INT_MAX
  }

  /** `key` is present and holds a string. */
  predicate HasString(o: Object, key: string) {
    key in o && o[key].JString?
  }

  /** `key` holds exactly the string `s`. */
  predicate IsString(o: Object, key: string, s: string) {
    key in o && o[key] == JString(s)
  }

  /** `key` holds a boolean. */
  predicate HasBool(o: Object, key: string) {
    key in o && o[key].JBool?
  }

  /** `key` holds exactly the boolean `b`. */
  predicate IsBool(o: Object, key: string, b: bool) {
    key in o && o[key] == JBool(b)
  }

  /** `key` holds a number that fits Swift's `Int`. */
  predicate HasInt(o: Object, key: string) {
    key in o && o[key].JNumber? && FitsInt(o[key].num)
  }

  /** `key` holds exactly the number `n`. */
  predicate IsNumber(o: Object, key: string, n: int) {
    key in o && o[key] == JNumber(n)
  }

  /** `key` is absent, null, or a string: what a `String?` property accepts. */
  predicate HasOptionalString(o: Object, key: string) {
    key !in o || o[key].JNull? || o[key].JString?
  }

  /** Decoding a non-optional `String` property. */
  function DecodeString(o: Object, key: string): (r: Result<string, DecodeError>)
    ensures r.Success? <==> HasString(o, key)
    ensures r.Success? ==> o[key] == JString(r.value)
    ensures r.Failure? ==> r.error.key == key
    ensures key !in o ==> r == Failure(KeyNotFound(key))
  {
    if key !in o then Failure(KeyNotFound(key))
    else match o[key]
      case JString(s) => Success(s)
      case JNull => Failure(ValueNotFound(key))
      case _ => Failure(TypeMismatch(key))
  }

  /** Decoding a `String?` property (`decodeIfPresent`): absent and null are
      both `nil`; any other non-string value is a type mismatch. */
  function DecodeOptionalString(o: Object, key: string): (r: Result<Option<string>, DecodeError>)
    ensures r.Success? <==> HasOptionalString(o, key)
    ensures r == Success(None) <==> key !in o || o[key] == JNull
    ensures r.Success? && r.value.Some? ==> o[key] == JString(r.value.value)
    ensures r.Failure? ==> r.error == TypeMismatch(key)
  {
    if key !in o then Success(None)
    else match o[key]
      case JString(s) => Success(Some(s))
      case JNull => Success(None)
      case _ => Failure(TypeMismatch(key))
  }

  /** Decoding an `Int` property: a number outside the 64-bit range is
      corrupted data rather than a wrapped value. */
  function DecodeInt(o: Object, key: string): (r: Result<int, DecodeError>)
    ensures r.Success? <==> key in o && o[key].JNumber? && FitsInt(o[key].num)
    ensures r.Success? ==> o[key] == JNumber(r.value)
    ensures r.Failure? ==> r.error.key == key
  {
    if key !in o then Failure(KeyNotFound(key))
    else match o[key]
      case JNumber(n) => if FitsInt(n) then Success(n) else Failure(DataCorrupted(key))
      case JNull => Failure(ValueNotFound(key))
      case _ => Failure(TypeMismatch(key))
  }

  /** Decoding a `Bool` property. */
  function DecodeBool(o: Object, key: string): (r: Result<bool, DecodeError>)
    ensures r.Success? <==> key in o && o[key].JBool?
    ensures r.Success? ==> o[key] == JBool(r.value)
    ensures r.Failure? ==> r.error.key == key
  {
    if key !in o then Failure(KeyNotFound(key))
    else match o[key]
      case JBool(b) => Success(b)
      case JNull => Failure(ValueNotFound(key))
      case _ => Failure(TypeMismatch(key))
  }

  /** Entering a nested keyed container: the value must be an object. */
  function AsObject(v: Value, key: string): (r: Result<Object, DecodeError>)
    ensures r.Success? <==> v.JObject?
    ensures r.Success? ==> v == JObject(r.value)
  {
    match v
    case JObject(fields) => Success(fields)
    case JNull => Failure(ValueNotFound(key))
    case _ => Failure(TypeMismatch(key))
  }
}
