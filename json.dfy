/**
 * JSON values and the accessor contract the domain parsers rely on.
 *
 * The accessors (`GetString`, `GetBoolean`, `GetInt32`, `HasValue`, `GetEnum`,
 * `GetObject`, `GetArray`) belong to the Skybrud.Essentials / Newtonsoft.Json
 * libraries, whose code is not part of this model. Each function below is an
 * ASSUMED contract for one of them: what it returns for an absent key, for an
 * explicit JSON `null`, for a value of the expected kind and (where the library
 * converts or throws) the documented default the model uses instead.
 */
module Json {
  import opened Wrappers

  /** A C# `int`: a signed 32-bit integer. */
  newtype int32 = x: int | -0x8000_0000 <= x < 0x8000_0000

  /** A JSON value. Objects are maps from case-sensitive keys to values. */
  datatype Json =
    | Null
    | Bool(b: bool)
    | Int(n: int)
    | Str(s: string)
    | Object(fields: map<string, Json>)
    | Array(items: seq<Json>)

  /** A `JObject`: the key/value content of a JSON object. */
  type JObject = map<string, Json>

  /** True when `n` fits in a C# `int`. */
  predicate FitsInt32(n: int) {
    -0x8000_0000 <= n < 0x8000_0000
  }

  /**
   * `HasValue(key)` (assumed): the key is present and its value is not JSON `null`.
   */
  predicate HasValue(obj: JObject, key: string) {
    key in obj && obj[key] != Null
  }

  /**
   * `GetString(key)` (assumed): `null` when the key is absent or holds JSON `null`,
   * the text of a JSON string otherwise. The library's conversion of numbers and
   * booleans to text is not modelled; such values read as `null` here.
   */
  function GetString(obj: JObject, key: string): (r: Option<string>)
    ensures r.Some? <==> key in obj && obj[key].Str?
    ensures r.Some? ==> obj[key] == Str(r.value)
  {
    if key in obj && obj[key].Str? then Some(obj[key].s) else None
  }

  /**
   * `GetBoolean(key)` (assumed): `false` when the key is absent, JSON `null` or
   * not a boolean; the boolean otherwise.
   */
  function GetBoolean(obj: JObject, key: string): (r: bool)
    ensures key !in obj ==> !r
    ensures r <==> key in obj && obj[key] == Bool(true)
  {
    key in obj && obj[key].Bool? && obj[key].b
  }

  /**
   * `GetInt32(key)` (assumed): `0` when the key is absent, JSON `null` or not an
   * integer; the integer otherwise. A number outside the 32-bit range, for which
   * the library throws, reads as `0` here.
   */
  function GetInt32(obj: JObject, key: string): (r: int32)
    ensures key !in obj ==> r == 0
    ensures key in obj && obj[key].Int? && FitsInt32(obj[key].n) ==> r as int == obj[key].n
  {
    if key in obj && obj[key].Int? && FitsInt32(obj[key].n) then obj[key].n as int32 else 0
  }

  /**
   * `GetEnum(key, fallback)` (assumed): the member named by the string at `key`
   * when `named` recognises it, `fallback` in every other case (absent key,
   * JSON `null`, a non-string value, an unrecognised name).
   */
  function GetEnum<E>(obj: JObject, key: string, named: string -> Option<E>, fallback: E): (r: E)
    ensures key !in obj ==> r == fallback
    ensures key in obj && obj[key].Str? && named(obj[key].s).Some? ==> r == named(obj[key].s).value
    ensures r != fallback ==> key in obj && obj[key].Str? && named(obj[key].s) == Some(r)
  {
    if key in obj && obj[key].Str? && named(obj[key].s).Some? then named(obj[key].s).value else fallback
  }

  /**
   * `GetObject(key, parser)` (assumed): `null` when the key is absent or does
   * not hold an object; otherwise whatever `parser` makes of the nested object.
   */
  function GetObject<T>(obj: JObject, key: string, parser: JObject -> Option<T>): (r: Option<T>)
    ensures key in obj && obj[key].Object? ==> r == parser(obj[key].fields)
    ensures r.Some? ==> key in obj && obj[key].Object?
  {
    if key in obj && obj[key].Object? then parser(obj[key].fields) else None
  }

  /**
   * How `GetArray` treats one element: an object goes through `parser`; any
   * other element stands for a `null` object, which every parser maps to `null`.
   */
  function ParseElement<T>(element: Json, parser: JObject -> Option<T>): Option<T> {
    if element.Object? then parser(element.fields) else None
  }

  /**
   * `GetArray(key, parser)` (assumed): `null` when the key is absent or does
   * not hold an array; otherwise the array with `parser` applied to each
   * element, in order.
   */
  function GetArray<T>(obj: JObject, key: string, parser: JObject -> Option<T>): (r: Option<seq<Option<T>>>)
    ensures r.Some? <==> key in obj && obj[key].Array?
    ensures r.Some? ==> |r.value| == |obj[key].items|
    ensures r.Some? ==> forall i :: 0 <= i < |r.value| ==> r.value[i] == ParseElement(obj[key].items[i], parser)
  {
    if key in obj && obj[key].Array? then
      var items := obj[key].items;
      Some(seq(|items|, i requires 0 <= i < |items| => ParseElement(items[i], parser)))
    else
      None
  }
}
