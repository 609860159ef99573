/** `FacebookCursors`: the `after`/`before` markers of a paged list. */
module Pagination {
  import opened Wrappers
  import opened Json

  datatype FacebookCursors = FacebookCursors(after: Option<string>, before: Option<string>)

  /**
   * The public constructor: `After` is the string at `after`, `Before` the
   * string at `before` (each `null` when its key holds no string).
   */
  function FromObject(obj: JObject): (r: FacebookCursors)
    ensures r.after.Some? <==> "after" in obj && obj["after"].Str?
    ensures r.after.Some? ==> obj["after"] == Str(r.after.value)
    ensures r.before.Some? <==> "before" in obj && obj["before"].Str?
    ensures r.before.Some? ==> obj["before"] == Str(r.before.value)
  {
    FacebookCursors(GetString(obj, "after"), GetString(obj, "before"))
  }

  /** `FacebookCursors.Parse`: `null` for `null`, the constructor's result otherwise. */
  function Parse(obj: Option<JObject>): (r: Option<FacebookCursors>)
    ensures r.None? <==> obj.None?
    ensures r.Some? ==> r.value.after == GetString(obj.value, "after")
    ensures r.Some? ==> r.value.before == GetString(obj.value, "before")
  {
    if obj.None? then None else Some(FromObject(obj.value))
  }

  /** For a non-null object, `Parse` agrees with the public constructor. */
  lemma ParseIsConstructor(obj: JObject)
    ensures Parse(Some(obj)) == Some(FromObject(obj))
  {
  }

  /** `{"after":"A","before":"B"}` gives `After == "A"` and `Before == "B"`. */
  lemma ParseAfterBefore()
    ensures Parse(Some(map["after" := Str("A"), "before" := Str("B")]))
         == Some(FacebookCursors(Some("A"), Some("B")))
  {
  }

  /** `After` depends only on `after`, `Before` only on `before`. */
  lemma CursorsIndependent(obj: JObject, k: string, v: Json)
    ensures k != "after" ==> FromObject(obj[k := v]).after == FromObject(obj).after
    ensures k != "before" ==> FromObject(obj[k := v]).before == FromObject(obj).before
  {
  }
}
