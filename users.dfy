/**
 * `FacebookUser`: the typed projection of a Graph API user object.
 *
 * The nested parsers (`FacebookEntity.Parse`, `FacebookCoverPhoto.Parse`) are
 * not part of this model; they are parameters, and the user record is generic
 * over the types they produce.
 */
module Users {
  import opened Wrappers
  import opened Json

  /**
   * The gender enumeration. Only the fallback member `Unknown` is used by the
   * parser directly; the other members are assumed from the Graph API values
   * "male" and "female".
   */
  datatype FacebookGender = Unknown | Male | Female

  /** The user record: one field per property, `None` standing for `null`. */
  datatype FacebookUser<Entity, Cover> = FacebookUser(
    id: Option<string>,
    about: Option<string>,
    bio: Option<string>,
    birthday: Option<string>,
    cover: Option<Cover>,
    email: Option<string>,
    firstName: Option<string>,
    gender: FacebookGender,
    hometown: Option<Entity>,
    isVerified: bool,
    languages: seq<Option<Entity>>,
    lastName: Option<string>,
    link: Option<string>,
    locale: Option<string>,
    location: Option<Entity>,
    middleName: Option<string>,
    name: Option<string>,
    timezone: Option<int32>,
    verified: bool,
    website: Option<string>)

  /** The keys the user parser reads. */
  const UserKeys: set<string> := {
    "id", "about", "bio", "birthday", "cover", "email", "first_name", "gender",
    "hometown", "is_verified", "languages", "last_name", "link", "locale",
    "location", "middle_name", "name", "timezone", "verified", "website" }

  /** ASCII upper-case letters folded to lower case; everything else unchanged. */
  function LowerAscii(s: string): (r: string)
    ensures |r| == |s|
  {
    if s == [] then []
    else
      var c := s[0];
      [if 'A' <= c <= 'Z' then (c as int + 32) as char else c] + LowerAscii(s[1..])
  }

  /**
   * The enum lookup `GetEnum` performs for `FacebookGender` (assumed): the member
   * name matched ignoring ASCII case. Numeric strings and names outside ASCII,
   * which the library also accepts, are not modelled.
   */
  function GenderNamed(s: string): Option<FacebookGender> {
    var l := LowerAscii(s);
    if l == "male" then Some(Male)
    else if l == "female" then Some(Female)
    else if l == "unknown" then Some(Unknown)
    else None
  }

  /** The private constructor: every property read from its own key. */
  function FromObject<Entity, Cover>(
    obj: JObject, parseEntity: JObject -> Option<Entity>, parseCover: JObject -> Option<Cover>)
    : FacebookUser<Entity, Cover>
  {
    var languages := GetArray(obj, "languages", parseEntity);
    FacebookUser(
      GetString(obj, "id"),
      GetString(obj, "about"),
      GetString(obj, "bio"),
      GetString(obj, "birthday"),
      GetObject(obj, "cover", parseCover),
      GetString(obj, "email"),
      GetString(obj, "first_name"),
      GetEnum(obj, "gender", GenderNamed, Unknown),
      GetObject(obj, "hometown", parseEntity),
      GetBoolean(obj, "is_verified"),
      if languages.Some? then languages.value else [],
      GetString(obj, "last_name"),
      GetString(obj, "link"),
      GetString(obj, "locale"),
      GetObject(obj, "location", parseEntity),
      GetString(obj, "middle_name"),
      GetString(obj, "name"),
      if HasValue(obj, "timezone") then Some(GetInt32(obj, "timezone")) else None,
      GetBoolean(obj, "verified"),
      GetString(obj, "website"))
  }

  /**
   * `FacebookUser.Parse`: `null` for `null`, a user for every object. Each
   * property is the read of its own snake_case key.
   */
  function Parse<Entity, Cover>(
    obj: Option<JObject>, parseEntity: JObject -> Option<Entity>, parseCover: JObject -> Option<Cover>)
    : (r: Option<FacebookUser<Entity, Cover>>)
    ensures r.None? <==> obj.None?
    ensures r.Some? ==>
      var o, u := obj.value, r.value;
      && u.id == GetString(o, "id")
      && u.about == GetString(o, "about")
      && u.bio == GetString(o, "bio")
      && u.birthday == GetString(o, "birthday")
      && u.email == GetString(o, "email")
      && u.firstName == GetString(o, "first_name")
      && u.lastName == GetString(o, "last_name")
      && u.link == GetString(o, "link")
      && u.locale == GetString(o, "locale")
      && u.middleName == GetString(o, "middle_name")
      && u.name == GetString(o, "name")
      && u.website == GetString(o, "website")
      && u.isVerified == GetBoolean(o, "is_verified")
      && u.verified == GetBoolean(o, "verified")
      && u.cover == GetObject(o, "cover", parseCover)
      && u.hometown == GetObject(o, "hometown", parseEntity)
      && u.location == GetObject(o, "location", parseEntity)
    // Languages: the parsed array, or empty when there is no array.
    ensures r.Some? ==>
      var o, u := obj.value, r.value;
      && (!("languages" in o && o["languages"].Array?) ==> u.languages == [])
      && ("languages" in o && o["languages"].Array? ==>
            |u.languages| == |o["languages"].items|
            && forall i :: 0 <= i < |u.languages| ==>
                 u.languages[i] == ParseElement(o["languages"].items[i], parseEntity))
    // Timezone: null exactly when the key has no value, otherwise the integer read.
    ensures r.Some? ==>
      var o, u := obj.value, r.value;
      && (u.timezone.None? <==> !HasValue(o, "timezone"))
      && (u.timezone.Some? ==> u.timezone.value == GetInt32(o, "timezone"))
    // Gender: a recognised name, or the fallback Unknown.
    ensures r.Some? ==>
      var o, u := obj.value, r.value;
      && ("gender" in o && o["gender"].Str? && GenderNamed(o["gender"].s).Some? ==>
            u.gender == GenderNamed(o["gender"].s).value)
      && (!("gender" in o && o["gender"].Str? && GenderNamed(o["gender"].s).Some?) ==>
            u.gender == Unknown)
  {
    if obj.None? then None else Some(FromObject(obj.value, parseEntity, parseCover))
  }

  /** `Char.IsWhiteSpace`: the Unicode white-space characters as .NET classifies them. */
  predicate IsWhiteSpace(c: char) {
    || '\U{0009}' <= c <= '\U{000D}'
    || c == ' ' || c == '\U{0085}' || c == '\U{00A0}' || c == '\U{1680}'
    || '\U{2000}' <= c <= '\U{200A}'
    || c == '\U{2028}' || c == '\U{2029}' || c == '\U{202F}' || c == '\U{205F}' || c == '\U{3000}'
  }

  /** `String.IsNullOrWhiteSpace` on a non-null string: scans for a non-white-space character. */
  predicate AllWhiteSpace(s: string) {
    s == [] || (IsWhiteSpace(s[0]) && AllWhiteSpace(s[1..]))
  }

  /** `String.IsNullOrWhiteSpace`. */
  predicate IsNullOrWhiteSpace(s: Option<string>) {
    s.None? || AllWhiteSpace(s.value)
  }

  /** The computed `HasEmail` property. */
  predicate HasEmail<Entity, Cover>(u: FacebookUser<Entity, Cover>) {
    !IsNullOrWhiteSpace(u.email)
  }

  /** The scan of `AllWhiteSpace` finds exactly the strings with no non-white-space character. */
  lemma {:induction false} AllWhiteSpaceIff(s: string)
    ensures AllWhiteSpace(s) <==> forall i :: 0 <= i < |s| ==> IsWhiteSpace(s[i])
  {
    if s != [] {
      AllWhiteSpaceIff(s[1..]);
      assert forall i :: 1 <= i < |s| ==> s[i] == s[1..][i - 1];
    }
  }

  /** `HasEmail` holds iff the email is non-null and has a character that is not white space. */
  lemma HasEmailIff<Entity, Cover>(u: FacebookUser<Entity, Cover>)
    ensures HasEmail(u) <==>
      u.email.Some? && exists i :: 0 <= i < |u.email.value| && !IsWhiteSpace(u.email.value[i])
  {
    if u.email.Some? {
      AllWhiteSpaceIff(u.email.value);
    }
  }

  /** A null, empty or all-blank email gives `HasEmail == false`. */
  lemma BlankEmailHasNoEmail<Entity, Cover>(u: FacebookUser<Entity, Cover>)
    requires u.email == None || u.email == Some("") || u.email == Some(" \t\r\n")
    ensures !HasEmail(u)
  {
  }

  /** The defaults: an object with none of the keys yields the documented default of every property. */
  lemma EmptyObjectDefaults<Entity, Cover>(
    parseEntity: JObject -> Option<Entity>, parseCover: JObject -> Option<Cover>)
    ensures Parse(Some(map[]), parseEntity, parseCover) == Some(FacebookUser(
      None, None, None, None, None, None, None, Unknown, None, false, [], None,
      None, None, None, None, None, None, false, None))
  {
  }

  /** How a user is read depends on nothing but the values (or absence) of its own keys. */
  lemma OnlyUserKeysMatter<Entity, Cover>(
    a: JObject, b: JObject, parseEntity: JObject -> Option<Entity>, parseCover: JObject -> Option<Cover>)
    requires forall k :: k in UserKeys ==> (k in a <==> k in b)
    requires forall k :: k in UserKeys && k in a ==> a[k] == b[k]
    ensures Parse(Some(a), parseEntity, parseCover) == Parse(Some(b), parseEntity, parseCover)
  {
  }

  /** `IsVerified` and `Verified` are independent: rewriting one key leaves the other property alone. */
  lemma VerifiedFlagsIndependent<Entity, Cover>(
    obj: JObject, v: Json, parseEntity: JObject -> Option<Entity>, parseCover: JObject -> Option<Cover>)
    ensures Parse(Some(obj["verified" := v]), parseEntity, parseCover).value.isVerified
         == Parse(Some(obj), parseEntity, parseCover).value.isVerified
    ensures Parse(Some(obj["is_verified" := v]), parseEntity, parseCover).value.verified
         == Parse(Some(obj), parseEntity, parseCover).value.verified
  {
  }

  /**
   * A gender other than `Unknown` is only ever produced from a string naming it;
   * every other value of the key, including an absent key, yields `Unknown`.
   */
  lemma GenderUnknownUnlessNamed<Entity, Cover>(
    obj: JObject, parseEntity: JObject -> Option<Entity>, parseCover: JObject -> Option<Cover>)
    ensures var g := Parse(Some(obj), parseEntity, parseCover).value.gender;
      (g == Male ==> "gender" in obj && obj["gender"].Str? && LowerAscii(obj["gender"].s) == "male")
      && (g == Female ==> "gender" in obj && obj["gender"].Str? && LowerAscii(obj["gender"].s) == "female")
  {
  }

  /** `{"id":"1","gender":"bogus"}` reads as a user with id "1" and gender `Unknown`. */
  lemma BogusGenderIsUnknown<Entity, Cover>(
    parseEntity: JObject -> Option<Entity>, parseCover: JObject -> Option<Cover>)
    ensures var u := Parse(Some(map["id" := Str("1"), "gender" := Str("bogus")]), parseEntity, parseCover);
      u.Some? && u.value.id == Some("1") && u.value.gender == Unknown
  {
  }

  /** The name properties come from their own snake_case keys: `first_name`, `last_name`, `middle_name`, `id`. */
  lemma NameKeys<Entity, Cover>(
    a: string, b: string, c: string, d: string,
    parseEntity: JObject -> Option<Entity>, parseCover: JObject -> Option<Cover>)
    ensures var u := Parse(Some(map["id" := Str(a), "first_name" := Str(b), "last_name" := Str(c),
                                    "middle_name" := Str(d)]), parseEntity, parseCover).value;
      && u.id == Some(a) && u.firstName == Some(b) && u.lastName == Some(c) && u.middleName == Some(d)
      && u.name == None
  {
  }

  /** A numeric `timezone` is read as that offset; JSON `null` or no key leaves `Timezone` null. */
  lemma TimezoneCases<Entity, Cover>(
    obj: JObject, n: int32, parseEntity: JObject -> Option<Entity>, parseCover: JObject -> Option<Cover>)
    ensures Parse(Some(obj["timezone" := Int(n as int)]), parseEntity, parseCover).value.timezone == Some(n)
    ensures Parse(Some(obj["timezone" := Null]), parseEntity, parseCover).value.timezone == None
    ensures Parse(Some(obj - {"timezone"}), parseEntity, parseCover).value.timezone == None
  {
  }
}
