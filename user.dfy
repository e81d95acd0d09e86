/** `User` and its hand-written coding: in memory the names and phone sit
    beside the id, in JSON they are nested under a `profile` object. */
module UserModel {
  import opened Wrappers

  /** A JSON value as seen by the decoder. */
  datatype Json =
    | JNull
    | JBool(b: bool)
    | JNumber(n: int)
    | JString(s: string)
    | JArray(items: seq<Json>)
    | JObject(fields: map<string, Json>)

  datatype User = User(id: string, firstName: Option<string>, lastName: Option<string>, phone: Option<string>)

  /** The decoder's errors, each with the coding path of the offending key. */
  datatype DecodingError =
    | KeyNotFound(path: seq<string>)
    | ValueNotFound(path: seq<string>)
    | TypeMismatch(path: seq<string>)

  // ---- Reference description of the JSON a user decodes from ----

  predicate IsStringOrNull(v: Json) {
    v.JNull? || v.JString?
  }

  /** The profile object carries all three keys, each a string or null. */
  predicate IsProfileJson(p: map<string, Json>) {
    && "firstName" in p && IsStringOrNull(p["firstName"])
    && "lastName" in p && IsStringOrNull(p["lastName"])
    && "phone" in p && IsStringOrNull(p["phone"])
  }

  /** A top-level object with a string `id` and a `profile` object. Other keys are ignored. */
  predicate IsUserJson(j: Json) {
    && j.JObject?
    && "id" in j.fields && j.fields["id"].JString?
    && "profile" in j.fields && j.fields["profile"].JObject?
    && IsProfileJson(j.fields["profile"].fields)
  }

  /** Null reads as an absent field, a string as a present one. */
  function AsOptionalString(v: Json): Option<string>
    requires IsStringOrNull(v)
  {
    if v.JString? then Some(v.s) else None
  }

  // ---- Decoding (`init(from:)`) ----

  /** `container.decode(String.self, forKey:)`. */
  function DecodeString(obj: map<string, Json>, key: string): Result<string, DecodingError> {
    if key !in obj then Failure(KeyNotFound([key]))
    else match obj[key]
      case JString(s) => Success(s)
      case JNull => Failure(ValueNotFound([key]))
      case _ => Failure(TypeMismatch([key]))
  }

  /** `container.nestedContainer(keyedBy:forKey:)`: the value must be an object. */
  function NestedObject(obj: map<string, Json>, key: string): Result<map<string, Json>, DecodingError> {
    if key !in obj then Failure(KeyNotFound([key]))
    else if obj[key].JObject? then Success(obj[key].fields)
    else Failure(TypeMismatch([key]))
  }

  /** `profile.decode(String?.self, forKey:)`: the key must be present; null gives none. */
  function DecodeOptionalString(obj: map<string, Json>, path: seq<string>, key: string): Result<Option<string>, DecodingError> {
    if key !in obj then Failure(KeyNotFound(path + [key]))
    else match obj[key]
      case JString(s) => Success(Some(s))
      case JNull => Success(None)
      case _ => Failure(TypeMismatch(path + [key]))
  }

  function Decode(j: Json): (r: Result<User, DecodingError>)
    ensures r.Success? <==> IsUserJson(j)
    ensures r.Success? ==>
      && r.value.id == j.fields["id"].s
      && r.value.firstName == AsOptionalString(j.fields["profile"].fields["firstName"])
      && r.value.lastName == AsOptionalString(j.fields["profile"].fields["lastName"])
      && r.value.phone == AsOptionalString(j.fields["profile"].fields["phone"])
    // the id is looked at before the profile
    ensures j.JNull? ==> r == Failure(ValueNotFound([]))
    ensures !j.JObject? && !j.JNull? ==> r == Failure(TypeMismatch([]))
    ensures j.JObject? && "id" !in j.fields ==> r == Failure(KeyNotFound(["id"]))
    ensures j.JObject? && "id" in j.fields && j.fields["id"].JString? && "profile" !in j.fields ==>
      r == Failure(KeyNotFound(["profile"]))
  {
    if j.JNull? then Failure(ValueNotFound([]))
    else if !j.JObject? then Failure(TypeMismatch([]))
    else
      var top := j.fields;
      match DecodeString(top, "id")
      case Failure(e) => Failure(e)
      case Success(id) =>
        match NestedObject(top, "profile")
        case Failure(e) => Failure(e)
        case Success(profile) =>
          match DecodeOptionalString(profile, ["profile"], "firstName")
          case Failure(e) => Failure(e)
          case Success(firstName) =>
            match DecodeOptionalString(profile, ["profile"], "lastName")
            case Failure(e) => Failure(e)
            case Success(lastName) =>
              match DecodeOptionalString(profile, ["profile"], "phone")
              case Failure(e) => Failure(e)
              case Success(phone) => Success(User(id, firstName, lastName, phone))
  }

  // ---- Encoding (`encode(to:)`) ----

  /** `encode(_: String?, forKey:)` writes an absent value as explicit null. */
  function EncodeOptionalString(o: Option<string>): (v: Json)
    ensures IsStringOrNull(v) && AsOptionalString(v) == o
  {
    match o
    case Some(s) => JString(s)
    case None => JNull
  }

  function Encode(u: User): (j: Json)
    ensures j.JObject? && j.fields.Keys == {"id", "profile"}
    ensures j.fields["id"] == JString(u.id)
    ensures j.fields["profile"].JObject?
    ensures j.fields["profile"].fields.Keys == {"firstName", "lastName", "phone"}
  {
    JObject(map[
      "id" := JString(u.id),
      "profile" := JObject(map[
        "firstName" := EncodeOptionalString(u.firstName),
        "lastName" := EncodeOptionalString(u.lastName),
        "phone" := EncodeOptionalString(u.phone)])])
  }

  /** Every encoding decodes back to the same user. */
  lemma EncodeThenDecode(u: User)
    ensures IsUserJson(Encode(u))
    ensures Decode(Encode(u)) == Success(u)
  {
  }

  /** A JSON object holding exactly the keys the encoder writes. */
  predicate HasOnlyEncodedKeys(j: Json) {
    && j.JObject? && j.fields.Keys == {"id", "profile"}
    && j.fields["profile"].JObject?
    && j.fields["profile"].fields.Keys == {"firstName", "lastName", "phone"}
  }

  /** Conversely, a decodable object without extra keys is re-encoded to itself. */
  lemma DecodeThenEncode(j: Json)
    requires IsUserJson(j) && HasOnlyEncodedKeys(j)
    ensures Decode(j).Success? && Encode(Decode(j).value) == j
  {
    var u := Decode(j).value;
    var p := j.fields["profile"].fields;
    var p' := Encode(u).fields["profile"].fields;
    assert p'["firstName"] == p["firstName"];
    assert p'["lastName"] == p["lastName"];
    assert p'["phone"] == p["phone"];
    assert p' == p;
    assert Encode(u).fields == j.fields;
  }
}
