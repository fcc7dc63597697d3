/** The field extraction each lookup handler performs on its service's answer
    (`getAgifyAge`, `getGenderizeGender`, `getNationality` in main.go), with the
    HTTP call taken out: the handler receives the lookup result instead, `None`
    when the request or the decoding of the body failed. */
module Lookup {
  import opened Results
  import opened Json

  /** Path of the age service's field. */
  const AgePath: seq<Step> := [Key("age")]
  /** Path of the gender service's field. */
  const GenderPath: seq<Step> := [Key("gender")]
  /** Path of the nationality service's first country entry, and of its code. */
  const FirstCountryPath: seq<Step> := [Key("country"), Index(0)]
  const CountryIdPath: seq<Step> := [Key("country"), Index(0), Key("country_id")]

  /** Whether a document decodes into Go's `map[string]interface{}`: an object does,
      and `null` decodes to the nil map. Any other document makes `encoding/json` fail,
      and resty hands that failure back as the request's error. */
  predicate DecodesToMap(doc: Json)
  {
    doc.Object? || doc.Null?
  }

  /** What the handler holds after `SetResult(&response).Get(...)`: the decoded map, or
      `None` when the `err != nil` branch is taken, i.e. the transport failed or the
      body is not a map. */
  function ResponseMap(resp: Option<Json>): Option<Json>
  {
    match resp
    case Some(doc) => if DecodesToMap(doc) then Some(doc) else None
    case None => None
  }

  /** `getAgifyAge`: 0 on a failed lookup; otherwise `response["age"].(float64)`
      (0 when absent or not a number) truncated to an integer. */
  function AgifyAge(resp: Option<Json>): (age: int)
    ensures resp.None? || !DecodesToMap(resp.value) ==> age == 0
    ensures resp.Some? && DecodesToMap(resp.value) ==>
              age == TruncateToInt(NumberAt(resp.value, AgePath, 0.0))
  {
    match ResponseMap(resp)
    case None => 0
    case Some(response) =>
      TopLevelReadings(response, "age", 0.0, "");
      match Member(response, "age")
      case Number(x) => TruncateToInt(x)
      case _ => 0
  }

  /** `getGenderizeGender`: "" on a failed lookup; otherwise `response["gender"].(string)`,
      "" when absent or not a string. */
  function GenderizeGender(resp: Option<Json>): (gender: string)
    ensures resp.None? || !DecodesToMap(resp.value) ==> gender == ""
    ensures resp.Some? && DecodesToMap(resp.value) ==> gender == StringAt(resp.value, GenderPath, "")
  {
    match ResponseMap(resp)
    case None => ""
    case Some(response) =>
      TopLevelReadings(response, "gender", 0.0, "");
      match Member(response, "gender")
      case String(s) => s
      case _ => ""
  }

  /** The shape `getNationality`'s single-value type assertions and unchecked `[0]`
      demand: `"country"` is an array whose first element exists and is an object. */
  predicate HasFirstCountry(doc: Json)
  {
    Navigate(doc, FirstCountryPath).Some? && Navigate(doc, FirstCountryPath).value.Object?
  }

  /** `getNationality` as written: "" on a failed lookup; on a decoded map, a panic when
      `"country"` is missing or not an array, when the array is empty, or when its first
      element is not an object; otherwise that element's `"country_id"` when it is a
      string, else "". */
  function GetNationality(resp: Option<Json>): (r: Outcome<string>)
    ensures resp.None? || !DecodesToMap(resp.value) ==> r == Done("")
    ensures r.Panic? <==> resp.Some? && DecodesToMap(resp.value) && !HasFirstCountry(resp.value)
    ensures r.Done? && resp.Some? ==> r.value == StringAt(resp.value, CountryIdPath, "")
  {
    match ResponseMap(resp)
    case None => Done("")
    case Some(response) =>
      var country := Member(response, "country");
      if !country.Array? then Panic
      else if |country.elems| == 0 then Panic
      else if !country.elems[0].Object? then Panic
      else
        match Member(country.elems[0], "country_id")
        case String(s) => Done(s)
        case _ => Done("")
  }

  /** On a decoded map, each of the three panicking shapes of `getNationality`;
      a body that does not decode to a map never panics. */
  lemma NationalityPanicCases(doc: Json)
    ensures !DecodesToMap(doc) ==> GetNationality(Some(doc)) == Done("")
    ensures DecodesToMap(doc) && !Member(doc, "country").Array? ==> GetNationality(Some(doc)) == Panic
    ensures DecodesToMap(doc) && Member(doc, "country") == Array([]) ==> GetNationality(Some(doc)) == Panic
    ensures (DecodesToMap(doc) && Member(doc, "country").Array? && |Member(doc, "country").elems| > 0 &&
             !Member(doc, "country").elems[0].Object?) ==> GetNationality(Some(doc)) == Panic
  {
  }

  /** The country code is read from the first country entry: reading the whole path
      `"country"[0]["country_id"]` is reading `"country_id"` of what `"country"[0]` reaches. */
  lemma CountryIdOfFirstCountry(doc: Json)
    ensures StringAt(doc, CountryIdPath, "") ==
            if Navigate(doc, FirstCountryPath).Some?
            then StringAt(Navigate(doc, FirstCountryPath).value, [Key("country_id")], "")
            else ""
  {
    assert CountryIdPath == FirstCountryPath + [Key("country_id")];
    NavigateConcat(doc, FirstCountryPath, [Key("country_id")]);
  }

  /** The default-on-malformed nationality extraction: every failed step of the
      path `"country"[0]["country_id"]` gives "". */
  function NationalityOrDefault(resp: Option<Json>): (nationality: string)
    ensures resp.None? ==> nationality == ""
    ensures resp.Some? && !HasFirstCountry(resp.value) ==> nationality == ""
  {
    match resp
    case None => ""
    case Some(doc) => StringAt(doc, CountryIdPath, "")
  }

  /** Whenever `getNationality` does not panic, it agrees with the default-on-malformed
      extraction; where it panics, the latter gives "". */
  lemma NationalityAgreesUnlessPanic(resp: Option<Json>)
    ensures GetNationality(resp).Done? ==> GetNationality(resp).value == NationalityOrDefault(resp)
    ensures GetNationality(resp).Panic? ==> NationalityOrDefault(resp) == ""
  {
  }

  /** An empty `"country"` array, the answer for a name the service does not know,
      panics in `getNationality`; the default-on-malformed extraction yields "". */
  lemma EmptyCountryPanics()
    ensures GetNationality(Some(Object(map["country" := Array([])]))) == Panic
    ensures NationalityOrDefault(Some(Object(map["country" := Array([])]))) == ""
  {
  }
}
