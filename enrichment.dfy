/** The `Person` record and its enrichment (`getEnrichedData`, `enrichPersonData`):
    three lookups by first name, each reduced to one derived field. */
module Enrichment {
  import opened Results
  import opened Json
  import opened Lookup

  /** A person's columns besides gorm's bookkeeping (id and timestamps):
      three user-supplied fields and three derived ones. */
  datatype Person = Person(
    name: string,
    surname: string,
    patronymic: string,
    age: int,
    gender: string,
    nationality: string)

  /** The derived triple (age, gender, nationality). */
  datatype Derived = Derived(age: int, gender: string, nationality: string)

  function DerivedOf(p: Person): Derived
  {
    Derived(p.age, p.gender, p.nationality)
  }

  /** Two records agree on the fields a client supplies. */
  predicate SameUserFields(p: Person, q: Person)
  {
    p.name == q.name && p.surname == q.surname && p.patronymic == q.patronymic
  }

  /** What the three configured services answer for a name: a decoded document,
      or `None` when the request or the decoding failed. */
  datatype Lookups = Lookups(
    agify: string -> Option<Json>,
    genderize: string -> Option<Json>,
    nationalize: string -> Option<Json>)

  /** `getEnrichedData`: the three lookups in turn, each reduced by its own extractor.
      Only the nationality extraction can panic, and its panic aborts the whole call. */
  function GetEnrichedData(svc: Lookups, name: string): (r: Outcome<Derived>)
    ensures r.Panic? <==> GetNationality(svc.nationalize(name)).Panic?
    ensures r.Done? ==> r.value.age == AgifyAge(svc.agify(name))
    ensures r.Done? ==> r.value.gender == GenderizeGender(svc.genderize(name))
    ensures r.Done? ==> r.value.nationality == NationalityOrDefault(svc.nationalize(name))
  {
    var age := AgifyAge(svc.agify(name));
    var gender := GenderizeGender(svc.genderize(name));
    NationalityAgreesUnlessPanic(svc.nationalize(name));
    match GetNationality(svc.nationalize(name))
    case Panic => Panic
    case Done(nationality) => Done(Derived(age, gender, nationality))
  }

  /** `enrichPersonData`: overwrites exactly the three derived fields with the
      enrichment of the record's own name; on a panic nothing is assigned. */
  function EnrichPersonData(svc: Lookups, p: Person): (r: Outcome<Person>)
    ensures r.Done? <==> GetEnrichedData(svc, p.name).Done?
    ensures r.Done? ==> SameUserFields(r.value, p)
    ensures r.Done? ==> DerivedOf(r.value) == GetEnrichedData(svc, p.name).value
  {
    match GetEnrichedData(svc, p.name)
    case Panic => Panic
    case Done(d) => Done(p.(age := d.age, gender := d.gender, nationality := d.nationality))
  }

  /** A failed lookup degrades only its own field to the default (0, "", ""); a failed
      nationality lookup never panics, whatever the other two services answered. */
  lemma FailedLookupsDefault(svc: Lookups, name: string)
    ensures svc.nationalize(name).None? ==> GetEnrichedData(svc, name).Done?
    ensures GetEnrichedData(svc, name).Done? && svc.agify(name).None? ==>
              GetEnrichedData(svc, name).value.age == 0
    ensures GetEnrichedData(svc, name).Done? && svc.genderize(name).None? ==>
              GetEnrichedData(svc, name).value.gender == ""
    ensures GetEnrichedData(svc, name).Done? && svc.nationalize(name).None? ==>
              GetEnrichedData(svc, name).value.nationality == ""
  {
  }

  /** Each derived field depends on its own service's answer only: two configurations
      that agree on one service's answer agree on that field. */
  lemma FieldsIndependent(svc1: Lookups, svc2: Lookups, name: string)
    requires GetEnrichedData(svc1, name).Done? && GetEnrichedData(svc2, name).Done?
    ensures svc1.agify(name) == svc2.agify(name) ==>
              GetEnrichedData(svc1, name).value.age == GetEnrichedData(svc2, name).value.age
    ensures svc1.genderize(name) == svc2.genderize(name) ==>
              GetEnrichedData(svc1, name).value.gender == GetEnrichedData(svc2, name).value.gender
    ensures svc1.nationalize(name) == svc2.nationalize(name) ==>
              GetEnrichedData(svc1, name).value.nationality == GetEnrichedData(svc2, name).value.nationality
  {
  }

  /** The derived triple is a function of the name alone: surname, patronymic and any
      derived values already present play no part. */
  lemma DerivedDependsOnlyOnName(svc: Lookups, p: Person, q: Person)
    requires p.name == q.name
    ensures EnrichPersonData(svc, p).Done? == EnrichPersonData(svc, q).Done?
    ensures EnrichPersonData(svc, p).Done? ==>
              DerivedOf(EnrichPersonData(svc, p).value) == DerivedOf(EnrichPersonData(svc, q).value)
  {
  }

  /** Enriching an enriched record changes nothing. */
  lemma EnrichIdempotent(svc: Lookups, p: Person)
    requires EnrichPersonData(svc, p).Done?
    ensures EnrichPersonData(svc, EnrichPersonData(svc, p).value) == EnrichPersonData(svc, p)
  {
  }

  /** Services answering `{"age":42}`, `{"gender":"male"}` and
      `{"country":[{"country_id":"US"}]}` for "John". */
  function JohnLookups(): Lookups
  {
    Lookups(
      n => if n == "John" then Some(Object(map["age" := Number(42.0)])) else None,
      n => if n == "John" then Some(Object(map["gender" := String("male")])) else None,
      n => if n == "John" then Some(Object(map["country" := Array([Object(map["country_id" := String("US")])])]))
           else None)
  }

  lemma JohnExample()
    ensures EnrichPersonData(JohnLookups(), Person("John", "Doe", "", 0, "", "")) ==
            Done(Person("John", "Doe", "", 42, "male", "US"))
  {
  }
}
