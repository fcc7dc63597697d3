# Person enrichment service — a Dafny model

This project models the core of a small Go HTTP service that keeps "Person"
records: create, read, update and delete by id. On create and on update the
service enriches each record by first name. It asks three inference services
(age, gender, nationality) and reads one field out of each untyped JSON answer.

The model has five modules:

- `Results` (results.dfy): `Option`, and `Outcome`, which is either a value or a Go panic.
- `Json` (json.dfy): decoded JSON values and Go's `map[string]interface{}` index. It also
  has a step-by-step path navigation (`Navigate`) that stops at the first step the document
  does not fit, plus Go's `int(float64)` truncation.
- `Lookup` (lookup.dfy): the three extractors as main.go writes them. It also has a total
  nationality extraction that defaults on any malformed shape, used as a reference.
- `Enrichment` (enrichment.dfy): `Person` and the derived triple. `getEnrichedData` runs
  the three extractors. `enrichPersonData` overwrites the three derived fields.
- `People` (people.dfy): the four handlers, written as functions on a store value (a map
  from id to record, plus the next id the database hands out). It also has a request trace
  with the invariants the handlers keep. The class `PersonService` holds the store in
  fields, and each of its methods carries out one handler step by step. Each method's
  `ensures` ties the new fields and the response to the matching store function.

Lookups are inputs. A `Lookups` value gives each service's answer for a name:
either a decoded document or `None` when the HTTP call or the decoding failed.
The id in a path has already been parsed (`None` when `strconv.Atoi` fails), and the
request body has already been decoded (`None` when `json.Decoder` fails).

main.go:163 does not degrade a malformed nationality answer to `""`. It uses
single-value type assertions and an unchecked `[0]`. On a decoded answer it therefore
panics in three cases: `"country"` is missing (or `null`) or not an array, the array is
empty (the answer for an unknown name), or its first element is not an object.
A panic aborts the request before `db.Create`/`db.Save`, so the store is left unchanged
and no response is written (status `Aborted`). `Lookup.NationalityOrDefault` is the
degrading reading, kept beside it for comparison. `Lookup.NationalityAgreesUnlessPanic`
proves that the two agree wherever the code does not panic.

Reading conventions taken from Go:

- A missing key and a JSON `null` are the same nil interface.
- resty decodes each answer into a `map[string]interface{}`. An object decodes. A `null`
  body decodes to the nil map, on which every key is missing. Any other document (an
  array, a string, a number, a boolean) fails to decode, and resty returns that failure as
  the request's error. So it takes the same `err != nil` branch as a transport failure,
  and the field gets its default (`Lookup.ResponseMap`).
- The unread body of a non-2xx answer also leaves the nil map. In the model it is
  represented by a `null` document.

## Model

| member | source | states |
|---|---|---|
| `Json.Member` | main.go:135 | Go's `m[key]` is the value a key step of the path reader reaches, and nil (`Null`) where that step does not fit: a missing key, or the nil map |
| `Json.TruncateToInt` | main.go:136 | `int(x)` truncates toward zero: for x ≥ 0 the result lies in (x−1, x], and for x < 0 in [x, x+1) |
| `Json.NavigateConcat` | main.go:163 | following a chained path is following its prefix, then the rest; a failed prefix fails the whole path |
| `Json.TopLevelReadings` | main.go:135-136 | on a one-key path, the path reader and Go's checked assertion `m[key].(float64)` / `m[key].(string)` read the same value and fall back to the default in the same cases |
| `Lookup.AgifyAge` | main.go:125-137 | a failed lookup or a body that does not decode to a map gives 0; otherwise the result is the top-level `"age"` number truncated, or 0 when that field is absent, null or not a number |
| `Lookup.GenderizeGender` | main.go:139-151 | a failed lookup or a body that does not decode to a map gives `""`; otherwise the result is the top-level `"gender"` string, or `""` when absent or not a string |
| `Lookup.GetNationality` | main.go:153-165 | a failed lookup or a body that does not decode to a map gives `""`; on a decoded map it panics exactly when `"country"[0]` is not an object reached through an array; otherwise the result is `"country_id"` when it is a string, and `""` when not |
| `Lookup.NationalityPanicCases` | main.go:158-163 | a body that does not decode to a map gives `""`; on a decoded map, each of the three shapes panics: `"country"` not an array, an empty array, a first element that is not an object |
| `Lookup.CountryIdOfFirstCountry` | main.go:163 | reading `"country"[0]["country_id"]` is reading `"country_id"` of what `"country"[0]` reaches, or `""` when that prefix fails |
| `Lookup.NationalityOrDefault` | main.go:158-163 | the degrading extraction gives `""` for a failed lookup and for every shape on which the code panics |
| `Lookup.NationalityAgreesUnlessPanic` | main.go:163 | where `getNationality` does not panic, it equals the degrading extraction; where it panics, the latter gives `""` |
| `Lookup.EmptyCountryPanics` | main.go:163 | the answer `{"country":[]}` panics in the code and gives `""` in the degrading extraction |
| `Enrichment.GetEnrichedData` | main.go:117-123 | the triple panics exactly when the nationality extraction panics; otherwise each field is its own extractor applied to its own service's answer |
| `Enrichment.EnrichPersonData` | main.go:109-115 | succeeds exactly when the enrichment of the record's name does; name, surname and patronymic are kept, and the derived fields become the enrichment of the name |
| `Enrichment.FailedLookupsDefault` | main.go:130-133 | a failed age lookup gives age 0 and a failed gender lookup gives `""`; a failed nationality lookup gives `""` and never panics |
| `Enrichment.FieldsIndependent` | main.go:117-123 | two configurations that agree on one service's answer give the same value for that field, whatever the other services answer |
| `Enrichment.DerivedDependsOnlyOnName` | main.go:109-114 | records with the same name get the same derived triple and the same panic behaviour, whatever their surname, patronymic or previous derived values |
| `Enrichment.EnrichIdempotent` | main.go:109-115 | enriching an enriched record changes nothing |
| `Enrichment.JohnExample` | main.go:109-165 | services answering age 42, gender "male" and country "US" for "John" turn John Doe into a record with age 42, gender "male" and nationality "US" |
| `People.Get` | main.go:76-91 | OK exactly when the id parses and is stored, and then the body is the stored record unchanged; an unparsable id is a bad request and an absent id is not found |
| `People.Create` | main.go:93-107 | nothing is written unless the answer is Created; Created exactly when the payload decodes and enrichment does not panic; an undecodable payload is a bad request |
| `People.Update` | main.go:167-198 | OK exactly when the id parses and is stored, the payload decodes and enrichment of the payload's name does not panic; a panic answers Aborted and writes nothing; nothing is written unless the answer is OK; no id appears or vanishes; on OK only the given id's record is replaced |
| `People.Delete` | main.go:200-217 | an unparsable id is a bad request and an absent id is not found, both without removing anything; OK (with the deletion message) exactly when the id parses and is stored; no id is added |
| `People.CreateStoresEnrichment` | main.go:96-106 | a successful create uses a fresh id and keeps the payload's user fields; the derived fields are the enrichment of the payload's name, overriding any the payload supplied; no other record changes |
| `People.CreateThenGet` | main.go:76-106 | reading back by the id a create answered with returns the created record |
| `People.UpdateCheckOrder` | main.go:169-186 | an unparsable id is a bad request and an absent id is not found, whatever the payload; a bad payload is reported only for a stored id; all three leave the store as it was |
| `People.UpdateRecomputes` | main.go:189-197 | a successful update takes the user fields from the payload; it always recomputes the derived fields from the new name; the id stays and no other record changes |
| `People.DeleteRemovesExactly` | main.go:208-216 | a successful delete removes exactly that id; every other record is kept unchanged |
| `People.HandleKeepsIds` | main.go:93-216 | every handler keeps ids positive and below the counter; the counter never decreases; a vanished id never reappears |
| `People.HandleKeepsDerivedCurrent` | main.go:93-198 | every handler keeps each stored record's derived fields equal to the enrichment of its current name |
| `People.RunKeepsDerivedCurrent` | main.go:93-198 | after any sequence of requests, each stored record's derived fields are the enrichment of its current name |
| `People.RunNeverReusesIds` | main.go:104 | after any sequence of requests the store is well formed, and an id that was handed out and then deleted is still absent |
| `People.PersonService.constructor` | main.go:57-68 | the service attaches to the table as the database holds it: any well-formed set of rows and id counter (an empty table with counter 1 when freshly migrated) |
| `People.PersonService.GetPerson` | main.go:76-91 | the response is `Get` on the current fields; on OK the body is the stored record |
| `People.PersonService.CreatePerson` | main.go:93-107 | the response and the new fields are those of `Create` on the old fields, and the store stays well formed |
| `People.PersonService.UpdatePerson` | main.go:167-198 | the response and the new fields are those of `Update` on the old fields, after rewriting the three user fields one by one |
| `People.PersonService.DeletePerson` | main.go:200-217 | the response and the new fields are those of `Delete` on the old fields |

## Left out

- HTTP routing, response encoding and `respondJSON`/`respondError` (main.go:32-55, main.go:219-227): I/O. A response is modelled as a status and a body value.
- `getPeople` (main.go:70-74): it returns every row in the database's order, and the model does not represent row order.
- The resty client and URL building (main.go:127-129, 141-143, 155-157): network calls. Each service's answer is an input (`Lookups`), and the model assumes it is the same for the same name.
- `strconv.Atoi` and `json.Decoder`: their results are inputs (`Option<int>`, `Option<Person>`).
- Environment and `.env` loading, the port default, `initDB`'s AutoMigrate and its early `defer db.Close()` (main.go:33-36, 50-53, 57-68): process I/O and the database library.
- gorm: the store is a map. Soft delete through `DeletedAt` is modelled as removal. An id in a create payload is ignored, and the store always assigns the next id. Timestamps (`CreatedAt`, `UpdatedAt`) are not modelled.
- Persistence failures returned by `db.Create`/`db.Save`/`db.Delete`, which the source ignores: the database is assumed to accept every write.
- `Json.TruncateToInt`: JSON numbers are exact reals, not float64. NaN, infinities, values beyond the int range and rounding in decoding are not modelled. Negative ages are kept as the code computes them.
- `log.Printf` and net/http's panic recovery: a panic is modelled only as "no write, no response" (`Aborted`).
- Concurrency between requests: handlers run one at a time.
