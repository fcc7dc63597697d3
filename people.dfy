/** The person resource (`createPerson`, `getPerson`, `updatePerson`, `deletePerson`)
    over a store of records keyed by id. The handlers are first specified as functions
    on a store value; the class `PersonService` holds the store and carries them out
    step by step, as the Go handlers do against the database. */
module People {
  import opened Results
  import opened Enrichment

  /** The HTTP statuses the handlers answer with; `Aborted` is a handler that panicked,
      whose connection net/http drops without a response. */
  datatype Status = OK | Created | BadRequest | NotFound | Aborted

  datatype Body =
    | Record(id: int, person: Person)
    | Error(message: string)
    | Message(text: string)
    | NoReply

  datatype Response = Response(status: Status, body: Body)

  const InvalidId := "Invalid person ID"
  const PersonNotFound := "Person not found"
  const InvalidPayload := "Invalid request payload"
  const PersonDeleted := "Person deleted successfully"

  /** The table of persons, and the next id the database will hand out. */
  datatype Store = Store(records: map<int, Person>, nextId: int)

  /** Ids are positive and all below the next one to be handed out. */
  ghost predicate WellFormed(st: Store)
  {
    1 <= st.nextId && forall id :: id in st.records ==> 1 <= id < st.nextId
  }

  /** Every stored record carries the derived fields its own current name enriches to. */
  ghost predicate DerivedCurrent(svc: Lookups, st: Store)
  {
    forall id :: id in st.records ==> GetEnrichedData(svc, st.records[id].name) == Done(DerivedOf(st.records[id]))
  }

  /** `getPerson`: a malformed id is a bad request, an absent one is not found,
      otherwise the stored record as it is. */
  function Get(st: Store, id: Option<int>): (r: Response)
    ensures r.status == OK <==> id.Some? && id.value in st.records
    ensures r.status == OK ==> r.body == Record(id.value, st.records[id.value])
    ensures id.None? ==> r == Response(BadRequest, Error(InvalidId))
    ensures id.Some? && id.value !in st.records ==> r == Response(NotFound, Error(PersonNotFound))
  {
    match id
    case None => Response(BadRequest, Error(InvalidId))
    case Some(i) =>
      if i !in st.records then Response(NotFound, Error(PersonNotFound))
      else Response(OK, Record(i, st.records[i]))
  }

  /** `createPerson`: a payload that does not decode is a bad request; otherwise the
      payload is enriched and stored under a new id. Nothing is written unless the
      answer is `Created`. */
  function Create(svc: Lookups, st: Store, payload: Option<Person>): (r: (Response, Store))
    ensures r.0.status != Created ==> r.1 == st
    ensures r.0.status == Created <==> payload.Some? && EnrichPersonData(svc, payload.value).Done?
    ensures payload.None? ==> r.0 == Response(BadRequest, Error(InvalidPayload))
    ensures payload.Some? && r.0.status != Created ==> r.0 == Response(Aborted, NoReply)
  {
    match payload
    case None => (Response(BadRequest, Error(InvalidPayload)), st)
    case Some(p) =>
      match EnrichPersonData(svc, p)
      case Panic => (Response(Aborted, NoReply), st)
      case Done(q) =>
        (Response(Created, Record(st.nextId, q)), Store(st.records[st.nextId := q], st.nextId + 1))
  }

  /** `updatePerson`: the id is checked first (malformed, then absent), the payload
      only after; the stored record takes the payload's user fields and is enriched
      anew. Nothing is written unless the answer is `OK`, and no id appears or vanishes. */
  function Update(svc: Lookups, st: Store, id: Option<int>, payload: Option<Person>): (r: (Response, Store))
    ensures r.0.status != OK ==> r.1 == st
    ensures r.1.records.Keys == st.records.Keys && r.1.nextId == st.nextId
    ensures r.0.status == OK ==> id.Some? && payload.Some? && r.0.body.Record? && r.0.body.id == id.value &&
                                 r.1.records == st.records[id.value := r.0.body.person]
    ensures r.0.status == OK <==> id.Some? && id.value in st.records && payload.Some? &&
                                  GetEnrichedData(svc, payload.value.name).Done?
    ensures id.Some? && id.value in st.records && payload.Some? && r.0.status != OK ==>
              r == (Response(Aborted, NoReply), st)
  {
    match id
    case None => (Response(BadRequest, Error(InvalidId)), st)
    case Some(i) =>
      if i !in st.records then (Response(NotFound, Error(PersonNotFound)), st)
      else match payload
        case None => (Response(BadRequest, Error(InvalidPayload)), st)
        case Some(p) =>
          var rewritten := st.records[i].(name := p.name, surname := p.surname, patronymic := p.patronymic);
          match EnrichPersonData(svc, rewritten)
          case Panic => (Response(Aborted, NoReply), st)
          case Done(q) => (Response(OK, Record(i, q)), st.(records := st.records[i := q]))
  }

  /** `deletePerson`: a malformed id is a bad request, an absent one is not found,
      otherwise that one record goes. */
  function Delete(st: Store, id: Option<int>): (r: (Response, Store))
    ensures r.0.status != OK ==> r.1 == st
    ensures r.0.status == OK <==> id.Some? && id.value in st.records
    ensures r.1.records.Keys <= st.records.Keys && r.1.nextId == st.nextId
    ensures id.None? ==> r.0 == Response(BadRequest, Error(InvalidId))
    ensures id.Some? && id.value !in st.records ==> r.0 == Response(NotFound, Error(PersonNotFound))
    ensures r.0.status == OK ==> r.0 == Response(OK, Message(PersonDeleted))
  {
    match id
    case None => (Response(BadRequest, Error(InvalidId)), st)
    case Some(i) =>
      if i !in st.records then (Response(NotFound, Error(PersonNotFound)), st)
      else (Response(OK, Message(PersonDeleted)), st.(records := st.records - {i}))
  }

  /** A successful create stores the enrichment of the payload's name under an id not
      used before, keeps the payload's user fields, overwrites whatever derived values
      the payload supplied, and touches no other record. */
  lemma CreateStoresEnrichment(svc: Lookups, st: Store, p: Person)
    requires WellFormed(st)
    requires EnrichPersonData(svc, p).Done?
    ensures var (resp, st') := Create(svc, st, Some(p));
            && resp.status == Created && resp.body.id == st.nextId
            && st.nextId !in st.records
            && st'.records == st.records[st.nextId := resp.body.person]
            && SameUserFields(resp.body.person, p)
            && DerivedOf(resp.body.person) == GetEnrichedData(svc, p.name).value
            && WellFormed(st')
  {
  }

  /** Reading back a created record by the id the create answered with gives the
      same record. */
  lemma CreateThenGet(svc: Lookups, st: Store, payload: Option<Person>)
    ensures var (resp, st') := Create(svc, st, payload);
            resp.status == Created ==> Get(st', Some(resp.body.id)) == Response(OK, resp.body)
  {
  }

  /** Update checks the id before the payload: a malformed id is a bad request and an
      absent id is not found whatever the payload, and a bad payload is reported only
      for an existing record. */
  lemma UpdateCheckOrder(svc: Lookups, st: Store, id: Option<int>, payload: Option<Person>)
    ensures id.None? ==> Update(svc, st, id, payload) == (Response(BadRequest, Error(InvalidId)), st)
    ensures id.Some? && id.value !in st.records ==>
              Update(svc, st, id, payload) == (Response(NotFound, Error(PersonNotFound)), st)
    ensures id.Some? && id.value in st.records && payload.None? ==>
              Update(svc, st, id, payload) == (Response(BadRequest, Error(InvalidPayload)), st)
  {
  }

  /** A successful update takes name, surname and patronymic from the payload and
      always recomputes the derived fields from the new name, whatever the record or
      the payload held before; the id stays and no other record changes. */
  lemma UpdateRecomputes(svc: Lookups, st: Store, i: int, p: Person)
    requires i in st.records
    requires EnrichPersonData(svc, p).Done?
    ensures var (resp, st') := Update(svc, st, Some(i), Some(p));
            && resp.status == OK && resp.body.id == i
            && st'.records == st.records[i := resp.body.person]
            && SameUserFields(resp.body.person, p)
            && DerivedOf(resp.body.person) == GetEnrichedData(svc, p.name).value
  {
  }

  /** A successful delete removes exactly the given id. */
  lemma DeleteRemovesExactly(st: Store, i: int)
    requires i in st.records
    ensures var (resp, st') := Delete(st, Some(i));
            && resp == Response(OK, Message(PersonDeleted))
            && st'.records.Keys == st.records.Keys - {i}
            && forall j :: j in st'.records ==> st'.records[j] == st.records[j]
  {
  }

  /** A request as the router hands it over: the id already parsed (`None` when
      `strconv.Atoi` fails) and the body already decoded (`None` when decoding fails). */
  datatype Request =
    | CreateReq(payload: Option<Person>)
    | GetReq(id: Option<int>)
    | UpdateReq(id: Option<int>, payload: Option<Person>)
    | DeleteReq(id: Option<int>)

  function Handle(svc: Lookups, st: Store, req: Request): (Response, Store)
  {
    match req
    case CreateReq(payload) => Create(svc, st, payload)
    case GetReq(id) => (Get(st, id), st)
    case UpdateReq(id, payload) => Update(svc, st, id, payload)
    case DeleteReq(id) => Delete(st, id)
  }

  /** The store after a sequence of requests, handled one after another. */
  function Run(svc: Lookups, st: Store, reqs: seq<Request>): Store
    decreases |reqs|
  {
    if reqs == [] then st else Run(svc, Handle(svc, st, reqs[0]).1, reqs[1..])
  }

  /** One request keeps the store well formed, never lowers the next id and never
      brings back an id that is gone. */
  lemma HandleKeepsIds(svc: Lookups, st: Store, req: Request)
    requires WellFormed(st)
    ensures WellFormed(Handle(svc, st, req).1)
    ensures st.nextId <= Handle(svc, st, req).1.nextId
    ensures forall id :: id < st.nextId && id !in st.records ==> id !in Handle(svc, st, req).1.records
  {
  }

  /** One request keeps every stored record's derived fields those of its current name. */
  lemma HandleKeepsDerivedCurrent(svc: Lookups, st: Store, req: Request)
    requires DerivedCurrent(svc, st)
    ensures DerivedCurrent(svc, Handle(svc, st, req).1)
  {
  }

  /** With services that answer the same way throughout, every record of the store
      carries, after any sequence of requests, the derived fields of its current name. */
  lemma {:induction false} RunKeepsDerivedCurrent(svc: Lookups, st: Store, reqs: seq<Request>)
    requires DerivedCurrent(svc, st)
    ensures DerivedCurrent(svc, Run(svc, st, reqs))
    decreases |reqs|
  {
    if reqs != [] {
      HandleKeepsDerivedCurrent(svc, st, reqs[0]);
      RunKeepsDerivedCurrent(svc, Handle(svc, st, reqs[0]).1, reqs[1..]);
    }
  }

  /** Any sequence of requests keeps the store well formed, and an id that was handed
      out and is gone (deleted) never comes back: creates take fresh ids and updates
      of an absent id are refused. */
  lemma {:induction false} RunNeverReusesIds(svc: Lookups, st: Store, reqs: seq<Request>, id: int)
    requires WellFormed(st)
    requires id < st.nextId && id !in st.records
    ensures WellFormed(Run(svc, st, reqs))
    ensures id !in Run(svc, st, reqs).records
    decreases |reqs|
  {
    if reqs != [] {
      HandleKeepsIds(svc, st, reqs[0]);
      RunNeverReusesIds(svc, Handle(svc, st, reqs[0]).1, reqs[1..], id);
    }
  }

  /** The service: the configured lookups, the table of persons and the database's
      id counter. Each method carries out one handler against the fields. */
  class PersonService {
    const lookups: Lookups
    var records: map<int, Person>
    var nextId: int

    function State(): Store
      reads this
    {
      Store(records, nextId)
    }

    ghost predicate Valid()
      reads this
    {
      WellFormed(State())
    }

    /** Attaches to the table as the database holds it: its rows and its id sequence
        (a freshly migrated table is `Store(map[], 1)`). */
    constructor (lookups: Lookups, table: Store)
      requires WellFormed(table)
      ensures Valid() && this.lookups == lookups
      ensures State() == table
    {
      this.lookups := lookups;
      records := table.records;
      nextId := table.nextId;
    }

    method GetPerson(id: Option<int>) returns (resp: Response)
      ensures resp == Get(State(), id)
      ensures resp.status == OK ==> resp.body == Record(id.value, records[id.value])
    {
      if id.None? {
        return Response(BadRequest, Error(InvalidId));
      }
      var personId := id.value;
      if personId !in records {
        return Response(NotFound, Error(PersonNotFound));
      }
      resp := Response(OK, Record(personId, records[personId]));
    }

    method CreatePerson(payload: Option<Person>) returns (resp: Response)
      requires Valid()
      modifies this
      ensures Valid()
      ensures (resp, State()) == Create(lookups, old(State()), payload)
    {
      if payload.None? {
        return Response(BadRequest, Error(InvalidPayload));
      }
      var enriched := EnrichPersonData(lookups, payload.value);
      if enriched.Panic? {
        return Response(Aborted, NoReply);
      }
      var person := enriched.value;
      var personId := nextId;
      records := records[personId := person];
      nextId := nextId + 1;
      resp := Response(Created, Record(personId, person));
    }

    method UpdatePerson(id: Option<int>, payload: Option<Person>) returns (resp: Response)
      requires Valid()
      modifies this
      ensures Valid()
      ensures (resp, State()) == Update(lookups, old(State()), id, payload)
    {
      if id.None? {
        return Response(BadRequest, Error(InvalidId));
      }
      var personId := id.value;
      if personId !in records {
        return Response(NotFound, Error(PersonNotFound));
      }
      var existing := records[personId];
      if payload.None? {
        return Response(BadRequest, Error(InvalidPayload));
      }
      var updated := payload.value;
      existing := existing.(name := updated.name);
      existing := existing.(surname := updated.surname);
      existing := existing.(patronymic := updated.patronymic);
      var enriched := EnrichPersonData(lookups, existing);
      if enriched.Panic? {
        return Response(Aborted, NoReply);
      }
      existing := enriched.value;
      records := records[personId := existing];
      resp := Response(OK, Record(personId, existing));
    }

    method DeletePerson(id: Option<int>) returns (resp: Response)
      requires Valid()
      modifies this
      ensures Valid()
      ensures (resp, State()) == Delete(old(State()), id)
    {
      if id.None? {
        return Response(BadRequest, Error(InvalidId));
      }
      var personId := id.value;
      if personId !in records {
        return Response(NotFound, Error(PersonNotFound));
      }
      records := records - {personId};
      resp := Response(OK, Message(PersonDeleted));
    }
  }
}
