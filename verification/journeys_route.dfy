/** The collection route of the journey API: `POST` saves a new journey for
    the signed-in user, `GET` lists that user's journeys, newest first. Each
    handler is a pure function of its abstract inputs: the session lookup,
    the parsed body, and the database (the stored documents, plus the id and
    time the database assigns on insert). */
module JourneysRoute {
  import opened Wrappers
  import opened Http
  import opened JourneyModel

  datatype User = User(id: UserId)

  /** A session as the auth library returns it; it may lack a user. */
  datatype Session = Session(user: Option<User>)

  /** The JSON body of a `POST`: only `locations` is read. */
  datatype SaveBody = SaveBody(locations: Field<Location>)

  /** What the database assigns when it inserts a document. */
  datatype Stamp = Stamp(id: string, at: Timestamp)

  datatype Reply =
    | ErrorReply(message: string)
    | DocReply(journey: Journey)
    | ListReply(journeys: seq<Journey>)

  /** A `POST`'s response and the stored documents after it. */
  datatype SaveOutcome = SaveOutcome(response: Response<Reply>, store: seq<Journey>)

  const MsgUnauthorized: string := "Unauthorized"
  const MsgInvalidLocations: string := "Invalid locations data"
  const MsgInternal: string := "Internal Server Error"

  /** The signed-in user's id, when there is a session that has a user. */
  function Caller(session: Option<Session>): (r: Option<UserId>)
    ensures r.Some? <==> session.Some? && session.value.user.Some?
    ensures r.Some? ==> r.value == session.value.user.value.id
  {
    match session
    case None => None
    case Some(Session(user)) =>
      match user
      case None => None
      case Some(u) => Some(u.id)
  }

  function Unauthorized(): Response<Reply> {
    Response(StatusUnauthorized, ErrorReply(MsgUnauthorized))
  }

  function InternalError(): Response<Reply> {
    Response(StatusServerError, ErrorReply(MsgInternal))
  }

  /** `POST`: authenticate, then validate the body, then insert a journey
      owned by the caller under the default name. `session` and `body` are
      the awaited session lookup and body parse; `insert` is what the
      connect-and-create step yields. */
  function SaveJourney(
    session: Step<Option<Session>>,
    body: Step<SaveBody>,
    store: seq<Journey>,
    insert: Step<Stamp>): (r: SaveOutcome)
    // Authentication comes first: without a user nothing else is looked at.
    ensures session.Done? && Caller(session.value).None? ==>
      r.response == Unauthorized() && r.store == store
    // Then the body: `locations` must be an array, empty or not.
    ensures session.Done? && Caller(session.value).Some? && body.Done? && !body.value.locations.Array? ==>
      r.response == Response(StatusBadRequest, ErrorReply(MsgInvalidLocations)) && r.store == store
    // Every exception becomes a 500 and creates nothing.
    ensures session.Threw? ==> r.response == InternalError() && r.store == store
    ensures session.Done? && Caller(session.value).Some? && body.Threw? ==>
      r.response == InternalError() && r.store == store
    ensures session.Done? && Caller(session.value).Some? && body.Done? && body.value.locations.Array? && insert.Threw? ==>
      r.response == InternalError() && r.store == store
    // A journey is created exactly when the response is a 200 ...
    ensures r.response.status == StatusOk <==>
      session.Done? && Caller(session.value).Some? && body.Done? && body.value.locations.Array? && insert.Done?
    ensures r.response.status != StatusOk ==> r.store == store
    // ... and it is the caller's, under the default name, holding the given stops.
    ensures r.response.status == StatusOk ==>
      && r.response.body.DocReply?
      && r.store == store + [r.response.body.journey]
      && r.response.body.journey.userId == Caller(session.value).value
      && r.response.body.journey.name == DefaultName
      && r.response.body.journey.locations == body.value.locations.items
      && r.response.body.journey.id == insert.value.id
      && r.response.body.journey.createdAt == insert.value.at
      && r.response.body.journey.updatedAt == insert.value.at
  {
    match session
    case Threw => SaveOutcome(InternalError(), store)
    case Done(s) =>
      match Caller(s)
      case None => SaveOutcome(Unauthorized(), store)
      case Some(owner) =>
        match body
        case Threw => SaveOutcome(InternalError(), store)
        case Done(b) =>
          if !b.locations.Array? then
            SaveOutcome(Response(StatusBadRequest, ErrorReply(MsgInvalidLocations)), store)
          else
            match insert
            case Threw => SaveOutcome(InternalError(), store)
            case Done(stamp) =>
              var created := Create(Draft(Some(owner), Some(DefaultName), b.locations.items), stamp.id, stamp.at);
              var j := created.value;
              SaveOutcome(Response(StatusOk, DocReply(j)), store + [j])
  }

  /** Without a signed-in user the body is never read: any two bodies and any
      two database behaviours give the same 401 and leave the store alone. */
  lemma AuthBeforeValidation(
    s: Option<Session>, b1: Step<SaveBody>, b2: Step<SaveBody>,
    store: seq<Journey>, i1: Step<Stamp>, i2: Step<Stamp>)
    requires Caller(s).None?
    ensures SaveJourney(Done(s), b1, store, i1) == SaveJourney(Done(s), b2, store, i2)
    ensures SaveJourney(Done(s), b1, store, i1).response.status == StatusUnauthorized
  {
  }

  /** The list is ordered by creation time, newest first. */
  predicate NewestFirst(js: seq<Journey>) {
    forall i, k :: 0 <= i < k < |js| ==> js[i].createdAt >= js[k].createdAt
  }

  /** The journeys of `store` owned by `owner`, in store order: the query
      filter `{ userId: owner }`. */
  function OwnedBy(store: seq<Journey>, owner: UserId): (r: seq<Journey>)
    ensures forall j :: j in r <==> j in store && j.userId == owner
    ensures forall j :: multiset(r)[j] == if j.userId == owner then multiset(store)[j] else 0
  {
    if store == [] then []
    else
      assert store == [store[0]] + store[1..];
      var rest := OwnedBy(store[1..], owner);
      if store[0].userId == owner then [store[0]] + rest else rest
  }

  /** Places `x` before the first journey no newer than it. */
  function InsertNewestFirst(x: Journey, js: seq<Journey>): (r: seq<Journey>)
    requires NewestFirst(js)
    ensures NewestFirst(r)
    ensures multiset(r) == multiset(js) + multiset{x}
    ensures |r| > 0 && (r[0] == x || (|js| > 0 && r[0] == js[0]))
  {
    if js == [] || x.createdAt >= js[0].createdAt then [x] + js
    else
      assert js == [js[0]] + js[1..];
      [js[0]] + InsertNewestFirst(x, js[1..])
  }

  /** The sort `{ createdAt: -1 }`: a newest-first permutation of `js`. The
      database leaves the order of equal timestamps open; this insertion
      sort keeps them in store order, and no contract depends on that. */
  function SortNewestFirst(js: seq<Journey>): (r: seq<Journey>)
    ensures NewestFirst(r)
    ensures multiset(r) == multiset(js)
  {
    if js == [] then []
    else
      assert js == [js[0]] + js[1..];
      InsertNewestFirst(js[0], SortNewestFirst(js[1..]))
  }

  /** A list already newest first comes out of the sort as it went in, so
      sorting a listing again changes nothing. */
  lemma {:induction false} SortKeepsNewestFirst(js: seq<Journey>)
    requires NewestFirst(js)
    ensures SortNewestFirst(js) == js
  {
    if js != [] {
      SortKeepsNewestFirst(js[1..]);
    }
  }

  /** `GET`: authenticate, then answer the caller's journeys, newest first.
      `store` is what the connect-and-query step sees. */
  function ListJourneys(session: Step<Option<Session>>, store: Step<seq<Journey>>): (r: Response<Reply>)
    ensures session.Done? && Caller(session.value).None? ==> r == Unauthorized()
    ensures session.Threw? ==> r == InternalError()
    ensures session.Done? && Caller(session.value).Some? && store.Threw? ==> r == InternalError()
    ensures r.status == StatusOk <==> session.Done? && Caller(session.value).Some? && store.Done?
    ensures r.status == StatusOk ==> r.body.ListReply? && NewestFirst(r.body.journeys)
    // Exactly the caller's journeys, each as often as it is stored.
    ensures r.status == StatusOk ==>
      forall j :: j in r.body.journeys <==> j in store.value && j.userId == Caller(session.value).value
    ensures r.status == StatusOk ==>
      forall j :: multiset(r.body.journeys)[j]
        == if j.userId == Caller(session.value).value then multiset(store.value)[j] else 0
  {
    match session
    case Threw => InternalError()
    case Done(s) =>
      match Caller(s)
      case None => Unauthorized()
      case Some(owner) =>
        match store
        case Threw => InternalError()
        case Done(docs) =>
          var list := SortNewestFirst(OwnedBy(docs, owner));
          assert forall j :: j in list <==> j in multiset(list);
          Response(StatusOk, ListReply(list))
  }

  /** A journey saved by a user shows up in that user's next listing, and in
      no other user's. */
  lemma SavedJourneyIsListed(
    s: Option<Session>, b: Step<SaveBody>, store: seq<Journey>, stamp: Stamp, other: Option<Session>)
    requires SaveJourney(Done(s), b, store, Done(stamp)).response.status == StatusOk
    ensures
      var saved := SaveJourney(Done(s), b, store, Done(stamp));
      var j := saved.response.body.journey;
      && j in ListJourneys(Done(s), Done(saved.store)).body.journeys
      && (Caller(other).Some? && Caller(other) != Caller(s) ==>
            j !in ListJourneys(Done(other), Done(saved.store)).body.journeys)
  {
  }
}
