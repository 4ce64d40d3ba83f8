/** The persisted journey document and its locations, with the defaults the
    document schema applies when a journey is created. */
module JourneyModel {
  import opened Wrappers

  /** An account identifier (a database object id, kept as its text). */
  type UserId = string

  /** A point in time, in milliseconds. */
  type Timestamp = int

  /** The free-form extras a location may carry. */
  datatype Properties = Properties(notes: Option<string>, links: seq<string>)

  /** One stop of a journey. Latitude and longitude are only compared and
      copied, so they are kept as exact reals. */
  datatype Location = Location(
    id: string,
    name: string,
    lat: real,
    lon: real,
    properties: Option<Properties>)

  /** A stored journey: its database id, its owner, its display name, its
      ordered stops and the two timestamps the schema maintains. */
  datatype Journey = Journey(
    id: string,
    userId: UserId,
    name: string,
    locations: seq<Location>,
    createdAt: Timestamp,
    updatedAt: Timestamp)

  /** The name a journey gets when it is created without one. */
  const DefaultName: string := "Vi vu"

  /** The fields handed to the schema when a journey is created; `None`
      is a field left undefined. */
  datatype Draft = Draft(userId: Option<UserId>, name: Option<string>, locations: seq<Location>)

  datatype SchemaError = UserIdRequired

  /** Validates a draft against the journey schema and builds the document the
      database stores under the generated `id` at time `now`. */
  function Create(d: Draft, id: string, now: Timestamp): (r: Result<Journey, SchemaError>)
    ensures r.Failure? <==> d.userId.None?
    ensures r.Failure? ==> r.error == UserIdRequired
    ensures r.Success? ==> r.value.id == id && r.value.userId == d.userId.value
    ensures r.Success? && d.name.None? ==> r.value.name == DefaultName
    ensures r.Success? && d.name.Some? ==> r.value.name == d.name.value
    ensures r.Success? ==> r.value.locations == d.locations
    ensures r.Success? ==> r.value.createdAt == now && r.value.updatedAt == now
  {
    match d.userId
    case None => Failure(UserIdRequired)
    case Some(owner) =>
      var name := match d.name { case Some(n) => n case None => DefaultName };
      Success(Journey(id, owner, name, d.locations, now, now))
  }

  /** The draft that recreates a stored journey, field for field. */
  function DraftOf(j: Journey): Draft {
    Draft(Some(j.userId), Some(j.name), j.locations)
  }

  /** A journey whose two timestamps agree (one never updated) is exactly
      what creating it from its own fields yields. */
  lemma CreateDraftOf(j: Journey)
    requires j.createdAt == j.updatedAt
    ensures Create(DraftOf(j), j.id, j.createdAt) == Success(j)
  {
  }

  /** Leaving the name undefined and giving the default name explicitly
      produce the same document. */
  lemma DefaultNameIsExplicitDefault(owner: UserId, locs: seq<Location>, id: string, now: Timestamp)
    ensures Create(Draft(Some(owner), None, locs), id, now)
         == Create(Draft(Some(owner), Some(DefaultName), locs), id, now)
  {
  }
}
