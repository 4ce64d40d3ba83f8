/** The directions proxy: checks the coordinates, then the routing-service
    key, then asks the routing service and relays its answer. The routing
    service's reply is an input; what the handler would send it is an output,
    so "no upstream call" is visible in the result. */
module DirectionsRoute {
  import opened Wrappers
  import opened Http

  /** One `[lon, lat]` pair as the client sends it; it is forwarded untouched. */
  type Position = seq<real>

  /** A JSON value read from the routing service, kept opaque. */
  type Payload = string

  /** The JSON body of a `POST`: only `coordinates` is read. */
  datatype RouteBody = RouteBody(coordinates: Field<Position>)

  /** The request sent to the routing service. */
  datatype UpstreamCall = UpstreamCall(url: string, key: string, coordinates: seq<Position>)

  /** How the routing service answers: the call may throw, and a reply's body
      may fail to parse (`None`). */
  datatype Upstream = Unreachable | Answered(status: int, body: Option<Payload>)

  datatype Reply = ErrorReply(message: string) | Relayed(payload: Payload)

  /** The response, and the upstream request if one was made. */
  datatype RouteOutcome = RouteOutcome(response: Response<Reply>, call: Option<UpstreamCall>)

  const DirectionsUrl: string := "https://api.openrouteservice.org/v2/directions/cycling-regular/geojson"
  const MsgTooFewCoordinates: string := "At least two coordinates are required"
  const MsgNoKey: string := "OpenRouteService API key not configured"
  const MsgFailed: string := "Failed to fetch directions"

  /** `coordinates` is an array holding at least two entries. */
  predicate ValidCoordinates(f: Field<Position>) {
    IsArrayOfAtLeast(f, 2)
  }

  /** The key is set to a non-empty string (an empty one is falsy). */
  predicate HasKey(apiKey: Option<string>) {
    apiKey.Some? && apiKey.value != ""
  }

  /** `POST` on the directions route. `body` is the awaited body parse,
      `apiKey` the environment's routing-service key, `upstream` what the
      routing service does with the request. */
  function GetDirections(body: Step<RouteBody>, apiKey: Option<string>, upstream: Upstream): (r: RouteOutcome)
    // A body that does not parse is an exception: 500, no call.
    ensures body.Threw? ==> r == RouteOutcome(Response(StatusServerError, ErrorReply(MsgFailed)), None)
    // Coordinates are checked first ...
    ensures body.Done? && !ValidCoordinates(body.value.coordinates) ==>
      r == RouteOutcome(Response(StatusBadRequest, ErrorReply(MsgTooFewCoordinates)), None)
    // ... then the key ...
    ensures body.Done? && ValidCoordinates(body.value.coordinates) && !HasKey(apiKey) ==>
      r == RouteOutcome(Response(StatusServerError, ErrorReply(MsgNoKey)), None)
    // ... and only then is the routing service asked, with the key and the coordinates as given.
    ensures r.call.Some? <==> body.Done? && ValidCoordinates(body.value.coordinates) && HasKey(apiKey)
    ensures r.call.Some? ==>
      r.call.value == UpstreamCall(DirectionsUrl, apiKey.value, body.value.coordinates.items)
    // A parsed upstream answer is relayed: its own status when it failed, 200 when it succeeded.
    ensures r.call.Some? && upstream.Answered? && upstream.body.Some? && !IsOk(upstream.status) ==>
      r.response == Response(upstream.status, Relayed(upstream.body.value))
    ensures r.call.Some? && upstream.Answered? && upstream.body.Some? && IsOk(upstream.status) ==>
      r.response == Response(StatusOk, Relayed(upstream.body.value))
    // A call that throws, or an answer that does not parse, is a 500.
    ensures r.call.Some? && (upstream.Unreachable? || upstream.body.None?) ==>
      r.response == Response(StatusServerError, ErrorReply(MsgFailed))
  {
    var failed := Response(StatusServerError, ErrorReply(MsgFailed));
    match body
    case Threw => RouteOutcome(failed, None)
    case Done(b) =>
      if !b.coordinates.Array? || |b.coordinates.items| < 2 then
        RouteOutcome(Response(StatusBadRequest, ErrorReply(MsgTooFewCoordinates)), None)
      else if apiKey.None? || apiKey.value == "" then
        RouteOutcome(Response(StatusServerError, ErrorReply(MsgNoKey)), None)
      else
        var call := Some(UpstreamCall(DirectionsUrl, apiKey.value, b.coordinates.items));
        match upstream
        case Unreachable => RouteOutcome(failed, call)
        case Answered(status, payload) =>
          match payload
          case None => RouteOutcome(failed, call)
          case Some(p) =>
            if !IsOk(status) then RouteOutcome(Response(status, Relayed(p)), call)
            else RouteOutcome(Response(StatusOk, Relayed(p)), call)
  }

  /** A too-short coordinate list is answered 400 whatever the key and the
      routing service would do: the key is never consulted. */
  lemma CoordinatesCheckedBeforeKey(
    body: RouteBody, k1: Option<string>, k2: Option<string>, u1: Upstream, u2: Upstream)
    requires !ValidCoordinates(body.coordinates)
    ensures GetDirections(Done(body), k1, u1) == GetDirections(Done(body), k2, u2)
    ensures GetDirections(Done(body), k1, u1).response.status == StatusBadRequest
  {
  }

  /** Every answer the handler gives without calling the routing service is
      one of its own error responses, never a relayed payload. */
  lemma NoCallMeansOwnError(body: Step<RouteBody>, apiKey: Option<string>, upstream: Upstream)
    requires GetDirections(body, apiKey, upstream).call.None?
    ensures GetDirections(body, apiKey, upstream).response.body.ErrorReply?
    ensures GetDirections(body, apiKey, upstream).response.status in {StatusBadRequest, StatusServerError}
  {
  }
}
