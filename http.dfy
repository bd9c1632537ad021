/** Requests and responses of the REST routes, the error responses the
    routes return, and the checks they make before touching the store. */
module Http {
  import opened Json
  import opened Entities

  /** Response statuses: 201, 200, 204, 400, 403, 404, 405, 406, 415; the
      status the token verifier's error carries; and 500 for an unhandled
      exception. */
  datatype Status =
    | Created | Ok | NoContent
    | BadRequest | Forbidden | NotFound | MethodNotAllowed | NotAcceptable | UnsupportedMediaType
    | AuthFailed
    | InternalError

  /** The methods a collection route accepts. */
  datatype Verb = GET | POST | PUT | PATCH | DELETE

  /** The facts about a request that the routes look at. `jsonBody`: the
      Content-Type names application/json. `acceptsJson`: the Accept header
      admits application/json. `subject`: the subject of the verified bearer
      token, `None` when verification fails. `limit` and `offset`: the query
      parameters, when given. `baseUrl`: the request URL without its query. */
  datatype Request = Request(
    jsonBody: bool,
    acceptsJson: bool,
    subject: Option<string>,
    body: map<string, Value>,
    limit: Option<nat>,
    offset: Option<nat>,
    baseUrl: string)

  /** A listing: `totalItems` when the route reports it, the entities of the
      window with their ids, and the next link. */
  datatype Page<T> = Page(totalItems: Option<nat>, items: seq<(int, T)>, next: Option<string>)

  datatype Body =
    | NoBody
    | Error(message: string)
    | OneBoat(id: int, boat: Boat)
    | OneLoad(id: int, load: Load)
    | Boats(boats: Page<Boat>)
    | Loads(loads: Page<Load>)

  datatype Response = Response(status: Status, body: Body)

  const NotJson := Response(UnsupportedMediaType, Error("Request must be content type application/json"))
  const NotAcceptableJson := Response(NotAcceptable, Error("Accept header must accept response content type application/json"))
  /** The token verifier's error; its body is not part of this model. */
  const Unauthenticated := Response(AuthFailed, NoBody)
  const MissingAttributes := Response(BadRequest, Error("The request object is missing at least one of the required attributes"))
  const EmptyBody := Response(BadRequest, Error("The request object is empty"))
  const NoSuchBoat := Response(NotFound, Error("No boat with this boat_id exists"))
  const WrongOwner := Response(Forbidden, Error("The boat with this id has a different owner"))
  const NoSuchBoatOrLoad := Response(NotFound, Error("The specified boat and/or load does not exist"))
  const AlreadyLoaded := Response(Forbidden, Error("The load is already loaded on another boat"))
  const NotLoadedHere := Response(NotFound, Error("No boat with this boat_id is loaded with the load with this load_id"))
  const Unsupported := Response(MethodNotAllowed, Error("Method not supported"))
  const NoSuchLoad := Response(NotFound, Error("No load with this load_id exists"))
  /** An exception the route does not handle (a missing property, a dangling id). */
  const Crash := Response(InternalError, NoBody)
  const Done := Response(NoContent, NoBody)

  // ---- guards; each yields the failure response, or None to go on ----

  /** The first failing check of `first`, else of `second`. */
  function OrElse(first: Option<Response>, second: Option<Response>): Option<Response> {
    if first.Some? then first else second
  }

  /** 415 when the route reads a body that is not JSON, then 406 when the
      client does not accept JSON. */
  function Negotiation(req: Request, readsBody: bool): Option<Response> {
    if readsBody && !req.jsonBody then Some(NotJson)
    else if !req.acceptsJson then Some(NotAcceptableJson)
    else None
  }

  /** 415, then 406, then the token check: the guards of creating a boat. */
  function Authenticated(req: Request, readsBody: bool): Option<Response> {
    OrElse(Negotiation(req, readsBody), if req.subject.None? then Some(Unauthenticated) else None)
  }

  /** The caller is the boat's owner. */
  predicate Owns(req: Request, b: Boat) {
    req.subject.Some? && b.owner == Str(req.subject.value)
  }

  /** The token check, then 404 for a missing boat, then 403 for a boat of
      another owner. */
  function BoatAccess(req: Request, boats: map<int, Boat>, bid: int): Option<Response> {
    if req.subject.None? then Some(Unauthenticated)
    else if bid !in boats then Some(NoSuchBoat)
    else if !Owns(req, boats[bid]) then Some(WrongOwner)
    else None
  }

  /** 404 for a missing load. */
  function LoadAccess(loads: map<int, Load>, lid: int): Option<Response> {
    if lid !in loads then Some(NoSuchLoad) else None
  }

  /** 400 when the body has fewer than `n` properties, whichever they are. */
  function FieldCount(body: map<string, Value>, n: nat, failure: Response): Option<Response> {
    if |body| < n then Some(failure) else None
  }

  /** The guards of attaching load `lid` to boat `bid`: the token, 404 when
      either is missing, 403 when the load has a carrier (whoever owns the
      boat), then 403 when the caller does not own the boat. */
  function AttachGuard(req: Request, s: State, bid: int, lid: int): Option<Response> {
    if req.subject.None? then Some(Unauthenticated)
    else if lid !in s.loads || bid !in s.boats then Some(NoSuchBoatOrLoad)
    else if s.loads[lid].carrier.Some? then Some(AlreadyLoaded)
    else if !Owns(req, s.boats[bid]) then Some(WrongOwner)
    else None
  }

  /** The guards of detaching, before the scan of the boat's list: the token,
      404 when either is missing (with the message of a load the boat does
      not carry), 403 when the caller does not own the boat. */
  function DetachGuard(req: Request, s: State, bid: int, lid: int): Option<Response> {
    if req.subject.None? then Some(Unauthenticated)
    else if lid !in s.loads || bid !in s.boats then Some(NotLoadedHere)
    else if !Owns(req, s.boats[bid]) then Some(WrongOwner)
    else None
  }
}
