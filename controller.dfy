/**
 * `SessionController`: each handler either answers at once (no
 * authentication) or calls the service once and turns what the service
 * returned or threw into an HTTP response. The handlers hold no state, so the
 * controller is a pair of functions: `Dispatch` picks the service call,
 * `Complete` maps its outcome to a status.
 */
module Controller {
  import opened Wrappers
  import opened Sessions
  import opened SessionTable

  /** Spring Security's principal: the user id the JWT filter stores, or some other object. */
  datatype Principal = UserIdPrincipal(userId: int) | OtherPrincipal

  /** A non-null `Authentication` whose principal may be null. */
  datatype Authentication = Authentication(principal: Option<Principal>)

  /** The six routes under `/api`, with their path variables, query parameter and body. */
  datatype Endpoint =
    | ListPublic                                  // GET /sessions
    | ListMine                                    // GET /my-sessions
    | GetOne(id: int)                             // GET /my-sessions/{id}
    | SaveDraftRoute(request: SessionRequest)     // POST /my-sessions/save-draft
    | PublishRoute(sessionId: int)                // POST /my-sessions/publish?sessionId=
    | DeleteRoute(id: int)                        // DELETE /my-sessions/{id}
    | UpdateRoute(id: int, request: SessionRequest) // PUT /my-sessions/{id}

  /** The service method a handler invokes, with its arguments. */
  datatype ServiceCall =
    | CallGetPublicSessions
    | CallGetMySessions(userId: int)
    | CallGetSession(id: int, userId: int)
    | CallSaveDraft(request: SessionRequest, userId: int)
    | CallPublishSession(sessionId: int, userId: int)
    | CallDeleteSession(id: int, userId: int)
    | CallUpdateSession(request: SessionRequest, userId: int)

  datatype Payload = Rows(rows: seq<Session>) | Row(row: Session) | Nothing

  /** What a service call did: returned a value, threw a RuntimeException, or threw some other exception. */
  datatype Outcome = Returned(payload: Payload) | ThrewRuntime | ThrewOther

  /** `ResponseEntity`: a status and an optional body (`build()` gives none). */
  datatype HttpResponse = HttpResponse(status: int, body: Option<Payload>)

  datatype Step = Respond(response: HttpResponse) | Invoke(call: ServiceCall)

  const Unauthorized := HttpResponse(401, None)

  predicate IsAuthenticated(auth: Option<Authentication>) {
    auth.Some? && auth.value.principal.Some?
  }

  /** The endpoints whose RuntimeExceptions are reported as 400 Bad Request. */
  predicate IsWrite(ep: Endpoint) {
    ep.SaveDraftRoute? || ep.PublishRoute?
  }

  /** The endpoints whose RuntimeExceptions are reported as 404 Not Found. */
  predicate IsSingle(ep: Endpoint) {
    ep.GetOne? || ep.DeleteRoute? || ep.UpdateRoute?
  }

  /** The service call of an authenticated handler; update first forces the request id to the path id. */
  function CallFor(ep: Endpoint, userId: int): (c: ServiceCall)
    requires !ep.ListPublic?
    ensures ep.UpdateRoute? ==> c == CallUpdateSession(ep.request.(id := Some(ep.id)), userId)
  {
    match ep
    case ListMine => CallGetMySessions(userId)
    case GetOne(id) => CallGetSession(id, userId)
    case SaveDraftRoute(req) => CallSaveDraft(req, userId)
    case PublishRoute(id) => CallPublishSession(id, userId)
    case DeleteRoute(id) => CallDeleteSession(id, userId)
    case UpdateRoute(id, req) => CallUpdateSession(req.(id := Some(id)), userId)
  }

  /** The catch clauses and success returns of a handler, given what its service call did. */
  function Complete(ep: Endpoint, outcome: Outcome): (r: HttpResponse)
    ensures r.status == 204 <==> ep.DeleteRoute? && outcome.Returned?
    ensures r.status == 200 <==> !ep.DeleteRoute? && outcome.Returned?
    ensures r.status == 200 ==> r.body == Some(outcome.payload)
    ensures r.status != 200 ==> r.body.None?
    ensures r.status == 400 <==> IsWrite(ep) && outcome.ThrewRuntime?
    ensures r.status == 404 <==> IsSingle(ep) && outcome.ThrewRuntime?
    ensures r.status == 500 <==> outcome.ThrewOther? || ((ep.ListPublic? || ep.ListMine?) && outcome.ThrewRuntime?)
  {
    match outcome
    case Returned(p) => if ep.DeleteRoute? then HttpResponse(204, None) else HttpResponse(200, Some(p))
    case ThrewOther => HttpResponse(500, None)
    case ThrewRuntime =>
      if IsWrite(ep) then HttpResponse(400, None)
      else if IsSingle(ep) then HttpResponse(404, None)
      else HttpResponse(500, None)
  }

  /**
   * The start of a handler: the public list calls the service directly; the
   * others answer 401 without authentication, and a principal that is not a
   * user id fails its `(Long)` cast inside the `try`, which is a RuntimeException.
   */
  function Dispatch(ep: Endpoint, auth: Option<Authentication>): (s: Step)
    ensures ep.ListPublic? ==> s == Invoke(CallGetPublicSessions)
    ensures !ep.ListPublic? && !IsAuthenticated(auth) ==> s == Respond(Unauthorized)
    ensures !ep.ListPublic? && IsAuthenticated(auth) ==>
      match auth.value.principal.value
      case UserIdPrincipal(u) => s == Invoke(CallFor(ep, u))
      case OtherPrincipal => s == Respond(Complete(ep, ThrewRuntime))
  {
    if ep.ListPublic? then Invoke(CallGetPublicSessions)
    else if !IsAuthenticated(auth) then Respond(Unauthorized)
    else match auth.value.principal.value
      case UserIdPrincipal(u) => Invoke(CallFor(ep, u))
      case OtherPrincipal => Respond(Complete(ep, ThrewRuntime))
  }

  /** A whole request: the response, given how the service would answer each call. */
  function Handle(ep: Endpoint, auth: Option<Authentication>, service: ServiceCall -> Outcome): (r: HttpResponse)
    ensures !ep.ListPublic? && !IsAuthenticated(auth) ==> r == Unauthorized
    ensures ep.ListPublic? ==> r.status == (if service(CallGetPublicSessions).Returned? then 200 else 500)
    ensures r.status == 200 || r.status == 204 <==>
      exists c :: Dispatch(ep, auth) == Invoke(c) && service(c).Returned?
  {
    match Dispatch(ep, auth)
    case Respond(resp) => resp
    case Invoke(c) => Complete(ep, service(c))
  }

  /** Without authentication the response is the same whatever the service would do: it is never called. */
  lemma UnauthenticatedIgnoresService(ep: Endpoint, auth: Option<Authentication>, s1: ServiceCall -> Outcome, s2: ServiceCall -> Outcome)
    requires !ep.ListPublic? && !IsAuthenticated(auth)
    ensures Handle(ep, auth, s1) == Handle(ep, auth, s2) == Unauthorized
  {
  }

  /** The update handler always calls the service with the path id, whatever id the body carried. */
  lemma UpdateForcesPathId(id: int, req: SessionRequest, userId: int)
    ensures Dispatch(UpdateRoute(id, req), Some(Authentication(Some(UserIdPrincipal(userId)))))
      == Invoke(CallUpdateSession(req.(id := Some(id)), userId))
  {
  }
}
