/**
 * The backend wired together: the controller in front of `SessionService`,
 * with `AuthService`'s user table as the users `saveDraft` looks up. Every
 * session's owner is a registered user, and each request keeps that so.
 */
module Backend {
  import opened Wrappers
  import opened Sessions
  import opened SessionTable
  import opened Controller
  import opened Auth
  import opened Service
  import C = Client

  /** What the service returned or threw, as the controller's catch clauses see it; every service error is a RuntimeException. */
  function OutcomeOf(r: Result<Payload, string>): (o: Outcome)
    ensures o.ThrewRuntime? <==> r.Failure?
    ensures r.Success? ==> o == Returned(r.value)
  {
    match r
    case Success(p) => Returned(p)
    case Failure(_) => ThrewRuntime
  }

  /** The service's answer to one call against the table; the three queries leave the table as it was. */
  function Run(t: Table, call: ServiceCall, users: set<int>, now: Clock): (c: Change<Payload>)
    requires SessionTable.Valid(t)
    ensures SessionTable.Valid(c.table)
    ensures call.CallGetPublicSessions? ==> c == Change(Success(Rows(FindByStatus(t.rows, t.nextId, PUBLISHED))), t)
    ensures call.CallGetMySessions? ==> c == Change(Success(Rows(FindByUserId(t.rows, t.nextId, call.userId))), t)
    ensures call.CallGetSession? ==> c.table == t
    ensures c.result.Failure? ==> c.table == t
  {
    match call
    case CallGetPublicSessions => Change(Success(Rows(FindByStatus(t.rows, t.nextId, PUBLISHED))), t)
    case CallGetMySessions(u) => Change(Success(Rows(FindByUserId(t.rows, t.nextId, u))), t)
    case CallGetSession(id, u) => Change(AsRow(Owned(t, id, u)), t)
    case CallSaveDraft(req, u) => var c := SaveDraft(t, req, u, users, now); Change(AsRow(c.result), c.table)
    case CallPublishSession(id, u) => var c := PublishSession(t, id, u, now); Change(AsRow(c.result), c.table)
    case CallDeleteSession(id, u) => var c := DeleteSession(t, id, u); Change(if c.result.Success? then Success(Nothing) else Failure(c.result.error), c.table)
    case CallUpdateSession(req, u) => var c := UpdateSession(t, req, u, now); Change(AsRow(c.result), c.table)
  }

  function AsRow(r: Result<Session, string>): Result<Payload, string> {
    match r
    case Success(s) => Success(Row(s))
    case Failure(e) => Failure(e)
  }

  /** Every session belongs to a registered user (the `user_id` foreign key). */
  predicate OwnersRegistered(rows: map<int, Session>, users: set<int>) {
    forall k :: k in rows ==> rows[k].owner in users
  }

  /** No service call leaves a session whose owner is not a registered user. */
  lemma {:induction false} RunKeepsOwnersRegistered(t: Table, call: ServiceCall, users: set<int>, now: Clock)
    requires SessionTable.Valid(t) && OwnersRegistered(t.rows, users)
    ensures OwnersRegistered(Run(t, call, users, now).table.rows, users)
  {
    var c := Run(t, call, users, now);
    forall k | k in c.table.rows
      ensures c.table.rows[k].owner in users
    {
      match call
      case CallSaveDraft(req, u) =>
        var d := SaveDraft(t, req, u, users, now);
        if d.result.Success? && k != d.result.value.id {
          assert k in d.table.rows - {d.result.value.id};
        }
      case CallPublishSession(id, u) =>
      case CallUpdateSession(req, u) =>
      case CallDeleteSession(id, u) =>
      case CallGetPublicSessions =>
      case CallGetMySessions(u) =>
      case CallGetSession(id, u) =>
    }
  }

  /** The status name the backend serialises shows the Published badge on the client exactly for a published session. */
  lemma BadgeOfStatusName(s: Status)
    ensures C.ShowsPublished(StatusName(s)) <==> s == PUBLISHED
  {
    C.BadgeOfKnownStatuses();
  }

  class App {
    const sessions: SessionService
    const auth: AuthService

    ghost predicate Valid()
      reads this, sessions, auth
    {
      && sessions.Valid()
      && auth.Valid()
      && OwnersRegistered(sessions.rows, auth.users.Keys)
    }

    constructor (encode: (string, string) -> string, matches: (string, string) -> bool,
                 generateToken: (int, string) -> string)
      ensures Valid() && sessions.rows == map[] && auth.users == map[]
    {
      sessions := new SessionService();
      auth := new AuthService(encode, matches, generateToken);
    }

    /** One HTTP request to the session endpoints. */
    method Serve(ep: Endpoint, authn: Option<Authentication>, now: Clock) returns (resp: HttpResponse)
      requires Valid()
      modifies sessions
      ensures Valid()
      ensures Dispatch(ep, authn).Respond? ==>
        resp == Dispatch(ep, authn).response && sessions.Table() == old(sessions.Table())
      ensures Dispatch(ep, authn).Invoke? ==>
        var c := Run(old(sessions.Table()), Dispatch(ep, authn).call, auth.users.Keys, now);
        resp == Complete(ep, OutcomeOf(c.result)) && sessions.Table() == c.table
    {
      var step := Dispatch(ep, authn);
      if step.Respond? {
        return step.response;
      }
      ghost var before := sessions.Table();
      var users := auth.users.Keys;
      var result: Result<Payload, string>;
      match step.call {
        case CallGetPublicSessions =>
          var rows := sessions.GetPublicSessions();
          result := Success(Rows(rows));
        case CallGetMySessions(u) =>
          var rows := sessions.GetMySessions(u);
          result := Success(Rows(rows));
        case CallGetSession(id, u) =>
          var r := sessions.GetSession(id, u);
          result := AsRow(r);
        case CallSaveDraft(req, u) =>
          var r := sessions.SaveDraft(req, u, users, now);
          result := AsRow(r);
        case CallPublishSession(id, u) =>
          var r := sessions.PublishSession(id, u, now);
          result := AsRow(r);
        case CallDeleteSession(id, u) =>
          var r := sessions.DeleteSession(id, u);
          result := if r.Success? then Success(Nothing) else Failure(r.error);
        case CallUpdateSession(req, u) =>
          var r := sessions.UpdateSession(req, u, now);
          result := AsRow(r);
      }
      assert Change(result, sessions.Table()) == Run(before, step.call, users, now);
      RunKeepsOwnersRegistered(before, step.call, users, now);
      resp := Complete(ep, OutcomeOf(result));
    }

    /** Registration adds a user and removes none, so every session keeps a registered owner. */
    method Register(req: RegisterRequest, salt: string) returns (r: Result<AuthResponse, string>)
      requires Valid()
      modifies auth
      ensures Valid()
      ensures Registered(r, auth.users, auth.nextId)
        == RegisterOutcome(old(auth.users), old(auth.nextId), req, auth.encode(req.password, salt), auth.generateToken)
    {
      r := auth.Register(req, salt);
    }
  }
}
