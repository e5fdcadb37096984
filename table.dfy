/**
 * What `SessionService` does to the session table, as functions: the table
 * is a map from id to row plus the next id the database will assign, and
 * each operation yields a `Change` (the value returned or the message of the
 * RuntimeException thrown, and the table afterwards).
 */
module SessionTable {
  import opened Wrappers
  import opened Sessions

  const UserNotFound := "User not found"
  const SessionNotFound := "Session not found"
  /** The database rejecting a row (null title, or a string longer than its column); the text is not fixed by the code. */
  const ConstraintViolated := "could not execute statement"

  /** The request body of save-draft and update; every field may be null. */
  datatype SessionRequest = SessionRequest(
    id: Option<int>,
    title: Option<string>,
    tags: Option<string>,
    jsonFileUrl: Option<string>,
    description: Option<string>)

  datatype Table = Table(rows: map<int, Session>, nextId: int)

  predicate Valid(t: Table) {
    WellFormed(t.rows, t.nextId)
  }

  /** The outcome of one service call: what it returned or threw, and the table after it. */
  datatype Change<+R> = Change(result: Result<R, string>, table: Table)

  /** The row carries the request's four content fields. */
  predicate HasContent(s: Session, req: SessionRequest) {
    && s.title == req.title
    && s.tags == req.tags
    && s.jsonFileUrl == req.jsonFileUrl
    && s.description == req.description
  }

  /** The request's content passes the column constraints: a title, and every field within its column's length. */
  predicate Acceptable(req: SessionRequest) {
    && req.title.Some?
    && Fits(req.title, DefaultLength)
    && Fits(req.description, DescriptionLength)
    && Fits(req.tags, DefaultLength)
    && Fits(req.jsonFileUrl, DefaultLength)
  }

  /** The four setters that save-draft and update call; the row's other columns are kept. */
  function WithContent(s: Session, req: SessionRequest): (r: Session)
    ensures HasContent(r, req)
    ensures r.id == s.id && r.owner == s.owner && r.status == s.status
    ensures r.createdAt == s.createdAt && r.updatedAt == s.updatedAt
    ensures ValidRow(r) <==> Acceptable(req)
  {
    s.(title := req.title, tags := req.tags, jsonFileUrl := req.jsonFileUrl, description := req.description)
  }

  /** `new Session()` with its owner and DRAFT status set; id and timestamps are assigned on save. */
  function NewDraft(userId: int): Session {
    Session(0, userId, None, None, None, None, DRAFT, 0, 0)
  }

  /**
   * `save` of a new entity: the store assigns the next id, `onCreate` stamps
   * both timestamps, and the insert is refused when a column constraint fails.
   */
  function Insert(t: Table, s: Session, now: Clock): (c: Change<Session>)
    requires Valid(t)
    ensures Valid(c.table)
    ensures c.result.Failure? <==> !ValidRow(s)
    ensures c.result.Failure? ==> c == Change(Failure(ConstraintViolated), t)
    ensures c.result.Success? ==>
      var r := c.result.value;
      && t.nextId !in t.rows
      && r == OnCreate(s.(id := t.nextId), now)
      && c.table == Table(t.rows[t.nextId := r], t.nextId + 1)
  {
    if !ValidRow(s) then Change(Failure(ConstraintViolated), t)
    else
      var r := OnCreate(s.(id := t.nextId), now);
      Change(Success(r), Table(t.rows[t.nextId := r], t.nextId + 1))
  }

  /**
   * `save` of an entity already in the table: an unchanged entity is not
   * written (so `onUpdate` does not run); a changed one is stamped by
   * `onUpdate` and replaces the stored row, unless a constraint fails.
   */
  function Merge(t: Table, s: Session, now: Clock): (c: Change<Session>)
    requires Valid(t) && s.id in t.rows
    ensures Valid(c.table) && c.table.nextId == t.nextId
    ensures c.result.Failure? <==> !ValidRow(s)
    ensures c.result.Failure? ==> c == Change(Failure(ConstraintViolated), t)
    ensures t.rows[s.id] == s ==> c == Change(Success(s), t)
    ensures c.result.Success? && t.rows[s.id] != s ==>
      && c.result.value == OnUpdate(s, now)
      && c.table.rows == t.rows[s.id := OnUpdate(s, now)]
  {
    if t.rows[s.id] == s then Change(Success(s), t)
    else if !ValidRow(s) then Change(Failure(ConstraintViolated), t)
    else Change(Success(OnUpdate(s, now)), Table(t.rows[s.id := OnUpdate(s, now)], t.nextId))
  }

  /** The user's own row with that id, or the "Session not found" error. */
  function Owned(t: Table, id: int, userId: int): (r: Result<Session, string>)
    requires Valid(t)
    ensures r.Success? <==> id in t.rows && t.rows[id].owner == userId
    ensures r.Success? ==> r.value == t.rows[id]
    ensures r.Failure? ==> r.error == SessionNotFound
  {
    match FindByIdAndUserId(t.rows, t.nextId, id, userId)
    case Some(s) => Success(s)
    case None => Failure(SessionNotFound)
  }

  /** `saveDraft`: create a new draft, or overwrite the content of the user's own session. */
  function SaveDraft(t: Table, req: SessionRequest, userId: int, users: set<int>, now: Clock): (c: Change<Session>)
    requires Valid(t)
    ensures Valid(c.table)
    ensures c.result.Failure? ==> c.table == t
    ensures userId !in users ==> c.result == Failure(UserNotFound)
    ensures userId in users && req.id.Some? && !(req.id.value in t.rows && t.rows[req.id.value].owner == userId)
      ==> c.result == Failure(SessionNotFound)
    ensures c.result.Success? <==>
      && userId in users
      && (req.id.None? || (req.id.value in t.rows && t.rows[req.id.value].owner == userId))
      && Acceptable(req)
    ensures
      (&& userId in users
       && (req.id.None? || (req.id.value in t.rows && t.rows[req.id.value].owner == userId))
       && !Acceptable(req))
      ==> c.result == Failure(ConstraintViolated)
    ensures c.result.Success? ==>
      var r := c.result.value;
      && userId in users
      && HasContent(r, req)
      && r.owner == userId
      && r.id in c.table.rows && c.table.rows[r.id] == r
      && c.table.rows - {r.id} == t.rows - {r.id}
    ensures c.result.Success? && req.id.None? ==>
      var r := c.result.value;
      && r.id == t.nextId && r.id !in t.rows
      && r.status == DRAFT
      && r.createdAt == now.first && r.updatedAt == now.second
    ensures c.result.Success? && req.id.Some? ==>
      var r := c.result.value;
      && r.id == req.id.value && r.id in t.rows
      && r.status == t.rows[r.id].status
      && r.createdAt == t.rows[r.id].createdAt
      && c.table.nextId == t.nextId
  {
    if userId !in users then Change(Failure(UserNotFound), t)
    else if req.id.Some? then
      match Owned(t, req.id.value, userId)
      case Failure(e) => Change(Failure(e), t)
      case Success(s) => Merge(t, WithContent(s, req), now)
    else
      Insert(t, WithContent(NewDraft(userId), req), now)
  }

  /** `publishSession`: the user's own session with its status set to PUBLISHED and nothing else changed. */
  function PublishSession(t: Table, id: int, userId: int, now: Clock): (c: Change<Session>)
    requires Valid(t)
    ensures Valid(c.table) && c.table.nextId == t.nextId
    ensures c.result.Failure? <==> !(id in t.rows && t.rows[id].owner == userId)
    ensures c.result.Failure? ==> c == Change(Failure(SessionNotFound), t)
    ensures c.result.Success? ==>
      var r := c.result.value;
      && r.status == PUBLISHED
      && r.(status := t.rows[id].status, updatedAt := t.rows[id].updatedAt) == t.rows[id]
      && c.table.rows == t.rows[id := r]
    ensures id in t.rows && t.rows[id].owner == userId && t.rows[id].status == PUBLISHED
      ==> c == Change(Success(t.rows[id]), t)
  {
    match Owned(t, id, userId)
    case Failure(e) => Change(Failure(e), t)
    case Success(s) => Merge(t, s.(status := PUBLISHED), now)
  }

  /** `updateSession`: overwrite the four content fields of the user's own session; owner and status stay. */
  function UpdateSession(t: Table, req: SessionRequest, userId: int, now: Clock): (c: Change<Session>)
    requires Valid(t)
    ensures Valid(c.table) && c.table.nextId == t.nextId
    ensures c.result.Failure? ==> c.table == t
    ensures !(req.id.Some? && req.id.value in t.rows && t.rows[req.id.value].owner == userId)
      ==> c.result == Failure(SessionNotFound)
    ensures c.result.Success? <==>
      req.id.Some? && req.id.value in t.rows && t.rows[req.id.value].owner == userId && Acceptable(req)
    ensures req.id.Some? && req.id.value in t.rows && t.rows[req.id.value].owner == userId && !Acceptable(req)
      ==> c.result == Failure(ConstraintViolated)
    ensures c.result.Success? ==>
      var r := c.result.value;
      var before := t.rows[req.id.value];
      && r.id == req.id.value
      && HasContent(r, req)
      && r.owner == before.owner && r.status == before.status && r.createdAt == before.createdAt
      && c.table.rows == t.rows[r.id := r]
  {
    if req.id.None? then Change(Failure(SessionNotFound), t)
    else
      match Owned(t, req.id.value, userId)
      case Failure(e) => Change(Failure(e), t)
      case Success(s) => Merge(t, WithContent(s, req), now)
  }

  /** `deleteSession`: exactly the user's own row with that id is removed. */
  function DeleteSession(t: Table, id: int, userId: int): (c: Change<()>)
    requires Valid(t)
    ensures Valid(c.table) && c.table.nextId == t.nextId
    ensures c.result.Failure? <==> !(id in t.rows && t.rows[id].owner == userId)
    ensures c.result.Failure? ==> c == Change(Failure(SessionNotFound), t)
    ensures c.result.Success? ==> c.table.rows == t.rows - {id} && id in t.rows
  {
    match Owned(t, id, userId)
    case Failure(e) => Change(Failure(e), t)
    case Success(_) => Change(Success(()), Table(t.rows - {id}, t.nextId))
  }

  /** No operation turns a published session back into a draft: a published row that survives stays published. */
  lemma PublishedStaysPublished(t: Table, req: SessionRequest, id: int, userId: int, users: set<int>, now: Clock, k: int)
    requires Valid(t) && k in t.rows && t.rows[k].status == PUBLISHED
    ensures var c := SaveDraft(t, req, userId, users, now); k in c.table.rows && c.table.rows[k].status == PUBLISHED
    ensures var c := UpdateSession(t, req, userId, now); k in c.table.rows && c.table.rows[k].status == PUBLISHED
    ensures var c := PublishSession(t, id, userId, now); k in c.table.rows && c.table.rows[k].status == PUBLISHED
    ensures var c := DeleteSession(t, id, userId); k in c.table.rows ==> c.table.rows[k].status == PUBLISHED
  {
    var c := SaveDraft(t, req, userId, users, now);
    if c.result.Success? && c.result.value.id != k {
      assert k in c.table.rows - {c.result.value.id};
    }
  }

  /** Publishing twice leaves the same table, and returns the same row, as publishing once. */
  lemma PublishIdempotent(t: Table, id: int, userId: int, now: Clock, later: Clock)
    requires Valid(t)
    ensures var once := PublishSession(t, id, userId, now);
      PublishSession(once.table, id, userId, later) == Change(once.result, once.table)
  {
  }

  /** A session that was deleted is no longer found, and the user's list no longer holds it. */
  lemma DeleteThenGet(t: Table, id: int, userId: int)
    requires Valid(t) && id in t.rows && t.rows[id].owner == userId
    ensures var c := DeleteSession(t, id, userId);
      && Owned(c.table, id, userId) == Failure(SessionNotFound)
      && forall x :: x in FindByUserId(c.table.rows, c.table.nextId, userId) ==> x.id != id
  {
  }

  /** A new draft is found by its owner, both by id and in their list, and is not public. */
  lemma CreatedDraftIsListed(t: Table, req: SessionRequest, userId: int, users: set<int>, now: Clock)
    requires Valid(t)
    ensures var c := SaveDraft(t, req, userId, users, now);
      c.result.Success? && req.id.None? ==>
        var r := c.result.value;
        && Owned(c.table, r.id, userId) == Success(r)
        && r in FindByUserId(c.table.rows, c.table.nextId, userId)
        && r !in FindByStatus(c.table.rows, c.table.nextId, PUBLISHED)
  {
  }
}
