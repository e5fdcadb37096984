/**
 * `SessionService` itself: a class holding the table, whose methods perform
 * the source's steps (look up, set fields, save or delete) and are proved to
 * agree with the functions of `SessionTable`.
 */
module Service {
  import opened Wrappers
  import opened Sessions
  import opened T = SessionTable

  class SessionService {
    var rows: map<int, Session>
    var nextId: int

    function Table(): T.Table
      reads this
    {
      T.Table(rows, nextId)
    }

    ghost predicate Valid()
      reads this
    {
      T.Valid(Table())
    }

    /** An empty `sessions` table; the identity column starts at 1. */
    constructor ()
      ensures Valid() && rows == map[] && nextId == 1
    {
      rows, nextId := map[], 1;
    }

    /** `sessionRepository.save`: insert a new entity or write back a loaded one. */
    method Save(s: Session, isNew: bool, now: Clock) returns (r: Result<Session, string>)
      requires Valid() && (!isNew ==> s.id in rows)
      modifies this
      ensures Valid()
      ensures isNew ==> Change(r, Table()) == Insert(old(Table()), s, now)
      ensures !isNew ==> Change(r, Table()) == Merge(old(Table()), s, now)
    {
      if isNew {
        if !ValidRow(s) {
          return Failure(ConstraintViolated);
        }
        var saved := OnCreate(s.(id := nextId), now);
        rows := rows[nextId := saved];
        nextId := nextId + 1;
        return Success(saved);
      }
      if rows[s.id] == s {
        return Success(s);
      }
      if !ValidRow(s) {
        return Failure(ConstraintViolated);
      }
      var saved := OnUpdate(s, now);
      rows := rows[s.id := saved];
      return Success(saved);
    }

    /** `findByIdAndUserId(...).orElseThrow(...)`. */
    method GetSession(id: int, userId: int) returns (r: Result<Session, string>)
      requires Valid()
      ensures r == Owned(Table(), id, userId)
    {
      if id in rows && rows[id].owner == userId {
        r := Success(rows[id]);
      } else {
        r := Failure(SessionNotFound);
      }
    }

    method GetPublicSessions() returns (r: seq<Session>)
      requires Valid()
      ensures r == FindByStatus(rows, nextId, PUBLISHED)
    {
      r := FindByStatus(rows, nextId, PUBLISHED);
    }

    method GetMySessions(userId: int) returns (r: seq<Session>)
      requires Valid()
      ensures r == FindByUserId(rows, nextId, userId)
    {
      r := FindByUserId(rows, nextId, userId);
    }

    method SaveDraft(req: SessionRequest, userId: int, users: set<int>, now: Clock) returns (r: Result<Session, string>)
      requires Valid()
      modifies this
      ensures Valid()
      ensures Change(r, Table()) == T.SaveDraft(old(Table()), req, userId, users, now)
    {
      if userId !in users {
        return Failure(UserNotFound);
      }
      var session: Session;
      if req.id.Some? {
        var found := GetSession(req.id.value, userId);
        if found.Failure? {
          return Failure(found.error);
        }
        session := found.value;
      } else {
        session := NewDraft(userId);
      }
      session := WithContent(session, req);
      r := Save(session, req.id.None?, now);
    }

    method PublishSession(id: int, userId: int, now: Clock) returns (r: Result<Session, string>)
      requires Valid()
      modifies this
      ensures Valid()
      ensures Change(r, Table()) == T.PublishSession(old(Table()), id, userId, now)
    {
      var found := GetSession(id, userId);
      if found.Failure? {
        return Failure(found.error);
      }
      r := Save(found.value.(status := PUBLISHED), false, now);
    }

    method UpdateSession(req: SessionRequest, userId: int, now: Clock) returns (r: Result<Session, string>)
      requires Valid()
      modifies this
      ensures Valid()
      ensures Change(r, Table()) == T.UpdateSession(old(Table()), req, userId, now)
    {
      if req.id.None? {
        return Failure(SessionNotFound);
      }
      var found := GetSession(req.id.value, userId);
      if found.Failure? {
        return Failure(found.error);
      }
      r := Save(WithContent(found.value, req), false, now);
    }

    method DeleteSession(id: int, userId: int) returns (r: Result<(), string>)
      requires Valid()
      modifies this
      ensures Valid()
      ensures Change(r, Table()) == T.DeleteSession(old(Table()), id, userId)
    {
      var found := GetSession(id, userId);
      if found.Failure? {
        return Failure(found.error);
      }
      rows := rows - {id};
      r := Success(());
    }
  }
}
