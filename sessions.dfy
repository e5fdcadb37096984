/**
 * The backend's session entity and the repository queries over the
 * `sessions` table. A row is a value; the table is a map from the
 * database-assigned id to the row. Nullable Java strings are options.
 */
module Sessions {
  import opened Wrappers

  datatype Status = DRAFT | PUBLISHED

  /** `@Enumerated(EnumType.STRING)`: the status is stored, and serialised, by name. */
  function StatusName(s: Status): (name: string)
    ensures name == "DRAFT" || name == "PUBLISHED"
    ensures name == "DRAFT" <==> s == DRAFT
  {
    match s
    case DRAFT => "DRAFT"
    case PUBLISHED => "PUBLISHED"
  }

  /** The `description` column's declared length. */
  const DescriptionLength := 1000
  /** The length JPA gives a string column that declares none: `title`, `tags` and `jsonFileUrl`. */
  const DefaultLength := 255

  /**
   * The clock readings one save takes: `onCreate` calls `LocalDateTime.now()`
   * twice, once per timestamp; `onUpdate` uses only the first reading.
   */
  datatype Clock = Clock(first: int, second: int)

  /** A row of the `sessions` table; timestamps are abstract clock values. */
  datatype Session = Session(
    id: int,
    owner: int,                     // the `user_id` join column
    title: Option<string>,
    description: Option<string>,
    tags: Option<string>,
    jsonFileUrl: Option<string>,
    status: Status,
    createdAt: int,
    updatedAt: int)

  /** A nullable string column of the given length accepts the value. */
  predicate Fits(v: Option<string>, length: nat) {
    v.Some? ==> |v.value| <= length
  }

  /** The column constraints the database enforces: a non-null title and every string within its column's length. */
  predicate ValidRow(s: Session) {
    && s.title.Some?
    && Fits(s.title, DefaultLength)
    && Fits(s.description, DescriptionLength)
    && Fits(s.tags, DefaultLength)
    && Fits(s.jsonFileUrl, DefaultLength)
  }

  /** `@PrePersist onCreate`: `createdAt` from the first clock reading, `updatedAt` from the second. */
  function OnCreate(s: Session, now: Clock): (r: Session)
    ensures r.createdAt == now.first && r.updatedAt == now.second
    ensures r.(createdAt := s.createdAt, updatedAt := s.updatedAt) == s
  {
    s.(createdAt := now.first, updatedAt := now.second)
  }

  /** `@PreUpdate onUpdate`: only `updatedAt` moves; `createdAt` is preserved. */
  function OnUpdate(s: Session, now: Clock): (r: Session)
    ensures r.updatedAt == now.first && r.createdAt == s.createdAt
    ensures r.(updatedAt := s.updatedAt) == s
  {
    s.(updatedAt := now.first)
  }

  /** The table invariant: ids are the keys, below the next id to assign, and every row satisfies the constraints. */
  predicate WellFormed(rows: map<int, Session>, nextId: int) {
    && 1 <= nextId
    && forall k :: k in rows ==> 1 <= k < nextId && rows[k].id == k && ValidRow(rows[k])
  }

  /** The finder queries' conditions. */
  datatype Query = ByStatus(status: Status) | ByOwner(owner: int)

  predicate Matches(q: Query, s: Session) {
    match q
    case ByStatus(st) => s.status == st
    case ByOwner(u) => s.owner == u
  }

  /** The matching rows with ids in `[lo, hi)`, in ascending id order. */
  function Select(rows: map<int, Session>, q: Query, lo: int, hi: int): (r: seq<Session>)
    requires forall k :: k in rows ==> rows[k].id == k
    ensures forall x :: x in r <==> exists k :: lo <= k < hi && k in rows && rows[k] == x && Matches(q, x)
    ensures forall i, j :: 0 <= i < j < |r| ==> r[i].id < r[j].id
    ensures forall i :: 0 <= i < |r| ==> lo <= r[i].id < hi
    decreases hi - lo
  {
    if hi <= lo then []
    else
      var rest := Select(rows, q, lo + 1, hi);
      if lo in rows && Matches(q, rows[lo]) then [rows[lo]] + rest else rest
  }

  /** `findByStatus`: exactly the rows with that status, each once, by ascending id. */
  function FindByStatus(rows: map<int, Session>, nextId: int, status: Status): (r: seq<Session>)
    requires WellFormed(rows, nextId)
    ensures forall x :: x in r <==> x.id in rows && rows[x.id] == x && x.status == status
    ensures forall i, j :: 0 <= i < j < |r| ==> r[i].id < r[j].id
  {
    Select(rows, ByStatus(status), 1, nextId)
  }

  /** `findByUserId`: exactly the rows that user owns, each once, by ascending id. */
  function FindByUserId(rows: map<int, Session>, nextId: int, userId: int): (r: seq<Session>)
    requires WellFormed(rows, nextId)
    ensures forall x :: x in r <==> x.id in rows && rows[x.id] == x && x.owner == userId
    ensures forall i, j :: 0 <= i < j < |r| ==> r[i].id < r[j].id
  {
    Select(rows, ByOwner(userId), 1, nextId)
  }

  /** `findByIdAndUserId`: the row with that id when the user owns it; a row owned by someone else is not found. */
  function FindByIdAndUserId(rows: map<int, Session>, nextId: int, id: int, userId: int): (r: Option<Session>)
    requires WellFormed(rows, nextId)
    ensures r.Some? <==> id in rows && rows[id].owner == userId
    ensures r.Some? ==> r.value == rows[id] && r.value.id == id
  {
    if id in rows && rows[id].owner == userId then Some(rows[id]) else None
  }

  /** The owner-scoped lookup agrees with the owner's list: a session is found by id exactly when it is in that list. */
  lemma FindByIdAgreesWithList(rows: map<int, Session>, nextId: int, id: int, userId: int)
    requires WellFormed(rows, nextId)
    ensures var r := FindByIdAndUserId(rows, nextId, id, userId);
      && (r.Some? <==> exists x :: x in FindByUserId(rows, nextId, userId) && x.id == id)
      && (r.Some? ==> r.value in FindByUserId(rows, nextId, userId))
  {
    var list := FindByUserId(rows, nextId, userId);
    if id in rows && rows[id].owner == userId {
      assert rows[id] in list;
    }
  }
}
