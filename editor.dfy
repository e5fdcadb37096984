/**
 * The session editor page: the load effect that resolves ownership, the
 * field handler and its autosave, and the publish and save-draft actions.
 * Backend results enter as parameters (how each awaited call settles);
 * the backend calls issued are recorded, in order, in `calls`.
 */
module Editor {
  import opened Wrappers
  import opened Text
  import opened Client
  import D = Debounce

  const NotFoundMessage := "Session not found or not accessible"
  const LoadFailedMessage := "Failed to load session"
  const PublishTitleMessage := "Please add a title before publishing"
  const SaveTitleMessage := "Please add a title to save"
  const PublishFailedMessage := "Failed to publish session"
  const SaveFailedMessage := "Failed to save draft"
  const PublishedMessage := "Session published successfully! \U{1F389}"
  const DraftSavedMessage := "Draft saved successfully!"
  const AutoSavedMessage := "Auto-saved \U{2713}"
  /** The quiet period of the autosave debouncer, in milliseconds. */
  const AutoSaveWait := 3000

  /** The document a fresh editor starts with. */
  const EmptyDraft := Doc(None, "", "", "", "", "draft")

  /** The named inputs of the form. */
  datatype Field = Title | Description | Tags | JsonFileUrl

  function FieldOf(d: Doc, f: Field): string {
    match f
    case Title => d.title
    case Description => d.description
    case Tags => d.tags
    case JsonFileUrl => d.jsonFileUrl
  }

  /** `{ ...session, [name]: value }`. */
  function WithField(d: Doc, f: Field, v: string): (r: Doc)
    ensures FieldOf(r, f) == v
    ensures forall g :: g != f ==> FieldOf(r, g) == FieldOf(d, g)
    ensures r.id == d.id && r.status == d.status
  {
    match f
    case Title => d.(title := v)
    case Description => d.(description := v)
    case Tags => d.(tags := v)
    case JsonFileUrl => d.(jsonFileUrl := v)
  }

  /**
   * The guard and request of the debounced autosave body: a PUT of the
   * four content fields of the argument, issued only for a title with a
   * non-whitespace character, an id in the route and an owned session.
   */
  function AutoSaveCall(arg: Doc, id: Option<int>, own: bool): (r: Option<Call>)
    ensures r.Some? <==> (exists i :: 0 <= i < |arg.title| && !IsTrimmable(arg.title[i])) && id.Some? && own
    ensures r.Some? ==> r.value == PutSession(id.value, BodyOf(arg))
  {
    BlankIffAllTrimmable(arg.title);
    if IsBlank(arg.title) || id.None? || !own then None else Some(PutSession(id.value, BodyOf(arg)))
  }

  /** Outcome of the two-probe ownership lookup. */
  datatype Verdict =
    | Owned(record: Record)
    | PublicReadOnly(record: Record)
    | NotFound
    | OwnProbeFailed
    | PublicProbeFailed

  /**
   * The load effect's lookup of `id`: the user's own list first; only when
   * the id is absent there, the public list.
   */
  function Resolve(id: int, mine: Response<seq<Record>>, public: Response<seq<Record>>): (v: Verdict)
    ensures mine.Err? ==> v == OwnProbeFailed
    ensures mine.Ok? && (exists i :: 0 <= i < |mine.data| && mine.data[i].id == id) ==>
      v.Owned? && v.record.id == id && v.record in mine.data
    ensures mine.Ok? && (forall i :: 0 <= i < |mine.data| ==> mine.data[i].id != id) ==>
      match public
      case Err(_) => v == PublicProbeFailed
      case Ok(list) =>
        if exists i :: 0 <= i < |list| && list[i].id == id
        then v.PublicReadOnly? && v.record.id == id && v.record in list
        else v == NotFound
  {
    match mine
    case Err(_) => OwnProbeFailed
    case Ok(own) =>
      match FindById(own, id)
      case Some(r) => Owned(r)
      case None =>
        match public
        case Err(_) => PublicProbeFailed
        case Ok(list) =>
          match FindById(list, id)
          case Some(r) => PublicReadOnly(r)
          case None => NotFound
  }

  /** An id in the user's own list resolves to owned whatever the public list holds or whether it loads. */
  lemma OwnedIgnoresPublicList(id: int, mine: seq<Record>, p1: Response<seq<Record>>, p2: Response<seq<Record>>)
    requires exists i :: 0 <= i < |mine| && mine[i].id == id
    ensures Resolve(id, Ok(mine), p1) == Resolve(id, Ok(mine), p2)
    ensures Resolve(id, Ok(mine), p1).Owned?
  {
  }

  /**
   * One debouncer instance with the editor's 3000 ms wait, called at 0,
   * 500, 1000 and 1500 ms, delivers only the last argument, at 4500 ms and
   * not at 4499 ms. The page itself builds a new instance on every render,
   * so this is the guarantee of a single instance, not of the page.
   */
  lemma SingleInstanceAutoSaveBurst(d1: Doc, d2: Doc, d3: Doc, d4: Doc)
    ensures var edits := [(0, d1), (500, d2), (1000, d3), (1500, d4)];
      && D.Run(D.State(None, 0), D.Burst(edits) + [D.Tick(4500)], AutoSaveWait).1 == [d4]
      && D.Run(D.State(None, 0), D.Burst(edits) + [D.Tick(4499)], AutoSaveWait).1 == []
  {
    var edits := [(0, d1), (500, d2), (1000, d3), (1500, d4)];
    assert D.Dense(edits, AutoSaveWait);
    D.BurstThenQuiet(edits, AutoSaveWait, 4500);
    D.BurstThenQuiet(edits, AutoSaveWait, 4499);
  }

  /**
   * When the user's own list fails to load, ownership stays as mounted
   * (true) while the form keeps the empty draft; the first title typed is
   * then autosaved over the stored session with empty description, tags
   * and file URL.
   */
  lemma OwnProbeFailureAutosavesEmptyContent(id: int, e: HttpError, public: Response<seq<Record>>, title: string)
    requires !IsBlank(title)
    ensures var v := Loaded(Initial, Some(id), Err(e), public);
      && v.isOwnSession && v.session == EmptyDraft && v.error == LoadFailedMessage
      && AutoSaveCall(WithField(v.session, Title, title), Some(id), v.isOwnSession)
         == Some(PutSession(id, Body(title, "", "", "")))
  {
    BlankIffAllTrimmable(title);
  }

  /** The calls the load effect issues for an id. */
  function LoadCalls(v: Verdict): (cs: seq<Call>)
    ensures cs != [] && cs[0] == GetMySessions
    ensures GetPublicSessions in cs <==> !(v.Owned? || v.OwnProbeFailed?)
  {
    if v.Owned? || v.OwnProbeFailed? then [GetMySessions] else [GetMySessions, GetPublicSessions]
  }

  /**
   * The document after a successful publish of `id`: the record the
   * re-query returns when it holds that id; otherwise, and when the
   * re-query fails, the local document with status "PUBLISHED".
   */
  function Adopt(d: Doc, id: int, refetch: Response<seq<Record>>): (r: Doc)
    ensures refetch.Ok? && (exists i :: 0 <= i < |refetch.data| && refetch.data[i].id == id) ==>
      && r.id == Some(id)
      && exists i :: && 0 <= i < |refetch.data| && refetch.data[i].id == id && r == AsDoc(refetch.data[i])
                     && forall j :: 0 <= j < i ==> refetch.data[j].id != id
    ensures refetch.Err? || (forall i :: 0 <= i < |refetch.data| ==> refetch.data[i].id != id) ==>
      r == d.(status := "PUBLISHED")
  {
    match refetch
    case Err(_) => d.(status := "PUBLISHED")
    case Ok(list) =>
      match FindById(list, id)
      case Some(rec) => AsDoc(rec)
      case None => d.(status := "PUBLISHED")
  }

  /** The calls `handlePublish` issues. */
  function PublishCalls(id: Option<int>, d: Doc, created: Response<Record>, published: Response<Record>): (cs: seq<Call>)
    ensures IsBlank(d.title) ==> cs == []
    ensures !IsBlank(d.title) && id.Some? ==>
      cs == [PostPublish(id.value)] + (if published.Ok? then [GetMySessions] else [])
    ensures !IsBlank(d.title) && id.None? ==>
      cs == [PostSaveDraft(BodyOf(d))] + (if created.Ok? then [PostPublish(created.data.id)] else [])
  {
    if IsBlank(d.title) then []
    else if id.Some? then [PostPublish(id.value)] + (if published.Ok? then [GetMySessions] else [])
    else [PostSaveDraft(BodyOf(d))] + (if created.Ok? then [PostPublish(created.data.id)] else [])
  }

  /** With an id, publishing never creates a record and issues exactly one publish call. */
  lemma {:induction false} PublishExistingNeverCreates(id: int, d: Doc, created: Response<Record>, published: Response<Record>)
    ensures forall c :: c in PublishCalls(Some(id), d, created, published) ==> !c.PostSaveDraft?
    ensures !IsBlank(d.title) ==>
      multiset(PublishCalls(Some(id), d, created, published))[PostPublish(id)] == 1
  {
    if !IsBlank(d.title) {
      var cs := PublishCalls(Some(id), d, created, published);
      assert cs == [PostPublish(id)] + (if published.Ok? then [GetMySessions] else []);
    }
  }

  /** The page's state, as its `useState` hooks hold it, plus the calls issued so far. */
  datatype View = View(
    session: Doc,
    loading: bool,
    saving: bool,
    error: string,
    success: string,
    isOwnSession: bool,
    navigated: Option<Route>,   // the last immediate `navigate(...)`
    scheduled: Option<Route>,   // a navigation scheduled with `setTimeout`
    calls: seq<Call>)

  /** The state of a freshly mounted editor. */
  const Initial := View(EmptyDraft, false, false, "", "", true, None, None, [])

  /** A document without an id is always the user's own unsaved draft. */
  predicate Coherent(routeId: Option<int>, v: View) {
    routeId.None? ==> v.isOwnSession && v.session.id.None?
  }

  /**
   * The load effect. Without a route id nothing happens. With one, the
   * outcome is the verdict of the two-probe lookup: an owned record is
   * loaded as owned; otherwise ownership is dropped, and a public record
   * is loaded read-only or the not-found message is shown.
   */
  function Loaded(v: View, routeId: Option<int>, mine: Response<seq<Record>>, public: Response<seq<Record>>): (r: View)
    ensures Coherent(routeId, v) ==> Coherent(routeId, r)
    ensures routeId.None? ==> r == v
    ensures routeId.Some? ==>
      var verdict := Resolve(routeId.value, mine, public);
      && r.calls == v.calls + LoadCalls(verdict)
      && !r.loading
      && r.session == (if verdict.Owned? || verdict.PublicReadOnly? then AsDoc(verdict.record) else v.session)
      && r.isOwnSession == (if verdict.Owned? then true else if verdict.OwnProbeFailed? then v.isOwnSession else false)
      && r.error == (if verdict.NotFound? then NotFoundMessage
                     else if verdict.OwnProbeFailed? || verdict.PublicProbeFailed? then LoadFailedMessage
                     else v.error)
      && r.saving == v.saving && r.success == v.success
      && r.navigated == v.navigated && r.scheduled == v.scheduled
  {
    if routeId.None? then v
    else
      var verdict := Resolve(routeId.value, mine, public);
      var w := v.(loading := false, calls := v.calls + LoadCalls(verdict));
      match verdict
      case Owned(rec) => w.(session := AsDoc(rec), isOwnSession := true)
      case PublicReadOnly(rec) => w.(session := AsDoc(rec), isOwnSession := false)
      case NotFound => w.(error := NotFoundMessage, isOwnSession := false)
      case OwnProbeFailed => w.(error := LoadFailedMessage)
      case PublicProbeFailed => w.(error := LoadFailedMessage, isOwnSession := false)
  }

  /**
   * `handlePublish`. A blank title only sets the title message and issues
   * no call; otherwise the existing-id or the create-then-publish path.
   */
  function Published(v: View, routeId: Option<int>, created: Response<Record>, published: Response<Record>,
                     refetch: Response<seq<Record>>): (r: View)
    ensures Coherent(routeId, v) ==> Coherent(routeId, r)
    ensures r.isOwnSession == v.isOwnSession && r.saving == v.saving
    ensures r.calls == v.calls + PublishCalls(routeId, v.session, created, published)
    ensures IsBlank(v.session.title) ==> r == v.(error := PublishTitleMessage)
    ensures !IsBlank(v.session.title) ==> !r.loading
  {
    if IsBlank(v.session.title) then v.(error := PublishTitleMessage)
    else if routeId.Some? then PublishedExisting(v, routeId.value, published, refetch)
    else PublishedNew(v, created, published)
  }

  /**
   * Publishing an existing id: one publish call; on success the re-queried
   * record is adopted, the success message shown and the return to the
   * sessions list scheduled; on failure only the error is shown.
   */
  function PublishedExisting(v: View, id: int, published: Response<Record>, refetch: Response<seq<Record>>): (r: View)
    ensures r.calls == v.calls + [PostPublish(id)] + (if published.Ok? then [GetMySessions] else [])
    ensures !r.loading && r.isOwnSession == v.isOwnSession && r.saving == v.saving && r.navigated == v.navigated
    ensures published.Ok? ==>
      && r.session == Adopt(v.session, id, refetch)
      && r.success == PublishedMessage && r.scheduled == Some(MySessionsRoute) && r.error == v.error
    ensures published.Err? ==>
      && r.error == ErrorMessage(published.error, PublishFailedMessage)
      && r.session == v.session && r.success == v.success && r.scheduled == v.scheduled
  {
    if published.Err? then
      v.(loading := false, calls := v.calls + [PostPublish(id)],
         error := ErrorMessage(published.error, PublishFailedMessage))
    else
      v.(loading := false, calls := v.calls + [PostPublish(id), GetMySessions],
         session := Adopt(v.session, id, refetch), success := PublishedMessage,
         scheduled := Some(MySessionsRoute))
  }

  /**
   * Publishing a document without an id: create it, then publish the
   * returned id and navigate to its editor. The form is never replaced; a
   * failure of either call shows its message and does not navigate, even
   * when the draft was already created.
   */
  function PublishedNew(v: View, created: Response<Record>, published: Response<Record>): (r: View)
    ensures r.calls == v.calls + [PostSaveDraft(BodyOf(v.session))] + (if created.Ok? then [PostPublish(created.data.id)] else [])
    ensures !r.loading && r.isOwnSession == v.isOwnSession && r.saving == v.saving
    ensures r.session == v.session && r.success == v.success && r.scheduled == v.scheduled
    ensures created.Err? ==> r.error == ErrorMessage(created.error, PublishFailedMessage) && r.navigated == v.navigated
    ensures created.Ok? && published.Err? ==> r.error == ErrorMessage(published.error, PublishFailedMessage) && r.navigated == v.navigated
    ensures created.Ok? && published.Ok? ==> r.error == v.error && r.navigated == Some(EditorRoute(created.data.id))
  {
    var w := v.(loading := false, calls := v.calls + [PostSaveDraft(BodyOf(v.session))]);
    if created.Err? then w.(error := ErrorMessage(created.error, PublishFailedMessage))
    else
      var w' := w.(calls := w.calls + [PostPublish(created.data.id)]);
      if published.Err? then w'.(error := ErrorMessage(published.error, PublishFailedMessage))
      else w'.(navigated := Some(EditorRoute(created.data.id)))
  }

  /**
   * `handleSaveDraft`. A blank title only sets the title message. With an
   * id: a PUT of the content fields, adopting the returned record. Without
   * one: create the draft and navigate to its editor.
   */
  function DraftSaved(v: View, routeId: Option<int>, put: Response<Record>, created: Response<Record>): (r: View)
    ensures Coherent(routeId, v) ==> Coherent(routeId, r)
    ensures r.isOwnSession == v.isOwnSession && r.saving == v.saving && r.scheduled == v.scheduled
    ensures IsBlank(v.session.title) ==> r == v.(error := SaveTitleMessage)
    ensures !IsBlank(v.session.title) ==> !r.loading
    ensures !IsBlank(v.session.title) && routeId.Some? ==>
      && r.calls == v.calls + [PutSession(routeId.value, BodyOf(v.session))]
      && r.navigated == v.navigated
      && (if put.Ok? then r.session == AsDoc(put.data) && r.success == DraftSavedMessage && r.error == v.error
          else r.session == v.session && r.success == v.success && r.error == ErrorMessage(put.error, SaveFailedMessage))
    ensures !IsBlank(v.session.title) && routeId.None? ==>
      && r.calls == v.calls + [PostSaveDraft(BodyOf(v.session))]
      && r.session == v.session && r.success == v.success
      && (if created.Ok? then r.navigated == Some(EditorRoute(created.data.id)) && r.error == v.error
          else r.navigated == v.navigated && r.error == ErrorMessage(created.error, SaveFailedMessage))
  {
    if IsBlank(v.session.title) then v.(error := SaveTitleMessage)
    else if routeId.Some? then
      var w := v.(loading := false, calls := v.calls + [PutSession(routeId.value, BodyOf(v.session))]);
      if put.Err? then w.(error := ErrorMessage(put.error, SaveFailedMessage))
      else w.(session := AsDoc(put.data), success := DraftSavedMessage)
    else
      var w := v.(loading := false, calls := v.calls + [PostSaveDraft(BodyOf(v.session))]);
      if created.Err? then w.(error := ErrorMessage(created.error, SaveFailedMessage))
      else w.(navigated := Some(EditorRoute(created.data.id)))
  }

  /**
   * A publish without an id whose create succeeds and whose publish call
   * fails leaves the form as it was, shows the error and does not
   * navigate, although a draft was created under the returned id.
   */
  lemma CompositePublishPartialFailure(v: View, d: Record, e: HttpError, refetch: Response<seq<Record>>)
    requires !IsBlank(v.session.title)
    ensures var r := Published(v, None, Ok(d), Err(e), refetch);
      && r.calls == v.calls + [PostSaveDraft(BodyOf(v.session)), PostPublish(d.id)]
      && r.session == v.session && r.navigated == v.navigated
      && r.error == ErrorMessage(e, PublishFailedMessage)
  {
  }

  class SessionEditor {
    /** The `:id` route parameter. */
    const routeId: Option<int>
    var session: Doc
    var loading: bool
    var saving: bool
    var error: string
    var success: string
    var isOwnSession: bool
    var navigated: Option<Route>
    var scheduled: Option<Route>
    var calls: seq<Call>

    function State(): View
      reads this
    {
      View(session, loading, saving, error, success, isOwnSession, navigated, scheduled, calls)
    }

    ghost predicate Valid()
      reads this
    {
      Coherent(routeId, State())
    }

    constructor (routeId: Option<int>)
      ensures Valid() && this.routeId == routeId && State() == Initial
    {
      this.routeId := routeId;
      session := EmptyDraft;
      loading, saving := false, false;
      error, success := "", "";
      isOwnSession := true;
      navigated, scheduled := None, None;
      calls := [];
    }

    method Load(mine: Response<seq<Record>>, public: Response<seq<Record>>)
      requires Valid()
      modifies this
      ensures Valid()
      ensures State() == Loaded(old(State()), routeId, mine, public)
    {
      if routeId.None? {
        return;
      }
      var id := routeId.value;
      loading := true;
      calls := calls + [GetMySessions];
      match mine {
        case Err(_) =>
          error := LoadFailedMessage;
          loading := false;
        case Ok(own) =>
          var found := FindById(own, id);
          if found.Some? {
            session := AsDoc(found.value);
            isOwnSession := true;
            loading := false;
          } else {
            isOwnSession := false;
            calls := calls + [GetPublicSessions];
            match public {
              case Err(_) =>
                error := LoadFailedMessage;
                loading := false;
              case Ok(list) =>
                var pub := FindById(list, id);
                if pub.Some? {
                  session := AsDoc(pub.value);
                } else {
                  error := NotFoundMessage;
                }
                loading := false;
            }
          }
      }
    }

    /**
     * `handleChange`: replaces one field, clears the error, and returns the
     * argument handed to this render's debounced autosave, if it is called.
     */
    method HandleChange(f: Field, value: string) returns (autoSaveArg: Option<Doc>)
      requires Valid()
      modifies this`session, this`error
      ensures Valid()
      ensures State() == old(State()).(session := WithField(old(session), f, value), error := "")
      ensures autoSaveArg == if routeId.Some? && isOwnSession then Some(session) else None
    {
      session := WithField(session, f, value);
      error := "";
      autoSaveArg := if routeId.Some? && isOwnSession then Some(session) else None;
    }

    /**
     * The debounced autosave body, run when its timer fires with the last
     * argument it was called with; `capturedOwn` is the ownership flag of
     * the render that created that debouncer. Failures are only logged.
     */
    method AutoSave(arg: Doc, capturedOwn: bool, put: Response<Record>)
      requires Valid()
      modifies this`calls, this`saving, this`success
      ensures Valid()
      ensures var c := AutoSaveCall(arg, routeId, capturedOwn);
        && calls == old(calls) + (if c.Some? then [c.value] else [])
        && success == (if c.Some? && put.Ok? then AutoSavedMessage else old(success))
        && saving == (if c.Some? then false else old(saving))
    {
      var c := AutoSaveCall(arg, routeId, capturedOwn);
      if c.None? {
        return;
      }
      saving := true;
      calls := calls + [c.value];
      if put.Ok? {
        success := AutoSavedMessage;
      }
      saving := false;
    }

    method Publish(created: Response<Record>, published: Response<Record>, refetch: Response<seq<Record>>)
      requires Valid()
      modifies this
      ensures Valid()
      ensures State() == Published(old(State()), routeId, created, published, refetch)
    {
      if IsBlank(session.title) {
        error := PublishTitleMessage;
        return;
      }
      loading := true;
      if routeId.Some? {
        PublishExisting(routeId.value, published, refetch);
      } else {
        CreateAndPublish(created, published);
      }
    }

    method PublishExisting(id: int, published: Response<Record>, refetch: Response<seq<Record>>)
      modifies this
      ensures State() == PublishedExisting(old(State()), id, published, refetch)
    {
      calls := calls + [PostPublish(id)];
      if published.Err? {
        error := ErrorMessage(published.error, PublishFailedMessage);
        loading := false;
        return;
      }
      calls := calls + [GetMySessions];
      match refetch {
        case Ok(list) =>
          var found := FindById(list, id);
          if found.Some? {
            session := AsDoc(found.value);
          } else {
            session := session.(status := "PUBLISHED");
          }
        case Err(_) =>
          session := session.(status := "PUBLISHED");
      }
      success := PublishedMessage;
      scheduled := Some(MySessionsRoute);
      loading := false;
    }

    method CreateAndPublish(created: Response<Record>, published: Response<Record>)
      modifies this
      ensures State() == PublishedNew(old(State()), created, published)
    {
      calls := calls + [PostSaveDraft(BodyOf(session))];
      if created.Err? {
        error := ErrorMessage(created.error, PublishFailedMessage);
        loading := false;
        return;
      }
      calls := calls + [PostPublish(created.data.id)];
      if published.Err? {
        error := ErrorMessage(published.error, PublishFailedMessage);
        loading := false;
        return;
      }
      navigated := Some(EditorRoute(created.data.id));
      loading := false;
    }

    method SaveDraft(put: Response<Record>, created: Response<Record>)
      requires Valid()
      modifies this
      ensures Valid()
      ensures State() == DraftSaved(old(State()), routeId, put, created)
    {
      if IsBlank(session.title) {
        error := SaveTitleMessage;
        return;
      }
      loading := true;
      if routeId.Some? {
        calls := calls + [PutSession(routeId.value, BodyOf(session))];
        if put.Err? {
          error := ErrorMessage(put.error, SaveFailedMessage);
        } else {
          session := AsDoc(put.data);
          success := DraftSavedMessage;
        }
      } else {
        calls := calls + [PostSaveDraft(BodyOf(session))];
        if created.Err? {
          error := ErrorMessage(created.error, SaveFailedMessage);
        } else {
          navigated := Some(EditorRoute(created.data.id));
        }
      }
      loading := false;
    }
  }
}
