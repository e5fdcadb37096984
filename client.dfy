/**
 * Values the browser client exchanges with the backend: the session record
 * as the JSON API returns it, the editor's in-memory document, request
 * bodies, the backend calls the pages issue, and settled responses.
 */
module Client {
  import opened Wrappers
  import opened Text

  /** A session as the API serialises it; `status` is the enum name ("DRAFT" or "PUBLISHED"). */
  datatype Record = Record(id: int, title: string, description: string, tags: string, jsonFileUrl: string, status: string)

  /** The editor's document: `id` is absent until the backend has assigned one. */
  datatype Doc = Doc(id: Option<int>, title: string, description: string, tags: string, jsonFileUrl: string, status: string)

  /** The body of `PUT /my-sessions/{id}` and `POST /my-sessions/save-draft`. */
  datatype Body = Body(title: string, description: string, tags: string, jsonFileUrl: string)

  /** A backend call as issued by a page, through the shared transport. */
  datatype Call =
    | GetMySessions
    | GetPublicSessions
    | PutSession(id: int, body: Body)
    | PostSaveDraft(body: Body)
    | PostPublish(sessionId: int)
    | DeleteSession(id: int)

  /** A rejected call: `status` is absent when no response arrived, `message` is `response.data.message`. */
  datatype HttpError = HttpError(status: Option<int>, message: Option<string>)

  /** How an awaited backend call settles. */
  datatype Response<+T> = Ok(data: T) | Err(error: HttpError)

  /** Where a page navigates. */
  datatype Route = EditorRoute(id: int) | MySessionsRoute

  function AsDoc(r: Record): (d: Doc)
    ensures d.id == Some(r.id) && d.status == r.status
    ensures d.title == r.title && d.description == r.description && d.tags == r.tags && d.jsonFileUrl == r.jsonFileUrl
  {
    Doc(Some(r.id), r.title, r.description, r.tags, r.jsonFileUrl, r.status)
  }

  /** The four content fields the editor sends; neither the id nor the status is sent. */
  function BodyOf(d: Doc): (b: Body)
    ensures b.title == d.title && b.description == d.description && b.tags == d.tags && b.jsonFileUrl == d.jsonFileUrl
  {
    Body(d.title, d.description, d.tags, d.jsonFileUrl)
  }

  /** `list.find(s => s.id === id)`: the first record with that id, if any. */
  function FindById(list: seq<Record>, id: int): (r: Option<Record>)
    ensures r.Some? <==> exists i :: 0 <= i < |list| && list[i].id == id
    ensures r.Some? ==> exists i :: 0 <= i < |list| && list[i] == r.value && r.value.id == id && forall j :: 0 <= j < i ==> list[j].id != id
  {
    if list == [] then None
    else if list[0].id == id then Some(list[0])
    else
      var r := FindById(list[1..], id);
      assert forall i :: 0 < i < |list| ==> list[i] == list[1..][i - 1];
      r
  }

  /** `err.response?.data?.message || fallback`: the backend's message unless it is absent or empty. */
  function ErrorMessage(e: HttpError, fallback: string): (m: string)
    ensures e.message.Some? && e.message.value != "" ==> m == e.message.value
    ensures e.message.None? || e.message.value == "" ==> m == fallback
  {
    match e.message
    case Some(msg) => if msg != "" then msg else fallback
    case None => fallback
  }

  /**
   * The status badge of the editor and of the sessions list:
   * `status?.toLowerCase() === 'published'`.
   */
  predicate ShowsPublished(status: string) {
    ToLowerCase(status) == "published"
  }

  /** The badge reads Published exactly for the nine letters of "published" in any mix of cases. */
  lemma {:induction false} ShowsPublishedIffCaseInsensitive(status: string)
    ensures ShowsPublished(status) <==>
      |status| == 9 && forall i :: 0 <= i < 9 ==> status[i] == "published"[i] || status[i] == "PUBLISHED"[i]
  {
    var lower := ToLowerCase(status);
    if |status| == 9 {
      forall i | 0 <= i < 9
        ensures lower[i] == "published"[i] <==> status[i] == "published"[i] || status[i] == "PUBLISHED"[i]
      {
        LowerCharIsLetter(status[i], "published"[i]);
      }
    }
  }

  /** The enum names the backend sends, and the editor's initial "draft", read as the badge shows them. */
  lemma BadgeOfKnownStatuses()
    ensures ShowsPublished("PUBLISHED") && ShowsPublished("published")
    ensures !ShowsPublished("DRAFT") && !ShowsPublished("draft")
  {
    ShowsPublishedIffCaseInsensitive("PUBLISHED");
    ShowsPublishedIffCaseInsensitive("published");
    assert ToLowerCase("DRAFT")[0] == 'd';
  }
}
