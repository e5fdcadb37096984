# WellnessFlow session core in Dafny

WellnessFlow lets a signed-in user write "wellness sessions". Each session has
a title, a description, tags, a data-file URL and a status, DRAFT or
PUBLISHED. Users keep sessions as drafts, publish them, edit and delete them,
and can read everyone's published sessions. This project models the two
layers that hold the logic, and proves properties of that model.

**Browser client.**

- `Text`: the two JavaScript string operations the client relies on, `trim`
  and `toLowerCase`.
- `Client`: the records and requests exchanged with the API, the
  `find`-by-id lookup, the error-message fallback and the status badge.
- `Debounce`: the trailing-edge debouncer around autosave.
- `Editor`: the session editor page as a class over the page's state. Its
  methods are:
  - the load effect, with its two-probe ownership lookup;
  - the field handler and its autosave;
  - publish, including the composite create-then-publish path;
  - save-draft.

  `Load`, `Publish`, `PublishExisting`, `CreateAndPublish` and `SaveDraft`
  are proved equal to pure transition functions (`Loaded`, `Published`,
  `PublishedExisting`, `PublishedNew`, `DraftSaved`), and the properties are
  proved about those functions. `HandleChange` and `AutoSave` state their
  new state directly in their postconditions.
- `SessionList`: the "My Sessions" page, with its refetch and its
  confirm-then-delete that filters the list.
- `Transport`: the shared HTTP client and the browser storage it touches.
  - The request interceptor (bearer token, cache suppression on GET) is a
    pure transform of the request configuration.
  - The response interceptor is a method on the browser state: on a 401 it
    removes the three auth keys and sends the browser to `/login`.
  - The sign-in and sign-out steps of the login, register and navigation-bar
    components are methods on the same class.

Backend calls never run. How each awaited call settles (`Ok(data)` or
`Err(error)`) is a parameter, and the calls a page issues are recorded, in
order, in a `calls` sequence.

**Server.**

- `Sessions`: the session entity, its column constraints and its
  `@PrePersist`/`@PreUpdate` hooks, and the repository finders over an
  id-keyed table.
- `SessionTable`: what each `SessionService` operation does to the table, as
  a function that gives the returned value or the RuntimeException message,
  and the table afterwards.
- `Service`: the `SessionService` class itself. It holds the table as a
  `map<int, Session>` plus the next identity value. Its methods follow the
  source's steps (find, set fields, save or delete) and are proved equal to
  the `SessionTable` functions.
- `Controller`: each handler as a decision from the authentication and the
  service outcome to an HTTP status and body.
- `Auth`: `AuthService`'s user table with unique emails, registration and
  login.
- `Backend`: the controller, the session service and the user table joined
  together. Every request keeps each session's owner a registered user.

## Model

| member | source | states |
|---|---|---|
| `Wrappers.Get` | WellnessFlow_Frontend/services/axiosInstance.js:16 | a stored key yields its value; a missing key yields nothing |
| `Text.TrimStartIsSuffix` | WellnessFlow_Frontend/pages/SessionEditor.jsx:23 | trimming the front removes exactly the longest whitespace prefix: the result is a suffix, does not start with whitespace, and everything removed was whitespace |
| `Text.TrimEndIsPrefix` | WellnessFlow_Frontend/pages/SessionEditor.jsx:23 | trimming the end removes exactly the longest whitespace suffix |
| `Text.BlankIffAllTrimmable` | WellnessFlow_Frontend/pages/SessionEditor.jsx:91-94 | `!title.trim()` holds exactly when every character of the title is ECMAScript whitespace or a line terminator (both directions) |
| `Text.LowerChar` | WellnessFlow_Frontend/pages/SessionEditor.jsx:311 | the capitals of Basic Latin and Latin-1 (A-Z, À-Þ without ×) map to the letter 32 code points higher, which is no capital; A-Z land in a-z; the Kelvin sign maps to k; every other character is unchanged in the model |
| `Text.ToLowerCase` | WellnessFlow_Frontend/pages/SessionEditor.jsx:311 | same length, with each character lower-cased in place |
| `Text.LowerCharIsLetter` | WellnessFlow_Frontend/pages/SessionEditor.jsx:311 | a character lower-cases to a given small ASCII letter exactly when it is that letter, its capital, or, for k, the Kelvin sign |
| `Text.DecimalString` | WellnessFlow_Frontend/pages/Login.jsx:23 | `localStorage.setItem` stores the user id as `String(id)`: an optional minus, present exactly for a negative id, then digits without a leading zero |
| `Text.DecimalRoundTrip` | WellnessFlow_Frontend/pages/Login.jsx:23 | `String(id)` is lossless: the stored string determines the id (shown with a reader of decimal strings that no client code has) |
| `Client.AsDoc` | WellnessFlow_Frontend/pages/SessionEditor.jsx:50 | a loaded record becomes the editor document with the same id, status and content fields |
| `Client.BodyOf` | WellnessFlow_Frontend/pages/SessionEditor.jsx:27-32 | the request body carries exactly the four content fields, and not the id or the status |
| `Client.FindById` | WellnessFlow_Frontend/pages/SessionEditor.jsx:48 | a record is found exactly when some entry has the id, and it is the first such entry |
| `Client.ErrorMessage` | WellnessFlow_Frontend/pages/SessionEditor.jsx:139 | the server's message when it is present and non-empty, otherwise the fallback |
| `Client.ShowsPublishedIffCaseInsensitive` | WellnessFlow_Frontend/pages/SessionEditor.jsx:311-315 | the badge reads Published exactly for the nine letters of "published" in any mix of upper and lower case |
| `Client.BadgeOfKnownStatuses` | WellnessFlow_Frontend/pages/MySessions.jsx:146-150 | "PUBLISHED" and "published" show Published; "DRAFT" and "draft" do not |
| `Debounce.Invoke` | WellnessFlow_Frontend/pages/SessionEditor.jsx:22-40 | a call makes its argument the one pending and sets the deadline to the call time plus the wait |
| `Debounce.Advance` | WellnessFlow_Frontend/pages/SessionEditor.jsx:22-40 | a pending argument is delivered, once, when the clock reaches its deadline; before that nothing changes |
| `Debounce.InvokeSupersedes` | WellnessFlow_Frontend/pages/SessionEditor.jsx:22 | two calls leave the state a single call with the later argument would leave |
| `Debounce.BurstLeavesLastPending` | WellnessFlow_Frontend/pages/SessionEditor.jsx:22-40 | a burst of calls, each less than the wait after the previous one, delivers nothing and leaves only the last argument pending, due one wait after the last call |
| `Debounce.BurstThenQuiet` | WellnessFlow_Frontend/pages/SessionEditor.jsx:22-40 | after such a burst from an idle debouncer, the first tick at or past the deadline delivers exactly the last argument, and an earlier tick delivers nothing |
| `Editor.SingleInstanceAutoSaveBurst` | WellnessFlow_Frontend/pages/SessionEditor.jsx:22-40 | one debouncer instance with the editor's 3000 ms wait, called at 0, 500, 1000 and 1500 ms, delivers only the last argument, at 4500 ms and not at 4499 ms; the page's per-render instances are not covered |
| `Debounce.RunAppend` | WellnessFlow_Frontend/pages/SessionEditor.jsx:22-40 | running two event traces one after the other delivers the first trace's arguments followed by the second's |
| `Debounce.Debouncer.constructor` | WellnessFlow_Frontend/pages/SessionEditor.jsx:22 | a new debouncer has the given wait and nothing pending |
| `Debounce.Debouncer.Call` | WellnessFlow_Frontend/pages/SessionEditor.jsx:22-40 | the state after a call is `Invoke` of the state before |
| `Debounce.Debouncer.AdvanceTo` | WellnessFlow_Frontend/pages/SessionEditor.jsx:22-40 | the state and the delivered argument are `Advance` of the state before |
| `Editor.WithField` | WellnessFlow_Frontend/pages/SessionEditor.jsx:78-82 | the named field gets the new value; every other field, the id and the status are kept |
| `Editor.AutoSaveCall` | WellnessFlow_Frontend/pages/SessionEditor.jsx:22-32 | a PUT is issued exactly when the title has a non-whitespace character, the route has an id and the session is owned; it carries the argument's four content fields to that id |
| `Editor.Resolve` | WellnessFlow_Frontend/pages/SessionEditor.jsx:42-76 | an id in the own list is owned; if absent there, probing the public list gives read-only or not found; a failed probe is reported as such |
| `Editor.OwnedIgnoresPublicList` | WellnessFlow_Frontend/pages/SessionEditor.jsx:46-52 | an id in the own list resolves to owned whatever the public list holds, or whether it loads at all |
| `Editor.LoadCalls` | WellnessFlow_Frontend/pages/SessionEditor.jsx:46-56 | the own list is always fetched first; the public list is fetched exactly when the id is absent from a successfully loaded own list |
| `Editor.Adopt` | WellnessFlow_Frontend/pages/SessionEditor.jsx:106-119 | after publishing, the first re-queried record with that id is adopted; if it is missing or the re-query fails, the local document with status "PUBLISHED" |
| `Editor.OwnProbeFailureAutosavesEmptyContent` | WellnessFlow_Frontend/pages/SessionEditor.jsx:20-88 | when the own list fails to load, the page stays owned and keeps the empty draft, so the first non-blank title typed is sent as a PUT with empty description, tags and file URL |
| `Editor.PublishCalls` | WellnessFlow_Frontend/pages/SessionEditor.jsx:90-131 | a blank title issues no call; an existing id gets one publish and then a re-query; no id gets a create, then a publish of the returned id |
| `Editor.PublishExistingNeverCreates` | WellnessFlow_Frontend/pages/SessionEditor.jsx:100-119 | with an id, publishing issues no create and exactly one publish call |
| `Editor.Loaded` | WellnessFlow_Frontend/pages/SessionEditor.jsx:42-76 | without a route id nothing changes; with one, the page is set by the verdict: an owned record loaded as owned, a public one read-only, "Session not found or not accessible" when no list has it, "Failed to load session" when a probe fails; loading ends; a draft without an id stays owned |
| `Editor.Published` | WellnessFlow_Frontend/pages/SessionEditor.jsx:90-143 | a blank title only sets "Please add a title before publishing" and issues no call; otherwise the calls are `PublishCalls` and loading ends; ownership is never changed |
| `Editor.PublishedExisting` | WellnessFlow_Frontend/pages/SessionEditor.jsx:100-142 | publishing an id: on success the record is adopted, the success message is shown and a return to the sessions list is scheduled; on failure only the error is shown |
| `Editor.PublishedNew` | WellnessFlow_Frontend/pages/SessionEditor.jsx:120-142 | create then publish: a failure of either call shows its error and does not navigate; success navigates to the new id's editor; the form is never replaced |
| `Editor.DraftSaved` | WellnessFlow_Frontend/pages/SessionEditor.jsx:145-184 | a blank title only sets "Please add a title to save"; with an id, a PUT whose returned record is adopted, or the error is shown; without one, a create and navigation to its editor, or the error |
| `Editor.CompositePublishPartialFailure` | WellnessFlow_Frontend/pages/SessionEditor.jsx:120-139 | when the create succeeds and the publish fails, the draft was created, yet the form is kept, the error is shown and the page does not navigate |
| `Editor.SessionEditor.constructor` | WellnessFlow_Frontend/pages/SessionEditor.jsx:9-20 | a new editor holds an empty owned draft with status "draft", no messages and no calls |
| `Editor.SessionEditor.Load` | WellnessFlow_Frontend/pages/SessionEditor.jsx:42-76 | the state after the effect is `Loaded` of the state before |
| `Editor.SessionEditor.HandleChange` | WellnessFlow_Frontend/pages/SessionEditor.jsx:78-88 | only the named field and the error change, the error being cleared; the debounced autosave gets the new document exactly when the route has an id and the session is owned |
| `Editor.SessionEditor.AutoSave` | WellnessFlow_Frontend/pages/SessionEditor.jsx:22-40 | the PUT of `AutoSaveCall` is issued, or nothing happens; "Auto-saved" is shown only when the PUT succeeds; a failure changes nothing else |
| `Editor.SessionEditor.Publish` | WellnessFlow_Frontend/pages/SessionEditor.jsx:90-143 | the state after publishing is `Published` of the state before |
| `Editor.SessionEditor.PublishExisting` | WellnessFlow_Frontend/pages/SessionEditor.jsx:100-119 | the state after the existing-id path is `PublishedExisting` of the state before |
| `Editor.SessionEditor.CreateAndPublish` | WellnessFlow_Frontend/pages/SessionEditor.jsx:120-131 | the state after the create-then-publish path is `PublishedNew` of the state before |
| `Editor.SessionEditor.SaveDraft` | WellnessFlow_Frontend/pages/SessionEditor.jsx:145-184 | the state after saving is `DraftSaved` of the state before |
| `SessionList.WithoutId` | WellnessFlow_Frontend/pages/MySessions.jsx:46 | the result holds exactly the entries whose id differs |
| `SessionList.WithoutIdAppend` | WellnessFlow_Frontend/pages/MySessions.jsx:46 | filtering distributes over concatenation, so the survivors keep their original order |
| `SessionList.WithoutIdSingleton` | WellnessFlow_Frontend/pages/MySessions.jsx:46 | one entry is kept when its id differs and dropped when it matches |
| `SessionList.WithoutIdAbsent` | WellnessFlow_Frontend/pages/MySessions.jsx:46 | a list without that id is left exactly as it was |
| `SessionList.MySessions.constructor` | WellnessFlow_Frontend/pages/MySessions.jsx:6-8 | the page mounts with an empty list, loading set and no error |
| `SessionList.MySessions.BeginFetch` | WellnessFlow_Frontend/pages/MySessions.jsx:12-15 | loading is set, the error cleared, the list emptied and the GET issued |
| `SessionList.MySessions.SettleFetch` | WellnessFlow_Frontend/pages/MySessions.jsx:16-24 | on success the list is the response data; on failure the list is kept and the error is "Failed to fetch your sessions"; loading ends either way |
| `SessionList.MySessions.FetchSessions` | WellnessFlow_Frontend/pages/MySessions.jsx:11-25 | the whole refetch: the list is the response data, or it stays empty with the error shown |
| `SessionList.MySessions.DeleteSession` | WellnessFlow_Frontend/pages/MySessions.jsx:41-51 | declined: nothing happens; confirmed: one DELETE, then the list without that id, or, on failure, the list unchanged and an alert |
| `Transport.InterceptRequest` | WellnessFlow_Frontend/services/axiosInstance.js:11-31 | with a token, the request gets a bearer Authorization header; GET gets both no-cache headers and `_t`, keeping the other params; non-GET gets neither; every other header and all other parts of the request are unchanged |
| `Transport.WithoutAuth` | WellnessFlow_Frontend/services/axiosInstance.js:54-56 | exactly the three auth keys are removed; every other key keeps its value |
| `Transport.TeardownIdempotent` | WellnessFlow_Frontend/services/axiosInstance.js:54-56 | tearing the session down twice leaves the same storage as once |
| `Transport.SessionOf` | WellnessFlow_Frontend/services/axiosInstance.js:16 | there is a signed-in session exactly when a token is stored, and it carries that token |
| `Transport.Browser.constructor` | WellnessFlow_Frontend/services/axiosInstance.js:16 | the browser starts with the given storage and location |
| `Transport.Browser.PrepareRequest` | WellnessFlow_Frontend/services/axiosInstance.js:11-31 | the request is `InterceptRequest` under the stored token, and the browser is not changed |
| `Transport.Browser.StoreSession` | WellnessFlow_Frontend/pages/Login.jsx:22-24 | the three auth keys are written, and the stored session is exactly the one just stored |
| `Transport.Browser.Logout` | WellnessFlow_Frontend/components/Navbar.jsx:5-10 | the storage loses the three auth keys and nothing else, and no session remains |
| `Transport.Browser.InterceptResponse` | WellnessFlow_Frontend/services/axiosInstance.js:39-61 | every outcome is passed on unchanged; a 401 removes the auth keys and redirects to `/login`; anything else leaves storage and location alone |
| `Sessions.StatusName` | wellnessapp/src/main/java/com/arvyax/wellnessapp/entity/Session.java:40-42 | the status is stored by its name: "DRAFT" for DRAFT, "PUBLISHED" for PUBLISHED |
| `Sessions.OnCreate` | wellnessapp/src/main/java/com/arvyax/wellnessapp/entity/Session.java:50-54 | `createdAt` takes the first clock reading and `updatedAt` the second, which may differ; nothing else changes |
| `Sessions.OnUpdate` | wellnessapp/src/main/java/com/arvyax/wellnessapp/entity/Session.java:56-59 | only `updatedAt` changes, to the clock reading; `createdAt` is preserved |
| `Sessions.Select` | wellnessapp/src/main/java/com/arvyax/wellnessapp/repository/SessionRepository.java:13-14 | exactly the matching rows with ids in the range, each once, in ascending id order |
| `Sessions.FindByStatus` | wellnessapp/src/main/java/com/arvyax/wellnessapp/repository/SessionRepository.java:13 | exactly the stored rows with that status, each once, by ascending id |
| `Sessions.FindByUserId` | wellnessapp/src/main/java/com/arvyax/wellnessapp/repository/SessionRepository.java:14 | exactly the stored rows that user owns, each once, by ascending id |
| `Sessions.FindByIdAndUserId` | wellnessapp/src/main/java/com/arvyax/wellnessapp/repository/SessionRepository.java:15 | the row with that id is returned exactly when it exists and the user owns it |
| `Sessions.FindByIdAgreesWithList` | wellnessapp/src/main/java/com/arvyax/wellnessapp/repository/SessionRepository.java:14-15 | the owner-scoped lookup finds an id exactly when the owner's list holds a session with that id |
| `SessionTable.WithContent` | wellnessapp/src/main/java/com/arvyax/wellnessapp/service/SessionService.java:35-38 | the four setters give the row the request's content and keep its id, owner, status and timestamps; the row meets the column constraints exactly when the request does (a title, at most 255 characters in title, tags and URL, at most 1000 in the description) |
| `SessionTable.Insert` | wellnessapp/src/main/java/com/arvyax/wellnessapp/service/SessionService.java:29-40 | saving a new entity assigns the next identity value, which no row has yet, and stamps both timestamps; a null title, or a string longer than its column (1000 for the description, 255 for title, tags and URL), is refused and changes nothing |
| `SessionTable.Merge` | wellnessapp/src/main/java/com/arvyax/wellnessapp/service/SessionService.java:47-48 | saving a loaded entity with no change returns it and leaves the table as it was; a changed one replaces its row under `onUpdate`, or is refused by the column constraints |
| `SessionTable.Owned` | wellnessapp/src/main/java/com/arvyax/wellnessapp/service/SessionService.java:59-62 | the user's own row with that id; a missing row and another user's row give the same "Session not found" |
| `SessionTable.SaveDraft` | wellnessapp/src/main/java/com/arvyax/wellnessapp/service/SessionService.java:21-41 | succeeds exactly when the user exists, the request has no id or one the user owns, and the content meets the column constraints; an unknown user gives "User not found", an id the user does not own gives "Session not found", and content the columns refuse a database error, each changing nothing; with no id, one new DRAFT row under the next id, owned by the user; with an id, the four content fields are overwritten and the owner, status and createdAt are kept; no other row changes |
| `SessionTable.PublishSession` | wellnessapp/src/main/java/com/arvyax/wellnessapp/service/SessionService.java:43-49 | an owned row becomes PUBLISHED with every other field but updatedAt kept; an already published row leaves the table exactly as it was; otherwise "Session not found" and nothing changes |
| `SessionTable.UpdateSession` | wellnessapp/src/main/java/com/arvyax/wellnessapp/service/SessionService.java:69-79 | succeeds exactly when the request's id names a row the user owns and the content meets the column constraints; only title, tags, URL and description are overwritten; owner, status and createdAt are kept; a missing or foreign id gives "Session not found" and refused content a database error, each changing nothing |
| `SessionTable.DeleteSession` | wellnessapp/src/main/java/com/arvyax/wellnessapp/service/SessionService.java:63-67 | exactly the user's own row with that id is removed; every other row is untouched; otherwise "Session not found" and nothing changes |
| `SessionTable.PublishedStaysPublished` | wellnessapp/src/main/java/com/arvyax/wellnessapp/service/SessionService.java:21-79 | no operation turns a published session back into a draft |
| `SessionTable.PublishIdempotent` | wellnessapp/src/main/java/com/arvyax/wellnessapp/service/SessionService.java:43-49 | publishing twice returns the same row and leaves the same table as publishing once |
| `SessionTable.DeleteThenGet` | wellnessapp/src/main/java/com/arvyax/wellnessapp/service/SessionService.java:59-67 | after a delete, the session is neither found by id nor in its owner's list |
| `SessionTable.CreatedDraftIsListed` | wellnessapp/src/main/java/com/arvyax/wellnessapp/service/SessionService.java:29-57 | a newly created draft is found by its owner by id and in their list, and it is not in the public list |
| `Service.SessionService.constructor` | wellnessapp/src/main/java/com/arvyax/wellnessapp/service/SessionService.java:16-19 | the service starts over an empty table whose identity column begins at 1 |
| `Service.SessionService.Save` | wellnessapp/src/main/java/com/arvyax/wellnessapp/service/SessionService.java:40 | an insert agrees with `Insert` and a write-back with `Merge` |
| `Service.SessionService.GetSession` | wellnessapp/src/main/java/com/arvyax/wellnessapp/service/SessionService.java:59-62 | the result is `Owned`, and the table is not changed |
| `Service.SessionService.GetPublicSessions` | wellnessapp/src/main/java/com/arvyax/wellnessapp/service/SessionService.java:51-53 | exactly the PUBLISHED rows, and the table is not changed |
| `Service.SessionService.GetMySessions` | wellnessapp/src/main/java/com/arvyax/wellnessapp/service/SessionService.java:55-57 | exactly the user's rows, and the table is not changed |
| `Service.SessionService.SaveDraft` | wellnessapp/src/main/java/com/arvyax/wellnessapp/service/SessionService.java:21-41 | the result and the new table are `SessionTable.SaveDraft` of the old table |
| `Service.SessionService.PublishSession` | wellnessapp/src/main/java/com/arvyax/wellnessapp/service/SessionService.java:43-49 | the result and the new table are `SessionTable.PublishSession` of the old table |
| `Service.SessionService.UpdateSession` | wellnessapp/src/main/java/com/arvyax/wellnessapp/service/SessionService.java:69-79 | the result and the new table are `SessionTable.UpdateSession` of the old table |
| `Service.SessionService.DeleteSession` | wellnessapp/src/main/java/com/arvyax/wellnessapp/service/SessionService.java:63-67 | the result and the new table are `SessionTable.DeleteSession` of the old table |
| `Controller.CallFor` | wellnessapp/src/main/java/com/arvyax/wellnessapp/controller/SessionController.java:113-115 | update calls the service with the request's id replaced by the path id |
| `Controller.Complete` | wellnessapp/src/main/java/com/arvyax/wellnessapp/controller/SessionController.java:20-122 | a service result is 200 with the result as body, or 204 with no body for delete; a RuntimeException is 400 for save-draft and publish, 404 for get-one, delete and update, and 500 for the two lists; any other exception is 500 |
| `Controller.Dispatch` | wellnessapp/src/main/java/com/arvyax/wellnessapp/controller/SessionController.java:30-36 | the public list always calls the service; every other endpoint answers 401 without calling it when the authentication or its principal is null; a principal that is not a user id fails its cast inside the `try` |
| `Controller.Handle` | wellnessapp/src/main/java/com/arvyax/wellnessapp/controller/SessionController.java:20-122 | unauthenticated calls to the `/my-sessions` endpoints are 401; the public list is 200 or 500 by its outcome; a success status comes exactly from a service call that returned |
| `Controller.UnauthenticatedIgnoresService` | wellnessapp/src/main/java/com/arvyax/wellnessapp/controller/SessionController.java:33-35 | without authentication the response does not depend on the service, because it is not called |
| `Controller.UpdateForcesPathId` | wellnessapp/src/main/java/com/arvyax/wellnessapp/controller/SessionController.java:114 | whatever id the body carries, the update is made for the path id |
| `Auth.Search` | wellnessapp/src/main/java/com/arvyax/wellnessapp/service/AuthService.java:22 | a user is found exactly when one in the id range has that email, and the result is that stored user |
| `Auth.FindByEmail` | wellnessapp/src/main/java/com/arvyax/wellnessapp/service/AuthService.java:22 | a user is found exactly when one has that email |
| `Auth.RegisterOutcome` | wellnessapp/src/main/java/com/arvyax/wellnessapp/service/AuthService.java:20-39 | a taken email gives "Email already exists" and adds nothing; otherwise one user is added under the next id with the encoded password, emails stay unique, and the response is that id and email with a token minted for them |
| `Auth.LoginOutcome` | wellnessapp/src/main/java/com/arvyax/wellnessapp/service/AuthService.java:41-56 | login succeeds exactly when a user has the email and the password matches its hash; an unknown email and a wrong password give the same "Invalid credentials"; success returns that user's id and email with a token for them |
| `Auth.RegisterThenLogin` | wellnessapp/src/main/java/com/arvyax/wellnessapp/service/AuthService.java:20-56 | a user just registered can log in with the same password, when the encoder's output matches that password, and gets the same id and email; the token is equal too only because minting is modelled as a function of id and email |
| `Auth.AuthService.constructor` | wellnessapp/src/main/java/com/arvyax/wellnessapp/service/AuthService.java:16-18 | the service starts over an empty user table with the given encoder and token service |
| `Auth.AuthService.Register` | wellnessapp/src/main/java/com/arvyax/wellnessapp/service/AuthService.java:20-39 | the result and the new table are `RegisterOutcome` of the old table, with a freshly salted hash |
| `Auth.AuthService.Login` | wellnessapp/src/main/java/com/arvyax/wellnessapp/service/AuthService.java:41-56 | the result is `LoginOutcome`, and the user table is not changed |
| `Backend.OutcomeOf` | wellnessapp/src/main/java/com/arvyax/wellnessapp/controller/SessionController.java:53-56 | a service failure is a RuntimeException; a success carries the returned value |
| `Backend.Run` | wellnessapp/src/main/java/com/arvyax/wellnessapp/service/SessionService.java:21-79 | the service's answer to each controller call; the three queries and every failure leave the table unchanged |
| `Backend.RunKeepsOwnersRegistered` | wellnessapp/src/main/java/com/arvyax/wellnessapp/service/SessionService.java:22-33 | no service call leaves a session whose owner is not a registered user |
| `Backend.BadgeOfStatusName` | wellnessapp/src/main/java/com/arvyax/wellnessapp/entity/Session.java:40-42 | the status name the backend sends shows the client's Published badge exactly for a PUBLISHED session |
| `Backend.App.constructor` | wellnessapp/src/main/java/com/arvyax/wellnessapp/service/SessionService.java:16-19 | the backend starts with no sessions and no users |
| `Backend.App.Serve` | wellnessapp/src/main/java/com/arvyax/wellnessapp/controller/SessionController.java:20-122 | a request answered without the service leaves the table alone; otherwise the response is `Complete` of `Run`'s outcome, and the table is `Run`'s table |
| `Backend.App.Register` | wellnessapp/src/main/java/com/arvyax/wellnessapp/service/AuthService.java:20-39 | registration agrees with `RegisterOutcome`, and every session keeps a registered owner |

## Left out

- Rendering, styling and the loading spinner of every page are not modelled.
  Navigation is modelled only as the route a page moves to.
- Time is an abstract counter. Three things take a value from the caller:
  the debouncer's clock, the `_t` value (`Date.now()`) and the entity
  timestamps (`LocalDateTime.now()`, one reading per call). The 2000 ms
  timer that returns to the list after publishing is recorded as scheduled,
  without its delay. The 2000 ms timer that clears the "Auto-saved"
  confirmation is not modelled: in the model the message stays until
  another action replaces it.
- Overlapping requests and the order they complete in are not modelled.
  Each page operation is modelled as running to completion with the given
  outcomes.
- `Editor.SessionEditor.HandleChange`: the debouncer is created again on
  every render, so edits made across renders go to different instances.
  The model proves the single-instance guarantee (`Debounce`,
  `Editor.SingleInstanceAutoSaveBurst`). It does not claim that a burst of
  edits ends in one PUT, because the code does not guarantee it: when every
  keystroke re-renders, each older instance still fires its own PUT one wait
  after its call. `AutoSave` receives the ownership flag of the render that
  produced it.
- The route id is taken as an already parsed integer. `parseInt` on a
  malformed id (NaN, which matches nothing) is not modelled.
- Client records hold strings. JSON `null` in an optional column
  (description, tags, URL) is not modelled, and neither is the `?.`
  guard on a null status.
- `Text.LowerChar`: lower-cases only the Basic Latin and Latin-1 capitals
  and the Kelvin sign. `toLowerCase` also maps the capitals of Greek,
  Cyrillic, Latin Extended and the other cased scripts, and it expands some
  characters (such as İ) into two. None of those lower-cases into a
  one-character letter of "published", so the badge is not affected.
- `Text.ToLowerCase`: inherits the range of `Text.LowerChar`, and keeps the
  length of the string, which the full mapping does not always do.
- `Sessions.ValidRow`: the 255-character limit is JPA's default column
  length for `title`, `tags` and `jsonFileUrl`; a schema created some
  other way could allow longer values.
- `console` logging and the `alert` text are not modelled. `window.confirm`
  is a boolean input, and an alert is a returned flag.
- The request interceptor changes the request configuration in place. Here
  it returns a new configuration, and `Transport.Config` has only the
  fields the interceptor reads or must keep. The error handler of the
  request interceptor only passes the error on, so it is not modelled.
- HTTP transport, Spring Security's extraction of the principal, and JPA
  transactions and persistence are not modelled. The tables are in-memory
  maps, and a loaded entity is a copy of its row, so entity objects and
  their setters are functional updates on values.
- `SessionTable.Merge`: assumes that Hibernate writes only a changed
  entity, so `onUpdate` runs only then, and that the write is refused when
  a column constraint fails. The model does not fix the text of the
  database's error, only that a RuntimeException is thrown.
- The nullability check on the owner and status columns is not modelled
  separately. The service always sets both, so it cannot fail.
- Finder results are in ascending id order. The queries have no ORDER BY,
  so the database's order is not specified; the model fixes one order. Ids
  are unbounded integers instead of `Long`.
- Email comparison is exact. A case-insensitive database collation is not
  modelled.
- `Auth.RegisterOutcome`: BCrypt encoding, BCrypt matching and JWT minting
  are uninterpreted functions, and the random salt is a parameter. Because
  the encoder is uninterpreted, the model cannot prove that the stored hash
  differs from the raw password. It proves only that the stored credential
  is the encoder's output.
- `Auth.RegisterThenLogin`: token minting is assumed deterministic in the
  user's id and email, so the login token equals the registration token.
  `JwtService` is not part of this model; a real token that stamps its
  issue and expiry times from the clock would differ between the two calls.
  Only the equal id and email do not depend on that assumption.
- The `User` entity, `UserRepository` and `JwtService` are not part of
  this model. A user is an id, an email and a password hash.
- The `SessionResponse` DTO is not used by the controller and is not
  modelled.
