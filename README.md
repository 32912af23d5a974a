# Mergington High School activity sign-up: a Dafny model

This project models the two pieces of the activity sign-up system that hold logic.

**The server** (`src/app.py`) keeps two tables in memory:

- a registry of activities, each with an ordered list of participant emails;
- a table of teacher sessions, which maps a token to a username.

It has five handlers:

- `require_teacher`: the teacher check that the two mutations depend on;
- `teacher_login`;
- `teacher_logout`;
- `signup_for_activity`;
- `unregister_from_activity`.

Every refusal has a fixed status and detail: 403, 401, 404 or 400.

**The browser client** (`src/static/app.js`) keeps a teacher session. The session is a token and a username, mirrored to two persisted keys. The client has:

- the login and logout handlers;
- the sign-up and unregister handlers, which interpret the server's reply;
- the rendering of the fetched activities into cards and a selector.

Module `Registry` (`registry.dfy`) models the server. Each handler is a pure transition function that gives the reply and the new table. Class `Server` holds the two tables and changes them in place. Each of its methods is proved to agree with its function. The properties are lemmas about the functions:

- error paths leave everything unchanged;
- checks happen in the source's order;
- participant lists stay free of duplicates;
- logout is idempotent and undoes a login;
- unregister undoes a sign-up;
- the capacity is never consulted.

Module `ActivityClient` (`client.dfy`) models the client. Class `Client` holds the session, the persisted keys, the rendered list and the selector options. Its handlers take the server's reply as an input: ok, a status with an optional detail, or a thrown error. Each handler returns what it did (an `Effect`):

- the request it sent, if any;
- the banner it showed;
- whether it asked for the list to be fetched again.

`Client.Valid()` states that the session in memory is the one a page reload would read back from storage. Every handler preserves it. The module `Wrappers` holds the `Option` type used on both sides.

The client's session is in one of two states. It is logged in when the token is non-empty:

- page load starts it from storage;
- an accepted login logs it in;
- a logout logs it out;
- a 403 reply to a sign-up or unregister request logs it out.

A 403 reply does not fetch the list again: the handler clears the session and calls `updateAuthUI`, which updates the login controls, the sign-up form and the teacher-required notice, but does not fetch or redraw the list. So the remove controls that were drawn in teacher mode stay on screen. The model keeps this behaviour, which follows the code (`HandleUnregister` and `HandleSignup` leave `list` alone, and their `Effect` has `refresh == false`). The list is not re-rendered in logged-out mode until the next fetch. A stale remove control is harmless: `HandleUnregister` sends nothing when logged out.

## Model

| member | source | states |
|---|---|---|
| `Registry.InitialActivities` | src/app.py:56-111 | The nine seeded activities; every participant list is free of duplicates. |
| `Registry.FirstIndex` | src/app.py:200 | The position of the first occurrence of the email: it holds the email, and no earlier position does. |
| `Registry.RemoveFirst` | src/app.py:200 | `list.remove` on a list that holds the email: exactly the first occurrence is cut out, and the order of the rest is kept. An absent email leaves the list as it is. |
| `Registry.RemoveFirstShrinks` | src/app.py:193-200 | Removing a listed email shortens the list by exactly one and takes one copy of it out of the multiset. |
| `Registry.RemoveFirstKeepsNoDuplicates` | src/app.py:193-200 | Removing from a duplicate-free list gives a duplicate-free list that no longer holds the email. |
| `Registry.AppendKeepsNoDuplicates` | src/app.py:163-171 | Appending an email not yet listed keeps the list duplicate-free. |
| `Registry.RemoveFirstOfAppended` | src/app.py:171-200 | Removing an email that was just appended, and was not listed before, gives the original list back. |
| `Registry.RequireTeacher` | src/app.py:46-53 | Succeeds exactly when the token header is present, non-empty and a key of the session table, and then returns that session's username; otherwise 403 "Teacher login is required for this action". |
| `Registry.Login` | src/app.py:124-138 | Succeeds exactly when the username is a teacher and the password equals the stored one, so an unknown username always fails. A failure is 401 and leaves the sessions unchanged. A success maps the new token to the username, returns that token and username, and keeps every other session. |
| `Registry.Logout` | src/app.py:141-146 | Removes the token exactly when it is present and non-empty; every other session is kept with its username. |
| `Registry.Signup` | src/app.py:149-175 | Checks in order: 403 from the teacher check, then 404 for an unknown activity, then 400 for an email already listed. Succeeds exactly when all three pass. An error leaves the registry unchanged. A success appends the email at the end of that activity's list only and reports the acting teacher. |
| `Registry.Unregister` | src/app.py:178-204 | Checks in order: 403, then 404, then 400 when the email is not listed. Succeeds exactly when all three pass. An error leaves the registry unchanged. A success removes the first occurrence of the email from that activity only, and the list shrinks by one. |
| `Registry.LogoutIdempotent` | src/app.py:141-146 | Logging out twice with the same token equals logging out once. |
| `Registry.LogoutUndoesLogin` | src/app.py:131-146 | Logging out with the fresh, non-empty token that a successful login issued restores the session table. |
| `Registry.UnregisterUndoesSignup` | src/app.py:149-204 | After a successful sign-up, unregistering the same email succeeds and gives back the registry as it was. |
| `Registry.SignupKeepsWellFormed` | src/app.py:163-171 | Sign-up keeps every participant list duplicate-free. |
| `Registry.UnregisterKeepsWellFormed` | src/app.py:192-200 | Unregister keeps every participant list duplicate-free, and the removed email is no longer listed. |
| `Registry.SignupIgnoresCapacity` | src/app.py:149-175 | The sign-up reply does not depend on the activity's `max_participants`. |
| `Registry.Server.constructor` | src/app.py:42-111 | The server starts with the given teachers, the seeded registry and no sessions, and its invariant holds. |
| `Registry.Server.TeacherLogin` | src/app.py:124-138 | Changes only the session table; the reply and the new table are those of `Login`. |
| `Registry.Server.TeacherLogout` | src/app.py:141-146 | Always answers "Logged out"; the new session table is that of `Logout`. |
| `Registry.Server.SignupForActivity` | src/app.py:149-175 | Changes only the registry and keeps it duplicate-free; the reply and the new registry are those of `Signup`. |
| `Registry.Server.UnregisterFromActivity` | src/app.py:178-204 | Changes only the registry and keeps it duplicate-free; the reply and the new registry are those of `Unregister`. |
| `ActivityClient.IsTeacherLoggedIn` | src/static/app.js:25-27 | Teacher mode holds exactly when the token is non-empty. |
| `ActivityClient.AuthHeaders` | src/static/app.js:29-31 | The header map is empty exactly when logged out; otherwise it holds only `X-Teacher-Token` mapped to the token. |
| `ActivityClient.ServerReadsClientSession` | src/static/app.js:29-31 | The server's teacher check refuses a logged-out client's headers with 403. A logged-in client's headers pass it exactly when the server holds a session for that token, and then it acts as that session's teacher. |
| `ActivityClient.TrimStart` | src/static/app.js:77 | Drops exactly the leading whitespace: the result is a suffix, everything dropped is whitespace, and a non-empty result starts with a non-whitespace character. |
| `ActivityClient.TrimEnd` | src/static/app.js:77 | Drops exactly the trailing whitespace, symmetrically. |
| `ActivityClient.TrimmedIsCut` | src/static/app.js:77 | Trimming the start and then the end leaves the slice of the input that begins after the leading whitespace, with only whitespace after it. |
| `ActivityClient.Trim` | src/static/app.js:77 | The trimmed username is a slice of the input, and everything before and after that slice is whitespace. It is empty exactly when the input is all whitespace; otherwise it starts and ends with a non-whitespace character, so exactly the leading and trailing whitespace is cut. |
| `ActivityClient.OrElse` | src/static/app.js:97 | `detail || fallback`: a present, non-empty detail is shown as it is, and otherwise the fallback is shown. |
| `ActivityClient.React` | src/static/app.js:229-245 | A 403 reply, and only a 403, clears the session and shows the detail or "Teacher login required.". An ok reply, and only an ok reply, triggers a refresh with a success banner holding the reply's message. Any other status shows the detail or "An error occurred". A thrown request shows the handler's failure text. |
| `ActivityClient.Rows` | src/static/app.js:156-171 | One row per participant, in order, each with a remove control exactly in teacher mode. |
| `ActivityClient.CardFor` | src/static/app.js:148-183 | The card's spots left plus the participant count equals `max_participants`. It has one row per participant, in order, and each row has a remove control exactly in teacher mode. |
| `ActivityClient.CardsFor` | src/static/app.js:148-190 | One card per fetched activity, in the reply's order. |
| `ActivityClient.OptionsFor` | src/static/app.js:144-190 | The selector is the placeholder option followed by one option per activity, in order, whose value and text are the activity's name. |
| `ActivityClient.RemoveControlsOnlyInTeacherMode` | src/static/app.js:161-167 | Every participant row of every rendered card has a remove control exactly in teacher mode. |
| `ActivityClient.SpotsFollowChanges` | src/static/app.js:152-153 | A successful sign-up lowers the spots shown for that activity by one, and a successful unregister raises them by one. |
| `ActivityClient.FullActivityStillAcceptsSignup` | src/static/app.js:152-153 | A full or overfull activity still accepts a new student, because the server does not check capacity. The client then shows a negative number of spots. |
| `ActivityClient.Client.constructor` | src/static/app.js:22-23 | At page load the token and username are read from the persisted keys, with "" for a key that is unset, so the session matches storage. |
| `ActivityClient.Client.ClearTeacherSession` | src/static/app.js:43-48 | Empties the token and the username and unsets both persisted keys; afterwards the client is logged out. |
| `ActivityClient.Client.HandleTeacherLogin` | src/static/app.js:76-115 | A blank trimmed username or an empty password sends nothing and changes nothing. A rejected or thrown login changes nothing and shows the detail, "Login failed." or the failure text. An accepted login stores the returned token and username in memory and in both keys, shows the message, and asks for a refresh. |
| `ActivityClient.Client.HandleTeacherLogout` | src/static/app.js:117-134 | Sends the logout request with the current headers. Whatever the call's outcome, it clears the session and storage, shows "Logged out." and asks for a refresh. |
| `ActivityClient.Client.FetchActivities` | src/static/app.js:137-201 | A failed fetch replaces the list with the error text and leaves the selector. A fetched reply rebuilds the list as `CardsFor` in the current mode and the selector as `OptionsFor`. |
| `ActivityClient.Client.HandleUnregister` | src/static/app.js:204-259 | Logged out: shows "Teacher login is required." and sends nothing. Logged in: sends the unregister request with the token header and reacts as `React` says. Only a 403 clears the session; every other reply leaves it unchanged. |
| `ActivityClient.Client.HandleSignup` | src/static/app.js:262-319 | The same rules for the sign-up request, with the sign-up failure text. |

## Left out

- `load_teachers` (src/app.py:31-39) reads a JSON file. The teacher table is a parameter of the `Server` constructor.
- `secrets.token_urlsafe(32)` is randomness. The new token is the `newToken` parameter of `Login`. Freshness is not assumed: a reused token overwrites its session, as the dictionary assignment would. `LogoutUndoesLogin` states its round trip for a fresh, non-empty token.
- FastAPI wiring is not modelled: the app, the static mount, the `/` redirect, `GET /activities` (which returns the registry as it is) and Pydantic's request validation. A missing `email` query parameter gets a 422 from the framework before the handler runs; that is not modelled.
- Python dictionaries keep insertion order, but `Activities` is an unordered map. The client instead receives the fetched activities as an ordered sequence of entries.
- Browser I/O is not modelled: `fetch`, JSON parsing and the `localStorage` API. Replies are inputs of the handlers. Storage is a two-field record. A `detail` that is not a string (a 422 reply carries a list) is not modelled; `detail` is an optional string.
- The HTML of a card is not modelled: the description and schedule text, the "No participants yet" line and the unescaped interpolation of emails. A card keeps the values the HTML shows.
- The DOM effects are not modelled: `updateAuthUI`, the login modal and its focus, the teacher menu toggle, CSS classes, `signupForm.reset()` and the five-second `setTimeout` that hides a banner. The URL encoding of activity names and emails (`encodeURIComponent`) is not modelled either; a request keeps the raw values.
- The page's initial list and selector come from `index.html`, which is not part of this model. The constructor starts them as `Loading` and empty.
- An exception thrown midway through the rendering loop (a malformed activity record) is not modelled. Only a failed fetch or a failed parse of the reply is modelled.
- Server requests are modelled as atomic steps. FastAPI runs the plain `def` handlers and `require_teacher` in a thread pool, so two concurrent sign-ups of the same email can both pass the membership check (src/app.py:164) before either appends (src/app.py:171), leaving a duplicate. That race is not captured: the duplicate-free invariant proved by `SignupKeepsWellFormed` and kept by `Server` holds for requests handled one at a time.
- Overlapping asynchronous handlers on the client are not modelled; each handler runs to completion as one step. For example, a fetch that resolves after a later logout is not modelled. `HandleTeacherLogin`, `HandleTeacherLogout`, `HandleSignup` and `HandleUnregister` return `refresh` instead of running the fetch themselves.
- The logout call's outcome (`LogoutOutcome`) is accepted and ignored, as in the source. The contract is the same for every outcome.
