# EventGate client logic, modelled in Dafny

EventGate is a Next.js front end for listing and ticketing events. It talks to a
remote REST backend, and most of it is markup. This project models the small
amount of deterministic logic it contains and proves what that logic promises:

- **The event catalog page** (`app/events/page.js`). It filters a hard-coded list
  of six events by a case-insensitive search over title and category, and by an
  exact category chosen with a row of buttons. It also decides which button is
  highlighted and when the "No events found" state is shown.
- **The manage page** (`app/manage/page.js`). It loads the user's events from
  session storage under `userEvents`. Delete drops every event with a given id,
  writes the list back, and shows a toast.
- **The API helpers** (`lib/api.js`). There is a one-slot token store in
  `localStorage`. Protected helpers fail before any request when the token is
  missing or empty. Requests carry `Authorization: Bearer <token>`. A non-OK
  reply becomes an error whose text is `message || fallback`. `register` and
  `login` store the token. `getAll` builds a query string from its filters.
- **The sign-in callbacks** (`lib/auth.js`). `authorize` maps a login reply to a
  user record or null. `jwt` decides which backend token ends up in the session
  token, including the Google path: register, then fall back to a login with a
  fixed password. The fallback login's token is used whenever the reply carries
  one, even when the reply is not OK. `session` copies the id and token into the session.

Files, one module each:

- `Options.dfy`: Option and Result values.
- `Seqs.dfy`: `Array.prototype.filter` and subsequences, with their lemmas.
- `Text.dfy`: ASCII `toLowerCase`, `includes`, and string truthiness.
- `Catalog.dfy`: the catalog page.
- `Manage.dfy`: the manage page, as a class holding `events`, `storage` and `showToast`.
- `Backend.dfy`: requests, replies and response bodies.
- `Api.dfy`: the API helpers, with a `Client` class holding the token slot.
- `Auth.dfy`: the sign-in callbacks.

How JavaScript values are represented:

- A missing `undefined`/`null` value is `None`.
- A string is truthy when it is present and not `""`.
- `data.success` is modelled by its truthiness.
- Awaiting `fetch` and then `response.json()` is an input `Reply`. It is either
  `Answered(ok, body)` or `Failed(reason)`; the latter covers a rejected fetch
  and a body that is not JSON.
- `Client.sent` is a ghost log of every request issued. "No request was issued"
  is stated as `sent == old(sent)`.

## Model

| member | source | states |
|---|---|---|
| `Text.Lower` | app/events/page.js:81-82 | lowercasing keeps the length, maps each character on its own, and leaves no upper-case ASCII letter |
| `Text.IncludesIff` | app/events/page.js:81-82 | `hay.includes(needle)` holds exactly when `needle` occurs at some index of `hay` |
| `Catalog.FilteredEvents` | app/events/page.js:80-85 | an event is shown iff it is in the list and passes both the search test and the category test; with a non-empty category every shown event has exactly that category, case respected |
| `Catalog.FilteredIsOrderedSelection` | app/events/page.js:80 | the shown list is a subsequence of the input (order kept, nothing new), and each event occurs as often as in the input when it passes, else not at all |
| `Catalog.NoFilterShowsEverything` | app/events/page.js:81-83 | an empty term and an empty category show the whole list, in order |
| `Catalog.MatchesSearchIff` | app/events/page.js:81-82 | the search test holds iff the lowercased term occurs in the lowercased title or the lowercased category |
| `Catalog.DroppedFailsATest` | app/events/page.js:84 | an event of the list that is not shown fails the search test or the category test |
| `Catalog.ButtonCategory` | app/events/page.js:113 | a press selects "" exactly for the "All" button, and otherwise the button's own label |
| `Catalog.AllButtonDisablesCategory` | app/events/page.js:113 | after pressing "All", an event is shown iff it is in the list and passes the search test |
| `Catalog.PressHighlightsOnlyItself` | app/events/page.js:113-115 | for distinct non-empty labels, after a press exactly one button is highlighted, the one pressed |
| `Catalog.CategoryPressHighlightsOne` | app/events/page.js:87-115 | a press on any of the page's seven category buttons highlights that one button and no other |
| `Catalog.EmptyStateIff` | app/events/page.js:126 | "No events found" is shown iff no event passes both tests |
| `Catalog.InitialPageShowsAll` | app/events/page.js:77-85 | on first render all six hard-coded events are listed and the empty state is not shown |
| `Catalog.MusicButtonShowsFestival` | app/events/page.js:7-85 | pressing "Music" with no search term shows only the music festival |
| `Manage.StoredEvents` | app/manage/page.js:15 | a missing `userEvents` entry reads as the empty list; a present one as its value |
| `Manage.WithoutId` | app/manage/page.js:35 | after deleting `id` no event carries `id`, and an event remains iff it was there and has another id |
| `Manage.WithoutIdKeepsOthersInOrder` | app/manage/page.js:35 | the remaining events keep their relative order and their multiplicity; events carrying `id` occur zero times |
| `Manage.WithoutAbsentId` | app/manage/page.js:35 | deleting an id that no event carries leaves the list unchanged |
| `Manage.WithoutIdIdempotent` | app/manage/page.js:35 | deleting the same id twice gives the same list as deleting it once |
| `Manage.ManagePage.constructor` | app/manage/page.js:11-12 | the page starts with no events and the toast hidden |
| `Manage.ManagePage.Load` | app/manage/page.js:14-17 | loading sets the list to the stored `userEvents`, or `[]` when it is missing, and leaves the page in sync with storage |
| `Manage.ManagePage.Delete` | app/manage/page.js:34-38 | the list becomes the old list without `id`, storage's `userEvents` becomes that same list with other keys untouched, and the toast is visible |
| `Manage.ManagePage.HideToast` | app/manage/page.js:39 | the timer callback hides the toast and changes nothing else |
| `Manage.DeleteThenReload` | app/manage/page.js:15-37 | a reload after a delete shows exactly the list the delete left |
| `Backend.JsonPost` | lib/api.js:42-48 | a register or login request is a POST to the given path carrying the payload, with exactly the JSON content-type header and no credential |
| `Api.ErrorText` | lib/api.js:53 | the error text is the body's message when it is truthy, else the fallback; it is never empty when the fallback is not |
| `Api.Settle` | lib/api.js:50-61 | the result is OK iff the reply is OK, and then it is the parsed body unchanged; a non-OK reply gives `ErrorText`; a thrown error is rethrown |
| `Api.AuthHeaders` | lib/api.js:201-203 | the `Authorization` header is exactly "Bearer " + token, and the content type is sent exactly with a body |
| `Api.QueryParams` | lib/api.js:137-145 | `category` is appended iff it is truthy and not "All"; `search` is appended iff it is truthy; no other pair is ever appended, so no pair at all when neither applies; each value is the filter's own; `category` comes before `search` |
| `Api.Serialize` | lib/api.js:147 | the serialised query is empty iff no pair was appended |
| `Api.EventsPath` | lib/api.js:147 | the path is "/api/events" alone when no pair was appended, and "/api/events?" followed by the query otherwise |
| `Api.AllCategoryIsNoCategory` | lib/api.js:139-147 | a category of "All" gives the same request path as no category |
| `Api.Client.constructor` | lib/api.js:9-13 | a client starts with the browser flag and the stored token it is given, and no requests |
| `Api.Client.GetAuthToken` | lib/api.js:9-14 | outside a browser there is no token; in a browser it is the stored one |
| `Api.Client.SetAuthToken` | lib/api.js:19-23 | in a browser the token read back is the one just set; outside a browser nothing changes |
| `Api.Client.RemoveAuthToken` | lib/api.js:28-32 | afterwards no token is read back; outside a browser the slot is unchanged |
| `Api.Client.Logout` | lib/api.js:124-126 | afterwards no token is read back |
| `Api.Client.KeepToken` | lib/api.js:56-59 | the slot changes only on an OK reply with a truthy token, and then only in a browser |
| `Api.Client.Register` | lib/api.js:40-65 | one register request is issued; the result is `Settle` with "Registration failed"; the token is stored only on an OK reply that carries a truthy token |
| `Api.Client.Login` | lib/api.js:68-93 | one login request is issued; the result is `Settle` with "Login failed"; the token is stored only on an OK reply that carries a truthy token |
| `Api.Client.GetCurrentUser` | lib/api.js:96-121 | without a truthy token it fails with "No token found" and issues nothing; otherwise it issues one bearer-authorised GET of /api/auth/me |
| `Api.Client.GetAll` | lib/api.js:135-166 | issues one unauthenticated GET of `EventsPath(filters)` and settles with "Failed to fetch events" |
| `Api.Client.GetById` | lib/api.js:169-188 | issues one unauthenticated GET of /api/events/:id and settles with "Failed to fetch event" |
| `Api.Client.Create` | lib/api.js:191-218 | without a truthy token it fails with "Authentication required" and issues nothing; otherwise it issues one bearer-authorised POST with the event data |
| `Api.Client.Update` | lib/api.js:221-248 | without a truthy token it fails with "Authentication required" and issues nothing; otherwise it issues one bearer-authorised PUT of /api/events/:id |
| `Api.Client.Delete` | lib/api.js:251-276 | without a truthy token it fails with "Authentication required" and issues nothing; otherwise it issues one bearer-authorised DELETE of /api/events/:id |
| `Api.Client.GetUserEvents` | lib/api.js:279-304 | without a truthy token it fails with "Authentication required" and issues nothing; otherwise it issues one bearer-authorised GET of /api/events/user/my-events |
| `Api.LogoutThenCreate` | lib/api.js:124-197 | after logout a protected call fails at once with no request, in a browser or not |
| `Api.LoginThenGetUserEvents` | lib/api.js:85-290 | after a successful login, the next protected call carries the login's token |
| `Auth.AuthorizeRequest` | lib/auth.js:22-31 | `authorize` sends a POST to /api/auth/login whose body is exactly the submitted email and password, with the JSON content type and no credential |
| `Auth.Authorize` | lib/auth.js:19-50 | the result is null unless the reply is OK, `success` is truthy and a user is present; otherwise it is the user's id, name and email with the reply's token |
| `Auth.JwtCallback` | lib/auth.js:57-108 | a user's id and token are copied; a non-Google call issues nothing; on Google a successful register's truthy token wins; a refused register leads to a login with "google-oauth-user", whose truthy token is used when present; a thrown error leaves the fields already set; other claims never change |
| `Auth.SessionCallback` | lib/auth.js:109-115 | with a token, the session's user id and access token come from it; no other field changes |
| `Auth.CredentialsSessionCarriesLoginToken` | lib/auth.js:40-112 | a credentials sign-in that `authorize` accepts ends with a session holding the backend user's id and the login reply's token |
| `Auth.GoogleSessionToken` | lib/auth.js:59-112 | a Google sign-in ends with the register token, or with the fallback login's token when registration was refused, or with none |

## Left out

- JSX rendering, styling, routing and redirects are not modelled; neither are `components/Hero.jsx`, `components/Navbar.jsx` or `app/add/page.js`. The add page's only logic is `err.message || fallback`, which is the same rule as `Api.ErrorText`.
- `fetch`, `response.json()`, async ordering and out-of-order replies are not modelled. Each reply is an input to the operation that awaits it.
- `Api.Serialize`: the percent-encoding of `URLSearchParams` (section 5.2 of the WHATWG URL Standard) is a function parameter `encode`. Only the joining of `name=value` pairs with "&" is modelled.
- `Text.Lower`: models `toLowerCase` on ASCII letters only. Full Unicode case mapping is not modelled.
- Event ids on the manage page are integers. JavaScript's `!==` between ids of different types (a string id against a number) is not modelled.
- The JSON serialisation of `userEvents` in session storage is treated as an identity round trip. A stored value that is not valid JSON is not modelled, so neither is the exception it would raise.
- The API base URL and its environment fallback (lib/api.js:4, lib/auth.js:5) are left out. Request paths are relative to it.
- The provider configuration and environment fallbacks of lib/auth.js:8-18 and 117-120 are not modelled.
- The random password of the Google path (lib/auth.js:76) is an input to `Auth.JwtCallback`.
- The 2-second delay before the toast is hidden is not modelled; only the callback's effect is (`Manage.ManagePage.HideToast`).
- `console.error` logging is not modelled.
- The manage page's redirect to /login when there is no session (app/manage/page.js:19-32) is not modelled. Delete is modelled as reachable whenever the page is shown.
- A `getAll` filter that is present but not a string is not modelled. Each filter is a string or missing.
- `Auth.SessionCallback` assumes `session.user` is always present, as the sign-in library provides it. The exception from a missing one is not modelled.
