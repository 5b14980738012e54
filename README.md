# Session layer and navigation guard of the shop client

This project models the two parts of the browser client that carry rules:

- **`src/net/index.js`** — the session token kept under the key `access_token` in two
  browser storages (`localStorage`, durable; `sessionStorage`, tab-lifetime), lazy expiry
  on read, the bearer header attached to requests, the classification of the server's
  `{code, data, message}` envelope into success / failure / error, and `login` / `logout`
  built on these (module `Net`, file `net.dfy`).
- **`src/router/index.js`** — the literal route table and the `beforeEach` guard that
  sends unauthenticated users to `/welcome` and authenticated users away from the
  `welcome*` pages to `/home` (module `Router`, file `router.dfy`).

`wrappers.dfy` holds the `Option` type both use.

The two storages are the fields of the class `Net.TokenStore`; its methods update them in
place, and each states its new state as a function (`Stored`, `Cleared`, `ReadToken`) of
the old one. The request functions, `login`, `logout` and `isUnauthorizedToken` are
methods over a `TokenStore`. The clock (`new Date()`) is an `int` argument `now`; the
server's answer to a request is an input `Response` (`TransportError` for anything that
makes axios reject, `Envelope(code, data, message)` otherwise). The guard is specified by
the function `Router.Guard`, which threads the storage state because its token checks can
evict an expired token, and is implemented by the method `Router.BeforeEach`, which calls
`IsUnauthorizedToken` exactly where the `&&` chains of the source do.

Behaviour the model keeps as the code has it:

- `logout` clears the token only when the logout request answers `code == 200`; on a
  failure or a transport error the token stays (and only an expiry noticed while signing
  the request removes it).
- `storeToken` writes one storage and leaves the other as it was; a durable entry left
  behind shadows a later session-scoped login (`StaleDurableShadowsSession`).
- `login` stores the `expire` the server sends, with no fallback value; the only stored
  key is `access_token`; the only request verbs are `post` and `get`.
- `getToken` returns the stored token even when it is the empty string, while
  `getAccessHeader` and `isUnauthorizedToken` test JavaScript truthiness, so an empty
  token is sent as no header and counts as unauthenticated (`Net.Truthy`).
- `login` posts with only a `Content-Type` header; it does not read the token, so it never
  evicts.

## Model

| member | source | states |
|---|---|---|
| Net.Stored | src/net/index.js:18-23 | the remembered entry goes to durable storage only, otherwise to session storage only; the other storage keeps what it held |
| Net.ReadToken | src/net/index.js:30-43 | durable storage is consulted first and session storage only when durable holds nothing; an expired selected entry gives absent and empties both storages, even when the other held a valid entry; a valid one gives its token and changes nothing; nothing stored gives absent and changes nothing |
| Net.ReadIdempotent | src/net/index.js:30-43 | a second read at the same instant returns the same token and leaves the same state |
| Net.AbsenceIsSticky | src/net/index.js:32-41 | once a read reports absent, a read at any instant reports absent and changes nothing |
| Net.UnauthenticatedIsSticky | src/net/index.js:95-97 | once the token is falsy (absent or empty), it is falsy at any instant until something is stored |
| Net.StoreThenRead | src/net/index.js:18-42 | storing and then reading before the expiry returns the stored token, when the stored entry is the one the read selects |
| Net.StoredTokenExpires | src/net/index.js:18-38 | once the clock reaches the stored expiry, the read reports absent and both storages end empty, when the stored entry is the one the read selects |
| Net.StaleDurableShadowsSession | src/net/index.js:18-31 | a session-scoped store is invisible while a durable entry exists; an expired durable entry takes the fresh session entry with it on eviction |
| Net.TokenStore.StoreToken | src/net/index.js:18-23 | the storages afterwards are `Stored` of the storages before |
| Net.TokenStore.DeleteToken | src/net/index.js:25-28 | both storages are empty afterwards whatever they held, so a second call changes nothing |
| Net.TokenStore.GetToken | src/net/index.js:30-43 | returns the token and leaves the state that `ReadToken` gives for the state before |
| Net.BearerHeader | src/net/index.js:46-49 | the header has an `Authorization` key exactly when the token is truthy, and no other key |
| Net.BearerRoundTrip | src/net/index.js:46-49 | stripping `Bearer ` from the header gives back exactly the truthy token, and nothing when the token is absent or empty |
| Net.GetAccessHeader | src/net/index.js:46-49 | the header is built from the token the read returns, and the storages are left as the read leaves them |
| Net.Classify | src/net/index.js:52-64 | `code == 200` ends in success with the payload, any other code in failure with url, code and message, a transport rejection in error with its cause; exactly one of the three |
| Net.Post | src/net/index.js:67-69 | the POST carries the bearer header of the token read at that instant and its outcome is the classification of the response |
| Net.Get | src/net/index.js:70-72 | the GET carries the bearer header of the token read at that instant and its outcome is the classification of the response |
| Net.Login | src/net/index.js:75-83 | the credentials go form-encoded to `/auth/login` without a bearer header; on success the server's token and expiry are stored in the scope `remember` picks, otherwise storage is untouched |
| Net.Logout | src/net/index.js:86-92 | a signed GET to `/auth/logout`; both storages are cleared on success only, after which no read finds a token; on failure the storages are as the signing read left them, and exactly as before when the token was still valid |
| Net.IsUnauthorizedToken | src/net/index.js:95-97 | true exactly when the read returns no truthy token, with the read's effect on storage |
| Net.LoginAuthenticates | src/net/index.js:75-83 | after a successful login whose entry is selected, the user is authenticated until the expiry, provided the server's token is non-empty |
| Router.UserLayoutChildren | src/router/index.js:33-79 | the user layout's children declare no meta, have no children, and their names and paths do not start with `w`; only `home` has a path starting with `h` |
| Router.AdminLayoutChildren | src/router/index.js:80-101 | the admin layout's children declare no meta, have no children, and their names and paths do not start with `w` |
| Router.WelcomeChildren | src/router/index.js:15-31 | the `/welcome` children are named leaves without meta |
| Router.ChildRecord | src/router/index.js:6-102 | every child record in the table is a named leaf without meta |
| Router.ChainShape | src/router/index.js:6-102 | every matched chain is a top-level record, possibly followed by one of its children, and its full path is the joined paths |
| Router.PathShape | src/router/index.js:6-102 | full paths under `/welcome` start with `/w`, under `/admin` with `/a`, and under the user layout with `/` followed by the child's path |
| Router.ProtectedIffNotWelcome | src/router/index.js:33-101 | `requiresAuth` is inherited from the layouts: every matched chain is protected exactly when it is not under `/welcome`, exactly when its last record's name (if any) does not start with `welcome` |
| Router.RulesDisjoint | src/router/index.js:105-111 | for any target of the table the two redirect conditions never hold together |
| Router.WelcomePathIsPublic | src/router/index.js:11-32 | the records at `/welcome` are `welcome` and `welcome-login`, and none requires authentication |
| Router.HomePathIsHomeRecord | src/router/index.js:33-42 | the only record at `/home` is `home`, protected and not a `welcome` name |
| Router.Guard | src/router/index.js:105-112 | reads the token where the `&&` chains do (once when a matched record requires auth, once more when the `welcome` name test is reached); decides redirect to `/welcome` when a matched record requires auth and the token is falsy, otherwise redirect to `/home` for a `welcome` name with a truthy token, otherwise allow; storage changes only as one token read when either test reads it |
| Router.BeforeEach | src/router/index.js:105-112 | the decision and new storage state are those of `Guard` on the old state |
| Router.WelcomeNeverRedirectsToWelcome | src/router/index.js:105-108 | whatever is stored, the page at `/welcome` is never redirected to `/welcome` |
| Router.HomeNeverRedirectsToHome | src/router/index.js:109-110 | whatever is stored, the page at `/home` is never redirected to `/home` |
| Router.WelcomeRedirectSettles | src/router/index.js:105-112 | after a redirect to `/welcome`, the page there is allowed at whatever instant it is checked, as long as nothing is stored in between |
| Router.HomeRedirectSettles | src/router/index.js:105-112 | after a redirect to `/home`, the page there is allowed at the same instant |
| Router.RedirectTargetsExist | src/router/index.js:11-41 | `/welcome` and `/home` are full paths of chains in the table |

## Left out

- Toast messages (`ElMessage`) and `console.warn`/`console.error` in `defaultFailure`, `defaultError`, `getToken`, `login` and `logout`: user-interface side channels with no effect on state.
- The choice of failure handler (`defaultFailure` or a caller's) and of error handler: the model returns which outcome a request ends in and with which arguments, not the callback objects.
- axios, promises and `.then`/`.catch` chaining: the response is an input value; an exception thrown inside a success or failure callback and caught by `.catch` is not modelled.
- A response body without an object envelope: the model's `Envelope` always carries an integer `code`; a body that makes the callback throw is modelled as `TransportError`.
- `JSON.stringify`/`JSON.parse` of the stored entry: the entry is a record; malformed stored JSON, which would throw in `getToken`, is not modelled.
- JavaScript coercion in `tokenObj.expire <= new Date()`: expiry and clock are integers, so a missing `expire` (which never compares as expired in the source) is not modelled.
- Router.Guard: both token reads of one navigation use the same clock value `now`.
- Route names that are symbols, vue-router path matching, `createWebHistory`, lazy component imports, and the `/` to `/home` redirect entry (resolved by vue-router before any guard runs): a target is given by its name and matched records.
- `src/main.js`: application bootstrap and the axios base URL, no logic.
