# Session and request layer of the poultry-management client

This project models the client-side authentication layer of the Poultry-Management
mobile/web client, `pms-frontend/context/AuthContext.jsx`, in Dafny. The layer has three parts:

- **requestJson** builds a fetch request from the base URL, a path and caller options. It reads the
  response text and turns a 2xx response into its parsed payload. A non-2xx response becomes an error
  whose message is picked by a fixed priority.
- **authFetch** reads the token from the persistent store and adds `Authorization: Bearer <token>` to
  the caller's headers.
- **AuthProvider** holds the session state: the in-memory `token` and the `initializing` flag. It loads
  the stored token on mount and offers `signIn`, `signUp`, `signOut` and the derived `isSignedIn`.

Modules:

- `Wrappers` (wrappers.dfy): `Option` (null/undefined) and `Result` (a promise that resolves or rejects
  with a message).
- `JsValues` (json.dfy): JSON values as `JSON.parse` gives them. It also holds the parts of JavaScript
  the code relies on: truthiness, property access, and the string conversion `new Error(value)` applies.
- `Storage` (storage.dfy): the store is one map from key to string. The token lives under the fixed key
  `auth_token`.
- `Api` (api.dfy): `requestJson` and `authFetch` as pure functions of their inputs. The network's reply
  is an input, and so is what `JSON.parse` returns for the body text.
- `Auth` (auth.dfy): `AuthProvider` as a class with the fields `token`, `initializing` and `store`.
  Each storage call's outcome is a method parameter: it succeeds, or it throws a given message.

Behaviour that the model pins down:

- The `Content-Type: application/json` default is sent only when the caller gives no `headers` key.
  This is because `...options` is spread after the merged `headers` object.
- `authFetch` always passes a `headers` key. So the headers it hands to fetch carry `Content-Type` only
  when the caller sets one (`Api.AuthFetchContentTypeOnlyFromCaller`).
- `authFetch` reads the bearer token from the store, not from the in-memory session. The predicate
  `Auth.Synced` says when the two agree. A successful `Load` establishes that agreement, and `SignIn`
  and `SignOut` keep it. While they agree, the token's string form is not empty, and the caller sets no
  `Authorization` of their own, the bearer token is sent exactly when the session is signed in
  (`Auth.SyncedBearerMatchesSignedIn`).
- A `Load` whose read throws while the store already holds a token leaves the two out of step. The
  token stays null, so the session is signed out, yet `authFetch` still sends `Bearer <stored>`
  (`Auth.FailedLoadScenario`).
- A truthy array token such as `data.token = []` is stored as its string form "". The session then counts
  as signed in, but `authFetch` sends no bearer (`Auth.ArrayTokenSignedInWithoutBearer`).
- Two more verified walkthroughs drive the class. `Auth.SessionScenario` starts from an empty store, loads,
  signs in with a reply holding `{"token":"abc123"}`, and signs out. `Auth.RejectedSignInScenario` shows
  that a 401 reply with `{"message":"Invalid email or password"}` rejects with that message and leaves
  the session signed out.

Some of the code's choices could reasonably have gone the other way. The model follows the code:

- `isSignedIn` is `!!token`, so an empty-string token counts as signed out. A `token !== null` check
  would count "" as signed in.
- `signOut` does not clear the in-memory token when deleting the stored one throws. The session stays
  as it was and the call rejects. It does not clear the session regardless of the storage fault.
- A storage read that throws during the initial load still ends `initializing`. The token then keeps its
  initial `null`, and the rejection is not caught.
- The error thrown for a non-2xx response carries only a message, not the HTTP status.
- Concurrent sign-ins are not rejected. A 401 does not force a sign-out.
- `authFetch` takes the token from storage rather than from the session object.

## Model

| member | source | states |
|---|---|---|
| `JsValues.Truthy` | pms-frontend/context/AuthContext.jsx:123 | a value is falsy exactly when it is null, false, 0 or the empty string |
| `JsValues.Field` | pms-frontend/context/AuthContext.jsx:97 | for the own keys this layer reads (`message`, `error`, `token`), `v?.key` is defined exactly when `v` is an object holding `key`, and then it is that entry |
| `JsValues.NatToString` | pms-frontend/context/AuthContext.jsx:65 | the status prints as a non-empty digit string with no leading zero |
| `JsValues.NatToStringRoundTrip` | pms-frontend/context/AuthContext.jsx:65 | the printed digits read back as the same number |
| `JsValues.JsString` | pms-frontend/context/AuthContext.jsx:66 | `String(v)` keeps a string unchanged, and a truthy non-array value never prints as empty |
| `Storage.SetTokenInStorage` | pms-frontend/context/AuthContext.jsx:9-25 | a truthy token is stored as its string under `auth_token`; a falsy one removes the key; no other key changes |
| `Storage.GetTokenFromStorage` | pms-frontend/context/AuthContext.jsx:27-34 | the read yields a string exactly when `auth_token` is present, and then it is the stored string; otherwise null |
| `Storage.AsJson` | pms-frontend/context/AuthContext.jsx:80-81 | the read value adopted as the token (or tested for the bearer) is truthy exactly when a non-empty string is stored |
| `Storage.ReadAfterStore` | pms-frontend/context/AuthContext.jsx:9-34 | storing a truthy token and reading back yields its string; for a non-empty string, the token itself |
| `Storage.ReadAfterClear` | pms-frontend/context/AuthContext.jsx:9-34 | storing a falsy token deletes the key; a later read gives null and the rest of the store is unchanged |
| `Storage.LastWriteWins` | pms-frontend/context/AuthContext.jsx:9-25 | two writes in a row leave the store as the second alone would |
| `Api.ApiBaseUrl` | pms-frontend/context/AuthContext.jsx:36-38 | the base URL is the configured value when non-empty, else `http://localhost:9000`; never empty |
| `Api.FetchHeaders` | pms-frontend/context/AuthContext.jsx:44-50 | supplied headers replace the default object entirely; `Content-Type: application/json` is sent only when no headers are supplied or they contain it |
| `Api.BuildRequest` | pms-frontend/context/AuthContext.jsx:41-50 | the URL is exactly base URL followed by path; method and body pass through; headers as `FetchHeaders` |
| `Api.ParseBody` | pms-frontend/context/AuthContext.jsx:52-59 | empty or unparseable text gives null, never an error; otherwise the parsed value unchanged |
| `Api.ErrorMessage` | pms-frontend/context/AuthContext.jsx:61-66 | the message is a truthy `message` field, else a truthy `error` field, else the non-empty text; with empty text it is always `Request failed (<status>)` |
| `Api.ErrorMessageNonEmpty` | pms-frontend/context/AuthContext.jsx:61-66 | the thrown message is non-empty unless the chosen body field (a truthy `message`, else a truthy `error`) is an array |
| `Api.GenericFailureNamesStatus` | pms-frontend/context/AuthContext.jsx:65 | the generic message determines the status: two statuses give the same message only if they are equal |
| `Api.ErrorMessageExamples` | pms-frontend/context/AuthContext.jsx:61-66 | concrete bodies `{"message":"bad creds"}`, `{"error":"x"}`, `{"message":"","error":"x"}`, "oops" and "" give "bad creds", "x", "x", "oops" and "Request failed (500)" |
| `Api.RequestJson` | pms-frontend/context/AuthContext.jsx:40-70 | sends the built request; a transport error propagates; a 2xx reply resolves with the parsed payload (possibly null); any other status rejects with `ErrorMessage` |
| `Api.BearerHeaders` | pms-frontend/context/AuthContext.jsx:145-148 | a truthy token sets `Authorization: Bearer <token>`, overriding the caller's; a falsy one leaves the caller's headers exactly; other headers are kept |
| `Api.AuthFetch` | pms-frontend/context/AuthContext.jsx:141-150 | a failing storage read rejects before any request; otherwise the sent headers are exactly the bearer-merged caller headers, and the reply is settled as requestJson settles it |
| `Api.BearerAttachedIffToken` | pms-frontend/context/AuthContext.jsx:141-149 | Authorization is sent if and only if the stored token is truthy or the caller set it; with a truthy token its value is `Bearer <token>` |
| `Api.AuthFetchContentTypeOnlyFromCaller` | pms-frontend/context/AuthContext.jsx:141-150 | the headers authFetch hands to fetch carry `Content-Type` if and only if the caller's headers do, with the caller's value |
| `Auth.SyncedBearerMatchesSignedIn` | pms-frontend/context/AuthContext.jsx:141-147 | while the store agrees with the session, a truthy token's string form is not empty and the caller sets no `Authorization`, authFetch sends `Bearer <token>` exactly when the session is signed in |
| `Auth.ArrayTokenSignedInWithoutBearer` | pms-frontend/context/AuthContext.jsx:101-102 | a truthy array token `[]` is stored as "": the session is signed in and agrees with the store, yet authFetch sends no Authorization |
| `Auth.AuthProvider.constructor` | pms-frontend/context/AuthContext.jsx:73-74 | the session starts with a null token and `initializing` true |
| `Auth.AuthProvider.IsSignedIn` | pms-frontend/context/AuthContext.jsx:123 | signed in exactly when the token is truthy, so false for both null and "" |
| `Auth.AuthProvider.Load` | pms-frontend/context/AuthContext.jsx:76-89 | `initializing` ends false whether the read succeeds or throws; the token becomes the stored value (possibly null) only on success; the store is not changed |
| `Auth.AuthProvider.SignIn` | pms-frontend/context/AuthContext.jsx:91-104 | a failed request, a missing or falsy `token` ("No token returned from server") or a failed write leaves token and store unchanged; otherwise the store is written, the token becomes `data.token`, `data` is returned, and session and store agree; a failed attempt keeps whatever agreement there was |
| `Auth.AuthProvider.SignUp` | pms-frontend/context/AuthContext.jsx:106-112 | posts to `/auth/signup` and fails exactly when the request fails, with its message; session and store never change |
| `Auth.AuthProvider.SignOut` | pms-frontend/context/AuthContext.jsx:114-117 | a failing delete rejects and changes nothing; otherwise the key is removed, the token becomes null and the session is signed out |

## Left out

- `fetch`, the network and `res.text()` are I/O. The reply fetch settles with is an input (the status
  and body text, or a transport error message). A rejection of `res.text()` is not modelled.
- `JSON.parse` is an oracle: its result for the body text is an input, and None means it threw.
  `JSON.stringify` of the credentials is also an input, the serialised body string.
- The split between `localStorage` and `expo-secure-store` is replaced by one key/value map. So is the
  no-op write and null read when `window` is undefined (lines 11 and 29).
- The secure store's refusal of non-string values is not modelled. The store keeps `String(token)`, as
  web storage does.
- A storage call that throws is assumed to leave the store as it was.
- `process.env` is a parameter of `Api.ApiBaseUrl`. Every other operation takes the base URL as a
  parameter.
- React machinery is not modelled: `createContext`, `useMemo`, the `useAuth` provider check
  (lines 135-139) and the `mounted` flag of the load effect. The same goes for async interleavings,
  such as a sign-in that completes while the initial load is pending. These are concurrency and
  framework behaviour.
- JsValues.JsString: an object with its own `toString` key prints as "[object Object]" in the model.
  `String()` throws a TypeError for it, because no JSON value is callable and the inherited `valueOf`
  returns the object itself. So a `message` or
  `error` field like `{"toString":1}` makes requestJson reject with that TypeError, not with
  "[object Object]". The same holds for a stored token of that shape, and for such an object inside an
  array. These throws are not modelled.
- Headers that fetch adds by itself are not modelled. For example, fetch supplies
  `Content-Type: text/plain;charset=UTF-8` for a string body when the headers have none. So a POST
  through `authFetch` without caller headers goes out as `text/plain`.
- JSON numbers are integers in the model. `String()` of fractional numbers, and of numbers printed in
  exponent form, is not modelled.
- Header names are case-sensitive object keys. The case-insensitive merging of fetch's `Headers` is not
  modelled. Neither is a `headers` option that is a `Headers` instance, an array, or present but falsy.
- Options carry only `method`, `body` and `headers`, the keys the callers pass. Other keys would pass
  through unchanged.
- Behaviour the code does not have is not modelled: rejecting concurrent sign-ins, forced sign-out on
  401, keeping the HTTP status on the error, and a `signOut` that ignores storage failures.
- The presentational files have no session logic: app/index.jsx, components/Navbar.jsx,
  components/UserNavbar.jsx, components/SignOutButton.jsx, components/SafeScreen.jsx,
  constants/colors.js and app/_layout.jsx.
