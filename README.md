# MTAA-FE state core in Dafny

A model of the stateful services and contexts of the MTAA-FE personal-finance
mobile client:

- **WebSocketService** (`websocket_service.dfy`, module `WebSocket`): the
  process-wide real-time channel. Its fields are the token, the socket.io
  manager and socket, the `connected` flag and the ordered list of
  transaction listeners. The callbacks that `connect()` registers become the
  event methods `OnConnect`, `OnDisconnect` and `OnTransactionsUpdate`. A
  pushed update replaces the `cachedTransactions` cache entry and then runs
  the listeners in order. The run stops at the first listener that throws,
  because `forEach` does not isolate them.
- **useCachedData / getCachedItemById** (`cache_service.dfy`, module
  `CacheService`): the cache-fallback loader as one step of a hook-state
  class, and the first-match lookup of a cached record by id. The id test
  compares `String(...)` of both sides (`js_values.dfy` models JavaScript's
  `String` for the JSON values the core sees).
- **AuthProvider** (`auth_context.dfy`): restore of the `"jwt"` secure-store
  entry, `signIn`, `signOut`, the bearer interceptor, the loading gate and
  `useAuth`.
- **ThemeProvider** (`theme_context.dfy`, constants in `theme.dfy`): the
  initial light theme, restore from `"appTheme"`, and `toggleTheme`, which
  persists `"dark"` or `"light"`.
- **apiClient** (`api_client.dfy`): the replaceable token getter, the
  request interceptor and the pass-through response interceptor.

All three interceptors (AuthContext, apiClient, and the socket's extra
headers) share one rule, `Http.WithBearer`. It sets
`Authorization: Bearer <token>` exactly when the token is truthy, that is,
neither `null` nor empty.

External collaborators become values and inputs:

- AsyncStorage and SecureStore are `Storage.Store` objects over maps. The
  hook and the socket service share one AsyncStorage store. JSON
  serialisation is the identity.
- NetInfo's report, the fetcher's outcome, a failing cache write and the
  hook's `active` flag are parameters of `CacheService.CachedData.Load`.
- The login request's outcome is a parameter of `SignIn`.
- A listener is an opaque handle. Whether its call throws is given as the
  set `throwing`.
- Socket events are method calls made by the environment.

The code and the intended design differ in places. The model follows the
code:

- `connect()` guards only on `connected`. A second call while a socket is
  still connecting opens a second transport. `OrphanedSocketScenario` shows
  one consequence.
- Listener notification has no per-listener isolation.
- `useCachedData` returns `data`/`loading`/`offline`/`error`. It has no
  status code.
- A failed fetch sets `error`. The error is never cleared by a later
  successful load.

## Model

| member | source | states |
|---|---|---|
| `Http.WithBearer` | MTAA-FE/service/apiClient.ts:14 | the Authorization header is `"Bearer " + token` when the token is truthy; otherwise the headers are unchanged; no other header changes |
| `Http.AuthorizeRequest` | MTAA-FE/service/apiClient.ts:12-16 | a request interceptor changes only the headers, as `WithBearer` says; a falsy token leaves the config unchanged |
| `Http.BearerAddedIffTruthy` | MTAA-FE/contexts/AuthContext.tsx:21-24 | without a prior header, Authorization is present after interception iff the token is truthy |
| `JsValues.DecimalStringInjective` | MTAA-FE/service/cacheService.ts:67 | `String(a) === String(b)` for integers only when `a == b` |
| `JsValues.NatDigitsInjective` | MTAA-FE/service/cacheService.ts:67 | distinct naturals have distinct decimal strings |
| `Storage.CachedList` | MTAA-FE/service/cacheService.ts:35-36 | a cache entry yields a list exactly when it is present and truthy, and it yields the stored list |
| `WebSocket.ConfiguredManager` | MTAA-FE/service/websocketService.ts:31-51 | the manager carries the token as query parameter, and `Authorization: Bearer <token>` as its only extra header iff the token is truthy (no header otherwise) |
| `WebSocket.Without` | MTAA-FE/service/websocketService.ts:115 | removal drops every occurrence of the listener and keeps every other listener as often as it was registered |
| `WebSocket.WithoutConcat` | MTAA-FE/service/websocketService.ts:115 | filtering distributes over concatenation, so the kept listeners keep their order |
| `WebSocket.WithoutAbsent` | MTAA-FE/service/websocketService.ts:113-116 | removing an unregistered listener is a no-op |
| `WebSocket.AddThenRemove` | MTAA-FE/service/websocketService.ts:107-116 | adding a new listener and removing it restores the list |
| `WebSocket.AllNotifiedWhenNoneThrows` | MTAA-FE/service/websocketService.ts:119-124 | with no throwing listener, the callees are exactly the registered list, in order, each given the payload |
| `WebSocket.WebSocketService.constructor` | MTAA-FE/service/websocketService.ts:7-12 | no socket, no manager, no listeners, not connected, null token |
| `WebSocket.WebSocketService.SetToken` | MTAA-FE/service/websocketService.ts:15-18 | only the token changes; nothing connects |
| `WebSocket.WebSocketService.Connect` | MTAA-FE/service/websocketService.ts:21-51 | a no-op when connected; otherwise a new configured manager and socket, one more transport, `connected` still false; token and listeners unchanged |
| `WebSocket.WebSocketService.OnConnect` | MTAA-FE/service/websocketService.ts:53-56 | the connect event sets `connected` and nothing else |
| `WebSocket.WebSocketService.OnDisconnect` | MTAA-FE/service/websocketService.ts:58-61 | the disconnect event clears `connected` and nothing else |
| `WebSocket.WebSocketService.OnTransactionsUpdate` | MTAA-FE/service/websocketService.ts:64-71 | the cache entry `cachedTransactions` becomes the payload unless the un-awaited write fails (then it is kept); either way listeners are then called in order with the payload until one throws; only a live transport can deliver the event |
| `WebSocket.WebSocketService.Disconnect` | MTAA-FE/service/websocketService.ts:86-93 | with a socket: socket null, not connected, and that transport is torn down (one fewer live transport); without: no change; manager, token and listeners never change |
| `WebSocket.WebSocketService.SubscribeToTransactions` | MTAA-FE/service/websocketService.ts:96-104 | connected with a socket: emits on it; not connected: connects and emits on the new socket; connected without a socket: nothing happens |
| `WebSocket.WebSocketService.AddTransactionsListener` | MTAA-FE/service/websocketService.ts:107-110 | appends the listener at the end, duplicates kept |
| `WebSocket.WebSocketService.RemoveTransactionsListener` | MTAA-FE/service/websocketService.ts:113-116 | the list becomes the old list without the listener |
| `WebSocket.WebSocketService.NotifyTransactionsListeners` | MTAA-FE/service/websocketService.ts:119-124 | calls listener i with the payload for each i in order; raises iff some listener throws, and the first such listener is the last one called |
| `WebSocket.WebSocketService.IsConnected` | MTAA-FE/service/websocketService.ts:127-129 | returns `connected`, changes nothing |
| `WebSocket.OrphanedSocketScenario` | MTAA-FE/service/websocketService.ts:22-104 | connect, connect, disconnect, then the orphaned first socket (the only live one) connects, subscribe: the service reports connected with no socket; a single connect cannot reach this, since a torn-down socket reports no events |
| `CacheService.CachedData.constructor` | MTAA-FE/service/cacheService.ts:11-14 | data `[]`, loading, online, no error |
| `CacheService.CachedData.OnConnectivityChange` | MTAA-FE/service/cacheService.ts:19-21 | `offline` is the negation of the reported connectivity |
| `CacheService.CachedData.Load` | MTAA-FE/service/cacheService.ts:23-46 | fetcher called iff online; loading ends as `!active`; only an online, successful, mounted, written load writes the cache, with exactly the fetched list; unmounted success touches nothing; offline and error paths fall back to the cache if present; errors are kept |
| `CacheService.FindFirst` | MTAA-FE/service/cacheService.ts:67 | index of the first matching record, or none when no record matches |
| `CacheService.GetCachedItemById` | MTAA-FE/service/cacheService.ts:59-69 | null for a missing or empty entry; otherwise the first cached record whose id string equals the id's, or null when none matches |
| `CacheService.NumericFieldMatchesDecimalString` | MTAA-FE/service/cacheService.ts:67 | a numeric id field is found by the number and by its decimal string |
| `CacheService.NumericIdsMatchByValue` | MTAA-FE/service/cacheService.ts:67 | numeric ids match iff equal |
| `AuthContext.StoredToken` | MTAA-FE/contexts/AuthContext.tsx:30-31 | the restored token is the stored `"jwt"` value exactly when it is present and non-empty |
| `AuthContext.SignInThenRestore` | MTAA-FE/contexts/AuthContext.tsx:30-40 | after storing a non-empty token, a restore yields it |
| `AuthContext.SignOutThenRestore` | MTAA-FE/contexts/AuthContext.tsx:43-45 | after deleting `"jwt"`, a restore yields null |
| `AuthContext.EmptyTokenNotRestored` | MTAA-FE/contexts/AuthContext.tsx:31-39 | an empty access token is stored but not restored |
| `AuthContext.MissingAccessToken` | MTAA-FE/contexts/AuthContext.tsx:38-39 | a response without `accessToken` signs in with `"undefined"` |
| `AuthContext.AuthProvider.constructor` | MTAA-FE/contexts/AuthContext.tsx:17-18 | null token, loading |
| `AuthContext.AuthProvider.RestoreToken` | MTAA-FE/contexts/AuthContext.tsx:28-34 | adopts a truthy stored token, keeps the current one otherwise; loading ends |
| `AuthContext.AuthProvider.SignIn` | MTAA-FE/contexts/AuthContext.tsx:36-41 | success: `String(accessToken)` is stored under `"jwt"` and becomes the token; failure: rejection propagates, nothing changes |
| `AuthContext.AuthProvider.SignOut` | MTAA-FE/contexts/AuthContext.tsx:43-46 | `"jwt"` deleted, token null |
| `AuthContext.AuthProvider.InterceptRequest` | MTAA-FE/contexts/AuthContext.tsx:20-26 | a truthy current token becomes `Authorization: Bearer <token>`; a falsy one leaves the request unchanged; verb, url, params and every other header are kept |
| `AuthContext.AuthProvider.ProvidedValue` | MTAA-FE/contexts/AuthContext.tsx:48-55 | no context while loading; afterwards the context carries the token |
| `AuthContext.UseAuth` | MTAA-FE/contexts/AuthContext.tsx:58-62 | fails with the provider message iff there is no context |
| `ThemeContext.NextTheme` | MTAA-FE/contexts/ThemeContext.tsx:29 | the next theme's `dark` flag is the negation of the current one, and it is the light or the dark theme |
| `ThemeContext.EncodeTheme` | MTAA-FE/contexts/ThemeContext.tsx:31 | `"dark"` iff the theme is dark, else `"light"` |
| `ThemeContext.RestoredTheme` | MTAA-FE/contexts/ThemeContext.tsx:19-24 | the dark theme iff the stored value is `"dark"`, otherwise (absent included) the light theme |
| `ThemeContext.ToggleThenRestore` | MTAA-FE/contexts/ThemeContext.tsx:19-31 | restoring what a toggle saved gives the toggled theme |
| `ThemeContext.ToggleTwice` | MTAA-FE/contexts/ThemeContext.tsx:29 | two toggles from light or dark return to it |
| `ThemeContext.ThemeProvider.constructor` | MTAA-FE/contexts/ThemeContext.tsx:15 | the initial theme is light, establishing the invariant that the theme is the light or the dark one |
| `ThemeContext.ThemeProvider.Restore` | MTAA-FE/contexts/ThemeContext.tsx:17-26 | the theme follows the restore rule for the stored `"appTheme"`; the invariant holds |
| `ThemeContext.ThemeProvider.ToggleTheme` | MTAA-FE/contexts/ThemeContext.tsx:28-32 | the theme becomes the next theme and its encoding is saved under `"appTheme"`; the invariant holds, so `ToggleTwice` applies to every reachable theme |
| `ApiClient.Api.constructor` | MTAA-FE/service/apiClient.ts:3 | the default getter returns null |
| `ApiClient.Api.RegisterTokenGetter` | MTAA-FE/service/apiClient.ts:4-6 | the getter now answers as the registered one |
| `ApiClient.Api.InterceptRequest` | MTAA-FE/service/apiClient.ts:12-16 | a truthy token from the getter becomes `Authorization: Bearer <token>`; a falsy one leaves the request unchanged; verb, url, params and every other header are kept |
| `ApiClient.InterceptResponse` | MTAA-FE/service/apiClient.ts:18-21 | responses pass through unchanged and rejections are re-rejected with the same error |
| `ApiClient.RequestBeforeRegistration` | MTAA-FE/service/apiClient.ts:3-16 | with no registered getter, a request goes out unchanged and gets no Authorization header |
| `ApiClient.RequestAfterRegistration` | MTAA-FE/service/apiClient.ts:4-16 | after registration, the registered getter's truthy token becomes the bearer header; verb, url, params and every other header are unchanged; a falsy token sends the request unchanged |

## Left out

- socket.io internals (reconnection retries, backoff, timeout, transport choice) belong to the library; 5, 1000 and 20000 are kept only as the manager's configuration values.
- The `connect_error` and `error` handlers and all console logging only log.
- The `catch` in `connect()` (a throwing `Manager` constructor) is not modelled; construction always succeeds.
- `socket.disconnect()`'s effect on the transport is not modelled beyond dropping the socket.
- Listeners that add or remove listeners while being notified are not modelled.
- The un-awaited cache write in the update handler is modelled as having succeeded or failed before the listeners run; its later completion is not modelled.
- React effects, interleaving of async steps and listener cleanup are left out. Each async function is one sequential step, with `active` as an input.
- A failure of `NetInfo.fetch()` and failures of `AsyncStorage.getItem`/`SecureStore` calls are not modelled. The failing fetch and the failing cache write are.
- JSON stringify/parse are the identity. A stored value that does not parse is not modelled.
- `JsValues.JsValue` holds only scalar field values. Nested objects and arrays in records (a transaction's `category`, `budget` and `location`) are not modelled, so `String()` of such a field (`"[object Object]"`, joined array elements) is left out.
- JavaScript numbers are integers here. Fractional amounts such as -3.5 and `String()` of non-integer numbers are not modelled.
- `JsValues.DecimalString` gives plain decimal digits for every integer. JavaScript's `String()` switches to exponent notation (`"1e+21"`) for magnitudes of 10^21 and above; that is not modelled.
- Cached lists hold objects only. Array elements that are not objects (on which `item[idField]` would throw) are not modelled.
- AsyncStorage is modelled as two stores that never share a key. One holds the list caches. The other holds the `"appTheme"` entry.
- The getter registered in apiClient is a pure function. The state it reads in the application is not modelled.
- The in-place mutation of `cfg.headers` is modelled as a new config value, so aliasing of the config object is not captured.
- The AuthContext interceptor's eject and re-register on each token change is modelled as using the current token.
- The ThemeContext default value (outside a provider: light theme, a toggle that does nothing) is not modelled.
- Screens, navigation, the high-contrast theme (no provider selects it), font sizes and the hard-coded server addresses are not part of this model.
