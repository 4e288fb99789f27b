# OpenPhotoBox front end: the verified core

OpenPhotoBox is a self-hosted photo archive. Its front end is a Nuxt/Vue application. This
project models the parts of the front end that decide something, and proves properties about
them:

- **The HTTP client** (`ApiClient`, `api_client.dfy`). It builds every request: the URL, the
  headers, the query string and the body. It turns whatever `fetch` yields into one
  `{success, data, error}` record. It never throws.
- **The session store** (`AuthStore`, `auth_store.dfy`). This is a class over `token`, `user`,
  `isLoading` and the browser's `localStorage`. The store mirrors the session into storage
  under `auth-token`, `auth_token` and `user_data`. Login, logout and profile results are
  parameters.
- **The lazy full-image loader** (`LazyImage`, `lazy_image.dfy`). This is a class with one
  method per event:
  - the asset changes;
  - a delayed load is started;
  - a load starts at once;
  - the delay timer fires;
  - a preload succeeds or fails;
  - a cancel, a mouse enter or leave, or a click;
  - the component unmounts.

  Timers and preload `Image` elements are identifiers. The model tracks which timers are
  pending and which preloads still have their handlers attached.
- **The `asset_ready` listener registry** (`Events`, `events.dfy`). It has append,
  remove-first-occurrence and an in-order dispatch loop that stops at the first listener that
  throws. It also models the reconnect-after-error cycle of the event stream.
- **Upload bookkeeping** (`SmartUpload`, `smart_upload.dfy`). This covers:
  - the storage-configured check;
  - the multipart form and the progress milestones of one upload;
  - the per-file records and callbacks of a batch.
- **The route guards** (`AuthMiddleware`, `GuestMiddleware`, `SetupMiddleware`). Each is a
  decision function from the store flags, the route and the setup-check outcome to a
  redirect or "continue".

`Js` (`js.dfy`) holds the slice of JavaScript the code relies on:
- dynamic values and truthiness;
- `a?.b` against a strict `a.b` that throws a `TypeError` on null or undefined;
- `String(v)` and `String.prototype.includes`.

`JSON.stringify` and `JSON.parse` are a pair of functions, `Json`. The round-trip lemmas take as
a hypothesis (`Faithful`) that parsing a stringified value gives back its JSON-normalised form.
`encodeURIComponent`, `decodeURIComponent` and the percent-encoder of `URLSearchParams` are
function parameters.

Notable behaviours of the code that the model states and proves:
- The auth guard's profile-refresh branch (middleware/auth.ts:26-33) is dead code. Passing the
  authentication check already requires a user (`AuthMiddleware.GuardDecision`).
- The setup guard redirects to `/setup` from its catch. The client reports a network failure
  as a value, so an unreachable backend lets the visitor through
  (`SetupMiddleware.UnreachableBackendContinues`). A 204 answer does go to `/setup`, because
  reading `needs_setup` of null data throws.
- The storage check's "contact support" message is likewise reached only by a success without
  data. A network failure shows the client's own message.
- The asset watcher clears the pending timer but does not detach a preload in flight. That
  preload still completes into the new asset's state, and `PreloadLoaded` shows the current
  full URL.
- The guest guard applies `decodeURIComponent` to `to.query.redirect`. The router has already
  decoded query values once, so the path is decoded twice: a path containing `%` can land on
  another page or throw `URIError`. `GuestMiddleware.Guard` takes the query value as the router
  delivers it; `LoginReturnsToRequestedPage` holds only for a query that still holds the
  encoded form.
- `setAuth` with a null user writes both token keys and then throws. `login` and
  `initializeAuth` then clear the session, so storage ends as if only the clear had happened
  (`AuthStore.ClearAfterPersist`).

## Model

| member | source | states |
|---|---|---|
| Js.FirstTruthy | api/client.ts:68 | `d?.f1 \|\| d?.f2 \|\| … \|\| fallback` is the fallback or one of the fields, and it is truthy when the fallback is |
| Js.FirstTruthyPicksFirst | api/client.ts:68 | the first field holding a truthy value is the one chosen |
| Js.FirstTruthyFallsBack | api/client.ts:68 | with no truthy field the fallback is chosen |
| Js.Prop | composables/useSmartUpload.ts:88 | a strict property read throws exactly on null and undefined and otherwise reads like `?.` |
| Js.NatToString | composables/useSmartUpload.ts:109 | the decimal rendering is non-empty, all digits, with no leading zero |
| Js.NatToStringRoundTrip | composables/useSmartUpload.ts:109 | reading the digits back gives the number |
| Js.NatToStringInjective | composables/useSmartUpload.ts:109 | distinct numbers render differently |
| Js.IncludesIffOccurs | api/client.ts:48 | `includes` holds exactly when the substring occurs at some position |
| ApiClient.RequestUrl | api/client.ts:25 | the URL is the base URL followed by the endpoint, with nothing inserted |
| ApiClient.JsonHeaders | api/client.ts:27-36 | the header keys are the caller's plus Content-Type, plus Authorization iff there is a non-empty token. Content-Type defaults to application/json and a caller value overrides it. Authorization is `Token <t>`. Other caller headers are kept |
| ApiClient.UploadHeaders | api/client.ts:129-135 | no Content-Type. Authorization `Token <t>` is present iff there is a non-empty token, and it is the only possible key |
| ApiClient.ResponseData | api/client.ts:44-63 | a JSON content type gives the parsed body (null when parsing fails). Otherwise a 204 gives null, and any other status gives the text verbatim, or null when reading it fails |
| ApiClient.FailureError | stores/auth.ts:83 | `new Error(response.error \|\| fallback)`: an Error whose message is the fallback when the error is falsy, and the error string itself when it is a non-empty string (also used at stores/auth.ts:124 and in `uploadFile`) |
| ApiClient.Normalize | api/client.ts:38-82 | success iff fetch resolved with a status in 200–299. Success has no error. A failure always has a truthy error. A rejection has no data and reports the exception message or 'Network error'. A response keeps its parsed body as data |
| ApiClient.NormalizeUpload | api/client.ts:139-170 | the same classification for uploads, with an unconditional JSON parse and the 'Upload failed' network fallback |
| ApiClient.Request | api/client.ts:21-83 | the request sent has the concatenated URL, the caller's method and body and the JSON headers. The record returned is the normalised outcome |
| ApiClient.QueryPairs | api/client.ts:88-93 | the kept parameters are never more than those given |
| ApiClient.QueryPairsMembers | api/client.ts:88-93 | a pair is kept exactly when some parameter with a value other than null or undefined yields it, as its name and `String(value)` |
| ApiClient.QueryPairsAppend | api/client.ts:89-93 | filtering distributes over concatenation, so the kept pairs stay in `Object.entries` order |
| ApiClient.QueryPairsEmptyIff | api/client.ts:90-94 | nothing is kept exactly when every value is null or undefined |
| ApiClient.FormUrlEncode | api/client.ts:94 | the serialization is empty exactly when there are no pairs |
| ApiClient.QueryMarkIffKeptParam | api/client.ts:86-97 | the path starts with the endpoint and gets `?` exactly when some parameter has a value other than null or undefined |
| ApiClient.Get | api/client.ts:85-99 | the append loop sends the GET request for the endpoint with the serialized kept parameters |
| ApiClient.Send | api/client.ts:101-120 | post/put/patch go to the base URL followed by the endpoint, with the JSON headers for the token (Authorization iff a token is held), send JSON text iff the data is truthy, and return the normalised outcome |
| ApiClient.Delete | api/client.ts:122-124 | delete goes to the base URL followed by the endpoint with the JSON headers for the token, sends no body and returns the normalised outcome |
| ApiClient.Upload | api/client.ts:126-171 | upload POSTs the form to the concatenated URL with the upload headers and returns the upload-normalised outcome |
| ApiClient.NoContentSucceedsWithNull | api/client.ts:54-56 | a 204 without a JSON content type succeeds with null data |
| ApiClient.JsonContentTypeWinsOverNoContent | api/client.ts:48-56 | a JSON content type is parsed whatever the status, 204 included |
| ApiClient.RequestErrorPriority | api/client.ts:65-71 | a failed request keeps its data and reports detail, else message, else error, else `Request failed: <status> <text>` |
| ApiClient.UploadErrorPriority | api/client.ts:153-159 | a failed upload reports detail, else message, else `Upload failed: <status> <text>`, and never consults `error` |
| ApiClient.DetailReportedVerbatim | api/client.ts:68 | a JSON error body with a non-empty string detail reports exactly that string |
| AuthStore.IsAuthenticated | stores/auth.ts:28 | `!!token && !!user`, the truthiness of both values: neither may be null or undefined, and a string token counts exactly when it is non-empty and the user is truthy |
| AuthStore.IsAdmin | stores/auth.ts:29 | `is_admin` when it is truthy, else false. A missing user gives false |
| AuthStore.PersistSession | stores/auth.ts:37-58 | both token keys get the token. With a readable user, `user_data` gets the JSON of the five-field record. A null user throws the read error and leaves `user_data` alone. No other key changes |
| AuthStore.ClearSession | stores/auth.ts:67-71 | the three session keys are gone and every other key is unchanged |
| AuthStore.ClientToken | composables/useApi.ts:24-29 | the client's token is `auth-token` on the client, and none on the server |
| AuthStore.ClearAfterPersist | stores/auth.ts:85-87 | clearing after a setAuth, whether it succeeded or threw, leaves what clearing alone leaves |
| AuthStore.ClearSessionIdempotent | stores/auth.ts:93-104 | a second logout removes nothing more |
| AuthStore.ReadAfterPersist | stores/auth.ts:134-143 | what setAuth stores, initializeAuth reads back: the same token and the JSON image of the clean user |
| AuthStore.RestoredUserFields | stores/auth.ts:42-48 | a restored user has the five stored fields and no other |
| AuthStore.InitializeRestoresPersisted | stores/auth.ts:134-148 | setAuth then initializeAuth on a fresh store restores the token and the user, and the store is authenticated |
| AuthStore.Initialized | stores/auth.ts:134-148 | without both stored keys nothing changes. Unparsable user data clears the session. Otherwise the stored token and user are set again through setAuth, and a stored user that setAuth cannot read leaves storage as clearing alone would |
| AuthStore.InitializeAllOrNothing | stores/auth.ts:140-147 | initializeAuth changes nothing, or clears everything, or ends with a token and a user |
| AuthStore.AuthorizationAfterSetAuth | stores/auth.ts:38 | after setAuth with a non-empty token every JSON request carries `Token <t>` |
| AuthStore.NoAuthorizationAfterClear | stores/auth.ts:68 | after clearAuth no upload carries Authorization |
| AuthStore.Store.constructor | stores/auth.ts:152-155 | a new store starts empty and is initialized from storage on the client |
| AuthStore.Store.SetAuth | stores/auth.ts:32-60 | token and user are set. Storage becomes the persisted session on the client. The call throws iff the user is null on the client |
| AuthStore.Store.ClearAuth | stores/auth.ts:62-72 | token and user become null, and storage is cleared on the client |
| AuthStore.Store.Login | stores/auth.ts:74-91 | success with data sets the session from `data.token`/`data.user` and returns the data. On the client a null or undefined `data.user` makes `setAuth` throw its `TypeError`; login then clears the session and rethrows that error. Any other result clears the session and throws `error \|\| 'Login failed'`. isLoading ends false |
| AuthStore.Store.Logout | stores/auth.ts:93-111 | the server is contacted iff a token is held. The session always ends cleared. isLoading ends false. The client goes to /login |
| AuthStore.Store.GetProfile | stores/auth.ts:113-132 | with no token it returns null and changes nothing. Success replaces only the user. Failure clears and throws |
| AuthStore.Store.InitializeAuth | stores/auth.ts:134-150 | the session becomes the initialized session on the client and is unchanged on the server |
| LazyImage.ThumbnailUrl | composables/useLazyImage.ts:26 | thumbnail_url, else src, else '' |
| LazyImage.FullUrl | composables/useLazyImage.ts:27 | original_url, else storage_url, else src, else '' |
| LazyImage.LazyImage.constructor | composables/useLazyImage.ts:17-46 | the defaults are delay 1000 and hover preload on. Both URLs are derived from the asset. Nothing is loaded, loading, pending or attached |
| LazyImage.LazyImage.AssetChanged | composables/useLazyImage.ts:33-46 | a falsy asset changes nothing. Otherwise both URLs are recomputed, both flags drop, and the held timer is cleared. Preloads are left as they were |
| LazyImage.LazyImage.StartLoadingFullImage | composables/useLazyImage.ts:51-64 | does nothing when loaded, loading or without a URL. Otherwise exactly one new timer is pending and the old one is cleared |
| LazyImage.LazyImage.LoadFullImage | composables/useLazyImage.ts:69-96 | under the same guard, loading starts and exactly one new preload of the full URL is attached |
| LazyImage.LazyImage.TimerFired | composables/useLazyImage.ts:61-63 | the timer stops being pending and the immediate load runs: on a loadable image one new preload is attached and held; otherwise nothing else changes |
| LazyImage.LazyImage.PreloadLoaded | composables/useLazyImage.ts:79-85 | a detached preload is ignored. Otherwise the full URL is shown, loaded holds and loading ends |
| LazyImage.LazyImage.PreloadFailed | composables/useLazyImage.ts:87-92 | a detached preload is ignored. Otherwise only loading ends, and the shown URL and loaded are unchanged |
| LazyImage.LazyImage.CancelLoadingFullImage | composables/useLazyImage.ts:101-114 | no timer is pending, the held preload is detached and loading ends. Loaded and the shown URL never change |
| LazyImage.LazyImage.HandleMouseEnter | composables/useLazyImage.ts:119-123 | the delayed load starts only with hover preload on and a loadable image; it schedules one new timer and changes nothing else |
| LazyImage.LazyImage.HandleMouseLeave | composables/useLazyImage.ts:128-131 | nothing changes |
| LazyImage.LazyImage.HandleClick | composables/useLazyImage.ts:136-141 | on an image not yet loaded, the timer is cleared and the held preload detached; a new preload starts at once when there is a URL, and without one nothing is held afterwards |
| LazyImage.LazyImage.Unmount | composables/useLazyImage.ts:144-146 | unmounting cancels: timer cleared, held preload detached, loading ended, and the loaded flag, both URLs and the preloads kept |
| LazyImage.LazyImage.AtMostOneTimerPending | composables/useLazyImage.ts:56-63 | at most one timer is ever pending, and it is the one held |
| LazyImage.LazyImage.LoadingHasAttachedPreload | composables/useLazyImage.ts:74-92 | loading is never together with loaded, and it always waits on an attached preload |
| Events.Decode | plugins/events.client.ts:15 | a string payload is JSON-parsed, and any other payload passes unchanged |
| Events.DecodeStringified | plugins/events.client.ts:15 | a JSON text reaches listeners as the value it encodes |
| Events.IndexOf | plugins/events.client.ts:6 | -1 iff the listener is absent. Otherwise the first position holding it |
| Events.RemoveFirst | plugins/events.client.ts:6 | an absent listener leaves the list unchanged. Otherwise its first occurrence is removed with the rest in order, which is one fewer in the multiset |
| Events.UnregisterTwiceIsOnce | plugins/events.client.ts:6 | for a listener registered once, a second unregister is harmless |
| Events.UnregisterRemovesOneEntry | plugins/events.client.ts:5-6 | each unregister removes one entry of a repeated listener |
| Events.Delivered | plugins/events.client.ts:13-19 | the calls are a prefix of the list. Only the last call can have thrown, and a short prefix ends with a throw |
| Events.DeliveredToAll | plugins/events.client.ts:16 | with no thrower every listener is called, in order |
| Events.DeliveredStopsAtThrower | plugins/events.client.ts:13-19 | the listeners up to and including the first thrower run, and no later ones |
| Events.RegisteredTwiceCalledTwice | plugins/events.client.ts:5-16 | a function registered twice is called twice |
| Events.EventChannel.constructor | plugins/events.client.ts:4-27 | the registry starts empty with one open connection |
| Events.EventChannel.AddListener | plugins/events.client.ts:5 | the listener is appended |
| Events.EventChannel.Unregister | plugins/events.client.ts:5-7 | the list loses the first occurrence only |
| Events.EventChannel.DispatchAssetReady | plugins/events.client.ts:12-20 | on an open stream, a parse failure calls nobody. Otherwise the calls are `Delivered` of the decoded payload |
| Events.EventChannel.OnError | plugins/events.client.ts:21-24 | the stream closes, a reconnect is pending, and listeners are untouched |
| Events.EventChannel.ReconnectFired | plugins/events.client.ts:23 | a new connection opens and listeners are untouched |
| SmartUpload.CheckStorageConfiguration | composables/useSmartUpload.ts:22-49 | configured iff the call succeeded with data whose `configured` is truthy. Otherwise the message is truthy and is the Admin-Settings text, or `error \|\| 'Unable to check…'`, or the contact-support text |
| SmartUpload.UnreachableServerIsNotACatch | composables/useSmartUpload.ts:24-48 | a network failure shows the client's message, not the catch's |
| SmartUpload.Metadata | composables/useSmartUpload.ts:68-71 | exactly the truthy caption, description and taken_at |
| SmartUpload.UploadForm | composables/useSmartUpload.ts:63-74 | the file first, then a metadata part iff opts has a key |
| SmartUpload.MetadataRoundTrip | composables/useSmartUpload.ts:68-73 | the metadata part parses back to exactly the truthy fields |
| SmartUpload.UploadFile | composables/useSmartUpload.ts:54-95 | progress is 10, then 30, increasing, and reaches 100 iff the result succeeded. A failure throws `error \|\| 'Failed to upload file'`. Success returns `data.id` and throws when data is null |
| SmartUpload.UploadIdLayout | composables/useSmartUpload.ts:109 | an id is `upload-`, the decimal clock reading (which holds no dash), one dash, then the decimal index |
| SmartUpload.UploadIdInjective | composables/useSmartUpload.ts:109 | an upload id determines its clock reading and its index |
| SmartUpload.BatchIdsDistinct | composables/useSmartUpload.ts:107-112 | the ids of one batch are distinct |
| SmartUpload.ProgressNotices | composables/useSmartUpload.ts:121-124 | one progress callback per reported value, in order |
| SmartUpload.UploadFiles | composables/useSmartUpload.ts:100-143 | one record per file, in order, each the settled record of its upload. The callbacks made are those of each file in turn |
| SmartUpload.SettleItem | composables/useSmartUpload.ts:115-139 | one file's task: the record ends as the settled record of its upload, and the callbacks are its progress values in order, then exactly one completion or error |
| SmartUpload.SettledRecord | composables/useSmartUpload.ts:115-138 | a settled record keeps its file and id, shows the last progress reported, is completed with `data.id` exactly when the server succeeded with data, and otherwise failed with the message of the error thrown (`error \|\| 'Failed to upload file'`, or the TypeError of the `data.id` read) |
| SmartUpload.SettledExclusive | composables/useSmartUpload.ts:115-138 | each record ends either completed with an asset id or failed with a message, never both, and keeps its id |
| SmartUpload.ProgressIsLastReported | composables/useSmartUpload.ts:121-124 | a record's progress is its last reported value, and a completed record reached 100 |
| SmartUpload.OneTerminalNotice | composables/useSmartUpload.ts:115-138 | each file's callbacks are its progress values and then exactly one completion or error, matching its record |
| AuthMiddleware.Guard | middleware/auth.ts:3-34 | nothing happens on the server. The guard yields iff it is unauthenticated with both hydration keys stored. Any redirect goes to `/login?redirect=` plus the encoded path, or `/` |
| AuthMiddleware.GuardDecision | middleware/auth.ts:20-33 | the visitor passes iff the checked store is authenticated. The profile refresh is never reached |
| AuthMiddleware.AuthenticatedPassesAtOnce | middleware/auth.ts:12-26 | an authenticated visitor passes with no yield |
| AuthMiddleware.WaitsOnlyForStoredSession | middleware/auth.ts:13-15 | the guard yields exactly when initializeAuth would find a session to read |
| AuthMiddleware.PersistedSessionPassesAfterHydration | middleware/auth.ts:11-23 | after a setAuth, a fresh store hydrated during the yield passes |
| GuestMiddleware.Guard | middleware/guest.ts:1-15 | server or signed out: continue. Signed in: go to the decoded redirect, or throw URIError when it is malformed, or go to `/` without one |
| GuestMiddleware.GuardsAreComplementary | middleware/guest.ts:8-14 | for one store, exactly one of the auth and guest guards sends the visitor elsewhere |
| GuestMiddleware.LoginReturnsToRequestedPage | middleware/guest.ts:9-11 | a `redirect` query holding an encoding that decodes back to a path sends a signed-in visitor to that path |
| SetupMiddleware.Guard | middleware/setup.ts:5-34 | the check runs iff the path is not /setup and the visitor is signed out. The guard redirects, always to /setup, iff the check threw, or succeeded with null data or a truthy `needs_setup` |
| SetupMiddleware.UnreachableBackendContinues | middleware/setup.ts:18-33 | a network failure lets the visitor through |
| SetupMiddleware.ErrorStatusContinues | middleware/setup.ts:23-28 | an error status lets the visitor through |
| SetupMiddleware.NoContentSendsToSetup | middleware/setup.ts:23-32 | a 204 answer sends the visitor to /setup |

## Left out

- Numbers are unbounded integers. Floating point, `NaN` and `String` of non-integers are not
  modelled, and `String(n)` is exact only below 10^21.
- Object key order is not modelled, since `Obj` is a map. Neither are properties inherited
  from built-in prototypes.
- `fetch`, `localStorage`, `Image`, `setTimeout`, `EventSource`, `navigateTo`, `console` and
  `Date.now()` are inputs, events or returned values, not real I/O. Timing, including the
  3000 ms reconnect delay and the hover delay, is not modelled.
- The JSON codec and the URI encoders are uninterpreted. The round-trip lemmas assume only
  `Faithful`.
- HTTP header names are case-sensitive keys. `Headers` case folding is not modelled.
- `AuthStore.PersistSession`: the fallback `user_data` record (stores/auth.ts:50-58) is not
  written. It is reached only when `JSON.stringify` throws on the clean record, and the model
  takes stringify as total. For a null user the fallback throws the same read error first.
- `AuthStore.Store.Login`, `Logout` and `GetProfile` take the server's result as a parameter.
  The request `logout` sends and its outcome are not modelled: its result is ignored. Neither
  are the credentials `login` posts. `isLoading` is true only inside a call, and overlapping
  calls are not modelled.
- `SmartUpload.UploadFiles`: the `Promise.all` fan-out runs the files one after another. The
  final records are the same, but the interleaving of callbacks across files is not modelled.
- `SmartUpload.UploadFiles`: the records are values. `SettleItem` returns each settled record
  and the method collects them in a new sequence, where the source mutates the queued record
  objects in place. A caller that holds a record object while the upload is in flight is not
  modelled.
- `SmartUpload.UploadFiles`: user callbacks are assumed to return normally. An
  `onFileComplete` that throws would turn a completed record into an error record.
- `SmartUpload.UploadFiles`: the `'Upload failed'` fallback for a thrown non-Error is absent.
  Every exception the modelled upload raises is an Error.
- The `processing` status is declared but never set, and the model never sets it either.
- `Events.EventChannel.DispatchAssetReady`: a listener that registers or unregisters during a
  dispatch is not modelled. The loop reads the list as it was when dispatch began.
- The plugin does nothing on the server (`process.server`). The model covers the client only.
- `loadOnViewport` is read from the options but never used, so it is not modelled.
- The guards take `isAuthenticated` and the store fields as inputs. The Nuxt/Pinia plumbing is
  not modelled.
- The endpoint modules, type declarations, `useApi` wiring, Vuetify and Nuxt configuration are
  not part of this model.
