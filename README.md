# Instrument catalog front end, core logic in Dafny

A model of the logic at the heart of the instrument catalog's React front
end:

- the canonical URL of an instrument page, and how the page fetches the
  instrument, redirects to that URL and decides what to render;
- who may edit or delete an instrument;
- the category list cache that every component using `useCategories`
  shares, with at most one request in flight;
- the user-facing error message a failed request carries;
- the authentication state the pages see;
- the category page;
- the build-time check of environment variables;
- the in-memory mock API that the front end is developed and tested
  against.

The modules follow the source files:

| file | models |
|---|---|
| `paths.dfy` | `src/utils/paths.ts` |
| `uri_encoding.dfy` | `encodeURIComponent` (ECMA-262, percent-encoding as in section 2.1 of RFC 3986, UTF-8 as in section 3 of RFC 3629) |
| `access_control.dfy` | `src/utils/access_control.ts` |
| `api.dfy` | `src/api.ts` |
| `use_auth.dfy` | `src/hooks/useAuth/useAuth.ts` |
| `use_categories.dfy` | `src/hooks/useCategories/useCategories.ts` |
| `instrument_page.dfy` | `src/pages/instrument.tsx` |
| `category_page.dfy` | `src/pages/category.tsx` |
| `static_config.dfy` | `static.config.js` |
| `server_routes_mock.dfy` | `src/server_routes.mock.ts` |

The remaining files are shared: `types.dfy` holds the records of
`src/types.ts`, `text.dfy` the string helpers, and `option.dfy` an
`Option` type.

Pure code is modelled as functions with lemmas.

State that the source changes in place is modelled as classes whose
methods state the whole new state:

- the module-level cache of `useCategories` is `CategoriesCache`;
- the React state of the pages is `InstrumentPageState` and
  `CategoryPageState`;
- the mock database is `MockServer`;
- the error object that `errorHandler` annotates is `AxiosError`.

Asynchronous events are methods that may be called in any order:

- a component rendering for the first time;
- its mount effect running, which React does later, after the commit;
- a request succeeding or failing;
- a retry timer firing;
- a promise callback running;
- a component unmounting.

Only the page effects are an exception. The scenarios call them at the
points where React would run them.

A scenario method drives one such sequence. Most follow the order of one
of the repository's tests.

Three behaviours of the source are worth knowing. They are modelled as
written:

- **An instrument named "edit" cannot be displayed.** Its display path
  ends in `/edit/`, which the page's `/\/edit\/?$/` test reads as an edit
  page, so the page redirects to `.../edit/edit/`
  (`InstrumentPage.InstrumentNamedEditIsNeverDisplayed`).
- **The mock server does not serve `api.getCategories()`.** That call
  requests `<API_ROOT>/categories`. The mock serves categories only at
  `/categories/all` and `/categories/:slug`, so the request gets the
  fallback 404 (`ServerRoutesMock.GetCategoriesUrlFallsBack`).
- **A component can miss the categories for good.** The request may
  succeed after a component's first render but before its mount effect
  runs. The effect then sees the loaded flag and returns without
  attaching to the promise, and the component keeps the empty list it
  rendered with (`UseCategories.RenderBeforeSuccessIsStale`). The
  repository's tests do not reach this, because rendering inside act()
  runs the effect at once.

## Model

| member | source | states |
|---|---|---|
| AccessControl.IsAdmin | src/utils/access_control.ts:13-16 | roles is an array with the string "admin" as an element (stated by AdminAtAnyPosition and NonAdminNeedsOwnership) |
| AccessControl.CanEditOrDelete | src/utils/access_control.ts:11-19 | canEditOrDelete itself (stated by CanEditOrDeleteIff and EmptyUserIdDenies) |
| AccessControl.Includes | src/utils/access_control.ts:14 | `roles.includes(x)` is true exactly when some element equals x |
| AccessControl.AdminAtAnyPosition | src/utils/access_control.ts:13-16 | "admin" at any position of a roles array grants access to any resource |
| AccessControl.NonAdminNeedsOwnership | src/utils/access_control.ts:11-19 | access depends on ownership alone when roles is not an array, or is an array without the element "admin" (a string "admin" or a nested ["admin"] does not count) |
| AccessControl.CanEditOrDeleteIff | src/utils/access_control.ts:11-19 | access iff (roles is an array holding "admin") or (the resource's userId is non-empty and equals the user's sub) |
| AccessControl.EmptyUserIdDenies | src/utils/access_control.ts:19 | a non-admin never gets access to a resource with an empty userId, even when their sub is empty too |
| UriEncoding.EncodeUriComponent | src/utils/paths.ts:7 | encodeURIComponent, one character at a time as UTF-8 percent-escapes (stated by the UriEncoding lemmas below) |
| UriEncoding.EncodeAlphabet | src/utils/paths.ts:7 | encodeURIComponent writes only unreserved characters, '%' and hexadecimal digits |
| UriEncoding.DecodeEncode | src/utils/paths.ts:7 | percent-decoding the encoding gives the name back: the encoding loses nothing |
| UriEncoding.EncodeInjective | src/utils/paths.ts:7 | different names have different encodings |
| UriEncoding.EncodeUnreservedVerbatim | src/utils/paths.ts:7 | a name made only of unreserved characters is kept as it is |
| UriEncoding.EncodeHasNoSlash | src/utils/paths.ts:7-10 | the encoded name contains no '/', so it stays one path segment |
| UriEncoding.EncodeConcat | src/utils/paths.ts:7 | the encoding works character by character: it distributes over concatenation |
| UriEncoding.EncodeTwoWords | src/utils/paths.ts:7 | a space between two unreserved words becomes "%20" |
| UriEncoding.EncodeFooBar | src/utils/paths.unit.test.ts:9-11 | "Foo Bar" is encoded as "Foo%20Bar" |
| Text.DigitsValueOfNatToString | src/pages/instrument.tsx:45-51 | a rendered id `${n}` passes the ^[0-9]+$ test, and Number() of it is n |
| Text.NatToStringInjective | src/utils/paths.ts:9-10 | distinct ids render as distinct strings |
| Paths.GetInstrumentPath | src/utils/paths.ts:3-11 | every instrument path starts with "/instruments/" and ends with "/" |
| Paths.GetDisplayPath | src/utils/paths.ts:3-10 | getInstrumentPath with the default isEditPage = false (stated by EditPathExtendsDisplayPath) |
| Paths.SplitInstrumentPath | src/utils/paths.ts:8-10 | split on '/', the display path is ["", "instruments", id, encoded name, ""], and the edit path is the same with "edit" before the last "" |
| Paths.ParseGetInstrumentPath | src/utils/paths.ts:3-11 | reading a path back gives the instrument's id, its (decoded) name and whether it is the edit page |
| Paths.GetInstrumentPathInjective | src/utils/paths.ts:3-11 | two instruments with different ids or names never share a path, and display and edit paths never coincide |
| Paths.EditPathExtendsDisplayPath | src/utils/paths.ts:8-10 | the edit path is the display path followed by "edit/" |
| Paths.FooBarPaths | src/utils/paths.unit.test.ts:20-33 | instrument 7 "Foo Bar" has the paths /instruments/7/Foo%20Bar/ and /instruments/7/Foo%20Bar/edit/ |
| Paths.DoubleBassPath | src/pages/instrument.tsx:24-28 | instrument 4 "Double Bass" has the display path /instruments/4/Double%20Bass/ |
| Api.AxiosError.constructor | src/api.ts:11-13 | a fresh error carries the given response, request flag, message, text and stack, and no uiErrorMessage yet |
| Api.ErrorHandler | src/api.ts:23-40 | sets uiErrorMessage to the message for a response, else for a request with no response, else the unknown error; rethrows the same object |
| Api.UiErrorMessage | src/api.ts:24-35 | the message errorHandler builds (stated by ClassifyUiErrorMessage, UnknownMessageStartsWithErrorMessage and NotFoundMessage) |
| Api.ClassifyUiErrorMessage | src/api.ts:26-35 | the three messages can be told apart; the response branch wins over the request branch; the status can be read back from a server message |
| Api.UnknownMessageStartsWithErrorMessage | src/api.ts:34 | the unknown-error message starts with "Unknown error: " followed by the error's own message |
| Api.NotFoundMessage | src/api.ts:27-30 | a 404 response gives a message starting with `Error from server: "404` |
| Api.GetCategoryBySlugUrl | src/api.ts:54-58 | the URL is the categories endpoint, a '/', then the slug exactly as given |
| Api.GetCategoriesUrl | src/api.ts:49-53 | the URL getCategories requests, the categories endpoint itself (stated by ServerRoutesMock.GetCategoriesUrlFallsBack) |
| UseAuth.UseAuth | src/hooks/useAuth/useAuth.ts:29-64 | the hook's result from the Auth0 state (stated by UseAuthStates) |
| UseAuth.UseAuthStates | src/hooks/useAuth/useAuth.ts:53-64 | each state arises from exactly its inputs: loading outranks an error, which outranks the authentication flag; only AUTHENTICATED carries the user |
| UseAuth.Login | src/hooks/useAuth/useAuth.ts:40-46 | the redirect URI is the window's origin |
| UseAuth.LoginAppState | src/hooks/useAuth/useAuth.ts:41-44 | appState.returnTo defaults to the current pathname; a caller's fields override it and are kept as given; no other field appears |
| UseAuth.LogoutReturnTo | src/hooks/useAuth/useAuth.ts:48-51 | logout returns to the caller's returnTo when given, else to the origin |
| CategoryPage.ToUpper | src/pages/category.tsx:8 | toUpperCase shifts 'a'..'z' to 'A'..'Z' and keeps every other character |
| CategoryPage.Capitalize | src/pages/category.tsx:7-9 | capitalize (stated by CapitalizeShape) |
| CategoryPage.CapitalizeShape | src/pages/category.tsx:7-9 | capitalize keeps the length and the tail and upper-cases only the first character; "" stays "" |
| CategoryPage.CategoryExists | src/pages/category.tsx:19-22 | the test of the route's category name (stated by CategoryExistsIff) |
| CategoryPage.CategoryExistsIff | src/pages/category.tsx:19-22 | a category exists exactly for "strings", "winds" and "percussion" |
| CategoryPage.CategoryPageState.constructor | src/pages/category.tsx:17-18 | the page starts with an empty name and categoryExists true |
| CategoryPage.CategoryPageState.RunEffect | src/pages/category.tsx:21-27 | a known category sets the capitalized name; anything else marks the page not found and keeps the name |
| CategoryPage.CategoryPageState.Render | src/pages/category.tsx:29 | the heading while the category exists, else the not-found page (stated by MountCategoryPage) |
| CategoryPage.MountCategoryPage | src/pages/category.tsx:15-30 | the page shows "Category: " with the capitalized name for a known category, else the not-found page; "strings" shows "Category: Strings" |
| StaticConfig.RequiredEnvVars | static.config.js:14-17 | the required names per mode (stated by RequiredLists) |
| StaticConfig.OptionalEnvVars | static.config.js:19-22 | the optional names per mode (stated by RequiredLists and RequiredAndOptionalDisjoint) |
| StaticConfig.IsUnsetEnvVar | static.config.js:24 | a name is unset when it is undefined or empty (used by the contracts of MissingEnvVars and CheckForRequiredEnvironmentVariables) |
| StaticConfig.MissingEnvVars | static.config.js:24-27 | the filter keeps exactly the listed names that are undefined or empty, and never grows the list |
| StaticConfig.MissingEnvVarsConcat | static.config.js:26-27 | the filter keeps the list's order: it distributes over concatenation |
| StaticConfig.RequiredLists | static.config.js:7-22 | the required and optional lists in production and in development, exactly and in order |
| StaticConfig.RequiredAndOptionalDisjoint | static.config.js:14-22 | no variable is both required and optional, in either mode |
| StaticConfig.MessageLines | static.config.js:30-34 | the lines are the heading, then "- name" per missing name, then "" |
| StaticConfig.CheckForRequiredEnvironmentVariables | static.config.js:6-47 | exits with code 1 and the required-variables message iff a required variable is unset; otherwise warns with the optional-variables message iff an optional one is unset |
| StaticConfig.DevelopmentNeedsOnlyApiRoot | static.config.js:14-17 | outside production, a set API_ROOT is enough for the build to go on |
| StaticConfig.ProductionNeedsAuth0Domain | static.config.js:14-29 | in production, a build whose AUTH0_DOMAIN is undefined or empty stops |
| UseCategories.CategoriesCache.constructor | src/hooks/useCategories/useCategories.ts:7-11 | the module starts with an empty cache, nothing loaded and no promise |
| UseCategories.CategoriesCache.ResetCache | src/hooks/useCategories/useCategories.ts:14-19 | clears the cache and forgets the shared promise; resolvePromise and outstanding work are left as they are |
| UseCategories.CategoriesCache.UpdateCategories | src/hooks/useCategories/useCategories.ts:47-68 | creates the shared promise only when there is none, then issues one request for its owner |
| UseCategories.CategoriesCache.Render | src/hooks/useCategories/useCategories.ts:27-31 | a new component's state starts as the cache, and it shows the module's loaded flag as it is at that moment; nothing else changes |
| UseCategories.CategoriesCache.Effect | src/hooks/useCategories/useCategories.ts:32-46 | the mount effect, run after the render: it reads the module state as it is by then and stops when the categories have loaded, attaches to the shared promise when there is one, and otherwise requests. The rendered state is kept. SingleFlight and Dormant are preserved |
| UseCategories.CategoriesCache.Mount | src/hooks/useCategories/useCategories.ts:27-46 | a render whose effect runs before anything else happens, as inside act(): the component starts as the cache, then stops, attaches or requests |
| UseCategories.CategoriesCache.Unmount | src/hooks/useCategories/useCategories.ts:99-101 | only componentIsMounted changes |
| UseCategories.CategoriesCache.RequestSucceeded | src/hooks/useCategories/useCategories.ts:69-79 | caches the data, clears the error, marks loaded, settles the promise, and updates the owner only while it is mounted; afterwards nothing is outstanding |
| UseCategories.CategoriesCache.RequestFailed | src/hooks/useCategories/useCategories.ts:80-94 | caches the message, shows it to the owner only while mounted; a 404 settles the promise and leaves the cache dormant, any other failure schedules a retry by the same owner |
| UseCategories.CategoriesCache.TimerFired | src/hooks/useCategories/useCategories.ts:62-68 | the retry reruns updateCategories, reusing the shared promise, and keeps at most one request outstanding |
| UseCategories.CategoriesCache.Deliver | src/hooks/useCategories/useCategories.ts:39-45 | the callback on the settled promise copies the cache into the subscriber only while it is mounted |
| UseCategories.CategoriesCache.Hook | src/hooks/useCategories/useCategories.ts:104 | what a component's latest render returned: its two pieces of state and the loaded flag it read (stated by the scenarios) |
| UseCategories.CachedRemount | src/hooks/useCategories/useCategories.unit.test.tsx:59-91 | a component mounted after success gets the cached data at its first render, with no second request |
| UseCategories.TwoSubscribersShareOneRequest | src/hooks/useCategories/useCategories.unit.test.tsx:95-121 | two components mounted before the response make one request and both end with the data |
| UseCategories.UnmountedSubscriberNotUpdated | src/hooks/useCategories/useCategories.unit.test.tsx:123-150 | the requester unmounts before the response: its state is unchanged, the cache holds the data, and the second component gets it |
| UseCategories.RenderBeforeSuccessIsStale | src/hooks/useCategories/useCategories.ts:27-36 | when the request succeeds between a component's render and its effect, the effect returns at once. That component keeps the empty list while the requester shows the data, and it is frozen: no event sets its state again (FrozenUnchanged in every event's contract) |
| UseCategories.MountTwoThenFail | src/hooks/useCategories/useCategories.unit.test.tsx:153-240 | the state both failure tests start from: two mounts, then a failure. The requester shows the message, the other component shows nothing yet, the promise settles only on a 404, and otherwise a retry is pending |
| UseCategories.NotFoundIsTerminal | src/hooks/useCategories/useCategories.unit.test.tsx:153-184 | after a 404 every component shows the error, and a later mount requests nothing |
| UseCategories.FailThenMountThird | src/hooks/useCategories/useCategories.unit.test.tsx:187-240 | after a 500 for two early components, a third one mounts. It shows the message from the cache and attaches to the still-unsettled promise |
| UseCategories.ServerErrorRetries | src/hooks/useCategories/useCategories.ts:49-61 | after a 500 the second of two early components shows no error (the inconsistency the comment describes); a third component shows it; after the retry succeeds all three show the data; two requests, one promise |
| InstrumentPage.IsEditPage | src/pages/instrument.tsx:42 | the /\/edit\/?$/ test (stated by IsEditPageOfInstrumentPath and InstrumentNamedEditIsNeverDisplayed) |
| InstrumentPage.Decide | src/pages/instrument.tsx:44-64 | which branch the effect takes (stated by RedirectSettles, CanonicalPathIsKept and WrongNameDecisions) |
| InstrumentPage.IsEditPageOfInstrumentPath | src/pages/instrument.tsx:42 | a canonical path counts as an edit page exactly when it is the edit path or the instrument is named "edit" |
| InstrumentPage.RedirectSettles | src/pages/instrument.tsx:50-57 | the redirect converges: its target is kept, except that an instrument named "edit" is sent on once more to its edit path, which is kept |
| InstrumentPage.CanonicalPathIsKept | src/pages/instrument.tsx:51-56 | at its own canonical path, the effect neither redirects nor fetches |
| InstrumentPage.InstrumentNamedEditIsNeverDisplayed | src/pages/instrument.tsx:42-55 | the display path of an instrument named "edit" is taken for an edit page and redirected to its edit path |
| InstrumentPage.RenderPage | src/pages/instrument.tsx:80-142 | the view the page returns (stated by RenderPageCases) |
| InstrumentPage.RenderPageCases | src/pages/instrument.tsx:80-142 | when each view is shown (iff per view); the form only for a signed-in user allowed to edit; both refusals link back to the display path |
| InstrumentPage.InstrumentPageState.constructor | src/pages/instrument.tsx:36-38 | the page starts with "...Loading", no instrument, and instrumentExists true |
| InstrumentPage.InstrumentPageState.RunEffect | src/pages/instrument.tsx:44-78 | cancels the previous run's request, then: a malformed id marks not found; a loaded matching instrument redirects to, or stays at, its canonical path; else resets the state and fetches Number(id) |
| InstrumentPage.InstrumentPageState.FetchSucceeded | src/pages/instrument.tsx:65-67 | a request that was not cancelled stores the instrument |
| InstrumentPage.InstrumentPageState.FetchFailed | src/pages/instrument.tsx:68-74 | a request that was not cancelled marks a 404 as not found, and any other failure replaces the loading text with its message |
| InstrumentPage.InstrumentPageState.Unmount | src/pages/instrument.tsx:77 | unmounting calls the last run's cancel |
| InstrumentPage.InstrumentPageState.Render | src/pages/instrument.tsx:80-142 | RenderPage on the page's state, the current pathname and the auth state (stated by the Visit scenarios) |
| InstrumentPage.VisitMalformedId | tests/integration/instrument.int.test.tsx:112-125 | an id that is not all digits ("-2", "Flute", "edit") shows the 404 page and requests nothing |
| InstrumentPage.WrongNameDecisions | src/pages/instrument.tsx:44-78 | at /instruments/0/wrong-name/ the effect first fetches instrument 0, then redirects to /instruments/0/Flute/, then stays there |
| InstrumentPage.VisitWrongName | tests/integration/instrument.int.test.tsx:78-92 | /instruments/0/wrong-name/ navigates once, to /instruments/0/Flute/, with one request, and then shows the flute |
| InstrumentPage.VisitUnknownId | tests/integration/instrument.int.test.tsx:112-125 | a well-formed id that no mock instrument has, such as 7000, is requested once. The mock server answers 404, and the page shows the 404 page |
| ServerRoutesMock.MatchRoute | src/server_routes.mock.ts:151-208 | the handler a path reaches, trying them in their order (stated by CategoriesAllShadowsSlug and GetCategoriesUrlFallsBack) |
| ServerRoutesMock.Respond | src/server_routes.mock.ts:151-208 | each handler's answer (stated by CategoryBySlugResponse, InstrumentByIdResponse and InstrumentsByCategoryResponse) |
| ServerRoutesMock.FindCategoryBySlug | src/server_routes.mock.ts:160-162 | finds the first category with the slug, or reports that none has it |
| ServerRoutesMock.FindInstrumentById | src/server_routes.mock.ts:176-178 | finds the first instrument whose id equals Number(id), or reports that none does |
| ServerRoutesMock.FilterByCategory | src/server_routes.mock.ts:199-201 | keeps exactly the instruments of the category, never more than there are |
| ServerRoutesMock.FilterByCategoryConcat | src/server_routes.mock.ts:199-201 | the filter keeps the database's order |
| ServerRoutesMock.MockServer.constructor | src/server_routes.mock.ts:128-130 | the database starts as a copy of MOCK_DATA |
| ServerRoutesMock.MockServer.ResetDB | src/server_routes.mock.ts:132-134 | resetDB restores MOCK_DATA |
| ServerRoutesMock.MockServer.Handle | src/server_routes.mock.ts:151-208 | the answer of the handlers on the current database (stated by ResetThenList) |
| ServerRoutesMock.CategoriesAllShadowsSlug | src/server_routes.mock.ts:152-166 | /categories/all lists every category: it is tried first, so "all" never reaches the slug lookup |
| ServerRoutesMock.CategoryBySlugResponse | src/server_routes.mock.ts:158-166 | 200 with a category of that slug iff the database has one, else 404 |
| ServerRoutesMock.InstrumentByIdResponse | src/server_routes.mock.ts:174-182 | 200 with the instrument iff some instrument's id equals Number(id), else 404 |
| ServerRoutesMock.MockIdsNeverMatchOddNumbers | src/server_routes.mock.ts:50-121 | a negative or non-integer Number() matches no instrument in the mock data |
| ServerRoutesMock.InstrumentsByCategoryResponse | src/server_routes.mock.ts:184-203 | a missing cat gets 400 with the "is required" error, a non-digit cat gets 400 with the "must be an integer" error, else 200 with that category's instruments in order |
| ServerRoutesMock.GetCategoriesUrlFallsBack | src/server_routes.mock.ts:205-208 | the URL that api.getCategories() requests reaches only the fallback handler, which answers 404 |
| ServerRoutesMock.ResetThenList | src/server_routes.mock.ts:132-156 | after resetDB, /categories/all answers 200 with the mock categories |

## Left out

- The HTTP layer of `src/api.ts` is not modelled: axios, the
  `axios-retry` policy (three retries with exponential backoff) and the
  network. A request is an event that succeeds or fails. Only the
  message `errorHandler` builds and the URLs are modelled.
- `getInstrumentById`, `baseRequest` and its `cancel` are not part of
  this model. The page records each request and whether its cancel was
  called. A cancelled request's callbacks never run.
- `ENDPOINTS.instruments`, used by the mock routes, is missing from
  `src/api_endpoints.ts`. The model takes it to be `<API_ROOT>/instruments`.
- `InstrumentPage.InstrumentPageState.RunEffect` and the other effects
  are called by the scenarios at the points React would run them. React's
  scheduling, batching and bail-out on an unchanged state are not
  modelled. `useLocation`, `useNavigate` and `useParams` become
  parameters, and navigations are recorded.
- `Suspense` and the lazily loaded layouts are not modelled. A view names
  the component the page would show.
- React re-renders a component for reasons other than its own state, for
  example when its parent re-renders. Only the renders caused by the
  hook's own state updates are modelled. A re-render would show the
  module's current loaded flag next to the component's stale state.
- `UseCategories.CategoriesCache.Deliver` is an event of its own, not a
  microtask right after the promise settles. The model therefore allows
  more interleavings than JavaScript does.
- Promises and the 5-second `setTimeout` are modelled as records with
  owners. Time itself is not modelled.
- `UseAuth`: the Auth0 SDK, the browser redirects it performs and the
  `window` object are not modelled. The origin and pathname are
  parameters.
- `UriEncoding.EncodeUriComponent` takes characters to be Unicode scalar
  values, so the URIError that a lone surrogate raises does not arise.
- `CategoryPage.ToUpper` covers the ASCII letters only.
  `toUpperCase` on other letters (such as 'ß' becoming "SS") is not
  modelled. The category names the page accepts are ASCII.
- `Text.NatToString` renders integers without exponent notation, which
  JavaScript uses from 1e21 upward. Number() precision beyond 2^53 is not
  modelled either.
- In `ServerRoutesMock.Respond`, Number() on the `:id` parameter is an
  abstract function given by the caller, because JavaScript's Number()
  grammar (whitespace, hex, exponents, Infinity) is not modelled. On the
  `cat` query parameter, which has passed `^[0-9]+$`, it is the decimal
  value.
- These msw details are not modelled:
  - trailing slashes;
  - the decoding of path parameters;
  - repeated query names (the first value is used);
  - the `Access-Control-Allow-Origin` header;
  - the status text "Not Found".
  A response is its status and body.
- `Api.ErrorHandler`: throwing is returning the thrown object. The text
  of `err.toString()` and `err.stack` is given, not computed.
- `StaticConfig.CheckForRequiredEnvironmentVariables`: `console.error`,
  `console.warn` and `process.exit` become the `Outcome` they would carry
  out. Loading `.env` through `dotenv` is not modelled: the environment
  is a map. The rest of `static.config.js` (the site configuration) is
  not modelled.
- `Paths.ParseInstrumentPath` is not in the source. It is a reference
  reader of paths, used to show that `getInstrumentPath` loses nothing.
  `Api.ClassifyMessage` plays the same role for the error messages.
