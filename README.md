# Personal expense tracker: session handling, expense filter and user creation

A Dafny model of the parts of the personal expense tracker whose behaviour
can be stated and checked:

- **The API client** (`frontend/src/lib/api.ts`, module `ApiClient`). One
  process-wide CSRF token starts absent. The request interceptor copies it
  into an `X-CSRF-Token` header, but only on `post`/`put`/`delete` requests
  (compared case-insensitively) and only while a non-empty token is held.
  The response interceptor replaces the token with any non-empty
  `x-csrf-token` response header. The error interceptor sends the browser
  to `/login` on a 401 and rejects again with the same error.
  `setCsrfToken` overwrites the token. The class `CsrfClient` keeps a ghost
  history: the token at start-up or at the last manual set, and every
  successful response since. Its invariant ties the token to that history,
  and `LastWriteWins` shows the most recent offered token decides.
  `CsrfClient.Request` is one call through both interceptors, as
  `api.get`/`api.post` runs it.
- **The session store** (`frontend/src/contexts/AuthContext.tsx`, module
  `AuthContext`). The state is `user`/`isLoading`. The operations are
  `checkAuthStatus`, `login`, `register` and `logout`. The provider holds
  the shared `CsrfClient`, and each API call goes through its interceptors.
  The transport's outcome is passed in as a `Reply`: a response with headers
  and body, an `AxiosError` with an optional server message, or another
  thrown value. So a status check or login that returns a token header
  rotates the token, a 401 from any of the three calls redirects to
  `/login`, and the login and register POSTs carry the held token. The
  request configs the interceptor releases, toasts, the cookie assignment,
  console errors and redirects are recorded in ghost logs. A re-thrown error
  is returned.
- **The expense filter** (`backend/api/expenses/filters.py`, modules
  `Dates` and `ExpenseFilters`). It declares four query parameters:
  - `date` is an exact match on the expense date;
  - `date_from` is an inclusive lower bound;
  - `date_to` is an inclusive upper bound;
  - `category` is a case-insensitive match on the category's *name*.

  Dates are `(year, month, day)` triples. A date value is stripped of
  surrounding whitespace, then read in `%Y-%m-%d` or else `%d-%m-%Y`. The
  category value is stripped too. One that strips to nothing applies no
  filter, and one that still holds U+0000 is rejected, as Django's
  `CharField` cleaning does. `FromQuery` cleans a query
  string into a filter, and `Select` applies it to a list of expenses.
- **User creation** (`backend/api/users/models.py`, module `Users`).
  `create_user` rejects a missing or empty email. Otherwise it saves a user
  with the normalized email, the extra fields and the password.
  `create_superuser` defaults `is_staff`/`is_superuser` to true with
  `setdefault` semantics, then applies the same rules. The user table is
  threaded through as a sequence. The email is the identifying field
  (`USERNAME_FIELD`, line 35). It is bound to the `email` parameter, so it
  never arrives among the extra fields. The model accepts every extra field
  name Python can collect into `**extra_fields`. Which names the `User`
  constructor then rejects is decided outside this model (see "Left out").

Shared modules: `Wrappers` (Option, Result), `Text` (ASCII case folding,
used both for `toLowerCase` and for `iexact`; Python's `str.strip`), `Http` (the shapes of axios
errors seen by both front-end files).

A failed `login`/`register` leaves `user` as it was: the code never clears
it there, so a user already signed in stays signed in.

## Model

| member | source | states |
|---|---|---|
| Http.Status | frontend/src/lib/api.ts:37 | `error.response?.status` is present exactly for an AxiosError that carries a response |
| Http.ServerMessage | frontend/src/contexts/AuthContext.tsx:50 | `error.response?.data?.message` is only ever present on an AxiosError with a response body |
| ApiClient.IsMutating | frontend/src/lib/api.ts:20 | a request counts as mutating only when it has a method whose lower-cased spelling is post, put or delete; the empty-string fallback for a missing method never qualifies |
| ApiClient.MutatingMethodsIgnoreCase | frontend/src/lib/api.ts:18-23 | a request qualifies for the token exactly when its method spells post, put or delete in any case; a missing method or any spelling of get never does |
| ApiClient.WithCsrfHeader | frontend/src/lib/api.ts:17-25 | the interceptor changes only the `X-CSRF-Token` header; it sets it to the held token iff the request is mutating and the token is truthy; otherwise the config passes through unchanged, never blocked (no token or an empty token included) |
| ApiClient.FreshToken | frontend/src/lib/api.ts:30-31 | a response offers a token iff it has a non-empty `x-csrf-token` header, and the token offered is that header's value |
| ApiClient.Rotated | frontend/src/lib/api.ts:30-33 | a non-empty `x-csrf-token` header always replaces the held token; the token changes only to that header's value, so a response never clears or blanks a held token |
| ApiClient.TokenAfter | frontend/src/lib/api.ts:29-35 | after any sequence of successful responses the held token is the starting token or one some response offered |
| ApiClient.LastWriteWins | frontend/src/lib/api.ts:29-35 | the held token after a sequence of responses is the token offered by the last response that offered one |
| ApiClient.NoFreshTokenKeepsToken | frontend/src/lib/api.ts:29-35 | responses without a non-empty `x-csrf-token` leave the token unchanged |
| ApiClient.CsrfClient.constructor | frontend/src/lib/api.ts:14 | at load no token is held, so by `WithCsrfHeader` no request carries the header |
| ApiClient.CsrfClient.InterceptRequest | frontend/src/lib/api.ts:17-25 | the request interceptor returns the config as `WithCsrfHeader` of the held token describes it |
| ApiClient.CsrfClient.InterceptResponse | frontend/src/lib/api.ts:29-35 | returns the response unchanged; replaces the token only when the response offers one; keeps the history invariant |
| ApiClient.CsrfClient.InterceptError | frontend/src/lib/api.ts:36-41 | navigates to `/login` exactly on a 401 response and rejects again with the same error in every case |
| ApiClient.CsrfClient.SetCsrfToken | frontend/src/lib/api.ts:45-47 | overwrites the token unconditionally; the next mutating request then carries it when it is non-empty |
| ApiClient.CsrfClient.Request | frontend/src/lib/api.ts:17-42 | one call: the config released is `WithCsrfHeader` of the held token; a resolved response rotates the token and extends the history; a rejection leaves the token alone and redirects to `/login` exactly on a 401; the caller receives the same outcome |
| AuthContext.ErrorToastFor | frontend/src/contexts/AuthContext.tsx:48-52 | a failure shows an error toast iff it is an AxiosError; the toast text is the server's non-empty message, else the fallback |
| AuthContext.AuthProvider.constructor | frontend/src/contexts/AuthContext.tsx:14-15 | initially `user` is null and `isLoading` is true, with nothing logged |
| AuthContext.AuthProvider.CheckAuthStatus | frontend/src/contexts/AuthContext.tsx:17-31 | the GET goes through the client (no token header, a returned token is captured, a 401 redirects); `user` becomes the returned user on success and null on any failure; `isLoading` is false in every outcome; only an AxiosError is logged; no toast |
| AuthContext.AuthProvider.Submit | frontend/src/contexts/AuthContext.tsx:37-75 | the POST goes through the client; success sets `user` and emits one success toast; failure keeps `user`, emits the error toast of `ErrorToastFor` (none for a non-Axios error) and re-throws the same error; `isLoading`, the cookie and the console are untouched |
| AuthContext.AuthProvider.Login | frontend/src/contexts/AuthContext.tsx:37-55 | the POST to `/auth/login` goes through the client, so it carries the held token and a 401 redirects as well as showing the toast. Success sets `user` and emits exactly one "Successfully logged in!" toast. Failure keeps `user`, emits one error toast (message or "Invalid credentials") only for an AxiosError, and re-throws the same error. `isLoading` and the cookie are untouched |
| AuthContext.AuthProvider.Register | frontend/src/contexts/AuthContext.tsx:57-75 | the same contract as login, with "Registration successful!" and "Registration failed" |
| AuthContext.AuthProvider.Logout | frontend/src/contexts/AuthContext.tsx:77-82 | clears `user`, writes the `ecomm-refresh` cookie with an epoch expiry, emits "Successfully logged out", throws nothing and makes no request |
| AuthContext.TokenSentOnlyWithLogin | frontend/src/contexts/AuthContext.tsx:17-45 | the login POST carries `X-CSRF-Token` exactly when a non-empty token is held, with that token's value; the status-check GET never carries it |
| Dates.ParseAs | backend/api/expenses/filters.py:13-16 | a text accepted by one input format always names a valid calendar date |
| Dates.FormatsAreExclusive | backend/api/expenses/filters.py:13-16 | no text fits both `%Y-%m-%d` and `%d-%m-%Y` |
| Dates.FirstParseIsFirstAccepting | backend/api/expenses/filters.py:13-16 | trying formats in order reads nothing exactly when no format accepts the text, reads what some format reads otherwise, and the first accepting format decides |
| Dates.ParseDate | backend/api/expenses/filters.py:10-27 | whatever a date filter reads is a valid calendar date |
| Dates.ParseDateTriesFormatsInOrder | backend/api/expenses/filters.py:13-16 | a date value parses exactly when one of the two formats accepts it once stripped; `%Y-%m-%d` wins when it accepts |
| Dates.ParseRender | backend/api/expenses/filters.py:13-16 | each of the two spellings of a valid date is read back as that date |
| Dates.ParsedAsIsRendered | backend/api/expenses/filters.py:13-16 | a text one format accepts is exactly that format's spelling of the date read |
| Dates.ParsedIsRendered | backend/api/expenses/filters.py:10-27 | a text a date filter accepts is, once stripped, one of the two spellings of the date it reads |
| Text.StripLeavesNoEdgeWhitespace | backend/api/expenses/filters.py:28 | what `strip` leaves neither starts nor ends with whitespace |
| Text.StripKeepsNonWhitespace | backend/api/expenses/filters.py:28 | `strip` removes only whitespace: every other character of the text survives it |
| Text.StripIgnoresPadding | backend/api/expenses/filters.py:28 | whitespace added around a text never changes what `strip` leaves of it |
| ExpenseFilters.Matches | backend/api/expenses/filters.py:10-28 | an expense can match only when the supplied dates agree: `date_from` no later than `date_to`, and an exact `date` inside both bounds |
| ExpenseFilters.Select | backend/api/expenses/filters.py:10-28 | the filtered list holds exactly the expenses of the list that satisfy every supplied lookup |
| ExpenseFilters.FromQuery | backend/api/expenses/filters.py:10-32 | cleaning fails exactly when a non-empty date parameter parses in neither format or the stripped category holds U+0000, and the error is the set of those parameters; otherwise each date filter is set iff its parameter is non-empty, to the date it parses to, and the category filter is set iff the value strips to a non-empty text, to that stripped text |
| ExpenseFilters.NullCharacterRejected | backend/api/expenses/filters.py:28 | a category value holding U+0000 makes cleaning fail with `category` among the errors, whatever the other parameters |
| ExpenseFilters.CategoryPaddingIgnored | backend/api/expenses/filters.py:28 | whitespace around the category value changes neither the filter nor the error |
| ExpenseFilters.UndeclaredParametersIgnored | backend/api/expenses/filters.py:32 | a parameter outside date, date_from, date_to and category has no effect |
| ExpenseFilters.SpellingsFilterAlike | backend/api/expenses/filters.py:10-27 | both spellings of one date, given to any date parameter, clean to the same filter holding that date |
| ExpenseFilters.SingleFilterMeaning | backend/api/expenses/filters.py:10-28 | `date` matches the equal date, `date_from` later-or-equal dates, `date_to` earlier-or-equal dates, `category` names equal up to case; the category id never matters |
| ExpenseFilters.SameDayRangeIsExactDate | backend/api/expenses/filters.py:18-27 | `date_from = date_to = d` selects the same expenses as `date = d` |
| ExpenseFilters.InvertedRangeSelectsNothing | backend/api/expenses/filters.py:18-27 | `date_from` after `date_to` selects no expense |
| ExpenseFilters.CategoryIgnoresCase | backend/api/expenses/filters.py:28 | category values that differ only in case select the same expenses, whatever the category ids |
| Users.SetDefault | backend/api/users/models.py:20-21 | `setdefault` adds the key with the default only when absent and never overwrites a value |
| Users.CreateUser | backend/api/users/models.py:10-16 | fails with "Email address is required" and saves nothing iff the email is missing or empty; otherwise saves one user carrying the normalized email, every extra field and the password set before the save |
| Users.CreateSuperuser | backend/api/users/models.py:19-22 | `is_staff`/`is_superuser` are true unless the caller supplied them, in which case the caller's values are kept. Every other extra field is kept, and the email rule of `create_user` applies |

## Left out

- Transport settings (base URL, credentials mode) and the network calls themselves: each awaited call is replaced by its outcome. Of the request config only the method, URL and headers are modelled; the instance's default `Content-Type` header (api.ts:7-9) is the only header the model places on a request before the interceptor runs; the headers axios merges in from its own defaults are not modelled.
- `window.location.href = "/login"`, the toast library, `document.cookie` and `console.error` become ghost logs. The page unload a redirect starts is not modelled: the call goes on to reject as the code says. React rendering, `useEffect` and the context provider are not modelled; the mount-time status check is a call the client makes after the constructor.
- ApiClient.CsrfClient.InterceptRequest: axios mutates `config.headers` in place and returns the same object; the model returns a new config value, so aliasing of the config is not captured.
- Text.Lower: folds ASCII letters only. No non-ASCII character lower-cases to a letter of "post", "put" or "delete", so the method test is unaffected.
- Response header names are taken as axios delivers them (in lower case); the case-insensitive lookup of `AxiosHeaders` is not modelled.
- Overlapping requests: all calls happen strictly in sequence. A race between two in-flight responses on the token is not modelled.
- The `csrfToken` field of an `AuthResponse` body is carried but never read, as in the program.
- `resetPassword` is declared in the context type but never supplied by the provider; it has no behaviour to model.
- Dates.ParseAs: reads only the zero-padded fixed-width spellings. `strptime` also accepts one-digit months and days, a space-padded day for `%d` (such as "2024-01- 5"), and non-ASCII decimal digits wherever a digit is expected.
- ExpenseFilters.FromQuery: the validation message text of Django forms and repeated query parameters are not modelled. The error is the set of invalid parameter names.
- ExpenseFilters.Matches: `iexact` is modelled as ASCII case folding. The database's own collation for non-ASCII text is not.
- Users.CreateUser: `normalize_email` is an arbitrary function parameter, and `set_password` is recorded as the raw password it was given (hashing is not modelled). `save` appends to the table; email uniqueness, a database constraint, is not enforced. Django's rejection of keyword arguments that name no model field happens in code that is not part of this model.
- The Django views, URL configuration, settings, serializers and schema declarations, and the front end's routing, dashboard and type-only files, are not part of this model.
