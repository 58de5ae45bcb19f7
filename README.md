# Shy Bird restaurant planner: data layer, session guard and login, in Dafny

This project models the server-side core of the Shy Bird planning app. The app is a
Next.js application in which restaurant staff sign in, see the locations they were
granted, and keep a weekly sales forecast plus daily actual sales and purchasing
figures per location. Three parts are modelled:

- **The data-access layer** (`lib/db/index.ts`), in `db.dfy`. A `Store` class holds
  one sequence of rows per table, plus the next SERIAL ids of `weekly_data` and
  `daily_actuals`.
  - The reads are functions of the tables: `authenticateUser`, `getUserLocations`
    and `getLocationDetails`.
  - The writes are methods that change the tables in place: `getOrCreateWeeklyData`
    with its seven-step insertion loop, `updateWeeklyForecast` and `updateDailyActual`.
  - `Store.Valid()` is the invariant every modelled write keeps: ids increase and stay
    below the SERIAL counter, there is one weekly row per (location, week start), and
    every week has exactly its seven daily rows, Monday first, dated weekStart + 0 … 6
    days. In the model no INSERT fails. The source runs
    its eight INSERTs without a transaction, so it keeps this only when none of them
    throws (see "## Left out").
- **The session guard** (`middleware.ts`), in `middleware.dfy`. It is a decision
  function over the path, the cookies and the token verifier.
- **The login endpoint** (`app/api/auth/login/route.ts`), in `login_route.dfy`. It
  is a function from the request body and the four services the handler calls to the
  response: status, JSON body and the cookie it sets. The services are the user
  query, the hash comparison, the grants query and the token signer. Each one returns
  a value or throws.

Support modules:

- `wrappers.dfy`: `Option` and `Result`.
- `seqs.dfy`: the relational operations the SQL reduces to. These are a filter
  (WHERE), a stable insertion sort (ORDER BY) and code-point lexicographic order on
  strings.
- `calendar.dfy`: proleptic Gregorian dates. It has the day step that lays out a
  week, an independent day-number reference with weekdays, and the ISO 8601
  `YYYY-MM-DD` text that `toISOString().split('T')[0]` produces, with its parser.

Modelling decisions:

- A query's `rows[0]` is the first matching row in storage order.
- The `queryFails` argument of `AuthenticateUser` and `GetUserLocations` says whether
  their SELECT throws; the catch branches then answer `null` and `[]`.
- `ORDER BY CASE day_of_week …` gives an unrecognised day name a NULL key. PostgreSQL
  sorts NULL after every number in ascending order, so here such a name ranks 8.
- `weekStart` is taken to be a valid calendar date. The parameter is a string; a string
  that is not a date is left out (see "## Left out"). The model stores dates as values. `Calendar.IsoDateRoundTrip` shows that the text
  written for day i denotes exactly `AddDays(weekStart, i)`.
- In get-or-create, a location that does not exist makes
  `location.rows[0].weekly_sales_target` throw before anything is inserted. This is
  `Failure(LocationMissing)` with the tables unchanged.
- The request's `production` flag stands for `process.env.NODE_ENV === 'production'`.
- The verifier argument of the guard stands for `jwtVerify` under the configured
  secret. It is false both when the token is rejected and when the call throws.

## Model

| member | source | states |
|---|---|---|
| Db.Store.AuthenticateUser | lib/db/index.ts:40-62 | a user is returned exactly when the query does not fail and an active user row with that username exists, and it is that row without the password hash; a failing query gives null |
| Db.ProfileOmitsHash | lib/db/index.ts:42-46 | the selected user carries the row's id, name, email, role and active flag and does not depend on the password hash |
| Db.Store.AuthenticateIgnoresPassword | lib/db/index.ts:52-57 | the password argument never changes the result |
| Db.ActiveUsersNamed | lib/db/index.ts:42-46 | the selected rows are exactly the active rows with that username |
| Db.Store.GetUserLocations | lib/db/index.ts:65-78 | a failing query gives []; otherwise the result is sorted by name, holds exactly the locations the user has a can_view grant for (one copy per such grant, as the join does), and nothing else |
| Db.ViewableJoinSound | lib/db/index.ts:67-71 | every row of the join (ViewableJoin) is a location row on which the user holds a grant with can_view |
| Db.ViewableJoinComplete | lib/db/index.ts:67-71 | every location row on which the user holds a grant with can_view is in the join (ViewableJoin) |
| Db.ViewableJoinMembers | lib/db/index.ts:67-71 | a location is in the join iff it is a location row and the user holds a grant with can_view on its id |
| Db.FindGrant | lib/db/index.ts:84-87 | a grant row for (user, location) if one exists; None iff there is none |
| Db.MayViewMeans | lib/db/index.ts:89-91 | the access check (MayView) passes only on a grant with can_view and never without a grant row; when the user's grant rows for the location agree on can_view, it passes exactly when one of them views |
| Db.FindLocation | lib/db/index.ts:94-96 | a location row with that id if one exists; None iff there is none |
| Db.Store.GetLocationDetails | lib/db/index.ts:81-144 | "Access denied" iff there is no grant row or its can_view is false, checked before the location exists; "Location not found" iff access is granted and no row has the id; otherwise both distributions are permutations of that location's rows sorted Monday to Sunday, and the vendors are exactly its active vendor rows |
| Db.DayRank | lib/db/index.ts:107-115 | Monday = 1 … Sunday = 7, any other name sorts after all seven |
| Db.DistributionOf | lib/db/index.ts:103-106 | an entry is selected iff some distribution row of that location has that day and percentage |
| Db.SortByRank | lib/db/index.ts:107-115 | the result is ordered by weekday rank and is a permutation of its input |
| Db.ActiveVendorsOf | lib/db/index.ts:133-137 | a vendor entry is selected iff an active vendor row of that location carries it |
| Db.FindWeek | lib/db/index.ts:159-162 | a weekly row of that location and week start if one exists; None iff there is none |
| Db.FindWeekById | lib/db/index.ts:193-195 | a weekly row with that id if one exists; None iff there is none |
| Db.DailiesOfMembers | lib/db/index.ts:199-201 | a week's daily rows (DailiesOf) are exactly the stored rows whose weekly_data_id is that week's id |
| Db.SortByDate | lib/db/index.ts:199-203 | the result is in date order and is a permutation of its input |
| Db.WeekPlanNamesWeekdays | lib/db/index.ts:179-185 | when the week starts on a Monday, the day name stored with each date is that date's weekday |
| Db.WeekRowsAlreadySorted | lib/db/index.ts:199-203 | in a valid store, a week's daily rows in date order are its seven rows in storage order |
| Db.CreatedWeek | lib/db/index.ts:166-195 | inserting a new week row and its seven day rows keeps the store invariant; the new row is then the first match by id and by (location, week start), and its days in date order are the seven inserted rows |
| Db.Store.GetOrCreateWeeklyData | lib/db/index.ts:152-208 | a found week is returned with its days and nothing is inserted; a missing location fails with nothing inserted; otherwise exactly one weekly row (forecast = the location's target, created_by = user) and then exactly seven daily rows are appended; every success is the stored week of (location, week start) with its seven days Monday first, and the invariant is kept |
| Db.Store.InsertWeek | lib/db/index.ts:170-191 | the weekly row and then its seven daily rows are appended with the next SERIAL ids; the tables stay valid, and the new row is the match of its id and of its (location, week start) |
| Db.Store.CreateWeek | lib/db/index.ts:164-196 | the creation branch: the row seeded from the location's target and the user, the seven day rows after it, SERIAL ids from the counters, the row re-read by id |
| Db.Store.InsertWeekDays | lib/db/index.ts:179-191 | the loop appends, for i = 0 … 6, the row (days[i], weekStart + i days) with consecutive ids, and nothing else |
| Db.GetOrCreateTwice | lib/db/index.ts:159-203 | a second call with the same location and week start returns the same result as the first (same weekly id, same seven days); the two calls together change nothing when the week existed or the location is missing, and otherwise add exactly one weekly row and its seven daily rows, the ones the first call inserts |
| Db.SetForecast | lib/db/index.ts:221-225 | only weekly_sales_forecast changes, and only on rows with that id |
| Db.SetForecastAbsentId | lib/db/index.ts:221-225 | an id no row has leaves the table unchanged |
| Db.SetForecastOneRow | lib/db/index.ts:221-225 | with distinct ids, at most one row changes |
| Db.SetForecastKeepsValid | lib/db/index.ts:215-230 | the forecast update keeps the store invariant |
| Db.Store.UpdateWeeklyForecast | lib/db/index.ts:215-230 | the weekly table becomes the forecast update of the old one; no grant is checked and the user id is not used |
| Db.SetActuals | lib/db/index.ts:239-247 | only actual_sales, actual_purchasing and updated_by change, and only on rows with that id; every other row is unchanged |
| Db.SetActualsAbsentId | lib/db/index.ts:239-247 | an id that no row has leaves the table unchanged |
| Db.SetActualsOneRow | lib/db/index.ts:239-247 | with distinct ids, at most one row changes |
| Db.SetActualsKeepsValid | lib/db/index.ts:232-252 | the actuals update keeps the store invariant |
| Db.Store.UpdateDailyActual | lib/db/index.ts:232-252 | the daily table becomes the actuals update of the old one; no grant is checked |
| Calendar.NextDay | lib/db/index.ts:183-184 | the next calendar day is strictly later |
| Calendar.AddDays | lib/db/index.ts:183-184 | moving n days forward never goes back, and goes strictly forward when n > 0; AddDaysNumber states the exact distance |
| Calendar.YearText | lib/db/index.ts:185 | a year in 0 … 9999 is written as four digits that read back as the year; any other year starts with its sign |
| Calendar.IsoDate | lib/db/index.ts:185 | for a four-digit year the date text has ten characters with dashes at positions 4 and 7; IsoDateRoundTrip and IsoDateCanonical state that it reads back as the date and is the only text that does |
| Calendar.AddDaysIncreasing | lib/db/index.ts:182-185 | the seven dates of a week are strictly increasing |
| Calendar.AddDaysNumber | lib/db/index.ts:182-185 | adding n days advances the day number by exactly n |
| Calendar.WeekFromMonday | lib/db/index.ts:179-185 | counting from a Monday, offset i falls on weekday i |
| Calendar.IsoDateRoundTrip | lib/db/index.ts:185 | the ten-character YYYY-MM-DD text of a date with a four-digit year reads back as that date |
| Calendar.IsoDateCanonical | lib/db/index.ts:185 | every text that reads back as a date is exactly the text written for it |
| Seqs.Sort | lib/db/index.ts:72 | sorting by a total preorder gives a sorted permutation of the input |
| Seqs.FilterMembers | lib/db/index.ts:45 | a WHERE keeps exactly the rows that satisfy the condition |
| Middleware.SomePrefix | middleware.ts:5-11 | the scan of the allow-list is true iff some listed prefix starts the path |
| Middleware.Token | middleware.ts:16 | the token is the auth-token cookie's value, or empty when the cookie is not sent |
| Middleware.Guard | middleware.ts:7-32 | a request passes iff its path is public or its auth-token cookie is non-empty and verifies; every other request is redirected to /login |
| Middleware.PublicPathsPass | middleware.ts:5-13 | paths starting with /login or /api/auth/login pass whatever the cookies and the verifier |
| Middleware.LookAlikePathsArePublic | middleware.ts:11-13 | because the test is by prefix, /login-x and /loginpage/admin pass too |
| Middleware.MissingTokenRedirects | middleware.ts:16-20 | a protected path without the cookie, or with an empty one, is redirected to /login |
| Middleware.RejectedTokenRedirects | middleware.ts:22-31 | a protected path whose token fails verification or throws is redirected to /login |
| Middleware.RedirectTargetPasses | middleware.ts:5-19 | the redirect target itself passes, so there is no redirect loop |
| Middleware.ProtectedNeedsToken | middleware.ts:16-27 | a protected path never passes without a token, and passes with any non-empty token that verifies |
| Middleware.DashboardIsProtected | middleware.ts:5-11 | /dashboard is not public |
| LoginRoute.TokenFor | app/api/auth/login/route.ts:40-48 | the signer gets HS256, a payload of exactly the user's id, username, email and role, and a 24-hour lifetime |
| LoginRoute.AuthCookie | app/api/auth/login/route.ts:63-69 | the auth-token cookie carries the token and is httpOnly, sameSite strict, maxAge 86400 and path /, and secure iff production |
| LoginRoute.Post | app/api/auth/login/route.ts:6-76 | every answer is 200, 401 or 500; a 401 is exactly {error: 'Invalid credentials'} with no cookie; a 500 is 'Login failed' with details and no cookie; a cookie is set iff the status is 200, and it carries that answer's token |
| LoginRoute.SuccessExactly | app/api/auth/login/route.ts:8-71 | 200 iff the body parses, an active user is found, the password matches, and the grants query and the signing return; the answer then carries that user's four fields, the grants rows and the signed token, and sets the token as the cookie |
| LoginRoute.UnknownUserIsUnauthorized | app/api/auth/login/route.ts:12-19 | no active user with the name gives a 401 without a cookie |
| LoginRoute.WrongPasswordLooksLikeUnknownUser | app/api/auth/login/route.ts:17-27 | a wrong password gives exactly the answer an unknown name gives |
| LoginRoute.ThrowsBecomeFailures | app/api/auth/login/route.ts:24-75 | a throw from the comparison, the grants query or the signer gives 500 with the thrown message |
| LoginRoute.EarlyThrowsBecomeFailures | app/api/auth/login/route.ts:8-75 | an unparsable body or a failing user query gives 500 |
| LoginRoute.Public | app/api/auth/login/route.ts:52-57 | the answer's user object holds the same id, username, email and role as the token payload |
| LoginRoute.TokenMatchesAnswer | app/api/auth/login/route.ts:40-60 | the token payload and the answer's user hold the same four fields, and neither depends on the password hash |
| LoginRoute.AccessJoinSound | app/api/auth/login/route.ts:30-36 | every row of the grants join (AccessJoin) is a location row with a grant of the user on it, carrying that grant's can_view and can_edit |
| LoginRoute.AccessJoinComplete | app/api/auth/login/route.ts:30-36 | every grant of the user, viewing or not, joined with a location row of the granted id, is in the grants join (AccessJoin) |
| LoginRoute.AccessJoinMembers | app/api/auth/login/route.ts:30-36 | a row is in the grants join iff the user holds a grant on that location, with the same can_view and can_edit, whether can_view is set or not |
| LoginRoute.LoginOverTables | app/api/auth/login/route.ts:12-60 | over the tables, a name with no active user gives 401; a 200 answer's user is an active user of that name, and its locations are exactly the user's grants joined with their locations |
| LoginRoute.NonViewingGrantListed | app/api/auth/login/route.ts:30-36 | a grant without can_view still appears in a successful login answer |

## Left out

- PostgreSQL and the `sql` tagged templates: tables are in-memory sequences of rows, and the SQL text is not checked.
- Storage errors in the other operations of lib/db/index.ts: they rethrow, and in db.dfy no query fails outside `AuthenticateUser` and `GetUserLocations`. The login route's own failures are modelled in login_route.dfy as `Attempt.Threw`.
- Db.Store.AuthenticateUser: a failing query is one boolean argument. Which errors happen, and when, is not modelled.
- Db.Store.GetUserLocations: a failing query is one boolean argument. Which errors happen, and when, is not modelled.
- Db.Store.GetOrCreateWeeklyData: the weekly INSERT and the seven daily INSERTs (lib/db/index.ts:170-191) run without a transaction, and the model lets none of them fail. In the source, a throw partway leaves a weekly row with fewer than seven daily rows. The throw could come from a failing INSERT. It could also come from `toISOString` raising a RangeError when `new Date(weekStart + 'T12:00:00')` is invalid. That happens only for a string the database accepted in the first SELECT (lib/db/index.ts:159-162) but JavaScript's `Date` cannot parse. The table schema is not part of this model, so whether such a string exists is not known here. Every later call then takes the found branch (lib/db/index.ts:164, 199-207) and returns the partial week. `Store.Valid()`, and the seven rows promised by `Db.GetOrCreateTwice`, hold only on the failure-free runs the model covers.
- `bcrypt.compare`, `SignJWT` and `jwtVerify` (HS256): the cryptography is not modelled. They are the function-valued `passwordMatches`, `sign` and `verifies` arguments.
- The `query` helper imported by the login route is not defined in `lib/db/index.ts`. This model treats it as two opaque services. `LoginRoute.TableServices` gives one table-backed reading of them.
- `updated_at = NOW()` (lib/db/index.ts:223, 245): the updated_at columns and the clock are not modelled.
- `created_at` defaults and other columns not selected by the code are not modelled.
- The JavaScript `Date` handling of lib/db/index.ts:180-185 is modelled as pure calendar add-days. The model leaves out:
  - local noon and the conversion to UTC by `toISOString`, which shifts the date by one day at UTC−12 or west of it, or more than 12 hours east of UTC
  - daylight-saving gaps
  - the RangeError beyond ±275760 years
- Calendar.IsoDateRoundTrip: stated for four-digit years only. The six-digit signed form of `toISOString` for other years is produced by `YearText` but not parsed back.
- Malformed `weekStart` strings: `weekStart` is a string parameter, and the model takes it to be a valid date. If the database rejects such a string, the first SELECT (lib/db/index.ts:159-162) fails and nothing is inserted. If the database accepts it but JavaScript's `Date` cannot parse it, the loop throws after the weekly row is inserted (see the `Db.Store.GetOrCreateWeeklyData` line above). It does not require that date to be a Monday, and neither does the source. `Db.WeekPlanNamesWeekdays` states what holds when it is one.
- Concurrent get-or-create calls: the code runs no transaction and does not handle a duplicate-key error, so two racing calls can create the same week twice. Concurrency is not modelled.
- `ORDER BY l.name` is modelled as code-point order (the "C" collation). The database's locale collation is not modelled.
- The order of rows from queries without ORDER BY is modelled as storage order. The login grants join is stated by membership only.
- `process.env.JWT_SECRET` with its `'secret'` fallback and `NODE_ENV`: the environment is not modelled. The secret is inside the `sign` and `verifies` arguments, and production is a boolean argument.
- `console.log` and `console.error` are not modelled.
- `config.matcher` in middleware.ts:34-45 is framework routing configuration. The guard is modelled for the requests it is invoked on.
- The redirect's absolute URL is built from the request URL. The model keeps only its path, `/login`.
- The JSON shape of the request body: `username` and `password` are taken as strings. A body that does not parse is `Threw`.
- `app/page.tsx` and `app/dashboard/page.tsx` are page markup and are not modelled.
- `app/api/locations/[id]/route.ts` re-implements the reads of getLocationDetails inline, with its own status codes, and is not modelled.
