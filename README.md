# Kost reservation: verified model of the database helper and the reservation form

This project models, in Dafny, the two pieces of logic in the kost (boarding
house) reservation web application that are more than rendering:

- **`lib/db.ts`**, the PostgreSQL helper. `convertToPostgreSQLParams` rewrites
  every `?` of a statement into `$1`, `$2`, … from left to right, unless no
  parameters were given. The helpers `query`, `queryOne`, `insert` and
  `execute` run the converted statement and shape its result. `transaction`
  leases a client, runs BEGIN, the caller's callback and COMMIT, issues
  ROLLBACK on any failure, and releases the client in `finally`.
- **`app/reservasi/page.tsx`**, the reservation form. It covers the kost
  options built from the fetched list, the selected kost, the prorated total
  (yearly price / 12 × months, rounded), the one-field update of the form
  record, the initial form, and the submit handler. The handler has a login
  guard, builds a payload, and manages the `loading` and `success` flags.

Modules:

- `Wrappers` (wrappers.dfy): `Option` and `Result`.
- `Decimal` (decimal.dfy): decimal spelling of integers (`String(n)`,
  the `$n` numbers) and `parseInt`. It proves that `parseInt(String(i)) == i`.
- `Db` (db.dfy): the placeholder rewrite, both as a specification function
  (`Rewrite`, `Convert`) and as the source's counter loop
  (`ConvertToPostgreSQLParams`). It also holds the four helpers over a
  statement runner, and the transaction protocol. That protocol is a `Pool`
  class that records events, plus the `Transaction` method proved equal to
  the specification functions `TransactionTrace` and `TransactionOutcome`.
- `Reservasi` (reservasi.dfy): the form's pure logic, and a
  `ReservationPage` class. The class holds the page state (`user`,
  `kostData`, `formData`, `loading`, `success`) and a log of the page's
  outside effects (alerts, navigation, the POST).

How the outside world appears in the model:

- `pool.query` is a parameter of the helpers: a total function from the
  converted statement to a result or an error. So each helper runs exactly
  the statement the model says, once.
- For `transaction`, each awaited step settles one way or the other. The
  step outcomes are grouped in a `Scenario`: `pool.connect()`, BEGIN, the
  callback, COMMIT and ROLLBACK. The lemmas and contracts hold for every
  scenario. This stands in for the nondeterminism of the database.
- `handleSubmit` is split at its `await`. `HandleSubmit` covers the guard,
  `setLoading(true)` and the POST. `SubmitFinished(reply)` covers the
  response branch and the `finally`. `reply` is `None` when `fetch` or
  `response.json()` throws. Between the two calls a request is in flight and
  `loading` is true.
- Numbers are unbounded integers. `NaN` (from a `parseInt` that finds no
  digit, and from the total it then produces) is `None`; `JSON.stringify`
  sends it as `null`.
- The proration `Math.round((harga / 12) * durasi)` is modelled as the exact
  rational `harga * durasi / 12`, rounded to the nearest integer with halves
  going up, as `Math.round` does. That value is `(harga * durasi + 6) / 12`
  with floor division. This is an idealisation of the floating-point
  expression.

Three behaviours of the placeholder rewrite are modelled as the code has
them:

- The rewrite does not compare the number of `?` with the number of
  parameters.
- It also rewrites a `?` inside a quoted SQL literal.
- With no parameters, or an empty list, nothing is rewritten and the `?`
  stay literal.

## Model

| member | source | states |
|---|---|---|
| `Db.Convert` | lib/db.ts:19-28 | With parameters absent or empty, the statement is unchanged and the parameter list is empty. Otherwise the parameters pass through unchanged and no `?` is left in the SQL. |
| `Db.ConvertToPostgreSQLParams` | lib/db.ts:19-28 | The source's left-to-right scan, with a counter starting at 1 and moving on at each `?`, computes exactly `Convert`. |
| `Db.Rewrite` | lib/db.ts:25 | The rewrite never shortens the statement: each `?` becomes a marker of at least two characters and every other character stays. |
| `Db.RewriteRemovesPlaceholders` | lib/db.ts:25 | No `?` is left after the rewrite, not even one inside a quoted literal. |
| `Db.RewriteAt` | lib/db.ts:24-25 | Position by position, the character at index i becomes `$(next + number of ? before i)` if it is a `?`. Any other character is kept. The text before and after is rewritten around it. |
| `Db.RewriteAppend` | lib/db.ts:25 | The rewrite distributes over concatenation, and the numbering continues across the join. |
| `Db.RewriteWithoutPlaceholders` | lib/db.ts:25 | A statement without `?` comes out unchanged. |
| `Db.RewriteMarkerCount` | lib/db.ts:24-25 | The output has as many `$` as the input had `$` and `?` together: one marker per `?`, whatever the parameter count. |
| `Db.RestoreRewrite` | lib/db.ts:25 | For a statement without a literal `$`, reading the `$n` markers back as `?` gives the original statement. The rewrite loses nothing. |
| `Db.QuotedPlaceholderIsNumbered` | lib/db.ts:25 | With parameters, `<a>'?'<b>?` becomes `<a>'$1'<b>$2`: a `?` inside a string literal is numbered too. |
| `Db.ConvertIgnoresParamCount` | lib/db.ts:20-27 | With any two non-empty parameter lists, the converted SQL is the same. |
| `Db.ConvertAppendLiteral` | lib/db.ts:74-75 | Appending text without `?` after the conversion gives the same statement as converting with the text already appended. |
| `Db.Query` | lib/db.ts:44-55 | `query` returns all rows of the converted statement's result, in order. An error is rethrown unchanged. |
| `Db.QueryOne` | lib/db.ts:58-69 | `queryOne` returns null exactly when there are no rows, else the first row. An error is rethrown unchanged. |
| `Db.QueryOneIsHeadOfQuery` | lib/db.ts:58-62 | `queryOne` gives the head of what `query` gives for the same statement, or null for no rows, and the same error. |
| `Db.Insert` | lib/db.ts:72-83 | `insert` runs the converted SQL plus ` RETURNING id` with the converted parameters. It returns the first row's `id`, or undefined when there is no row or no `id`. An error is rethrown unchanged. |
| `Db.InsertIsQueryReturningId` | lib/db.ts:74-76 | `insert(sql)` equals `query(sql + " RETURNING id")` reduced to the first row's `id`, errors included. |
| `Db.Execute` | lib/db.ts:86-97 | `execute` returns the affected-row count, or 0 when the count is null. An error is rethrown unchanged. |
| `Db.Attempt` | lib/db.ts:102-106 | The `try` block succeeds exactly when BEGIN, the callback and COMMIT all succeed, with the callback's value. Otherwise it fails with the first failing step's error. |
| `Db.TransactionTrace` | lib/db.ts:100-113 | If acquire fails, nothing happens: no BEGIN and no release. After a lease, the events run acquire, then BEGIN, …, then release. Acquire and release each happen once, and release is last. COMMIT is issued only after BEGIN and the callback succeeded. On success the trace is acquire, BEGIN, callback, COMMIT, release. ROLLBACK is issued, just before release, exactly when BEGIN, the callback or COMMIT failed. |
| `Db.TransactionOutcome` | lib/db.ts:100-113 | On success it returns the callback's result. On a connect failure it throws that error. On a failure after the lease it throws the original error, or ROLLBACK's own error when ROLLBACK fails too. |
| `Db.Transaction` | lib/db.ts:100-113 | The try/catch/finally method appends exactly `TransactionTrace` to the pool's events and returns `TransactionOutcome`. |
| `Db.Pool.constructor` | lib/db.ts:4-12 | A new pool has recorded nothing. |
| `Db.Pool.Connect` | lib/db.ts:101 | A lease is recorded only when `pool.connect()` resolves. |
| `Db.Pool.Query` | lib/db.ts:103 | `client.query(BEGIN/COMMIT/ROLLBACK)` is recorded whatever its outcome. |
| `Db.Pool.RunCallback` | lib/db.ts:104 | The callback run is recorded and its outcome returned. |
| `Db.Pool.Release` | lib/db.ts:111 | `client.release()` is recorded. |
| `Decimal.NatToString` | lib/db.ts:25 | The number after `$` is a non-empty string of decimal digits with no leading zero. |
| `Decimal.NatToStringValue` | lib/db.ts:25 | Reading that digit string gives back the number. |
| `Decimal.IntToString` | app/reservasi/page.tsx:80 | `String(i)` is never empty. It starts with `-` exactly when `i` is negative, and is all digits otherwise. |
| `Decimal.ParseInt` | app/reservasi/page.tsx:135-137 | `parseInt` of the empty string is `NaN`. |
| `Decimal.ParseIntNoDigit` | app/reservasi/page.tsx:92 | A string that starts with neither white space, a sign nor a digit parses as `NaN`. |
| `Decimal.ParseIntDigits` | app/reservasi/page.tsx:92 | A non-empty string of decimal digits parses as its value. |
| `Decimal.ParseIntNegative` | app/reservasi/page.tsx:135-137 | `-` followed by decimal digits parses as the negated value. |
| `Decimal.ParseIntSkipsSpace` | app/reservasi/page.tsx:135-137 | Leading white space does not change the result. |
| `Decimal.ParseIntToString` | app/reservasi/page.tsx:80 | `parseInt(String(i)) == i` for every integer: the option id that `toString` writes reads back as the kost's id. |
| `Decimal.IntToStringInjective` | app/reservasi/page.tsx:80 | Different kost ids give different option ids. |
| `Reservasi.OptionsOf` | app/reservasi/page.tsx:79-84 | One option per kost, same length and order. The id is the decimal text of the kost id; name, price and address are copied. |
| `Reservasi.KostOptions` | app/reservasi/page.tsx:79-84 | Empty when no data has loaded, otherwise the options of the fetched list. |
| `Reservasi.OptionIdsReadBack` | app/reservasi/page.tsx:80 | An option's id parses back to its kost's id. Options with equal ids come from kosts with equal ids. |
| `Reservasi.SelectedKost` | app/reservasi/page.tsx:86 | `find`: none exactly when no option has id `kost_id`. Otherwise it is an option with that id, and no earlier option has it. |
| `Reservasi.RoundTwelfth` | app/reservasi/page.tsx:93 | `Math.round(n / 12)`: the integer r with 12r - 6 <= n < 12r + 6 (nearest, halves up). |
| `Reservasi.RoundTwelfthUnique` | app/reservasi/page.tsx:93 | That characterisation determines the rounded value uniquely. |
| `Reservasi.CalculateTotal` | app/reservasi/page.tsx:89-94 | 0 without a selected kost. `NaN` exactly when the duration does not parse. Otherwise within half a unit of price × months / 12 (halves up). |
| `Reservasi.FullYearCostsYearlyPrice` | app/reservasi/page.tsx:91-93 | A duration of 12 months costs exactly the yearly price. |
| `Reservasi.DefaultDurationIsTwelve` | app/reservasi/page.tsx:25 | The default duration text `'12'` parses as 12. |
| `Reservasi.TotalMonotoneInDuration` | app/reservasi/page.tsx:93 | With a non-negative price, a longer stay never costs less. |
| `Reservasi.ThreeMonthsExample` | app/reservasi/page.tsx:93 | 12,000,000 a year for 3 months costs 3,000,000. |
| `Reservasi.WithField` | app/reservasi/page.tsx:104-109 | The named field takes the new value and every other field is unchanged. |
| `Reservasi.WithFieldSameValue` | app/reservasi/page.tsx:104-109 | Writing a field's current value back leaves the form unchanged. |
| `Reservasi.WithFieldLastWins` | app/reservasi/page.tsx:104-109 | Of two changes to one field, the later one wins. |
| `Reservasi.WithFieldCommutes` | app/reservasi/page.tsx:104-109 | Changes to different fields commute. |
| `Reservasi.InitialForm` | app/reservasi/page.tsx:18-27 | `kost_id` is the URL's when present and non-empty, else `'1'`, and never empty. `durasi` is `'12'`; every other field is empty. |
| `Reservasi.SubmitPayload` | app/reservasi/page.tsx:125-140 | `total_harga` is `calculateTotal()` at submit time. `kost_id` and `durasi_bulan` are `parseInt` of the form strings. `catatan` is null exactly when empty. |
| `Reservasi.PostedKostIsSelectedKost` | app/reservasi/page.tsx:125-140 | When the selected kost comes from the fetched list, the posted `kost_id` is that kost's numeric id, and the price used is its price. |
| `Reservasi.HasIdentity` | app/reservasi/page.tsx:116 | The guard `user && user.id`: no identity without a stored user or without an id, and an id of 0 is falsy, so it counts as no identity. |
| `Reservasi.FailureMessage` | app/reservasi/page.tsx:155 | The failure alert is the API's message when it has one. It is exactly `'Gagal membuat reservasi. Silakan coba lagi.'` when the message is empty, and is never empty. |
| `Reservasi.ReservationPage.constructor` | app/reservasi/page.tsx:14-30 | The page starts with no user, no data, the initial form, `loading` and `success` false, and no effects. |
| `Reservasi.ReservationPage.UserLoaded` | app/reservasi/page.tsx:41-48 | The stored user is kept; name and email are filled in. Nothing else changes. |
| `Reservasi.ReservationPage.KostLoaded` | app/reservasi/page.tsx:68-70 | The fetched list is kept only for an ok and successful answer. |
| `Reservasi.ReservationPage.HandleChange` | app/reservasi/page.tsx:104-109 | Exactly the named field of `formData` changes. The rest of the page state is unchanged. |
| `Reservasi.ReservationPage.HandleSubmit` | app/reservasi/page.tsx:112-141 | Without a user with a non-zero `id` it alerts and navigates to `/login`, sends nothing, and leaves `loading` alone. Otherwise it sets `loading` and posts `SubmitPayload`. |
| `Reservasi.ReservationPage.SubmitFinished` | app/reservasi/page.tsx:143-162 | `success` becomes true only for an ok response with `data.success`, which then refreshes and schedules `/dashboard/reservasi`. Any other reply gives an alert. `loading` is false on every path. |
| `Reservasi.SubmitOnce` | app/reservasi/page.tsx:112-163 | A whole submission. With a logged-in user, `loading` is true while the request is out (the ghost `inFlight`) and false after. `success` becomes true exactly when it already was or the reply is ok with `data.success`. The effects are the POST of `SubmitPayload` followed by the reply's effects. Without a user, the flags are untouched and the effects are the login alert and the navigation to `/login`. The user, the data and the form are unchanged. |

## Left out

- Pool construction and configuration (TLS, sizes, timeouts), `testConnection`, `closePool` and all console logging: these are I/O and a foreign library. The helpers' logging before a rethrow is not modelled.
- The SQL semantics of PostgreSQL: query results are opaque inputs given by the statement runner.
- What the callback does with the client inside `transaction`: it is one opaque step with an outcome.
- `Db.Transaction`: the outcomes of the awaited steps are parameters, not real nondeterminism, and concurrent transactions on the pool are not modelled.
- app/api/health/route.ts and app/api/notifications/mark-read/route.ts are not part of this model: they are thin HTTP wrappers, and mark-read's update is commented out.
- React rendering, styles, animations, focus and hover handlers, currency and date formatting.
- `fetch`, `sessionStorage`/`localStorage` and `JSON.parse` of the stored user. Their results enter as the parameters of `UserLoaded`, `KostLoaded` and `SubmitFinished`.
- The alert dialog itself and the router: they are recorded as effects, not performed. The delayed navigation is one effect; its 2-second timer is not modelled.
- Reservasi.CalculateTotal: exact rational arithmetic instead of IEEE-754 `(harga / 12) * durasi`, because the float rounding of that expression is not modelled. Also `harga` is an integer (`Kost.harga: int`); a string or fractional price from the API is not modelled.
- Decimal.ParseInt: handles ASCII white space, a sign and decimal digits only. The select's option values are decimal, but `kost_id` can come from the URL (app/reservasi/page.tsx:12, 23). A hexadecimal `kost_id` is not modelled: for `0x1` the model gives `Some(0)`, where `parseInt` gives 1. Non-ASCII white space is not modelled either.
- Reservasi.WithField: the event's field name is one of the form's eight fields, as every control of the form carries one of them. Adding an unknown key to `formData` is not modelled.
- Reservasi.HasIdentity: `user.id` is an optional integer, falsy when absent or 0. A string id is not modelled.
