# Certificate gateway: connection-resilience and request gates, in Dafny

This project models the decision layer of a small read-only HTTP gateway
(`server.js`). The gateway serves rows from three certificate tables of a
MySQL database to a front end. The model covers four parts:

- **Connection-error classification** (`isClosed`). A pure predicate over a
  driver error's optional `code` and `message`. It decides whether the pooled
  connection is dead.
- **The `dbQuery` retry protocol.** The query runs once against the current
  pool. On a transient error, the pool is replaced once and the identical
  query is reissued once. The retry's reply is the final outcome.
  - The "current pool" is a cell holding a pool generation.
  - `createPool()` yields the next generation.
  - The MySQL driver is a scripted oracle (`Script`). It gives the reply to
    the first attempt, and the reply to the retry if there is one.
  - `pool.end?.()` on the discarded pool is a parameter (`EndHook`). It may
    be absent, return or throw.
  - Every call records a trace of steps: attempts, end requests and pool
    creations. The contracts are stated over that trace.
- **The keep-alive ping and the life of the pool cell.** A sequence of
  `dbQuery` calls and keep-alive ticks runs against the shared cell. The ping
  goes straight to `pool.query`, so it never replaces the pool.
- **The CORS origin gate, the API-key gate, and the route handlers.** The
  route handlers map a `dbQuery` outcome to a status and a JSON body tag.

Modules:

- `JsValues` holds the JavaScript value semantics the server relies on:
  truthiness of optional strings, `a || b`, `String.prototype.includes` and
  `Array.prototype.includes`. The two `includes` scans are each proved equal
  to a plain reference definition (a matching window, sequence membership).
- `Driver` holds the driver interface.
- `Trace` holds observers over step traces.
- `Classify`, `Executor`, `Lifecycle`, `Gates` and `Http` hold the parts
  listed above.

Behaviours of the code worth knowing, all kept in the model:

- `isClosed` reads the message whatever the code. A query error whose
  message quotes "closed state" is classified as a dead connection, so it is
  retried once (`Classify.MarkerInQueryErrorIsTransient`).
- The CORS callback's `!origin` admits an empty Origin as well as a missing
  one.
- The keep-alive ping calls `pool.query` directly, so a failed ping never
  replaces the pool.
- The three transient codes and the message fragment are hard-coded.

## Model

| member | source | states |
|---|---|---|
| JsValues.IncludesIsSubstring | server.js:97 | the scan behind `msg.includes(…)` is true exactly when the pattern occurs as a contiguous window of the message |
| JsValues.ListIncludesIsMembership | server.js:22 | `allowedOrigins.includes(origin)` is true exactly when the origin is an element of the list |
| JsValues.OrElseNonEmpty | server.js:36 | the `API_KEY` default with a non-empty fallback is never empty; it is the value when the value is present and non-empty, and the fallback when the value is undefined or empty |
| Classify.ClassificationExact | server.js:94-100 | `IsClosed` models `isClosed`: an error is transient exactly when its message text contains "closed state" or its code is PROTOCOL_CONNECTION_LOST, ECONNRESET or ECONNREFUSED; every other error is not |
| Classify.NoMessageMeansCodeDecides | server.js:94-100 | when the message is undefined or empty, only the three codes make an error transient |
| Classify.MarkerInQueryErrorIsTransient | server.js:94-102 | any error whose message contains "closed state" is transient, whatever its code, an undefined code included; this covers the driver's "connection is in closed state" error and query errors that quote the phrase |
| Executor.CreatePool | server.js:51-79 | `createPool()` assigned to the cell yields a pool newer than every pool before it |
| Executor.ReplacePool | server.js:104-107 | the replacement makes a pool of the next generation current, with exactly one creation and no query attempt; only the old pool is asked to end, before the creation, and it is asked exactly when it has an `end` to call |
| Executor.DbQuery | server.js:89-117 | first-attempt success returns those rows after one attempt with the pool untouched; a non-transient failure rejects with that error, with no retry and no replacement; a transient failure replaces the pool once and reissues the identical query once, on the new pool, and the retry's reply is the outcome; always 1 or 2 attempts and at most one replacement, each attempt on the pool current at that moment; without a replacement the call's whole trace is its one attempt, and with one the only pool asked to end is the replaced pool, exactly when it has an `end` to call |
| Executor.EndOnlyOnReplacement | server.js:102-107 | every end request a call makes names the pool current when the call began, and a call makes one exactly when it replaces a pool that has an `end` |
| Executor.NoQueryOnEndedPool | server.js:104-111 | within a call, the pool asked to end is never queried afterwards (the retry goes to the new pool), and it is older than the pool the call leaves current |
| Executor.EndCannotBlockReplacement | server.js:104-107 | whether `pool.end` is absent, returns or throws changes neither the outcome nor the new current pool |
| Executor.OriginalErrorNeverSurfaced | server.js:108-111 | after a transient failure the caller sees the first error only if the retry fails with that very error; a successful retry's rows are the outcome |
| Executor.ReplacedIffTransient | server.js:102-114 | a call changes the current pool exactly when its first attempt failed transiently |
| Trace.CurrentMovesOnlyOnCreate | server.js:49-107 | in a consistent history the current generation never decreases, and it changes exactly when a pool was created |
| Lifecycle.PerformEffect | server.js:82-117 | `Perform` runs one task; a call or a keep-alive tick makes one attempt on the current pool, plus one retry and one replacement when the call's first attempt failed transiently |
| Lifecycle.RunTasksInvariant | server.js:82-117 | over any sequence of calls and ticks, every attempt and end request targets the pool current at that moment, and created pools are always newer; the generation advances once per transiently failed call; there is one attempt per task plus one per replacement |
| Lifecycle.AttemptsBounded | server.js:89-117 | across any number of calls and ticks, at most two attempts and one replacement per task |
| Lifecycle.EndedPoolsNeverQueried | server.js:82-117 | over any sequence of calls and keep-alive pings, a pool once asked to end is never queried again, because every ended pool is older than the pool then current |
| Lifecycle.TicksKeepPool | server.js:82-86 | keep-alive pings alone never replace the current pool |
| Gates.CorsGateExact | server.js:12-24 | `CorsAllows`, the CORS callback, admits an origin exactly when it is absent or empty or one of the three listed origins |
| Gates.ConfiguredApiKey | server.js:36 | the configured key is never empty; it is the environment's key whenever that key is non-empty, and "supersecreto" when the environment key is undefined or empty |
| Gates.AuthGateExact | server.js:36-42 | `Authorized` models `authMiddleware`: with the configured key, a request passes the auth gate exactly when its `x-api-key` header is present and equal to the key; an empty header never passes |
| Http.GatesExact | server.js:18-43 | `Serve` runs a request through the gates and its route; a request is refused by CORS exactly when its origin is disallowed; it gets 403 `{error: "Acceso no autorizado"}` exactly when its origin is allowed, its route is protected and its key is not the configured key |
| Http.GatedRequestsSkipDatabase | server.js:127-146 | a request refused by a gate, and every `/healthz` request, runs no query and leaves the pool as it was |
| Http.DatabaseRouteOutcome | server.js:131-172 | `RouteQuery` and `HandlerResponse` model the four database routes; past the gates, a route answers 200 with the resolved rows exactly when `dbQuery` resolved, wrapped as `{ok: true, rows}` exactly on `/__debug/db-ping`; it answers 500 with the surfaced error's code and message exactly when `dbQuery` rejected, tagged "DB_CONN_ERROR" on `/__debug/db-ping` and "Error en la consulta" on the certificate routes |
| Http.QueryErrorFailsWithoutReplacement | server.js:144-152 | a non-transient query error answers 500 with that error's code and message, and the pool is not replaced |
| Http.StatusesAndBodies | server.js:127-172 | every answered request gets status 200, 403 or 500, and exactly the non-200 answers carry an error body |
| Http.ApsScenario | server.js:144-152 | `GET /certificadosAPS` with `x-api-key: supersecreto` and the default key, on a table with one row, answers 200 with that row |

## Left out

- The MySQL driver and the database are foreign calls. A scripted oracle replaces them, and rows are opaque column maps.
- The per-connection `SET SESSION` timeouts (server.js:66-70) are driver side effects. The pool's connection limit and queueing are driver configuration. Neither is modelled.
- The pool `error` event handler, the startup probe (server.js:120-122) and all console output are logging only. The startup probe is an ordinary `dbQuery` call, so `Lifecycle` covers its effect on the pool.
- The keep-alive timer's wall-clock scheduling (every 240000 ms) is not modelled. A tick is a task in the sequence, at whatever point it fires.
- `express.json()` (server.js:32) is not modelled. The framework answers a malformed JSON body with 400, so the three statuses of `Http.StatusesAndBodies` hold only for the requests the model covers.
- Express routing and middleware dispatch, JSON serialisation and unknown paths (404) are framework plumbing. So is the status the framework's default error handler gives to a CORS rejection; the model only records that the request never reaches a handler.
- The `/healthz` body is a tag without its `ts` field, because the timestamp is wall-clock time.
- Signal handling and `process.exit` (server.js:182-190) are process lifecycle.
- Environment and dotenv loading is configuration. Only `API_KEY` enters the model, as a parameter.
- Concurrent `dbQuery` calls over the shared pool cell are concurrency. The model runs calls one after another.
- The asynchronous completion of `pool.end` is not modelled. Only the request to end the old pool is recorded.
