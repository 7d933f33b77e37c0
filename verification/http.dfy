/** The request path of the server: CORS gate, then (for every route but
    `/healthz`) the API-key gate, then the route's fixed query through
    `dbQuery`, then the mapping of its outcome to a status and JSON body. */
module Http {
  import opened JsValues
  import opened Driver
  import opened Classify
  import opened Executor
  import opened Gates

  /** The routes the server defines (all GET). */
  datatype Route = Healthz | DebugDbPing | CertificadosAps | CertificadosFone | CertificadosCecap

  /** What the gates and handlers read from a request. */
  datatype Request = Request(route: Route, origin: Option<string>, apiKey: Option<string>)

  /** The JSON bodies the server sends. An `ErrorBody` whose code and message
      are absent serialises as `{error}` alone. */
  datatype Body =
    | HealthOk                     // {ok: true, ts}
    | PingOk(rows: seq<Row>)       // {ok: true, rows}
    | RowList(rows: seq<Row>)      // rows
    | ErrorBody(error: string, code: Option<string>, message: Option<string>)

  /** A request the CORS callback refused never reaches a handler; every
      other request is answered with a status and a JSON body. */
  datatype Response = CorsRejected | Respond(status: nat, body: Body)

  const Unauthorized: string := "Acceso no autorizado"
  const DbConnError: string := "DB_CONN_ERROR"
  const QueryFailed: string := "Error en la consulta"

  /** The fixed statement each database route runs, with no parameters. */
  function RouteQuery(route: Route): Query
    requires route != Healthz
  {
    match route
    case DebugDbPing => Query("SELECT 1 AS ok", [])
    case CertificadosAps => Query("SELECT * FROM `certificadosAPS`", [])
    case CertificadosFone => Query("SELECT * FROM `certificadosFONE`", [])
    case CertificadosCecap => Query("SELECT * FROM `certificadosCECAP`", [])
  }

  /** A database route's try/catch around `await dbQuery(…)`: resolved rows
      become 200, a rejection becomes 500 carrying the error's raw code and
      message under the route's error tag. */
  function HandlerResponse(route: Route, outcome: Reply): Response
    requires route != Healthz
  {
    match outcome
    case Rows(rows) =>
      Respond(200, if route == DebugDbPing then PingOk(rows) else RowList(rows))
    case Failed(e) =>
      Respond(500, ErrorBody(if route == DebugDbPing then DbConnError else QueryFailed, e.code, e.message))
  }

  /** A served request: the response and what it left in the pool cell. */
  datatype Served = Served(response: Response, pool: Pool, trace: seq<Step>)

  /** One request end to end, with `env` the `API_KEY` environment value. */
  function Serve(req: Request, env: Option<string>, pool: Pool, script: Script, hook: EndHook): Served
  {
    if !CorsAllows(req.origin) then Served(CorsRejected, pool, [])
    else if req.route == Healthz then Served(Respond(200, HealthOk), pool, [])
    else if !Authorized(req.apiKey, ConfiguredApiKey(env)) then
      Served(Respond(403, ErrorBody(Unauthorized, None, None)), pool, [])
    else
      var run := DbQuery(pool, RouteQuery(req.route), script, hook);
      Served(HandlerResponse(req.route, run.outcome), run.pool, run.trace)
  }

  /** Which gate answers: CORS rejects exactly the disallowed origins, and
      403 is returned exactly for an allowed origin on a protected route
      whose `x-api-key` is not the configured key. */
  lemma GatesExact(req: Request, env: Option<string>, pool: Pool, script: Script, hook: EndHook)
    ensures Serve(req, env, pool, script, hook).response == CorsRejected <==> !CorsAllows(req.origin)
    ensures Serve(req, env, pool, script, hook).response == Respond(403, ErrorBody(Unauthorized, None, None)) <==>
      CorsAllows(req.origin) && req.route != Healthz && req.apiKey != Some(ConfiguredApiKey(env))
  {
    AuthGateExact(req.apiKey, env);
  }

  /** A request stopped by a gate, and every `/healthz` request, runs no
      query and leaves the current pool as it was. */
  lemma GatedRequestsSkipDatabase(req: Request, env: Option<string>, pool: Pool, script: Script, hook: EndHook)
    requires !CorsAllows(req.origin) || req.route == Healthz || req.apiKey != Some(ConfiguredApiKey(env))
    ensures Serve(req, env, pool, script, hook).pool == pool
    ensures Serve(req, env, pool, script, hook).trace == []
  {
    AuthGateExact(req.apiKey, env);
  }

  /** Past the gates, a database route answers 200 with the resolved rows
      exactly when `dbQuery` resolved (wrapped as `{ok: true, rows}` on the
      debug ping route only), and 500 with the surfaced error's code and
      message exactly when it rejected, tagged `DB_CONN_ERROR` on the debug
      ping route and "Error en la consulta" on the certificate routes. */
  lemma DatabaseRouteOutcome(req: Request, env: Option<string>, pool: Pool, script: Script, hook: EndHook)
    requires CorsAllows(req.origin) && req.route != Healthz && req.apiKey == Some(ConfiguredApiKey(env))
    ensures var s := Serve(req, env, pool, script, hook);
      var run := DbQuery(pool, RouteQuery(req.route), script, hook);
      && s.response.Respond?
      && (s.response.status == 200 <==> run.outcome.Rows?)
      && (s.response.status == 500 <==> run.outcome.Failed?)
      && (run.outcome.Rows? ==>
            && (s.response.body.PingOk? <==> req.route == DebugDbPing)
            && (s.response.body.PingOk? || s.response.body.RowList?)
            && s.response.body.rows == run.outcome.rows)
      && (run.outcome.Failed? ==>
            && s.response.body.ErrorBody?
            && s.response.body.error == (if req.route == DebugDbPing then DbConnError else QueryFailed)
            && s.response.body.code == run.outcome.err.code
            && s.response.body.message == run.outcome.err.message)
  {
    AuthGateExact(req.apiKey, env);
  }

  /** A query error that is not a dead connection answers 500 with that
      error at once, with no pool replacement. */
  lemma QueryErrorFailsWithoutReplacement(req: Request, env: Option<string>, pool: Pool, e: DbError, retry: Reply, hook: EndHook)
    requires CorsAllows(req.origin) && req.route != Healthz && req.apiKey == Some(ConfiguredApiKey(env))
    requires !IsClosed(e)
    ensures var s := Serve(req, env, pool, Script(Failed(e), retry), hook);
      && s.response.Respond? && s.response.status == 500
      && s.response.body.ErrorBody? && s.response.body.code == e.code && s.response.body.message == e.message
      && s.pool == pool
  {
    AuthGateExact(req.apiKey, env);
  }

  /** Every answered request gets one of three statuses, and every error
      status carries an error body. */
  lemma StatusesAndBodies(req: Request, env: Option<string>, pool: Pool, script: Script, hook: EndHook)
    ensures var r := Serve(req, env, pool, script, hook).response;
      r.Respond? ==>
        && (r.status == 200 || r.status == 403 || r.status == 500)
        && (r.status != 200 <==> r.body.ErrorBody?)
  {
  }

  /** `GET /certificadosAPS` with `x-api-key: supersecreto`, no configured
      key, no Origin, and one row in the table answers 200 with that row. */
  lemma ApsScenario(pool: Pool, retry: Reply, hook: EndHook)
    ensures var row: Row := map["folio" := Text("A1"), "curp" := Text("X")];
      Serve(Request(CertificadosAps, None, Some("supersecreto")), None, pool, Script(Rows([row]), retry), hook).response
        == Respond(200, RowList([row]))
  {
  }
}
