/** The interface the server consumes from its MySQL driver, reduced to what
    the retry protocol observes: queries, rows, errors with an optional code
    and message, and the "current pool" cell. */
module Driver {
  import opened JsValues

  /** A column value or positional parameter, kept opaque apart from its kind. */
  datatype Value = Null | Num(int) | Text(string)

  /** One result row: column name to value. */
  type Row = map<string, Value>

  /** An SQL statement with its positional parameters (`dbQuery(sql, params = [])`). */
  datatype Query = Query(sql: string, params: seq<Value>)

  /** A driver error object: `err.code` and `err.message` may each be undefined. */
  datatype DbError = DbError(code: Option<string>, message: Option<string>)

  /** What the driver hands to a `pool.query` callback: rows, or an error. */
  datatype Reply = Rows(rows: seq<Row>) | Failed(err: DbError)

  /** The scripted driver for one `dbQuery` call: its reply to the first
      attempt, and its reply to the retry should one be issued. */
  datatype Script = Script(first: Reply, retry: Reply)

  /** The shape of `pool.end` on the pool being discarded: absent (the
      optional call does nothing), returning normally, or throwing. */
  datatype EndHook = NoEnd | EndReturns | EndThrows

  /** The "current pool" cell. Every `createPool()` yields a pool of the next
      generation, so a generation names one pool instance. */
  datatype Pool = Pool(generation: nat)

  /** An observable step against the pools: a query attempt on a pool, a
      request to end a pool, or the creation of a pool. */
  datatype Step =
    | Attempt(generation: nat, query: Query)
    | EndOld(generation: nat)
    | Create(generation: nat)
}
