/** The vocabulary both current adapters use to describe one decorated
    call: the connection fields an adapter keeps, what a step returns and
    the driver calls it makes, and the statement calls of the execute
    family (`execute`, `safe_execute`, `execute_multiple`, `execute_many`,
    `fetch_data`), which the Oracle and the Postgres adapter build the same
    way. */
module Sessions {
  import opened Wrappers
  import opened Driver

  /** The connection fields of the object and the next connection number
      the driver will hand out. */
  datatype ConnState = ConnState(connection: Option<nat>, sessionPool: Option<Target>, nextHandle: nat)

  /** Every connection the object holds was handed out earlier. */
  predicate Good(st: ConnState)
  {
    st.connection.Some? ==> st.connection.value < st.nextHandle
  }

  /** The value a step returns or raises, the state it leaves and the
      driver calls it made, in order. */
  datatype Step<T> = Step(result: Result<T, Exn>, state: ConnState, events: seq<Event>)

  /** A statement call on a cursor. */
  datatype Op = Exec(stmt: Statement) | ExecMany(sql: string, rows: seq<Record>) | FetchAll

  function OpEvent(conn: nat, op: Op): Event
  {
    match op
    case Exec(stmt) => Run(conn, stmt)
    case ExecMany(sql, rows) => RunMany(conn, sql, rows)
    case FetchAll => Fetch(conn)
  }

  /** The calls a session makes on connection `conn` up to its commit. */
  function Calls(conn: nat, ops: seq<Op>, commit: bool): seq<Event>
  {
    seq(|ops|, k requires 0 <= k < |ops| => OpEvent(conn, ops[k])) + (if commit then [Commit(conn)] else [])
  }

  predicate Hits(fault: DriverFault, n: nat)
  {
    fault.FailAt? && fault.index < n
  }

  function SessionOutcome(n: nat, fault: DriverFault): Result<(), Exn>
  {
    if Hits(fault, n) then Err(fault.exn) else Ok(())
  }

  /** A dictionary of bind values is passed only when it is truthy. */
  predicate Packed(p: Option<Record>)
  {
    p.Some? && |p.value| > 0
  }

  function ExecuteOps(query: string): seq<Op>
  {
    [Exec(Statement(query, None))]
  }

  function SafeExecuteOps(query: string, values: Record): seq<Op>
  {
    [Exec(Statement(query, Some(values)))]
  }

  function MultipleOps(queries: seq<(string, Option<Record>)>): seq<Op>
  {
    seq(|queries|, k requires 0 <= k < |queries| =>
      Exec(Statement(queries[k].0, if Packed(queries[k].1) then queries[k].1 else None)))
  }

  function ExecuteManyOps(query: string, rows: seq<Record>): seq<Op>
  {
    [ExecMany(query, rows)]
  }

  function FetchOps(query: string, packed: Option<Record>): seq<Op>
  {
    [Exec(Statement(query, if Packed(packed) then packed else None)), FetchAll]
  }
}
