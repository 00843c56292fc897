/** The current Oracle adapter: an `OracleConnection` object that keeps its
    credentials, a single connection or a session pool, and a retry counter
    as fields; an execute family that acquires a connection, runs its
    statements, commits and hands a pooled connection back; and bulk
    statement builders that validate every table and column name through the
    identifier quoter before building SQL.

    The connection bookkeeping is specified by pure step functions over a
    `ConnState` snapshot; the methods of the class are proved to move their
    fields exactly as those functions say, and the lemmas state what the
    functions promise. */
module OracleAdapter {
  import opened Wrappers
  import opened Driver
  import opened Text
  import opened SqlRetry
  import opened OracleIdentifier
  import opened Sessions
  import VerbatimStatements

  /** `oracle_retry_codes`, in source order ('ORA-08103' is listed twice). */
  const OracleRetryCodes: seq<string> :=
    ["ORA-01033", "DPY-6005", "DPY-4011", "ORA-08103", "ORA-04021", "ORA-01652", "ORA-08103"]

  const OracleRetryLimit: nat := 50

  /** The entries of a credentials dictionary the adapter reads; `Service`
      and `SID` are read with `.get`, so either may be absent. */
  datatype Credentials = Credentials(userName: string, password: string, host: string, port: int,
                                     service: Option<string>, sid: Option<string>)

  /** `self._database if self._database else self._sid` */
  function SidOrService(database: Option<string>, sid: Option<string>): Option<string>
  {
    if Truthy(database) then database else sid
  }

  /** The DSN `_connect_warehouse` builds: a pool names the database as a
      SID, a single connection as a service name. */
  function WarehouseTarget(host: Option<string>, port: Option<int>, name: Option<string>, usePool: bool): Target
  {
    OracleDsn(host, port, if usePool then BySid else ByServiceName, name)
  }

  /** One attempt of `_connect`: the driver is asked for a pool or a
      connection; when it raises, no field changes. */
  function ConnectStep(st: ConnState, usePool: bool, target: Target, fault: Option<Exn>): Step<()>
  {
    var ev := [if usePool then OpenPool(target) else OpenConnection(target)];
    if fault.Some? then Step(Err(fault.value), st, ev)
    else if usePool then Step(Ok(()), st.(sessionPool := Some(target)), ev)
    else Step(Ok(()), st.(connection := Some(st.nextHandle), nextHandle := st.nextHandle + 1), ev)
  }

  /** `_get_connection`: acquire from the pool, or reuse the cached single
      connection when it is present and healthy and reconnect otherwise.
      Acquiring from a pool that was never opened raises AttributeError. */
  function AcquireStep(st: ConnState, usePool: bool, target: Target, healthy: bool, fault: Option<Exn>): Step<nat>
  {
    if usePool then
      if st.sessionPool.None? then
        Step(Err(AttributeError("'NoneType' object has no attribute 'acquire'")), st, [])
      else if fault.Some? then Step(Err(fault.value), st, [])
      else Step(Ok(st.nextHandle), st.(nextHandle := st.nextHandle + 1), [Acquire(st.nextHandle)])
    else if st.connection.Some? && healthy then
      Step(Ok(st.connection.value), st, [])
    else
      var c := ConnectStep(st, false, target, fault);
      if c.result.Err? then Step(Err(c.result.error), c.state, c.events)
      else Step(Ok(st.nextHandle), c.state, c.events)
  }

  /** `close_connection`: close the pool, or close the single connection
      when it is present and healthy, and forget it in every case. Closing
      a pool that was never opened raises AttributeError. */
  function CloseStep(st: ConnState, usePool: bool, healthy: bool): Step<()>
  {
    if usePool then
      if st.sessionPool.None? then
        Step(Err(AttributeError("'NoneType' object has no attribute 'close'")), st, [])
      else Step(Ok(()), st, [ClosePool])
    else
      Step(Ok(()), st.(connection := None),
           if st.connection.Some? && healthy then [CloseConn(st.connection.value)] else [])
  }

  /** The statement part of an execute-family method: the calls up to and
      including the one that raises; on success every call, then the
      release of a pooled connection. */
  function SessionEvents(conn: nat, ops: seq<Op>, fault: DriverFault, usePool: bool, commit: bool): seq<Event>
  {
    var calls := Calls(conn, ops, commit);
    if Hits(fault, |calls|) then calls[..fault.index + 1]
    else calls + (if usePool then [Release(conn)] else [])
  }

  /** A whole execute-family call without its decorator. */
  function ExecStep(st: ConnState, usePool: bool, target: Target, reply: Reply, ops: seq<Op>, commit: bool): Step<()>
  {
    var a := AcquireStep(st, usePool, target, reply.healthy, reply.acquireFault);
    if a.result.Err? then Step(Err(a.result.error), a.state, a.events)
    else
      var conn := a.result.value;
      Step(SessionOutcome(|Calls(conn, ops, commit)|, reply.fault), a.state,
           a.events + SessionEvents(conn, ops, reply.fault, usePool, commit))
  }

  // ---------------------------------------------------------------------
  // Properties of the connection bookkeeping

  /** In single mode the cached connection is reused exactly when it is
      present and healthy; otherwise one connect is attempted and, when it
      succeeds, the new connection is cached and returned. In pooled mode
      every acquired connection is one the driver never handed out before. */
  lemma GetConnectionSpec(st: ConnState, usePool: bool, target: Target, healthy: bool, fault: Option<Exn>)
    requires Good(st)
    ensures var s := AcquireStep(st, usePool, target, healthy, fault);
            Good(s.state) && s.state.nextHandle >= st.nextHandle &&
            (!usePool ==>
              s.state.sessionPool == st.sessionPool &&
              (st.connection.Some? && healthy ==> s.result == Ok(st.connection.value) && s.state == st && s.events == []) &&
              (!(st.connection.Some? && healthy) ==>
                s.events == [OpenConnection(target)] &&
                (s.result.Err? <==> fault.Some?) &&
                (s.result.Ok? ==> s.state.connection == Some(s.result.value) && s.result.value == st.nextHandle))) &&
            (usePool ==>
              s.state.connection == st.connection && s.state.sessionPool == st.sessionPool &&
              (s.result.Ok? <==> st.sessionPool.Some? && fault.None?) &&
              (st.sessionPool.None? ==> s.result.Err? && s.result.error.AttributeError?) &&
              (s.result.Ok? ==> s.result.value >= st.nextHandle && s.events == [Acquire(s.result.value)]))
  {
  }

  /** In single mode closing always leaves no cached connection and closes
      the old one exactly when it was present and healthy; in pooled mode
      it closes the pool and keeps the connection fields. */
  lemma CloseConnectionSpec(st: ConnState, usePool: bool, healthy: bool)
    ensures var s := CloseStep(st, usePool, healthy);
            (!usePool ==>
              s.result.Ok? && s.state.connection.None? &&
              (s.events != [] <==> st.connection.Some? && healthy) &&
              (s.events != [] ==> s.events == [CloseConn(st.connection.value)])) &&
            (usePool ==>
              s.state == st && (s.result.Ok? <==> st.sessionPool.Some?) &&
              (s.result.Ok? ==> s.events == [ClosePool]))
  {
  }

  /** A session runs its statements in order on the one connection. On
      success it commits and then, in pooled mode only, releases that
      connection last; when a call raises, the calls after it are not made,
      nothing is released, and nothing is committed unless the commit
      itself was reached. */
  lemma {:induction false} SessionDiscipline(conn: nat, ops: seq<Op>, fault: DriverFault, usePool: bool)
    ensures var ev := SessionEvents(conn, ops, fault, usePool, true);
            var n := |ops| + 1;
            (forall k :: 0 <= k < |ops| && k < |ev| ==> ev[k] == OpEvent(conn, ops[k])) &&
            (!Hits(fault, n) ==>
              |ev| == n + (if usePool then 1 else 0) &&
              ev[|ops|] == Commit(conn) &&
              (Release(conn) in ev <==> usePool) &&
              (usePool ==> ev[|ev| - 1] == Release(conn))) &&
            (Hits(fault, n) ==>
              |ev| == fault.index + 1 &&
              Release(conn) !in ev &&
              (Commit(conn) in ev <==> fault.index == |ops|))
  {
    var calls := Calls(conn, ops, true);
    var ev := SessionEvents(conn, ops, fault, usePool, true);
    assert |calls| == |ops| + 1;
    forall k | 0 <= k < |ops|
      ensures calls[k] == OpEvent(conn, ops[k]) && !calls[k].Commit? && !calls[k].Release?
    {
    }
    assert calls[|ops|] == Commit(conn);
    if Hits(fault, |ops| + 1) {
      assert ev == calls[..fault.index + 1];
      forall k | 0 <= k < |ev| ensures ev[k] != Release(conn) { assert ev[k] == calls[k]; }
      if fault.index < |ops| {
        forall k | 0 <= k < |ev| ensures ev[k] != Commit(conn) { assert ev[k] == calls[k]; }
      } else {
        assert ev[|ops|] == Commit(conn);
      }
    } else if !usePool {
      assert ev == calls;
      forall k | 0 <= k < |ev| ensures ev[k] != Release(conn) { }
    }
  }

  /** A pooled execute-family call whose statement raises after the
      acquire leaves the acquired connection checked out: it is acquired
      and never released. */
  lemma PooledFailureLeaks(st: ConnState, target: Target, reply: Reply, ops: seq<Op>)
    requires st.sessionPool.Some? && reply.acquireFault.None? && Hits(reply.fault, |ops| + 1)
    ensures var s := ExecStep(st, true, target, reply, ops, true);
            s.result == Err(reply.fault.exn) &&
            s.events[0] == Acquire(st.nextHandle) && Release(st.nextHandle) !in s.events
  {
    var h := st.nextHandle;
    SessionDiscipline(h, ops, reply.fault, true);
    var s := ExecStep(st, true, target, reply, ops, true);
    var ev := SessionEvents(h, ops, reply.fault, true, true);
    assert s.events == [Acquire(h)] + ev;
    assert Release(h) !in ev;
  }

  /** A successful pooled execute-family call acquires one fresh
      connection, commits on it and releases that same connection as its
      last driver call. */
  lemma PooledSuccessReleases(st: ConnState, target: Target, reply: Reply, ops: seq<Op>)
    requires st.sessionPool.Some? && reply.acquireFault.None? && !Hits(reply.fault, |ops| + 1)
    ensures var s := ExecStep(st, true, target, reply, ops, true);
            var h := st.nextHandle;
            s.result.Ok? && s.events[0] == Acquire(h) && Commit(h) in s.events &&
            s.events[|s.events| - 1] == Release(h) && s.state.nextHandle == h + 1
  {
    var h := st.nextHandle;
    SessionDiscipline(h, ops, reply.fault, true);
    var ev := SessionEvents(h, ops, reply.fault, true, true);
    assert ev[|ops|] == Commit(h);
    var s := ExecStep(st, true, target, reply, ops, true);
    assert s.events == [Acquire(h)] + ev;
    assert s.events[|ops| + 1] == Commit(h);
  }

  /** `set_user` connects with the service name when it is truthy and with
      the SID otherwise; a pool names it as a SID, a single connection as a
      service name. */
  lemma ConnectTargetChoice(c: Credentials, usePool: bool)
    requires Truthy(c.service) || Truthy(c.sid)
    ensures var t := WarehouseTarget(Some(c.host), Some(c.port), SidOrService(c.service, c.sid), usePool);
            t.host == Some(c.host) && t.port == Some(c.port) &&
            (Truthy(c.service) ==> t.name == c.service) &&
            (!Truthy(c.service) ==> t.name == c.sid && Truthy(t.name)) &&
            (t.key == BySid <==> usePool)
  {
  }

  // ---------------------------------------------------------------------
  // Bulk statement builders

  /** What a bulk builder hands on: nothing (an empty frame) or one call
      to the execute family, with the count the builder returns. */
  datatype Bulk = Skipped | Delegated(call: Call, count: nat)

  /** `[_quote_identifier(col) for col in columns]`: the first invalid
      column raises its error. */
  function QuoteColumns(columns: seq<string>): (r: Result<seq<string>, Exn>)
    ensures r.Ok? <==> forall k :: 0 <= k < |columns| ==> ValidIdentifier(columns[k])
    ensures r.Ok? ==> |r.value| == |columns| &&
                      forall k :: 0 <= k < |columns| ==> QuoteIdentifier(columns[k]) == Ok(r.value[k])
    ensures r.Err? ==> exists i :: 0 <= i < |columns| && !ValidIdentifier(columns[i]) &&
                                   (forall k :: 0 <= k < i ==> ValidIdentifier(columns[k])) &&
                                   r.error == QuoteIdentifier(columns[i]).error
  {
    if |columns| == 0 then Ok([])
    else
      match QuoteIdentifier(columns[0])
      case Err(e) => Err(e)
      case Ok(q) =>
        match QuoteColumns(columns[1..])
        case Err(e) =>
          assert forall k :: 1 <= k < |columns| ==> columns[k] == columns[1..][k - 1];
          Err(e)
        case Ok(qs) => Ok([q] + qs)
  }

  /** `DataFrame.replace`: a missing cell becomes None when `remove_nan`
      is set, and an empty string always does. */
  function CleanCell(c: Cell, removeNan: bool): Cell
  {
    if removeNan && c.Missing? then Null
    else if c == Text("") then Null
    else c
  }

  function CleanRow(row: Record, removeNan: bool): Record
  {
    map k | k in row :: CleanCell(row[k], removeNan)
  }

  /** `df[columns].copy()` cleaned and turned into records. */
  function ExportRecords(df: Frame, columns: seq<string>, removeNan: bool): seq<Record>
  {
    seq(|df.rows|, i requires 0 <= i < |df.rows| => CleanRow(Project(df.rows[i], columns), removeNan))
  }

  /** The argument checks both bulk builders make before anything else. */
  function ColumnCheck(cols: seq<string>, df: Frame, emptyMessage: string, subsetMessage: string): Option<Exn>
  {
    if |cols| == 0 then Some(ValueError(emptyMessage))
    else if !SubsetOfColumns(cols, df) then Some(ValueError(subsetMessage))
    else None
  }

  /** The body of `export_df_to_warehouse` up to its `execute_many` call. */
  function ExportPlan(df: Frame, table: string, columns: seq<string>, removeNan: bool): Result<Bulk, Exn>
  {
    match ColumnCheck(columns, df, "columns cannot be empty", "columns must be a subset of DataFrame columns")
    case Some(e) => Err(e)
    case None =>
      if EmptyFrame(df) then Ok(Skipped)
      else
        match QuoteIdentifier(table)
        case Err(e) => Err(e)
        case Ok(quotedTable) =>
          match QuoteColumns(columns)
          case Err(e) => Err(e)
          case Ok(quotedColumns) =>
            var rows := ExportRecords(df, columns, removeNan);
            var sql := "INSERT INTO " + quotedTable + " (" + Join(quotedColumns, ", ") + ") VALUES ("
                       + Join(VerbatimStatements.Binds(VerbatimStatements.Colon, columns), ", ") + ")";
            Ok(Delegated(ExecuteManyCall(sql, rows), |rows|))
  }

  /** `f"{column} = :{column}"` joined by " AND ". */
  function MatchParams(cols: seq<string>): string
  {
    Join(seq(|cols|, k requires 0 <= k < |cols| => cols[k] + " = :" + cols[k]), " AND ")
  }

  /** The distinct key tuples of the frame in first-occurrence order:
      `df[match_cols].drop_duplicates(keep='first')`. */
  function MatchRecords(df: Frame, cols: seq<string>): seq<Record>
  {
    Dedup(seq(|df.rows|, i requires 0 <= i < |df.rows| => Project(df.rows[i], cols)))
  }

  /** The body of `remove_matching_data` up to its `execute_many` call. */
  function RemoveMatchingPlan(df: Frame, table: string, matchCols: seq<string>): Result<Bulk, Exn>
  {
    match ColumnCheck(matchCols, df, "match_cols cannot be empty", "match_cols must be a subset of DataFrame columns")
    case Some(e) => Err(e)
    case None =>
      if EmptyFrame(df) then Ok(Skipped)
      else
        var rows := MatchRecords(df, matchCols);
        match QuoteIdentifier(table)
        case Err(e) => Err(e)
        case Ok(quotedTable) =>
          Ok(Delegated(ExecuteManyCall("DELETE FROM " + quotedTable + " WHERE " + MatchParams(matchCols), rows), |rows|))
  }

  /** `truncate_table` and `empty_table` up to their `execute` call. */
  function TablePlan(table: string, verb: string): Result<Call, Exn>
  {
    if table == "" then Err(ValueError("table_name cannot be empty"))
    else
      match QuoteIdentifier(table)
      case Err(e) => Err(e)
      case Ok(q) => Ok(ExecuteCall(verb + q))
  }

  const TruncateVerb := "TRUNCATE TABLE "
  const DeleteVerb := "DELETE FROM "

  /** Export validates its arguments in the source's order: empty column
      list, then the subset test, then the empty-frame shortcut (which
      issues nothing), then the table name, then the column names. */
  lemma ExportValidationOrder(df: Frame, table: string, columns: seq<string>, removeNan: bool)
    ensures var r := ExportPlan(df, table, columns, removeNan);
            (|columns| == 0 ==> r == Err(ValueError("columns cannot be empty"))) &&
            (|columns| > 0 && !SubsetOfColumns(columns, df) ==>
               r == Err(ValueError("columns must be a subset of DataFrame columns"))) &&
            (|columns| > 0 && SubsetOfColumns(columns, df) ==> (r == Ok(Skipped) <==> EmptyFrame(df))) &&
            (|columns| > 0 && SubsetOfColumns(columns, df) && !EmptyFrame(df) ==>
               (r.Err? <==> !ValidIdentifier(table) || exists k :: 0 <= k < |columns| && !ValidIdentifier(columns[k])) &&
               (!ValidIdentifier(table) ==> r == Err(QuoteIdentifier(table).error)))
  {
  }

  /** No export statement is built unless the table and every column name
      pass the identifier grammar; the statement carries one record per
      frame row, each holding the frame's values for the selected columns
      with empty strings (and, under `remove_nan`, missing cells) turned
      into None and every other value unchanged; the returned count is the
      number of records. */
  lemma ExportPlanSpec(df: Frame, table: string, columns: seq<string>, removeNan: bool)
    requires ExportPlan(df, table, columns, removeNan).Ok?
    requires ExportPlan(df, table, columns, removeNan).value.Delegated?
    ensures var b := ExportPlan(df, table, columns, removeNan).value;
            ValidIdentifier(table) && (forall k :: 0 <= k < |columns| ==> ValidIdentifier(columns[k])) &&
            b.call.ExecuteManyCall? && b.count == |b.call.rows| == |df.rows| > 0 &&
            forall i :: 0 <= i < |df.rows| ==>
              var out := b.call.rows[i];
              (forall c :: c in out <==> c in columns && c in df.rows[i]) &&
              (forall c :: c in out ==> out[c] != Text("") && (removeNan ==> !out[c].Missing?)) &&
              (forall c :: c in out && df.rows[i][c] != Text("") && !(removeNan && df.rows[i][c].Missing?) ==>
                 out[c] == df.rows[i][c])
  {
  }

  /** The export statement text: the quoted table, the quoted column list
      and one `:column` bind per column, with the raw column name as the
      bind name. */
  lemma ExportStatementShape(df: Frame, table: string, columns: seq<string>, removeNan: bool)
    requires ExportPlan(df, table, columns, removeNan).Ok?
    requires ExportPlan(df, table, columns, removeNan).value.Delegated?
    ensures var sql := ExportPlan(df, table, columns, removeNan).value.call.sql;
            var binds := VerbatimStatements.Binds(VerbatimStatements.Colon, columns);
            exists quotedColumns: seq<string> ::
              |quotedColumns| == |columns| &&
              (forall k :: 0 <= k < |columns| ==>
                 SafeQuoted(quotedColumns[k]) && Unquote(quotedColumns[k]) == Upper(columns[k])) &&
              sql == "INSERT INTO " + QuoteIdentifier(table).value + " (" + Join(quotedColumns, ", ")
                     + ") VALUES (" + Join(binds, ", ") + ")" &&
              (forall k :: 0 <= k < |columns| ==>
                 VerbatimStatements.BindName(VerbatimStatements.Colon, binds[k]) == columns[k])
  {
    var qc := QuoteColumns(columns).value;
    forall k | 0 <= k < |columns|
      ensures SafeQuoted(qc[k]) && Unquote(qc[k]) == Upper(columns[k])
    {
      QuoteIdentifierRoundTrip(columns[k]);
    }
  }

  /** `remove_matching_data` validates like export, sends one parameter
      set per distinct key tuple (each key tuple of the frame among them,
      none twice, in first-occurrence order) and returns that count. */
  lemma RemoveMatchingSpec(df: Frame, table: string, matchCols: seq<string>)
    requires RemoveMatchingPlan(df, table, matchCols).Ok?
    ensures var b := RemoveMatchingPlan(df, table, matchCols).value;
            |matchCols| > 0 && SubsetOfColumns(matchCols, df) &&
            (b.Skipped? <==> EmptyFrame(df)) &&
            (b.Delegated? ==>
              var keys := seq(|df.rows|, i requires 0 <= i < |df.rows| => Project(df.rows[i], matchCols));
              ValidIdentifier(table) &&
              b.call == ExecuteManyCall("DELETE FROM " + QuoteIdentifier(table).value + " WHERE "
                                        + MatchParams(matchCols), b.call.rows) &&
              b.count == |b.call.rows| <= |df.rows| &&
              (forall i :: 0 <= i < |df.rows| ==> keys[i] in b.call.rows) &&
              (forall x :: x in b.call.rows ==> x in keys) &&
              NoDuplicates(b.call.rows) &&
              (forall i, j :: 0 <= i < j < |b.call.rows| ==>
                 FirstIndex(keys, b.call.rows[i]) < FirstIndex(keys, b.call.rows[j])))
  {
    var b := RemoveMatchingPlan(df, table, matchCols).value;
    if b.Delegated? {
      var keys := seq(|df.rows|, i requires 0 <= i < |df.rows| => Project(df.rows[i], matchCols));
      DedupSpec(keys);
      DedupShorter(keys);
      assert forall i :: 0 <= i < |df.rows| ==> keys[i] in keys;
    }
  }

  lemma {:induction false} DedupShorter<T>(xs: seq<T>)
    ensures |Dedup(xs)| <= |xs|
  {
    if |xs| > 0 {
      DedupShorter(xs[..|xs| - 1]);
    }
  }

  /** `remove_matching_data` rejects an empty key list and a key list that
      is not a subset of the frame's columns even when the frame is empty,
      and an invalid table name only when the frame has rows. */
  lemma RemoveMatchingValidation(df: Frame, table: string, matchCols: seq<string>)
    ensures var r := RemoveMatchingPlan(df, table, matchCols);
            (|matchCols| == 0 ==> r == Err(ValueError("match_cols cannot be empty"))) &&
            (|matchCols| > 0 && !SubsetOfColumns(matchCols, df) ==>
               r == Err(ValueError("match_cols must be a subset of DataFrame columns"))) &&
            (|matchCols| > 0 && SubsetOfColumns(matchCols, df) && !EmptyFrame(df) ==>
               (r.Err? <==> !ValidIdentifier(table)))
  {
  }

  /** `truncate_table`/`empty_table` reject the empty name with their own
      message, reject every other name outside the grammar, and otherwise
      issue the verb followed by the quoted name, which unquotes to the
      upper-cased input. */
  lemma TablePlanSpec(table: string, verb: string)
    ensures var r := TablePlan(table, verb);
            (table == "" ==> r == Err(ValueError("table_name cannot be empty"))) &&
            (r.Ok? <==> ValidIdentifier(table)) &&
            (r.Err? ==> r.error.ValueError?) &&
            (r.Ok? ==> exists q :: r.value == ExecuteCall(verb + q) && SafeQuoted(q) && Unquote(q) == Upper(table))
  {
    if ValidIdentifier(table) {
      QuoteIdentifierRoundTrip(table);
      var q := QuoteIdentifier(table).value;
      assert TablePlan(table, verb).value == ExecuteCall(verb + q);
    }
  }

  /** The example from the adapter's documentation. */
  lemma TruncateExample()
    ensures var a, b := "stage", "items";
            TablePlan(a + "." + b, TruncateVerb) == Ok(ExecuteCall("TRUNCATE TABLE \"STAGE\".\"ITEMS\""))
  {
    var a, b := "stage", "items";
    QuoteIdentifierExample();
    assert QuoteIdentifier(a + "." + b).value == "\"STAGE\".\"ITEMS\"";
    assert TruncateVerb + "\"STAGE\".\"ITEMS\"" == "TRUNCATE TABLE \"STAGE\".\"ITEMS\"";
  }

  // ---------------------------------------------------------------------
  // The connection object

  class OracleConnection {
    var username: Option<string>
    var password: Option<string>
    var hostname: Option<string>
    var port: Option<int>
    var database: Option<string>
    var sid: Option<string>
    var connection: Option<nat>
    var sessionPool: Option<Target>
    /** The number the driver will give the next connection it hands out. */
    var nextHandle: nat
    /** The driver calls made so far. */
    var events: seq<Event>
    const usePool: bool
    const minConnections: int
    const maxConnections: int
    /** `_retry_count`, `retry_limit` and `retry_error_codes`. */
    const retry: RetryCounter

    ghost function State(): ConnState
      reads this
    {
      ConnState(connection, sessionPool, nextHandle)
    }

    function DsnTarget(): Target
      reads this
    {
      WarehouseTarget(hostname, port, SidOrService(database, sid), usePool)
    }

    constructor (usePool: bool, minConnections: int, maxConnections: int)
      ensures this.usePool == usePool && this.minConnections == minConnections && this.maxConnections == maxConnections
      ensures username.None? && password.None? && hostname.None? && port.None? && database.None? && sid.None?
      ensures connection.None? && sessionPool.None? && nextHandle == 0 && events == []
      ensures fresh(retry) && retry.policy == CurrentPolicy && retry.retryCount == 0
      ensures retry.retryLimit == OracleRetryLimit && retry.retryErrorCodes == OracleRetryCodes
    {
      username, password, hostname, port := None, None, None, None;
      database, sid := None, None;
      connection, sessionPool := None, None;
      this.usePool := usePool;
      this.minConnections := minConnections;
      this.maxConnections := maxConnections;
      nextHandle := 0;
      events := [];
      retry := new RetryCounter(CurrentPolicy, OracleRetryLimit, OracleRetryCodes);
    }

    /** `_connect`, one attempt. */
    method Connect(fault: Option<Exn>) returns (r: Result<(), Exn>)
      modifies this`connection, this`sessionPool, this`nextHandle, this`events
      ensures var s := ConnectStep(old(State()), usePool, DsnTarget(), fault);
              r == s.result && State() == s.state && events == old(events) + s.events
    {
      var target := DsnTarget();
      events := events + [if usePool then OpenPool(target) else OpenConnection(target)];
      if fault.Some? {
        return Err(fault.value);
      }
      if usePool {
        sessionPool := Some(target);
      } else {
        connection := Some(nextHandle);
        nextHandle := nextHandle + 1;
      }
      r := Ok(());
    }

    /** `_get_connection` */
    method GetConnection(healthy: bool, fault: Option<Exn>) returns (r: Result<nat, Exn>)
      modifies this`connection, this`sessionPool, this`nextHandle, this`events
      ensures var s := AcquireStep(old(State()), usePool, DsnTarget(), healthy, fault);
              r == s.result && State() == s.state && events == old(events) + s.events
    {
      if usePool {
        if sessionPool.None? {
          return Err(AttributeError("'NoneType' object has no attribute 'acquire'"));
        }
        if fault.Some? {
          return Err(fault.value);
        }
        r := Ok(nextHandle);
        events := events + [Acquire(nextHandle)];
        nextHandle := nextHandle + 1;
      } else {
        if connection.None? || !healthy {
          var c := Connect(fault);
          if c.Err? {
            return Err(c.error);
          }
        }
        r := Ok(connection.value);
      }
    }

    /** `set_user`: the Service/SID check comes before any field is stored;
        then the fields are stored and `_connect` is called. */
    method SetUser(creds: Credentials, fault: Option<Exn>) returns (r: Result<(), Exn>)
      modifies this`username, this`password, this`hostname, this`port, this`database, this`sid
      modifies this`connection, this`sessionPool, this`nextHandle, this`events
      ensures !(Truthy(creds.service) || Truthy(creds.sid)) ==>
                r == Err(ValueError("Either Service or SID must be provided")) &&
                username == old(username) && password == old(password) && hostname == old(hostname) &&
                port == old(port) && database == old(database) && sid == old(sid) &&
                State() == old(State()) && events == old(events)
      ensures Truthy(creds.service) || Truthy(creds.sid) ==>
                username == Some(creds.userName) && password == Some(creds.password) &&
                hostname == Some(creds.host) && port == Some(creds.port) &&
                database == creds.service && sid == creds.sid &&
                var s := ConnectStep(old(State()), usePool,
                                     WarehouseTarget(Some(creds.host), Some(creds.port),
                                                     SidOrService(creds.service, creds.sid), usePool), fault);
                r == s.result && State() == s.state && events == old(events) + s.events
    {
      if !(Truthy(creds.service) || Truthy(creds.sid)) {
        return Err(ValueError("Either Service or SID must be provided"));
      }
      username := Some(creds.userName);
      password := Some(creds.password);
      hostname := Some(creds.host);
      port := Some(creds.port);
      database := creds.service;
      sid := creds.sid;
      r := Connect(fault);
    }

    /** `close_connection` */
    method CloseConnection(healthy: bool) returns (r: Result<(), Exn>)
      modifies this`connection, this`events
      ensures var s := CloseStep(old(State()), usePool, healthy);
              r == s.result && State() == s.state && events == old(events) + s.events
    {
      if usePool {
        if sessionPool.None? {
          return Err(AttributeError("'NoneType' object has no attribute 'close'"));
        }
        events := events + [ClosePool];
        r := Ok(());
      } else {
        if connection.Some? && healthy {
          events := events + [CloseConn(connection.value)];
        }
        connection := None;
        r := Ok(());
      }
    }

    /** `__exit__`: close, then return False so that an exception raised in
        the `with` block propagates. */
    method Exit(healthy: bool) returns (r: Result<bool, Exn>)
      modifies this`connection, this`events
      ensures var s := CloseStep(old(State()), usePool, healthy);
              State() == s.state && events == old(events) + s.events &&
              r == if s.result.Err? then Err(s.result.error) else Ok(false)
    {
      var c := CloseConnection(healthy);
      if c.Err? {
        return Err(c.error);
      }
      r := Ok(false);
    }

    /** The statement part shared by the execute family: each call in
        order, the commit, then the release of a pooled connection. */
    method RunSession(conn: nat, ops: seq<Op>, fault: DriverFault) returns (r: Result<(), Exn>)
      modifies this`events
      ensures events == old(events) + SessionEvents(conn, ops, fault, usePool, true)
      ensures r == SessionOutcome(|ops| + 1, fault)
    {
      var calls := Calls(conn, ops, true);
      var i := 0;
      while i < |ops|
        invariant 0 <= i <= |ops|
        invariant events == old(events) + calls[..i]
        invariant !Hits(fault, i)
      {
        events := events + [OpEvent(conn, ops[i])];
        assert calls[..i + 1] == calls[..i] + [calls[i]];
        if fault.FailAt? && fault.index == i {
          return Err(fault.exn);
        }
        i := i + 1;
      }
      events := events + [Commit(conn)];
      assert calls == calls[..|ops|] + [Commit(conn)];
      if fault.FailAt? && fault.index == |ops| {
        return Err(fault.exn);
      }
      if usePool {
        events := events + [Release(conn)];
      }
      r := Ok(());
    }

    method Session(ops: seq<Op>, reply: Reply) returns (r: Result<(), Exn>)
      modifies this`connection, this`sessionPool, this`nextHandle, this`events
      ensures var s := ExecStep(old(State()), usePool, DsnTarget(), reply, ops, true);
              r == s.result && State() == s.state && events == old(events) + s.events
    {
      ghost var a := AcquireStep(State(), usePool, DsnTarget(), reply.healthy, reply.acquireFault);
      ghost var e0 := events;
      var c := GetConnection(reply.healthy, reply.acquireFault);
      assert c == a.result && State() == a.state && events == e0 + a.events;
      if c.Err? {
        return Err(c.error);
      }
      assert |Calls(c.value, ops, true)| == |ops| + 1;
      r := RunSession(c.value, ops, reply.fault);
      assert events == e0 + (a.events + SessionEvents(c.value, ops, reply.fault, usePool, true));
    }

    /** `execute` */
    method Execute(query: string, reply: Reply) returns (r: Result<(), Exn>)
      modifies this`connection, this`sessionPool, this`nextHandle, this`events
      ensures var s := ExecStep(old(State()), usePool, DsnTarget(), reply, ExecuteOps(query), true);
              r == s.result && State() == s.state && events == old(events) + s.events
    {
      r := Session(ExecuteOps(query), reply);
    }

    /** `safe_execute` */
    method SafeExecute(query: string, values: Record, reply: Reply) returns (r: Result<(), Exn>)
      modifies this`connection, this`sessionPool, this`nextHandle, this`events
      ensures var s := ExecStep(old(State()), usePool, DsnTarget(), reply, SafeExecuteOps(query, values), true);
              r == s.result && State() == s.state && events == old(events) + s.events
    {
      r := Session(SafeExecuteOps(query, values), reply);
    }

    /** `execute_multiple` */
    method ExecuteMultiple(queries: seq<(string, Option<Record>)>, reply: Reply) returns (r: Result<(), Exn>)
      modifies this`connection, this`sessionPool, this`nextHandle, this`events
      ensures var s := ExecStep(old(State()), usePool, DsnTarget(), reply, MultipleOps(queries), true);
              r == s.result && State() == s.state && events == old(events) + s.events
    {
      r := Session(MultipleOps(queries), reply);
    }

    /** `execute_many` */
    method ExecuteMany(query: string, rows: seq<Record>, reply: Reply) returns (r: Result<(), Exn>)
      modifies this`connection, this`sessionPool, this`nextHandle, this`events
      ensures var s := ExecStep(old(State()), usePool, DsnTarget(), reply, ExecuteManyOps(query, rows), true);
              r == s.result && State() == s.state && events == old(events) + s.events
    {
      r := Session(ExecuteManyOps(query, rows), reply);
    }

    /** `fetch_data`: the rows are whatever the driver's `fetchall`
        returns, passed in as `fetched`. */
    method FetchData(query: string, packed: Option<Record>, fetched: seq<Record>, reply: Reply)
      returns (r: Result<seq<Record>, Exn>)
      modifies this`connection, this`sessionPool, this`nextHandle, this`events
      ensures var s := ExecStep(old(State()), usePool, DsnTarget(), reply, FetchOps(query, packed), true);
              State() == s.state && events == old(events) + s.events &&
              r == if s.result.Err? then Err(s.result.error) else Ok(fetched)
    {
      var c := Session(FetchOps(query, packed), reply);
      if c.Err? {
        return Err(c.error);
      }
      r := Ok(fetched);
    }

    /** `remove_matching_data`: the nested decorated `execute_many` is
        recorded as one delegated call whose outcome is `nested`. */
    method RemoveMatchingData(df: Frame, table: string, matchCols: seq<string>, nested: Option<Exn>)
      returns (r: Result<nat, Exn>)
      modifies this`events
      ensures match RemoveMatchingPlan(df, table, matchCols)
              case Err(e) => r == Err(e) && events == old(events)
              case Ok(Skipped) => r == Ok(0) && events == old(events)
              case Ok(Delegated(call, n)) =>
                events == old(events) + [Delegate(call)] &&
                r == if nested.Some? then Err(nested.value) else Ok(n)
    {
      var plan := RemoveMatchingPlan(df, table, matchCols);
      if plan.Err? {
        return Err(plan.error);
      }
      if plan.value.Skipped? {
        return Ok(0);
      }
      events := events + [Delegate(plan.value.call)];
      if nested.Some? {
        return Err(nested.value);
      }
      r := Ok(plan.value.count);
    }

    /** `export_df_to_warehouse`, delegating like `remove_matching_data`. */
    method ExportDfToWarehouse(df: Frame, table: string, columns: seq<string>, removeNan: bool, nested: Option<Exn>)
      returns (r: Result<nat, Exn>)
      modifies this`events
      ensures match ExportPlan(df, table, columns, removeNan)
              case Err(e) => r == Err(e) && events == old(events)
              case Ok(Skipped) => r == Ok(0) && events == old(events)
              case Ok(Delegated(call, n)) =>
                events == old(events) + [Delegate(call)] &&
                r == if nested.Some? then Err(nested.value) else Ok(n)
    {
      var plan := ExportPlan(df, table, columns, removeNan);
      if plan.Err? {
        return Err(plan.error);
      }
      if plan.value.Skipped? {
        return Ok(0);
      }
      events := events + [Delegate(plan.value.call)];
      if nested.Some? {
        return Err(nested.value);
      }
      r := Ok(plan.value.count);
    }

    method TableStatement(table: string, verb: string, nested: Option<Exn>) returns (r: Result<(), Exn>)
      modifies this`events
      ensures match TablePlan(table, verb)
              case Err(e) => r == Err(e) && events == old(events)
              case Ok(call) =>
                events == old(events) + [Delegate(call)] &&
                r == if nested.Some? then Err(nested.value) else Ok(())
    {
      var plan := TablePlan(table, verb);
      if plan.Err? {
        return Err(plan.error);
      }
      events := events + [Delegate(plan.value)];
      if nested.Some? {
        return Err(nested.value);
      }
      r := Ok(());
    }

    /** `truncate_table` */
    method TruncateTable(table: string, nested: Option<Exn>) returns (r: Result<(), Exn>)
      modifies this`events
      ensures match TablePlan(table, TruncateVerb)
              case Err(e) => r == Err(e) && events == old(events)
              case Ok(call) =>
                events == old(events) + [Delegate(call)] &&
                r == if nested.Some? then Err(nested.value) else Ok(())
    {
      r := TableStatement(table, TruncateVerb, nested);
    }

    /** `empty_table` */
    method EmptyTable(table: string, nested: Option<Exn>) returns (r: Result<(), Exn>)
      modifies this`events
      ensures match TablePlan(table, DeleteVerb)
              case Err(e) => r == Err(e) && events == old(events)
              case Ok(call) =>
                events == old(events) + [Delegate(call)] &&
                r == if nested.Some? then Err(nested.value) else Ok(())
    {
      r := TableStatement(table, DeleteVerb, nested);
    }
  }
}
