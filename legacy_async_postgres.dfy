/** The older asynchronous Postgres module: a `SQLConnection` whose
    `set_user` stores the credentials and opens a pool, whose statements
    run inside `async with pool.connection()` (commit or roll back, then
    hand the connection back), and whose bulk builders put names into the
    SQL text as given. Its decorator is `LegacyRetry.SyncWrapperRun`. */
module LegacyAsyncPostgres {
  import opened Wrappers
  import opened Driver
  import opened Text
  import opened SqlRetry
  import opened Sessions
  import opened LegacyRetry
  import PostgresAdapter
  import VerbatimStatements

  class SQLConnection {
    var username: Option<string>
    var password: Option<string>
    var hostname: Option<string>
    var port: Option<int>
    var database: Option<string>
    var sessionPool: Option<Target>
    /** The number the pool will give the next connection it hands out. */
    var nextHandle: nat
    /** The driver calls made so far. */
    var events: seq<Event>
    /** `_retry_count` and `retry_limit`; the codes are fixed in the
        decorator. */
    const retry: RetryCounter

    ghost function State(): ConnState
      reads this
    {
      ConnState(None, sessionPool, nextHandle)
    }

    constructor ()
      ensures username.None? && password.None? && hostname.None? && port.None? && database.None?
      ensures sessionPool.None? && nextHandle == 0 && events == []
      ensures fresh(retry) && retry.policy == AsyncPostgresPolicy && retry.retryCount == 0
      ensures retry.retryLimit == 50 && retry.retryErrorCodes == LegacyPostgresCodes
    {
      username, password, hostname, port, database := None, None, None, None, None;
      sessionPool := None;
      nextHandle := 0;
      events := [];
      retry := new RetryCounter(AsyncPostgresPolicy, 50, LegacyPostgresCodes);
    }

    /** `set_user`: stores every field without checking any, then opens
        the pool on the URL built from them (one attempt). */
    method SetUser(creds: PostgresAdapter.Credentials, fault: Option<Exn>) returns (r: Result<(), Exn>)
      modifies this`username, this`password, this`hostname, this`port, this`database
      modifies this`sessionPool, this`events
      ensures username == Some(creds.userName) && password == Some(creds.password)
      ensures hostname == Some(creds.host) && port == Some(creds.port) && database == Some(creds.database)
      ensures var url := PostgresAdapter.PoolUrl(creds.userName, creds.password, creds.host,
                                                 IntString(creds.port), creds.database);
              events == old(events) + [OpenPool(PostgresUrl(url))] &&
              (r.Err? <==> fault.Some?) &&
              (fault.None? ==> sessionPool == Some(PostgresUrl(url))) &&
              (fault.Some? ==> r.error == fault.value && sessionPool == old(sessionPool))
    {
      username := Some(creds.userName);
      password := Some(creds.password);
      hostname := Some(creds.host);
      port := Some(creds.port);
      database := Some(creds.database);
      var target := PostgresUrl(PostgresAdapter.PoolUrl(creds.userName, creds.password, creds.host,
                                                        IntString(creds.port), creds.database));
      events := events + [OpenPool(target)];
      if fault.Some? {
        return Err(fault.value);
      }
      sessionPool := Some(target);
      r := Ok(());
    }

    /** `execute_multiple`: the items run in order on one pooled
        connection, with bind values only when they are truthy; the block
        commits or rolls back and hands the connection back. */
    method ExecuteMultiple(queries: seq<(string, Option<Record>)>, reply: Reply) returns (r: Result<(), Exn>)
      modifies this`nextHandle, this`events
      ensures var s := PostgresAdapter.PoolStep(old(State()), reply, MultipleOps(queries));
              r == s.result && State() == s.state && events == old(events) + s.events
    {
      if sessionPool.None? {
        return Err(AttributeError("'NoneType' object has no attribute 'connection'"));
      }
      if reply.acquireFault.Some? {
        return Err(reply.acquireFault.value);
      }
      var conn := nextHandle;
      nextHandle := nextHandle + 1;
      events := events + [Acquire(conn)];
      r := RunQueries(conn, queries, reply.fault);
    }

    /** The loop of `execute_multiple` inside `with pool.connection()`. */
    method RunQueries(conn: nat, queries: seq<(string, Option<Record>)>, fault: DriverFault) returns (r: Result<(), Exn>)
      modifies this`events
      ensures events == old(events) + PostgresAdapter.PoolSessionEvents(conn, MultipleOps(queries), fault)
      ensures r == SessionOutcome(|queries| + 1, fault)
    {
      var ops := MultipleOps(queries);
      var calls := Calls(conn, ops, true);
      for i := 0 to |queries|
        invariant events == old(events) + calls[..i]
        invariant !Hits(fault, i)
      {
        var (query, packed) := queries[i];
        if packed.Some? && |packed.value| > 0 {
          events := events + [Run(conn, Statement(query, packed))];
        } else {
          events := events + [Run(conn, Statement(query, None))];
        }
        assert calls[..i + 1] == calls[..i] + [calls[i]];
        if fault.FailAt? && fault.index == i {
          events := events + [Rollback(conn), Release(conn)];
          assert events == old(events) + (calls[..i + 1] + [Rollback(conn), Release(conn)]);
          return Err(fault.exn);
        }
      }
      events := events + [Commit(conn), Release(conn)];
      assert calls == calls[..|ops|] + [Commit(conn)];
      if fault.FailAt? && fault.index == |ops| {
        return Err(fault.exn);
      }
      r := Ok(());
    }

    /** `export_DF_to_warehouse`: names as given, `%(column)s` binds,
        every frame column in the records, missing cells to None only under
        `remove_nan`; the nested decorated `execute_many` is one delegated
        call whose outcome is `nested`. */
    method ExportDfToWarehouse(df: Frame, table: string, columns: seq<string>, removeNan: bool, nested: Option<Exn>)
      returns (r: Result<(), Exn>)
      modifies this`events
      ensures |events| == |old(events)| + 1 && events[..|old(events)|] == old(events)
      ensures events[|events| - 1].Delegate?
      ensures var call := events[|events| - 1].call;
              call.ExecuteManyCall? &&
              call.sql == VerbatimStatements.InsertSql(table, columns, VerbatimStatements.Pyformat) &&
              |call.rows| == |df.rows| &&
              (forall i :: 0 <= i < |df.rows| ==> call.rows[i].Keys == df.rows[i].Keys) &&
              (forall i, k :: 0 <= i < |df.rows| && k in df.rows[i] ==>
                 call.rows[i][k] == if removeNan && VerbatimStatements.IsNa(df.rows[i][k]) then Null else df.rows[i][k])
      ensures r == if nested.Some? then Err(nested.value) else Ok(())
    {
      var call := VerbatimStatements.BuildExport(df, table, columns, VerbatimStatements.Pyformat, removeNan);
      events := events + [Delegate(call)];
      r := if nested.Some? then Err(nested.value) else Ok(());
    }

    /** `truncate_table`: the name goes into the statement as given. */
    method TruncateTable(table: string, nested: Option<Exn>) returns (r: Result<(), Exn>)
      modifies this`events
      ensures events == old(events) + [Delegate(ExecuteCall(VerbatimStatements.TruncateSql(table)))]
      ensures r == if nested.Some? then Err(nested.value) else Ok(())
    {
      events := events + [Delegate(ExecuteCall("TRUNCATE TABLE " + table))];
      r := if nested.Some? then Err(nested.value) else Ok(());
    }

    /** `empty_table`: the name goes into the statement as given. */
    method EmptyTable(table: string, nested: Option<Exn>) returns (r: Result<(), Exn>)
      modifies this`events
      ensures events == old(events) + [Delegate(ExecuteCall(VerbatimStatements.DeleteSql(table)))]
      ensures r == if nested.Some? then Err(nested.value) else Ok(())
    {
      events := events + [Delegate(ExecuteCall("DELETE FROM " + table))];
      r := if nested.Some? then Err(nested.value) else Ok(());
    }
  }
}
