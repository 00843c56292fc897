/** The current Postgres adapter: a `PostgresConnection` object that keeps
    its credentials, one connection pool and a retry counter as fields.
    Every statement runs inside `with pool.connection()`, which commits when
    the block finishes, rolls back when it raises, and hands the connection
    back to the pool in both cases. The bulk builders put table and column
    names into the SQL text as given. */
module PostgresAdapter {
  import opened Wrappers
  import opened Driver
  import opened Text
  import opened SqlRetry
  import opened Sessions
  import VerbatimStatements

  const PostgresRetryCodes: seq<string> := ["08001", "08004"]

  const PostgresRetryLimit: nat := 50

  /** The entries of a credentials dictionary `set_user` reads. */
  datatype Credentials = Credentials(userName: string, password: string, host: string, port: int, database: string)

  /** How an f-string shows an optional field: `None` when it is unset. */
  function Shown(s: Option<string>): string
  {
    if s.None? then "None" else s.value
  }

  function ShownInt(n: Option<int>): string
  {
    if n.None? then "None" else IntString(n.value)
  }

  /** The connection string `connect_warehouse` opens its pool on. */
  function PoolUrl(user: string, password: string, host: string, port: string, database: string): string
  {
    "postgres://" + user + ":" + password + "@" + host + ":" + port + "/" + database
  }

  /** The port is written in decimal, with no '@' in it. */
  lemma IntStringFree(n: int)
    ensures Free(IntString(n), '@') && Free(IntString(n), '/')
  {
  }

  /** When no field contains '@', the URL has exactly one '@', and it
      separates the credentials from the host part. The fields are not
      escaped, so this is all the URL promises. */
  lemma PoolUrlSeparatesCredentials(user: string, password: string, host: string, port: int, database: string)
    requires Free(user, '@') && Free(password, '@') && Free(host, '@') && Free(database, '@')
    ensures Split(PoolUrl(user, password, host, IntString(port), database), '@')
            == ["postgres://" + user + ":" + password, host + ":" + IntString(port) + "/" + database]
  {
    var a := "postgres://" + user + ":" + password;
    var b := host + ":" + IntString(port) + "/" + database;
    IntStringFree(port);
    FreeAppend("postgres://", user);
    FreeAppend("postgres://" + user, ":");
    FreeAppend("postgres://" + user + ":", password);
    FreeAppend(host, ":");
    FreeAppend(host + ":", IntString(port));
    FreeAppend(host + ":" + IntString(port), "/");
    FreeAppend(host + ":" + IntString(port) + "/", database);
    SplitJoin([a, b], '@');
    assert Join([a, b], "@") == a + "@" + b;
    assert PoolUrl(user, password, host, IntString(port), database) == a + "@" + b;
  }

  lemma FreeAppend(x: string, y: string)
    requires Free(x, '@') && Free(y, '@')
    ensures Free(x + y, '@')
  {
  }

  /** The statement part of a call inside `with pool.connection()`: the
      calls up to the one that raises, then a rollback; on success every
      call and the commit. In both cases the connection goes back to the
      pool last. */
  function PoolSessionEvents(conn: nat, ops: seq<Op>, fault: DriverFault): seq<Event>
  {
    var calls := Calls(conn, ops, true);
    if Hits(fault, |ops|) then calls[..fault.index + 1] + [Rollback(conn), Release(conn)]
    else calls + [Release(conn)]
  }

  /** One decorated call without its decorator. A pool that was never
      opened raises AttributeError. */
  function PoolStep(st: ConnState, reply: Reply, ops: seq<Op>): Step<()>
  {
    if st.sessionPool.None? then
      Step(Err(AttributeError("'NoneType' object has no attribute 'connection'")), st, [])
    else if reply.acquireFault.Some? then Step(Err(reply.acquireFault.value), st, [])
    else
      var h := st.nextHandle;
      Step(SessionOutcome(|ops| + 1, reply.fault), st.(nextHandle := h + 1),
           [Acquire(h)] + PoolSessionEvents(h, ops, reply.fault))
  }

  /** Every connection taken from the pool is handed back exactly once, as
      the last driver call; the statements run in order; it is committed
      exactly when no statement raised and rolled back exactly when one
      did. */
  lemma {:induction false} PoolSessionDiscipline(conn: nat, ops: seq<Op>, fault: DriverFault)
    ensures var ev := PoolSessionEvents(conn, ops, fault);
            |ev| >= 2 && ev[|ev| - 1] == Release(conn) &&
            (forall k :: 0 <= k < |ev| - 1 ==> ev[k] != Release(conn)) &&
            (!Hits(fault, |ops|) ==> |ev| == |ops| + 2 && forall k :: 0 <= k < |ops| ==> ev[k] == OpEvent(conn, ops[k])) &&
            (Hits(fault, |ops|) ==>
               |ev| == fault.index + 3 && forall k :: 0 <= k <= fault.index ==> ev[k] == OpEvent(conn, ops[k])) &&
            (Rollback(conn) in ev <==> Hits(fault, |ops|)) &&
            (Commit(conn) in ev <==> !Hits(fault, |ops|))
  {
    var calls := Calls(conn, ops, true);
    var ev := PoolSessionEvents(conn, ops, fault);
    forall k | 0 <= k < |ops|
      ensures calls[k] == OpEvent(conn, ops[k])
      ensures !calls[k].Commit? && !calls[k].Release? && !calls[k].Rollback?
    {
    }
    assert calls[|ops|] == Commit(conn);
    if Hits(fault, |ops|) {
      var done := calls[..fault.index + 1];
      assert ev == done + [Rollback(conn), Release(conn)];
      assert ev[|ev| - 2] == Rollback(conn);
      forall k | 0 <= k < |ev| ensures ev[k] != Commit(conn) {
        if k < |done| { assert ev[k] == calls[k]; }
      }
      forall k | 0 <= k < |ev| - 1 ensures ev[k] != Release(conn) {
        if k < |done| { assert ev[k] == calls[k]; }
      }
    } else {
      assert ev == calls + [Release(conn)];
      assert ev[|ops|] == Commit(conn);
      forall k | 0 <= k < |ev| ensures ev[k] != Rollback(conn) {
        if k < |calls| { assert ev[k] == calls[k]; }
      }
    }
  }

  /** A successful call is committed and released; a failing statement is
      rolled back and released; either way the pool gets its connection
      back. */
  lemma PoolStepReleases(st: ConnState, reply: Reply, ops: seq<Op>)
    requires st.sessionPool.Some? && reply.acquireFault.None?
    ensures var s := PoolStep(st, reply, ops);
            var h := st.nextHandle;
            s.events[0] == Acquire(h) && s.events[|s.events| - 1] == Release(h) &&
            (s.result.Ok? <==> !Hits(reply.fault, |ops| + 1)) &&
            (Hits(reply.fault, |ops|) ==> s.result == Err(reply.fault.exn) && Rollback(h) in s.events)
  {
    var h := st.nextHandle;
    PoolSessionDiscipline(h, ops, reply.fault);
    var ev := PoolSessionEvents(h, ops, reply.fault);
    var s := PoolStep(st, reply, ops);
    assert s.events == [Acquire(h)] + ev;
    if Hits(reply.fault, |ops|) {
      var k :| 0 <= k < |ev| && ev[k] == Rollback(h);
      assert s.events[k + 1] == Rollback(h);
    }
  }

  class PostgresConnection {
    var username: Option<string>
    var password: Option<string>
    var hostname: Option<string>
    var port: Option<int>
    var database: Option<string>
    var sessionPool: Option<Target>
    /** The number the pool will give the next connection it hands out. */
    var nextHandle: nat
    /** The driver calls made so far. */
    var events: seq<Event>
    const minConnections: int
    const maxConnections: int
    /** `_retry_count`, `retry_limit` and `retry_error_codes`. */
    const retry: RetryCounter

    ghost function State(): ConnState
      reads this
    {
      ConnState(None, sessionPool, nextHandle)
    }

    function Url(): string
      reads this
    {
      PoolUrl(Shown(username), Shown(password), Shown(hostname), ShownInt(port), Shown(database))
    }

    constructor (minConnections: int, maxConnections: int)
      ensures this.minConnections == minConnections && this.maxConnections == maxConnections
      ensures username.None? && password.None? && hostname.None? && port.None? && database.None?
      ensures sessionPool.None? && nextHandle == 0 && events == []
      ensures fresh(retry) && retry.policy == CurrentPolicy && retry.retryCount == 0
      ensures retry.retryLimit == PostgresRetryLimit && retry.retryErrorCodes == PostgresRetryCodes
    {
      username, password, hostname, port, database := None, None, None, None, None;
      sessionPool := None;
      this.minConnections := minConnections;
      this.maxConnections := maxConnections;
      nextHandle := 0;
      events := [];
      retry := new RetryCounter(CurrentPolicy, PostgresRetryLimit, PostgresRetryCodes);
    }

    /** `_connect`, one attempt: the pool is opened on the URL built from
        the stored fields. */
    method Connect(fault: Option<Exn>) returns (r: Result<(), Exn>)
      modifies this`sessionPool, this`events
      ensures events == old(events) + [OpenPool(PostgresUrl(Url()))]
      ensures r.Err? <==> fault.Some?
      ensures fault.Some? ==> r.error == fault.value && sessionPool == old(sessionPool)
      ensures fault.None? ==> sessionPool == Some(PostgresUrl(Url()))
    {
      var target := PostgresUrl(Url());
      events := events + [OpenPool(target)];
      if fault.Some? {
        return Err(fault.value);
      }
      sessionPool := Some(target);
      r := Ok(());
    }

    /** `set_user`: stores every field without checking any, then
        connects. */
    method SetUser(creds: Credentials, fault: Option<Exn>) returns (r: Result<(), Exn>)
      modifies this`username, this`password, this`hostname, this`port, this`database
      modifies this`sessionPool, this`events
      ensures username == Some(creds.userName) && password == Some(creds.password)
      ensures hostname == Some(creds.host) && port == Some(creds.port) && database == Some(creds.database)
      ensures var url := PoolUrl(creds.userName, creds.password, creds.host, IntString(creds.port), creds.database);
              events == old(events) + [OpenPool(PostgresUrl(url))] &&
              (r.Err? <==> fault.Some?) &&
              (fault.None? ==> sessionPool == Some(PostgresUrl(url))) &&
              (fault.Some? ==> r.error == fault.value && sessionPool == old(sessionPool))
    {
      username := Some(creds.userName);
      password := Some(creds.password);
      hostname := Some(creds.host);
      port := Some(creds.port);
      database := Some(creds.database);
      r := Connect(fault);
    }

    /** `close_connection` */
    method CloseConnection() returns (r: Result<(), Exn>)
      modifies this`events
      ensures sessionPool.None? ==>
                r == Err(AttributeError("'NoneType' object has no attribute 'close'")) && events == old(events)
      ensures sessionPool.Some? ==> r == Ok(()) && events == old(events) + [ClosePool]
    {
      if sessionPool.None? {
        return Err(AttributeError("'NoneType' object has no attribute 'close'"));
      }
      events := events + [ClosePool];
      r := Ok(());
    }

    /** The body of `with pool.connection() as connection:` around the
        statement calls. */
    method Session(ops: seq<Op>, reply: Reply) returns (r: Result<(), Exn>)
      modifies this`nextHandle, this`events
      ensures var s := PoolStep(old(State()), reply, ops);
              r == s.result && State() == s.state && events == old(events) + s.events
    {
      if sessionPool.None? {
        return Err(AttributeError("'NoneType' object has no attribute 'connection'"));
      }
      if reply.acquireFault.Some? {
        return Err(reply.acquireFault.value);
      }
      var conn := nextHandle;
      nextHandle := nextHandle + 1;
      events := events + [Acquire(conn)];
      r := RunPooled(conn, ops, reply.fault);
    }

    /** The body of `with pool.connection()`: each call in order, then the
        commit, or the rollback after the call that raised; the connection
        is handed back last in both cases. */
    method RunPooled(conn: nat, ops: seq<Op>, fault: DriverFault) returns (r: Result<(), Exn>)
      modifies this`events
      ensures events == old(events) + PoolSessionEvents(conn, ops, fault)
      ensures r == SessionOutcome(|ops| + 1, fault)
    {
      var calls := Calls(conn, ops, true);
      var i := 0;
      while i < |ops|
        invariant 0 <= i <= |ops|
        invariant events == old(events) + calls[..i]
        invariant !Hits(fault, i)
      {
        events := events + [OpEvent(conn, ops[i])];
        assert calls[..i + 1] == calls[..i] + [calls[i]];
        if fault.FailAt? && fault.index == i {
          events := events + [Rollback(conn), Release(conn)];
          assert Hits(fault, |ops|);
          assert events == old(events) + (calls[..i + 1] + [Rollback(conn), Release(conn)]);
          return Err(fault.exn);
        }
        i := i + 1;
      }
      events := events + [Commit(conn)];
      assert calls == calls[..|ops|] + [Commit(conn)];
      events := events + [Release(conn)];
      if fault.FailAt? && fault.index == |ops| {
        assert !Hits(fault, |ops|) && Hits(fault, |ops| + 1);
        return Err(fault.exn);
      }
      r := Ok(());
    }

    /** `execute` */
    method Execute(query: string, reply: Reply) returns (r: Result<(), Exn>)
      modifies this`nextHandle, this`events
      ensures var s := PoolStep(old(State()), reply, ExecuteOps(query));
              r == s.result && State() == s.state && events == old(events) + s.events
    {
      r := Session(ExecuteOps(query), reply);
    }

    /** `safe_execute` */
    method SafeExecute(query: string, values: Record, reply: Reply) returns (r: Result<(), Exn>)
      modifies this`nextHandle, this`events
      ensures var s := PoolStep(old(State()), reply, SafeExecuteOps(query, values));
              r == s.result && State() == s.state && events == old(events) + s.events
    {
      r := Session(SafeExecuteOps(query, values), reply);
    }

    /** `execute_multiple`: the items run in order on one pooled
        connection, with bind values only when they are truthy. */
    method ExecuteMultiple(queries: seq<(string, Option<Record>)>, reply: Reply) returns (r: Result<(), Exn>)
      modifies this`nextHandle, this`events
      ensures var s := PoolStep(old(State()), reply, MultipleOps(queries));
              r == s.result && State() == s.state && events == old(events) + s.events
    {
      r := Session(MultipleOps(queries), reply);
    }

    /** `execute_many` */
    method ExecuteMany(query: string, rows: seq<Record>, reply: Reply) returns (r: Result<(), Exn>)
      modifies this`nextHandle, this`events
      ensures var s := PoolStep(old(State()), reply, ExecuteManyOps(query, rows));
              r == s.result && State() == s.state && events == old(events) + s.events
    {
      r := Session(ExecuteManyOps(query, rows), reply);
    }

    /** `fetch_data`: the rows are whatever the driver's `fetchall`
        returns, passed in as `fetched`. */
    method FetchData(query: string, packed: Option<Record>, fetched: seq<Record>, reply: Reply)
      returns (r: Result<seq<Record>, Exn>)
      modifies this`nextHandle, this`events
      ensures var s := PoolStep(old(State()), reply, FetchOps(query, packed));
              State() == s.state && events == old(events) + s.events &&
              r == if s.result.Err? then Err(s.result.error) else Ok(fetched)
    {
      var c := Session(FetchOps(query, packed), reply);
      if c.Err? {
        return Err(c.error);
      }
      r := Ok(fetched);
    }

    /** `export_DF_to_warehouse`: the records carry every column of the
        frame, missing cells become None only under `remove_nan`, and the
        nested decorated `execute_many` is recorded as one delegated call
        whose outcome is `nested`. There is no empty-frame shortcut and no
        count. */
    method ExportDfToWarehouse(df: Frame, table: string, columns: seq<string>, removeNan: bool, nested: Option<Exn>)
      returns (r: Result<(), Exn>)
      modifies this`events
      ensures |events| == |old(events)| + 1 && events[..|old(events)|] == old(events)
      ensures events[|events| - 1].Delegate?
      ensures var call := events[|events| - 1].call;
              call.ExecuteManyCall? &&
              call.sql == VerbatimStatements.InsertSql(table, columns, VerbatimStatements.Pyformat) &&
              |call.rows| == |df.rows| &&
              (forall i :: 0 <= i < |df.rows| ==> call.rows[i].Keys == df.rows[i].Keys) &&
              (forall i, k :: 0 <= i < |df.rows| && k in df.rows[i] ==>
                 call.rows[i][k] == if removeNan && VerbatimStatements.IsNa(df.rows[i][k]) then Null else df.rows[i][k])
      ensures r == if nested.Some? then Err(nested.value) else Ok(())
    {
      var call := VerbatimStatements.BuildExport(df, table, columns, VerbatimStatements.Pyformat, removeNan);
      events := events + [Delegate(call)];
      if nested.Some? {
        return Err(nested.value);
      }
      r := Ok(());
    }

    /** `truncate_table`: the name goes into the statement as given. */
    method TruncateTable(table: string, nested: Option<Exn>) returns (r: Result<(), Exn>)
      modifies this`events
      ensures events == old(events) + [Delegate(ExecuteCall(VerbatimStatements.TruncateSql(table)))]
      ensures r == if nested.Some? then Err(nested.value) else Ok(())
    {
      events := events + [Delegate(ExecuteCall("TRUNCATE TABLE " + table))];
      r := if nested.Some? then Err(nested.value) else Ok(());
    }

    /** `empty_table`: the name goes into the statement as given. */
    method EmptyTable(table: string, nested: Option<Exn>) returns (r: Result<(), Exn>)
      modifies this`events
      ensures events == old(events) + [Delegate(ExecuteCall(VerbatimStatements.DeleteSql(table)))]
      ensures r == if nested.Some? then Err(nested.value) else Ok(())
    {
      events := events + [Delegate(ExecuteCall("DELETE FROM " + table))];
      r := if nested.Some? then Err(nested.value) else Ok(());
    }
  }
}
