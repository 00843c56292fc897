/** The older synchronous Oracle module: a pool-only `SQLConnection` whose
    credentials are unpacked from a lowercase-keyed dictionary without
    connecting, whose execute family acquires, runs, commits and releases
    (`fetch_data` releases without committing), and whose bulk builders
    put names into the SQL text as given. Its decorator is
    `LegacyRetry.RetryUnbounded`. */
module LegacySyncOracle {
  import opened Wrappers
  import opened Driver
  import opened Sessions
  import OracleAdapter
  import VerbatimStatements

  /** `connect_warehouse` always opens a pool and names the database as a
      SID. */
  function PoolTarget(hostname: Option<string>, port: Option<int>, database: Option<string>): Target
  {
    OracleDsn(hostname, port, BySid, database)
  }

  /** `fetch_data` hands its connection back without a commit: a
      successful fetch acquires a fresh connection, runs the query, fetches
      and releases that connection last, and nothing is committed on any
      path. */
  lemma {:induction false} FetchReleasesWithoutCommit(st: ConnState, target: Target, reply: Reply,
                                                    query: string, packed: Option<Record>)
    requires st.sessionPool.Some? && reply.acquireFault.None?
    ensures var s := OracleAdapter.ExecStep(st, true, target, reply, FetchOps(query, packed), false);
            var h := st.nextHandle;
            (forall k :: 0 <= k < |s.events| ==> !s.events[k].Commit?) &&
            (s.result.Ok? <==> !Hits(reply.fault, 2)) &&
            (s.result.Ok? ==> s.events == [Acquire(h), Run(h, FetchOps(query, packed)[0].stmt), Fetch(h), Release(h)])
  {
    var h := st.nextHandle;
    var ops := FetchOps(query, packed);
    var calls := Calls(h, ops, false);
    assert calls == [Run(h, ops[0].stmt), Fetch(h)];
    var s := OracleAdapter.ExecStep(st, true, target, reply, ops, false);
    var ev := OracleAdapter.SessionEvents(h, ops, reply.fault, true, false);
    assert s.events == [Acquire(h)] + ev;
    if Hits(reply.fault, 2) {
      assert ev == calls[..reply.fault.index + 1];
    }
  }

  class SQLConnection {
    var username: Option<string>
    var password: Option<string>
    var hostname: Option<string>
    var port: Option<int>
    var database: Option<string>
    var sessionPool: Option<Target>
    /** The number the pool will give the next connection it hands out. */
    var nextHandle: nat
    /** The driver calls made so far. */
    var events: seq<Event>

    ghost function State(): ConnState
      reads this
    {
      ConnState(None, sessionPool, nextHandle)
    }

    function DsnTarget(): Target
      reads this
    {
      PoolTarget(hostname, port, database)
    }

    constructor ()
      ensures username.None? && password.None? && hostname.None? && port.None? && database.None?
      ensures sessionPool.None? && nextHandle == 0 && events == []
    {
      username, password, hostname, port, database := None, None, None, None, None;
      sessionPool := None;
      nextHandle := 0;
      events := [];
    }

    /** `connect`, one attempt. */
    method Connect(fault: Option<Exn>) returns (r: Result<(), Exn>)
      modifies this`sessionPool, this`events
      ensures var s := OracleAdapter.ConnectStep(old(State()), true, DsnTarget(), fault);
              r == s.result && State() == s.state && events == old(events) + s.events
    {
      var target := DsnTarget();
      events := events + [OpenPool(target)];
      if fault.Some? {
        return Err(fault.value);
      }
      sessionPool := Some(target);
      r := Ok(());
    }

    /** `unpack_user`: stores the five fields and does not connect. */
    method UnpackUser(details: ConnectionDetails)
      modifies this`username, this`password, this`hostname, this`port, this`database
      ensures username == Some(details.username) && password == Some(details.password)
      ensures hostname == Some(details.hostname) && port == Some(details.port)
      ensures database == Some(details.database)
    {
      username := Some(details.username);
      password := Some(details.password);
      hostname := Some(details.hostname);
      port := Some(details.port);
      database := Some(details.database);
    }

    /** `close_connection` */
    method CloseConnection() returns (r: Result<(), Exn>)
      modifies this`events
      ensures var s := OracleAdapter.CloseStep(old(State()), true, true);
              r == s.result && events == old(events) + s.events
    {
      if sessionPool.None? {
        return Err(AttributeError("'NoneType' object has no attribute 'close'"));
      }
      events := events + [ClosePool];
      r := Ok(());
    }

    /** The statement part of a session: each call in order, the commit
        when asked, then the release. */
    method RunCalls(conn: nat, ops: seq<Op>, commit: bool, fault: DriverFault) returns (r: Result<(), Exn>)
      modifies this`events
      ensures events == old(events) + OracleAdapter.SessionEvents(conn, ops, fault, true, commit)
      ensures r == SessionOutcome(|Calls(conn, ops, commit)|, fault)
    {
      var calls := Calls(conn, ops, commit);
      var i := 0;
      while i < |ops|
        invariant 0 <= i <= |ops|
        invariant events == old(events) + calls[..i]
        invariant !Hits(fault, i)
      {
        events := events + [OpEvent(conn, ops[i])];
        assert calls[..i + 1] == calls[..i] + [calls[i]];
        if fault.FailAt? && fault.index == i {
          return Err(fault.exn);
        }
        i := i + 1;
      }
      if commit {
        events := events + [Commit(conn)];
        assert calls == calls[..|ops|] + [Commit(conn)];
        if fault.FailAt? && fault.index == |ops| {
          return Err(fault.exn);
        }
      } else {
        assert calls == calls[..|ops|];
      }
      events := events + [Release(conn)];
      r := Ok(());
    }

    /** Acquire from the pool, run the calls in order, commit when asked,
        release. */
    method Session(ops: seq<Op>, reply: Reply, commit: bool) returns (r: Result<(), Exn>)
      modifies this`nextHandle, this`events
      ensures var s := OracleAdapter.ExecStep(old(State()), true, DsnTarget(), reply, ops, commit);
              r == s.result && State() == s.state && events == old(events) + s.events
    {
      if sessionPool.None? {
        return Err(AttributeError("'NoneType' object has no attribute 'acquire'"));
      }
      if reply.acquireFault.Some? {
        return Err(reply.acquireFault.value);
      }
      var conn := nextHandle;
      nextHandle := nextHandle + 1;
      events := events + [Acquire(conn)];
      r := RunCalls(conn, ops, commit, reply.fault);
    }

    /** `execute` */
    method Execute(query: string, reply: Reply) returns (r: Result<(), Exn>)
      modifies this`nextHandle, this`events
      ensures var s := OracleAdapter.ExecStep(old(State()), true, DsnTarget(), reply, ExecuteOps(query), true);
              r == s.result && State() == s.state && events == old(events) + s.events
    {
      r := Session(ExecuteOps(query), reply, true);
    }

    /** `safe_execute` */
    method SafeExecute(query: string, values: Record, reply: Reply) returns (r: Result<(), Exn>)
      modifies this`nextHandle, this`events
      ensures var s := OracleAdapter.ExecStep(old(State()), true, DsnTarget(), reply, SafeExecuteOps(query, values), true);
              r == s.result && State() == s.state && events == old(events) + s.events
    {
      r := Session(SafeExecuteOps(query, values), reply, true);
    }

    /** `execute_multiple` */
    method ExecuteMultiple(queries: seq<(string, Option<Record>)>, reply: Reply) returns (r: Result<(), Exn>)
      modifies this`nextHandle, this`events
      ensures var s := OracleAdapter.ExecStep(old(State()), true, DsnTarget(), reply, MultipleOps(queries), true);
              r == s.result && State() == s.state && events == old(events) + s.events
    {
      r := Session(MultipleOps(queries), reply, true);
    }

    /** `execute_many` */
    method ExecuteMany(query: string, rows: seq<Record>, reply: Reply) returns (r: Result<(), Exn>)
      modifies this`nextHandle, this`events
      ensures var s := OracleAdapter.ExecStep(old(State()), true, DsnTarget(), reply, ExecuteManyOps(query, rows), true);
              r == s.result && State() == s.state && events == old(events) + s.events
    {
      r := Session(ExecuteManyOps(query, rows), reply, true);
    }

    /** `fetch_data`: no commit. */
    method FetchData(query: string, packed: Option<Record>, fetched: seq<Record>, reply: Reply)
      returns (r: Result<seq<Record>, Exn>)
      modifies this`nextHandle, this`events
      ensures var s := OracleAdapter.ExecStep(old(State()), true, DsnTarget(), reply, FetchOps(query, packed), false);
              State() == s.state && events == old(events) + s.events &&
              r == if s.result.Err? then Err(s.result.error) else Ok(fetched)
    {
      var c := Session(FetchOps(query, packed), reply, false);
      if c.Err? {
        return Err(c.error);
      }
      r := Ok(fetched);
    }

    /** `export_DF_to_warehouse`: names as given, `:column` binds, every
        frame column in the records, missing cells to None only under
        `remove_nan`; the nested decorated `execute_many` is one delegated
        call whose outcome is `nested`. */
    method ExportDfToWarehouse(df: Frame, table: string, columns: seq<string>, removeNan: bool, nested: Option<Exn>)
      returns (r: Result<(), Exn>)
      modifies this`events
      ensures |events| == |old(events)| + 1 && events[..|old(events)|] == old(events)
      ensures events[|events| - 1].Delegate?
      ensures var call := events[|events| - 1].call;
              call.ExecuteManyCall? &&
              call.sql == VerbatimStatements.InsertSql(table, columns, VerbatimStatements.Colon) &&
              |call.rows| == |df.rows| &&
              (forall i :: 0 <= i < |df.rows| ==> call.rows[i].Keys == df.rows[i].Keys) &&
              (forall i, k :: 0 <= i < |df.rows| && k in df.rows[i] ==>
                 call.rows[i][k] == if removeNan && VerbatimStatements.IsNa(df.rows[i][k]) then Null else df.rows[i][k])
      ensures r == if nested.Some? then Err(nested.value) else Ok(())
    {
      var call := VerbatimStatements.BuildExport(df, table, columns, VerbatimStatements.Colon, removeNan);
      events := events + [Delegate(call)];
      r := if nested.Some? then Err(nested.value) else Ok(());
    }

    /** `truncate_table`: the name goes into the statement as given. */
    method TruncateTable(table: string, nested: Option<Exn>) returns (r: Result<(), Exn>)
      modifies this`events
      ensures events == old(events) + [Delegate(ExecuteCall(VerbatimStatements.TruncateSql(table)))]
      ensures r == if nested.Some? then Err(nested.value) else Ok(())
    {
      events := events + [Delegate(ExecuteCall("TRUNCATE TABLE " + table))];
      r := if nested.Some? then Err(nested.value) else Ok(());
    }

    /** `empty_table`: the name goes into the statement as given. */
    method EmptyTable(table: string, nested: Option<Exn>) returns (r: Result<(), Exn>)
      modifies this`events
      ensures events == old(events) + [Delegate(ExecuteCall(VerbatimStatements.DeleteSql(table)))]
      ensures r == if nested.Some? then Err(nested.value) else Ok(())
    {
      events := events + [Delegate(ExecuteCall("DELETE FROM " + table))];
      r := if nested.Some? then Err(nested.value) else Ok(());
    }
  }
}
