/** The older asynchronous Oracle module: a pool-only `SQLConnection` with
    a counted retry decorator (`LegacyRetry.AsyncOraclePolicy`) whose
    counter and limit are fields of the object, credentials unpacked from a
    lowercase-keyed dictionary without connecting, and bulk builders that
    put names into the SQL text as given. */
module LegacyAsyncOracle {
  import opened Wrappers
  import opened Driver
  import opened SqlRetry
  import opened LegacyRetry
  import VerbatimStatements

  class SQLConnection {
    var username: Option<string>
    var password: Option<string>
    var hostname: Option<string>
    var port: Option<int>
    var database: Option<string>
    var sessionPool: Option<Target>
    /** The driver calls made so far. */
    var events: seq<Event>
    /** `_retry_count` and `retry_limit`; the codes are fixed in the
        decorator. */
    const retry: RetryCounter

    constructor ()
      ensures username.None? && password.None? && hostname.None? && port.None? && database.None?
      ensures sessionPool.None? && events == []
      ensures fresh(retry) && retry.policy == AsyncOraclePolicy && retry.retryCount == 0
      ensures retry.retryLimit == 50 && retry.retryErrorCodes == LegacyOracleCodes
    {
      username, password, hostname, port, database := None, None, None, None, None;
      sessionPool := None;
      events := [];
      retry := new RetryCounter(AsyncOraclePolicy, 50, LegacyOracleCodes);
    }

    /** `connect`, one attempt: a pool with the database named as a SID. */
    method Connect(fault: Option<Exn>) returns (r: Result<(), Exn>)
      modifies this`sessionPool, this`events
      ensures events == old(events) + [OpenPool(OracleDsn(hostname, port, BySid, database))]
      ensures r.Err? <==> fault.Some?
      ensures fault.Some? ==> r.error == fault.value && sessionPool == old(sessionPool)
      ensures fault.None? ==> sessionPool == Some(OracleDsn(hostname, port, BySid, database))
    {
      var target := OracleDsn(hostname, port, BySid, database);
      events := events + [OpenPool(target)];
      if fault.Some? {
        return Err(fault.value);
      }
      sessionPool := Some(target);
      r := Ok(());
    }

    /** `unpack_user`: stores the five fields and does not connect. */
    method UnpackUser(details: ConnectionDetails)
      modifies this`username, this`password, this`hostname, this`port, this`database
      ensures username == Some(details.username) && password == Some(details.password)
      ensures hostname == Some(details.hostname) && port == Some(details.port)
      ensures database == Some(details.database)
    {
      username := Some(details.username);
      password := Some(details.password);
      hostname := Some(details.hostname);
      port := Some(details.port);
      database := Some(details.database);
    }

    /** `export_DF_to_warehouse`: names as given, `:column` binds, every
        frame column in the records, missing cells to None only under
        `remove_nan`; the nested decorated `execute_many` is one delegated
        call whose outcome is `nested`. */
    method ExportDfToWarehouse(df: Frame, table: string, columns: seq<string>, removeNan: bool, nested: Option<Exn>)
      returns (r: Result<(), Exn>)
      modifies this`events
      ensures |events| == |old(events)| + 1 && events[..|old(events)|] == old(events)
      ensures events[|events| - 1].Delegate?
      ensures var call := events[|events| - 1].call;
              call.ExecuteManyCall? &&
              call.sql == VerbatimStatements.InsertSql(table, columns, VerbatimStatements.Colon) &&
              |call.rows| == |df.rows| &&
              (forall i :: 0 <= i < |df.rows| ==> call.rows[i].Keys == df.rows[i].Keys) &&
              (forall i, k :: 0 <= i < |df.rows| && k in df.rows[i] ==>
                 call.rows[i][k] == if removeNan && VerbatimStatements.IsNa(df.rows[i][k]) then Null else df.rows[i][k])
      ensures r == if nested.Some? then Err(nested.value) else Ok(())
    {
      var call := VerbatimStatements.BuildExport(df, table, columns, VerbatimStatements.Colon, removeNan);
      events := events + [Delegate(call)];
      r := if nested.Some? then Err(nested.value) else Ok(());
    }

    /** `truncate_table`: the name goes into the statement as given. */
    method TruncateTable(table: string, nested: Option<Exn>) returns (r: Result<(), Exn>)
      modifies this`events
      ensures events == old(events) + [Delegate(ExecuteCall(VerbatimStatements.TruncateSql(table)))]
      ensures r == if nested.Some? then Err(nested.value) else Ok(())
    {
      events := events + [Delegate(ExecuteCall("TRUNCATE TABLE " + table))];
      r := if nested.Some? then Err(nested.value) else Ok(());
    }

    /** `empty_table`: the name goes into the statement as given. */
    method EmptyTable(table: string, nested: Option<Exn>) returns (r: Result<(), Exn>)
      modifies this`events
      ensures events == old(events) + [Delegate(ExecuteCall(VerbatimStatements.DeleteSql(table)))]
      ensures r == if nested.Some? then Err(nested.value) else Ok(())
    {
      events := events + [Delegate(ExecuteCall("DELETE FROM " + table))];
      r := if nested.Some? then Err(nested.value) else Ok(());
    }
  }
}
