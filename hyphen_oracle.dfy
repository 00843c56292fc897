/** The Oracle module of the `wcp-library` tree: a pool-only
    `SQLConnection` whose `set_user` tests the Service/SID fields it has
    already stored before it assigns them from the credentials, and whose
    bulk builders put names into the SQL text as given. Its decorator is
    imported from `WCP_Library/sql/__init__.py`, which is not part of this
    model; the counter fields it reads are kept. */
module HyphenOracle {
  import opened Wrappers
  import opened Driver
  import OracleAdapter
  import VerbatimStatements

  const HyphenRetryCodes: seq<string> := ["ORA-01033", "DPY-6005", "DPY-4011"]

  class SQLConnection {
    var username: Option<string>
    var password: Option<string>
    var hostname: Option<string>
    var port: Option<int>
    var database: Option<string>
    var sid: Option<string>
    var sessionPool: Option<Target>
    var retryCount: nat
    var retryLimit: nat
    var retryErrorCodes: seq<string>
    /** The driver calls made so far. */
    var events: seq<Event>

    /** `_connect`'s DSN: always a pool, named by the service when it is
        truthy and by the SID otherwise. */
    function DsnTarget(): Target
      reads this
    {
      OracleDsn(hostname, port, BySid, OracleAdapter.SidOrService(database, sid))
    }

    constructor ()
      ensures username.None? && password.None? && hostname.None? && port.None?
      ensures database.None? && sid.None? && sessionPool.None? && events == []
      ensures retryCount == 0 && retryLimit == 50 && retryErrorCodes == HyphenRetryCodes
    {
      username, password, hostname, port := None, None, None, None;
      database, sid, sessionPool := None, None, None;
      retryCount, retryLimit, retryErrorCodes := 0, 50, HyphenRetryCodes;
      events := [];
    }

    /** `_connect`, one attempt. */
    method Connect(fault: Option<Exn>) returns (r: Result<(), Exn>)
      modifies this`sessionPool, this`events
      ensures events == old(events) + [OpenPool(DsnTarget())]
      ensures r.Err? <==> fault.Some?
      ensures fault.Some? ==> r.error == fault.value && sessionPool == old(sessionPool)
      ensures fault.None? ==> sessionPool == Some(DsnTarget())
    {
      var target := DsnTarget();
      events := events + [OpenPool(target)];
      if fault.Some? {
        return Err(fault.value);
      }
      sessionPool := Some(target);
      r := Ok(());
    }

    /** `set_user` as written: the check reads the fields stored by an
        earlier call, not the credentials; `Service` and `SID` are taken
        when the key is present and are None otherwise. */
    method SetUser(creds: OracleAdapter.Credentials, fault: Option<Exn>) returns (r: Result<(), Exn>)
      modifies this`username, this`password, this`hostname, this`port, this`database, this`sid
      modifies this`sessionPool, this`events
      ensures !(Truthy(old(database)) || Truthy(old(sid))) ==>
                r == Err(ValueError("Either Service or SID must be provided")) &&
                username == old(username) && password == old(password) && hostname == old(hostname) &&
                port == old(port) && database == old(database) && sid == old(sid) &&
                sessionPool == old(sessionPool) && events == old(events)
      ensures Truthy(old(database)) || Truthy(old(sid)) ==>
                username == Some(creds.userName) && password == Some(creds.password) &&
                hostname == Some(creds.host) && port == Some(creds.port) &&
                database == creds.service && sid == creds.sid &&
                events == old(events) + [OpenPool(DsnTarget())] &&
                (r.Err? <==> fault.Some?) &&
                (fault.Some? ==> r.error == fault.value && sessionPool == old(sessionPool)) &&
                (fault.None? ==> sessionPool == Some(DsnTarget()))
    {
      if !(Truthy(database) || Truthy(sid)) {
        return Err(ValueError("Either Service or SID must be provided"));
      }
      username := Some(creds.userName);
      password := Some(creds.password);
      hostname := Some(creds.host);
      port := Some(creds.port);
      database := creds.service;
      sid := creds.sid;
      r := Connect(fault);
    }

    /** `export_DF_to_warehouse`: names as given, `:column` binds, every
        frame column in the records, missing cells to None only under
        `remove_nan`; the nested decorated `execute_many` is one delegated
        call whose outcome is `nested`. */
    method ExportDfToWarehouse(df: Frame, table: string, columns: seq<string>, removeNan: bool, nested: Option<Exn>)
      returns (r: Result<(), Exn>)
      modifies this`events
      ensures |events| == |old(events)| + 1 && events[..|old(events)|] == old(events)
      ensures events[|events| - 1].Delegate?
      ensures var call := events[|events| - 1].call;
              call.ExecuteManyCall? &&
              call.sql == VerbatimStatements.InsertSql(table, columns, VerbatimStatements.Colon) &&
              |call.rows| == |df.rows| &&
              (forall i :: 0 <= i < |df.rows| ==> call.rows[i].Keys == df.rows[i].Keys) &&
              (forall i, k :: 0 <= i < |df.rows| && k in df.rows[i] ==>
                 call.rows[i][k] == if removeNan && VerbatimStatements.IsNa(df.rows[i][k]) then Null else df.rows[i][k])
      ensures r == if nested.Some? then Err(nested.value) else Ok(())
    {
      var call := VerbatimStatements.BuildExport(df, table, columns, VerbatimStatements.Colon, removeNan);
      events := events + [Delegate(call)];
      r := if nested.Some? then Err(nested.value) else Ok(());
    }

    /** `truncate_table`: the name goes into the statement as given. */
    method TruncateTable(table: string, nested: Option<Exn>) returns (r: Result<(), Exn>)
      modifies this`events
      ensures events == old(events) + [Delegate(ExecuteCall(VerbatimStatements.TruncateSql(table)))]
      ensures r == if nested.Some? then Err(nested.value) else Ok(())
    {
      events := events + [Delegate(ExecuteCall("TRUNCATE TABLE " + table))];
      r := if nested.Some? then Err(nested.value) else Ok(());
    }

    /** `empty_table`: the name goes into the statement as given. */
    method EmptyTable(table: string, nested: Option<Exn>) returns (r: Result<(), Exn>)
      modifies this`events
      ensures events == old(events) + [Delegate(ExecuteCall(VerbatimStatements.DeleteSql(table)))]
      ensures r == if nested.Some? then Err(nested.value) else Ok(())
    {
      events := events + [Delegate(ExecuteCall("DELETE FROM " + table))];
      r := if nested.Some? then Err(nested.value) else Ok(());
    }
  }

  /** On a fresh object `set_user` always raises, whatever the credentials
      hold: the fields it tests are still None. Nothing is stored and no
      pool is opened. */
  method FreshInstanceRefused(creds: OracleAdapter.Credentials, fault: Option<Exn>)
    returns (r: Result<(), Exn>, driverCalls: seq<Event>)
    ensures r == Err(ValueError("Either Service or SID must be provided"))
    ensures driverCalls == []
  {
    var c := new SQLConnection();
    r := c.SetUser(creds, fault);
    driverCalls := c.events;
  }

  /** The check the current adapter makes instead accepts the same
      credentials whenever they name a service or a SID, and connects. */
  method FreshInstanceAccepted(creds: OracleAdapter.Credentials)
    returns (r: Result<(), Exn>, driverCalls: seq<Event>)
    requires Truthy(creds.service) || Truthy(creds.sid)
    ensures r == Ok(())
    ensures |driverCalls| == 1 && driverCalls[0].OpenPool? && driverCalls[0].target.OracleDsn?
    ensures driverCalls[0].target.name == OracleAdapter.SidOrService(creds.service, creds.sid)
  {
    var c := new OracleAdapter.OracleConnection(true, 2, 5);
    r := c.SetUser(creds, None);
    driverCalls := c.events;
  }
}
