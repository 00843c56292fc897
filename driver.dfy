/** The vocabulary the adapters share with the database drivers (oracledb,
    psycopg) and with pandas: the exceptions a call can raise, the cells and
    records of a data frame, and the driver calls the adapters make, which
    the model records as events instead of performing them. */
module Driver {
  import opened Wrappers

  /** The single argument of a driver exception: a plain message, or an
      error object carrying a structured `full_code` such as 'ORA-01033'. */
  datatype ErrorArg = Message(text: string) | Coded(fullCode: string)

  /** The exception classes the source distinguishes. */
  datatype Exn =
    | OracleOperational(arg: ErrorArg)    // oracledb.OperationalError
    | OracleDatabase(arg: ErrorArg)       // any other oracledb.DatabaseError
    | PostgresOperational(arg: ErrorArg)  // psycopg.OperationalError
    | PostgresDatabase(arg: ErrorArg)     // any other psycopg.DatabaseError
    | ValueError(message: string)
    | AttributeError(message: string)
    | OtherError(name: string)

  /** One cell of a data frame. `Missing` stands for NaN, NaT and pd.NA;
      `Null` is Python's None. */
  datatype Cell = Text(s: string) | Number(n: int) | Missing | Null

  /** One row as produced by `DataFrame.to_dict('records')`. */
  type Record = map<string, Cell>

  /** A data frame: its column labels and its rows. */
  datatype Frame = Frame(columns: seq<string>, rows: seq<Record>)

  /** `DataFrame.empty` for a frame with at least one column. */
  predicate EmptyFrame(df: Frame)
  {
    |df.columns| == 0 || |df.rows| == 0
  }

  /** `set(cols).issubset(set(df.columns))` */
  predicate SubsetOfColumns(cols: seq<string>, df: Frame)
  {
    forall k :: 0 <= k < |cols| ==> cols[k] in df.columns
  }

  /** `df[cols]`: each row restricted to the selected columns. */
  function Project(row: Record, cols: seq<string>): Record
  {
    map c | c in cols && c in row :: row[c]
  }

  /** The lowercase-keyed connection dictionary the older Oracle modules
      unpack (`username`, `password`, `hostname`, `port`, `database`). */
  datatype ConnectionDetails = ConnectionDetails(username: string, password: string, hostname: string,
                                                 port: int, database: string)

  /** A statement as handed to the driver: the SQL text and, when the
      caller passes one, the mapping of bind values. */
  datatype Statement = Statement(sql: string, params: Option<Record>)

  /** How `oracledb.makedsn` is told the database name. */
  datatype DsnKey = BySid | ByServiceName

  /** Where a connection or pool is opened. */
  datatype Target =
    | OracleDsn(host: Option<string>, port: Option<int>, key: DsnKey, name: Option<string>)
    | PostgresUrl(url: string)

  /** The driver calls the adapters make, in order. Connections are
      identified by the number the driver hands out. */
  datatype Event =
    | OpenConnection(target: Target)
    | OpenPool(target: Target)
    | ClosePool
    | Acquire(conn: nat)
    | Release(conn: nat)
    | CloseConn(conn: nat)
    | Run(conn: nat, stmt: Statement)
    | RunMany(conn: nat, sql: string, rows: seq<Record>)
    | Fetch(conn: nat)
    | Commit(conn: nat)
    | Rollback(conn: nat)
    /** A call the adapter delegates to one of its own decorated methods. */
    | Delegate(call: Call)

  /** What the driver does during one decorated call, chosen by the
      caller of the model: whether the cached connection reports itself
      healthy, whether opening or acquiring a connection fails, and whether
      one of the statement calls fails. */
  datatype Reply = Reply(healthy: bool, acquireFault: Option<Exn>, fault: DriverFault)

  /** The statement call at `index` (counted from 0 within the call)
      raises `exn`. */
  datatype DriverFault = NoFault | FailAt(index: nat, exn: Exn)

  /** A delegated call to the execute family. */
  datatype Call =
    | ExecuteCall(sql: string)
    | ExecuteManyCall(sql: string, rows: seq<Record>)
}
