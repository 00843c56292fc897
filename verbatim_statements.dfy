/** The statement builders shared, line for line, by the Postgres adapter
    and the older Oracle and Postgres modules: table and column names go
    into the SQL text as given, one placeholder per column is built in a
    loop, and with `remove_nan` every missing cell of every record is
    replaced by None in a nested loop. */
module VerbatimStatements {
  import opened Wrappers
  import opened Driver
  import opened Text

  /** Oracle binds `:name`; psycopg binds `%(name)s`. */
  datatype BindStyle = Colon | Pyformat

  function Bind(style: BindStyle, column: string): string
  {
    match style
    case Colon => ":" + column
    case Pyformat => "%(" + column + ")s"
  }

  function Binds(style: BindStyle, columns: seq<string>): seq<string>
  {
    seq(|columns|, k requires 0 <= k < |columns| => Bind(style, columns[k]))
  }

  /** The placeholder names the driver reads back out of a bind. */
  function BindName(style: BindStyle, b: string): string
  {
    match style
    case Colon => if |b| >= 1 then b[1..] else b
    case Pyformat => if |b| >= 4 then b[2..|b| - 2] else b
  }

  /** The loop that appends one placeholder per column. */
  method BuildBinds(style: BindStyle, columns: seq<string>) returns (binds: seq<string>)
    ensures |binds| == |columns|
    ensures forall k :: 0 <= k < |columns| ==> BindName(style, binds[k]) == columns[k]
    ensures binds == Binds(style, columns)
  {
    binds := [];
    for k := 0 to |columns|
      invariant binds == Binds(style, columns[..k])
    {
      binds := binds + [Bind(style, columns[k])];
      assert columns[..k + 1] == columns[..k] + [columns[k]];
    }
    assert columns[..|columns|] == columns;
  }

  /** `INSERT INTO {} ({}) VALUES ({})` filled with the table name, the
      column names joined by ", ", and the placeholders joined by ", ". */
  function InsertSql(table: string, columns: seq<string>, style: BindStyle): string
  {
    "INSERT INTO " + table + " (" + Join(columns, ", ") + ") VALUES (" + Join(Binds(style, columns), ", ") + ")"
  }

  function TruncateSql(table: string): string
  {
    "TRUNCATE TABLE " + table
  }

  function DeleteSql(table: string): string
  {
    "DELETE FROM " + table
  }

  /** `pd.isna(value)`: NaN, NaT, NA and None. */
  predicate IsNa(c: Cell)
  {
    c.Missing? || c.Null?
  }

  function Nullify(c: Cell): Cell
  {
    if IsNa(c) then Null else c
  }

  function NullifyRow(row: Record): Record
  {
    map k | k in row :: Nullify(row[k])
  }

  /** After the replacement a record has the same fields, no missing cell,
      and every cell that was not missing is unchanged. */
  lemma NullifyRowSpec(row: Record)
    ensures NullifyRow(row).Keys == row.Keys
    ensures forall k :: k in row ==> !NullifyRow(row)[k].Missing?
    ensures forall k :: k in row && !IsNa(row[k]) ==> NullifyRow(row)[k] == row[k]
    ensures NullifyRow(NullifyRow(row)) == NullifyRow(row)
  {
  }

  /** The nested loop `for val, item in enumerate(main_dict): for sub_item,
      value in item.items(): ...`, writing None over every missing cell and
      each other value back unchanged. */
  method NullifyMissing(rows: seq<Record>) returns (out: seq<Record>)
    ensures |out| == |rows|
    ensures forall i :: 0 <= i < |rows| ==> out[i] == NullifyRow(rows[i])
  {
    out := rows;
    for i := 0 to |rows|
      invariant |out| == |rows|
      invariant forall j :: 0 <= j < i ==> out[j] == NullifyRow(rows[j])
      invariant forall j :: i <= j < |rows| ==> out[j] == rows[j]
    {
      var row := out[i];
      var pending := row.Keys;
      while pending != {}
        invariant pending <= rows[i].Keys && row.Keys == rows[i].Keys
        invariant forall k :: k in rows[i] ==>
                    row[k] == if k in pending then rows[i][k] else Nullify(rows[i][k])
        decreases pending
      {
        var k :| k in pending;
        var value := row[k];
        if IsNa(value) {
          row := row[k := Null];
        } else {
          row := row[k := value];
        }
        pending := pending - {k};
      }
      assert row == NullifyRow(rows[i]);
      out := out[i := row];
    }
  }

  /** The body of `export_DF_to_warehouse` up to the delegated
      `execute_many` call. */
  method BuildExport(df: Frame, table: string, columns: seq<string>, style: BindStyle, removeNan: bool)
    returns (call: Call)
    ensures call.ExecuteManyCall?
    ensures call.sql == InsertSql(table, columns, style)
    ensures |call.rows| == |df.rows|
    ensures forall i :: 0 <= i < |df.rows| ==> call.rows[i].Keys == df.rows[i].Keys
    ensures forall i, k :: 0 <= i < |df.rows| && k in df.rows[i] ==>
              call.rows[i][k] == (if removeNan && IsNa(df.rows[i][k]) then Null else df.rows[i][k])
  {
    var col := Join(columns, ", ");
    var binds := BuildBinds(style, columns);
    var bind := Join(binds, ", ");
    var rows := df.rows;
    if removeNan {
      rows := NullifyMissing(rows);
    }
    call := ExecuteManyCall("INSERT INTO " + table + " (" + col + ") VALUES (" + bind + ")", rows);
  }

  /** The verbatim builders put any name into the SQL text, including one
      that closes the statement and starts another. */
  lemma VerbatimNamesPassThrough()
    ensures var name := "t; DROP TABLE u";
            TruncateSql(name) == "TRUNCATE TABLE t; DROP TABLE u" &&
            DeleteSql(name) == "DELETE FROM t; DROP TABLE u" &&
            InsertSql(name, ["a"], Colon) == "INSERT INTO t; DROP TABLE u (a) VALUES (:a)"
  {
    TruncateText();
    DeleteText();
    var b := Binds(Colon, ["a"]);
    assert |b| == 1 && b[0] == Bind(Colon, "a") == ":a";
    assert Join(b, ", ") == ":a";
    assert Join(["a"], ", ") == "a";
    InsertText();
  }

  lemma TruncateText()
    ensures "TRUNCATE TABLE " + "t; DROP TABLE u" == "TRUNCATE TABLE t; DROP TABLE u"
  {
  }

  lemma DeleteText()
    ensures "DELETE FROM " + "t; DROP TABLE u" == "DELETE FROM t; DROP TABLE u"
  {
  }

  lemma InsertText()
    ensures "INSERT INTO " + "t; DROP TABLE u" + " (" + "a" + ") VALUES (" + ":a" + ")"
            == "INSERT INTO t; DROP TABLE u (a) VALUES (:a)"
  {
  }
}
