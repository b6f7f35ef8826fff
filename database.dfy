/**
 * The `Database` class of litepiesql.py: one sqlite3 connection and the four
 * operations on it. Statement text and parameters come from the Statements
 * module, result lists from the Results module; the connection is the driver
 * model of the Driver module.
 */
module LitePieSql {
  import opened Wrappers
  import opened Values
  import opened Statements
  import opened Driver
  import opened Results

  /** `delete from <table>;` */
  function ClearSql(table: string): string
  {
    "delete from " + table + ";"
  }

  /** `delete from sqlite_sequence where name='<table>';` */
  function ResetSequenceSql(table: string): string
  {
    "delete from sqlite_sequence where name='" + table + "';"
  }

  /** A non-empty batch is fetched whole: its records come next, then those of the batches after it. */
  lemma FetchedStep(names: seq<string>, batches: seq<seq<Row>>, at: nat, result: seq<Record>)
    requires at < |batches| && |batches[at]| > 0
    requires result + Records(names, Fetched(batches[at..])) == Records(names, Fetched(batches))
    ensures (result + Records(names, batches[at])) + Records(names, Fetched(batches[at + 1..]))
      == Records(names, Fetched(batches))
  {
    assert batches[at..][1..] == batches[at + 1..];
    RecordsAppend(names, batches[at], Fetched(batches[at + 1..]));
  }

  /** An empty fetch, because the batches are used up or because the next one is empty, ends the rows. */
  lemma FetchedStop(names: seq<string>, batches: seq<seq<Row>>, at: nat, result: seq<Record>)
    requires at == |batches| || (at < |batches| && |batches[at]| == 0)
    requires result + Records(names, Fetched(batches[at..])) == Records(names, Fetched(batches))
    ensures result == Records(names, Fetched(batches))
  {
    assert Fetched(batches[at..]) == [];
    assert result + Records(names, []) == result;
  }

  /** The `for row in rows: result.append(dict(izip(field_names, row)))` loop of `query`. */
  method AppendRecords(result: seq<Record>, fieldNames: seq<string>, rows: seq<Row>) returns (r: seq<Record>)
    ensures r == result + Records(fieldNames, rows)
  {
    r := result;
    for k := 0 to |rows|
      invariant r == result + Records(fieldNames, rows[..k])
    {
      assert rows[..k + 1] == rows[..k] + [rows[k]];
      RecordsAppend(fieldNames, rows[..k], [rows[k]]);
      r := r + [RowRecord(fieldNames, rows[k])];
    }
    assert rows[..|rows|] == rows;
  }

  /**
   * The `while True: rows = tc.fetchmany()` loop of `query`: appends one
   * record per row until a fetch comes back empty.
   */
  method FetchAll(tc: Cursor, fieldNames: seq<string>) returns (result: seq<Record>)
    requires tc.Valid() && tc.pos == 0
    modifies tc
    ensures result == Records(fieldNames, Fetched(tc.batches))
  {
    result := [];
    assert tc.batches[tc.pos..] == tc.batches;
    while true
      invariant tc.Valid()
      invariant result + Records(fieldNames, Fetched(tc.batches[tc.pos..]))
        == Records(fieldNames, Fetched(tc.batches))
      decreases |tc.batches| - tc.pos
    {
      ghost var at := tc.pos;
      var rows := tc.FetchMany();
      if |rows| == 0 {
        FetchedStop(fieldNames, tc.batches, at, result);
        break;
      }
      FetchedStep(fieldNames, tc.batches, at, result);
      result := AppendRecords(result, fieldNames, rows);
    }
  }

  class Database {
    const conn: Connection

    /** `Database(dbfile)`: the connection stands for `sqlite3.connect(dbfile)`. */
    constructor (script: seq<Answer>)
      ensures fresh(conn)
      ensures conn.log == [] && conn.commits == 0 && conn.script == script
    {
      conn := new Connection(script);
    }

    /**
     * `query(sql, escapeList)`: executes with the parameters only when the
     * list is non-empty, then either collects every fetched row as a record
     * (description present) or commits (no description).
     */
    method Query(sql: string, escape: Option<seq<Value>>) returns (result: seq<Record>)
      modifies conn
      ensures conn.log == old(conn.log) + [Request(sql, BindChoice(escape))]
      ensures conn.script == Advance(old(conn.script))
      ensures result == Materialise(NextAnswer(old(conn.script)))
      ensures conn.commits == old(conn.commits) + CommitsFor(NextAnswer(old(conn.script)))
    {
      var tc: Cursor;
      if escape.Some? && |escape.value| > 0 {
        tc := conn.Execute(Request(sql, escape));
      } else {
        tc := conn.Execute(Request(sql, None));
      }
      result := [];
      if tc.description.Some? && |tc.description.value| > 0 {
        result := FetchAll(tc, FieldNames(tc.description.value));
      } else {
        conn.Commit();
      }
    }

    /**
     * `insert(tablename, data)`: executes the INSERT built from `data`, then
     * `SELECT last_insert_rowid();`, and returns the id field of the first
     * row of the second result (or the Python error the lookup raises).
     */
    method Insert(table: string, data: seq<Entry>, now: int) returns (id: Result<Value, LookupError>)
      modifies conn
      ensures conn.log == old(conn.log)
        + [Request(InsertSql(table, data), BindChoice(Some(InsertParams(data, now)))),
           Request(LastRowIdSql, None)]
      ensures conn.script == Advance(Advance(old(conn.script)))
      ensures id == LastRowId(Materialise(NextAnswer(Advance(old(conn.script)))))
      ensures conn.commits == old(conn.commits)
        + CommitsFor(NextAnswer(old(conn.script))) + CommitsFor(NextAnswer(Advance(old(conn.script))))
    {
      var sql, valuelist := EncodeInsert(table, data, now);
      var _ := Query(sql, Some(valuelist));
      var rows := Query(LastRowIdSql, None);
      id := LastRowId(rows);
    }

    /** `update(tablename, data, where)`: executes the UPDATE built from `data` and `where`. */
    method Update(table: string, data: seq<Entry>, where: string, now: int)
      modifies conn
      ensures conn.log == old(conn.log)
        + [Request(UpdateSql(table, data, where), BindChoice(Some(UpdateParams(data, now))))]
      ensures conn.script == Advance(old(conn.script))
      ensures conn.commits == old(conn.commits) + CommitsFor(NextAnswer(old(conn.script)))
    {
      var sql, valuelist := EncodeUpdate(table, data, where, now);
      var _ := Query(sql, Some(valuelist));
    }

    /**
     * `truncate(tablename)`: two statements straight on a cursor, without
     * parameters and without going through `query`, so nothing is committed.
     */
    method Truncate(table: string)
      modifies conn
      ensures conn.log == old(conn.log)
        + [Request(ClearSql(table), None), Request(ResetSequenceSql(table), None)]
      ensures conn.script == Advance(Advance(old(conn.script)))
      ensures conn.commits == old(conn.commits)
    {
      var _ := conn.Execute(Request(ClearSql(table), None));
      var _ := conn.Execute(Request(ResetSequenceSql(table), None));
    }
  }
}
