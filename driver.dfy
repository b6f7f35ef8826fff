/**
 * The sqlite3 connection and cursor, seen from outside: the wrapper hands SQL
 * text (with or without parameters) to the driver, reads back a column
 * description and rows in `fetchmany` batches, and commits. The driver's own
 * behaviour is a script given up front: the answer to each execution in turn.
 */
module Driver {
  import opened Wrappers
  import opened Values

  /** One fetched row, its values in column order. */
  type Row = seq<Value>

  /** One call of `cursor.execute`: the SQL text and, when given, the parameters. */
  datatype Request = Request(sql: string, params: Option<seq<Value>>)

  /**
   * What the database returns for one execution: `cursor.description` as the
   * column names (None for a statement that returns no rows) and the batches
   * successive `fetchmany` calls return.
   */
  datatype Answer = Answer(description: Option<seq<string>>, batches: seq<seq<Row>>)

  /** The answer to the next execution; once the script is used up, no description and no rows. */
  function NextAnswer(script: seq<Answer>): Answer
  {
    if |script| > 0 then script[0] else Answer(None, [])
  }

  /** The script after one execution. */
  function Advance(script: seq<Answer>): seq<Answer>
  {
    if |script| > 0 then script[1..] else []
  }

  /** A cursor after `execute`: its description and the batches still to be fetched. */
  class Cursor {
    const description: Option<seq<string>>
    const batches: seq<seq<Row>>
    var pos: nat

    ghost predicate Valid()
      reads this
    {
      pos <= |batches|
    }

    constructor (a: Answer)
      ensures Valid()
      ensures description == a.description && batches == a.batches && pos == 0
    {
      description := a.description;
      batches := a.batches;
      pos := 0;
    }

    /** `cursor.fetchmany()`: the next batch, or an empty list once all are fetched. */
    method FetchMany() returns (rows: seq<Row>)
      requires Valid()
      modifies this
      ensures Valid()
      ensures old(pos) < |batches| ==> rows == batches[old(pos)] && pos == old(pos) + 1
      ensures old(pos) == |batches| ==> rows == [] && pos == old(pos)
    {
      if pos < |batches| {
        rows := batches[pos];
        pos := pos + 1;
      } else {
        rows := [];
      }
    }
  }

  /** The connection: every statement it executed, how often it committed, and what it will answer next. */
  class Connection {
    var log: seq<Request>
    var commits: nat
    var script: seq<Answer>

    constructor (script: seq<Answer>)
      ensures log == [] && commits == 0 && this.script == script
    {
      log := [];
      commits := 0;
      this.script := script;
    }

    /** Opens a cursor and executes one statement on it. */
    method Execute(r: Request) returns (c: Cursor)
      modifies this
      ensures fresh(c) && c.Valid() && c.pos == 0
      ensures c.description == NextAnswer(old(script)).description
      ensures c.batches == NextAnswer(old(script)).batches
      ensures log == old(log) + [r]
      ensures commits == old(commits)
      ensures script == Advance(old(script))
    {
      c := new Cursor(NextAnswer(script));
      log := log + [r];
      script := Advance(script);
    }

    /** `conn.commit()`. */
    method Commit()
      modifies this
      ensures log == old(log) && script == old(script)
      ensures commits == old(commits) + 1
    {
      commits := commits + 1;
    }
  }
}
