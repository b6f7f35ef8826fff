/**
 * The value-level part of `Database.query`: whether parameters are bound,
 * how a description and fetched rows become a list of dictionaries keyed by
 * lower-cased field name, when a commit happens, and how `insert` reads the
 * new row id out of the result of `SELECT last_insert_rowid();`.
 */
module Results {
  import opened Text
  import opened Wrappers
  import opened Values
  import opened Driver

  /** One result row: field name to value (a Python dict, so without an order). */
  type Record = map<string, Value>

  function Min(a: nat, b: nat): nat
  {
    if a <= b then a else b
  }

  /** `if(escapeList)`: parameters are bound only when a non-empty list is given. */
  function BindChoice(escape: Option<seq<Value>>): Option<seq<Value>>
  {
    if escape.Some? && |escape.value| > 0 then escape else None
  }

  /** Parameters reach the driver exactly when the list is present and non-empty, and then unchanged. */
  lemma BindChoiceIff(escape: Option<seq<Value>>)
    ensures BindChoice(escape).Some? <==> escape.Some? && escape.value != []
    ensures BindChoice(escape).Some? ==> BindChoice(escape) == escape
  {
  }

  /** `if(tc.description)`: present and non-empty. */
  predicate HasDescription(description: Option<seq<string>>)
  {
    description.Some? && |description.value| > 0
  }

  /** `[d[0].lower() for d in tc.description]` */
  function FieldNames(description: seq<string>): seq<string>
  {
    seq(|description|, i requires 0 <= i < |description| => Lower(description[i]))
  }

  /**
   * `dict(izip(names, row))`: pairs are taken up to the shorter of the two
   * lists, and a name that comes twice keeps the later value.
   */
  function RowRecord(names: seq<string>, row: Row): Record
    decreases |names|
  {
    var n := Min(|names|, |row|);
    if n == 0 then map[] else RowRecord(names[..n - 1], row[..n - 1])[names[n - 1] := row[n - 1]]
  }

  /** The keys of a record are the field names paired with a value. */
  lemma {:induction false} RowRecordKeys(names: seq<string>, row: Row)
    ensures RowRecord(names, row).Keys == set i | 0 <= i < Min(|names|, |row|) :: names[i]
    decreases |names|
  {
    var n := Min(|names|, |row|);
    if n > 0 {
      RowRecordKeys(names[..n - 1], row[..n - 1]);
      var s := set i | 0 <= i < n :: names[i];
      var pre := names[..n - 1];
      var s' := set i | 0 <= i < n - 1 :: pre[i];
      assert s == s' + {names[n - 1]} by {
        forall x | x in s ensures x in s' + {names[n - 1]} {
          var i :| 0 <= i < n && names[i] == x;
          if i < n - 1 {
            assert pre[i] == x;
          }
        }
      }
    }
  }

  /** A field whose name is not repeated further right holds the row's value at its position. */
  lemma {:induction false} RowRecordValue(names: seq<string>, row: Row, j: nat)
    requires j < Min(|names|, |row|)
    requires forall k :: j < k < Min(|names|, |row|) ==> names[k] != names[j]
    ensures names[j] in RowRecord(names, row)
    ensures RowRecord(names, row)[names[j]] == row[j]
    decreases |names|
  {
    var n := Min(|names|, |row|);
    if j < n - 1 {
      RowRecordValue(names[..n - 1], row[..n - 1], j);
    }
  }

  /** Every key of a materialised row is lower-case. */
  lemma RecordKeysLowerCase(description: seq<string>, row: Row)
    ensures forall k :: k in RowRecord(FieldNames(description), row) ==> IsLowerCase(k)
  {
    var names := FieldNames(description);
    RowRecordKeys(names, row);
    forall k | k in RowRecord(names, row) ensures IsLowerCase(k) {
      var i :| 0 <= i < Min(|names|, |row|) && names[i] == k;
      LowerIsLowerCase(description[i]);
    }
  }

  /** All rows of all batches, in order. */
  function Flatten(batches: seq<seq<Row>>): seq<Row>
    decreases |batches|
  {
    if |batches| == 0 then [] else batches[0] + Flatten(batches[1..])
  }

  /** The rows the `while True: rows = tc.fetchmany()` loop collects: it stops at the first empty batch. */
  function Fetched(batches: seq<seq<Row>>): seq<Row>
    decreases |batches|
  {
    if |batches| == 0 || |batches[0]| == 0 then [] else batches[0] + Fetched(batches[1..])
  }

  /** `k` is the index of the first empty batch, or the number of batches when none is empty. */
  predicate FirstEmptyAt(batches: seq<seq<Row>>, k: nat)
  {
    k <= |batches|
    && (forall j :: 0 <= j < k ==> |batches[j]| > 0)
    && (k < |batches| ==> |batches[k]| == 0)
  }

  /** The loop reads every row of the batches before the first empty one, in fetch order, and nothing after. */
  lemma {:induction false} FetchedUntilEmpty(batches: seq<seq<Row>>, k: nat)
    requires FirstEmptyAt(batches, k)
    ensures Fetched(batches) == Flatten(batches[..k])
    decreases k
  {
    if k > 0 {
      FetchedUntilEmpty(batches[1..], k - 1);
      assert batches[..k][1..] == batches[1..][..k - 1];
    }
  }

  /** One record per fetched row. */
  function Records(names: seq<string>, rows: seq<Row>): seq<Record>
  {
    seq(|rows|, i requires 0 <= i < |rows| => RowRecord(names, rows[i]))
  }

  lemma RecordsAppend(names: seq<string>, a: seq<Row>, b: seq<Row>)
    ensures Records(names, a + b) == Records(names, a) + Records(names, b)
  {
  }

  /** The list `query` returns for an answer: the rows when there is a description, nothing otherwise. */
  function Materialise(a: Answer): seq<Record>
  {
    if HasDescription(a.description)
    then Records(FieldNames(a.description.value), Fetched(a.batches))
    else []
  }

  /** `query` commits exactly when the statement has no description. */
  function CommitsFor(a: Answer): nat
  {
    if HasDescription(a.description) then 0 else 1
  }

  /**
   * With a description, `query` returns one dictionary per row of the batches
   * before the first empty one, in fetch order; with no row at all, none.
   */
  lemma MaterialiseRows(a: Answer, k: nat)
    requires HasDescription(a.description) && FirstEmptyAt(a.batches, k)
    ensures Materialise(a) == Records(FieldNames(a.description.value), Flatten(a.batches[..k]))
    ensures |Materialise(a)| == |Flatten(a.batches[..k])|
  {
    FetchedUntilEmpty(a.batches, k);
  }

  /**
   * With a description, `query` returns one dictionary per row fetched, in
   * fetch order; in row `i` the lower-cased name of field `j` maps to the
   * row's `j`-th value unless a later field lower-cases to the same name.
   */
  lemma MaterialiseField(a: Answer, k: nat, i: nat, j: nat)
    requires HasDescription(a.description) && FirstEmptyAt(a.batches, k)
    requires i < |Flatten(a.batches[..k])|
    requires j < |a.description.value| && j < |Flatten(a.batches[..k])[i]|
    requires forall m :: j < m < Min(|a.description.value|, |Flatten(a.batches[..k])[i]|) ==>
      Lower(a.description.value[m]) != Lower(a.description.value[j])
    ensures |Materialise(a)| == |Flatten(a.batches[..k])|
    ensures Lower(a.description.value[j]) in Materialise(a)[i]
    ensures Materialise(a)[i][Lower(a.description.value[j])] == Flatten(a.batches[..k])[i][j]
  {
    FetchedUntilEmpty(a.batches, k);
    var names := FieldNames(a.description.value);
    RowRecordValue(names, Flatten(a.batches[..k])[i], j);
  }

  /** Without a description, `query` returns nothing and commits once. */
  lemma MaterialiseNoDescription(a: Answer)
    requires !HasDescription(a.description)
    ensures Materialise(a) == [] && CommitsFor(a) == 1
  {
  }

  // ------------------------------------------------- the new row id of insert

  /** The Python exception `query(...)[0]['last_insert_rowid()']` raises. */
  datatype LookupError = IndexError | KeyError

  const LastRowIdSql: string := "SELECT last_insert_rowid();"
  const LastRowIdKey: string := "last_insert_rowid()"

  /** `result[0]['last_insert_rowid()']` */
  function LastRowId(result: seq<Record>): Result<Value, LookupError>
  {
    if |result| == 0 then Failure(IndexError)
    else if LastRowIdKey in result[0] then Success(result[0][LastRowIdKey])
    else Failure(KeyError)
  }

  /** The id is the first value of the first row when the single field lower-cases to the expected name. */
  lemma LastRowIdFound(name: string, x: Value, rest: seq<Row>, more: seq<seq<Row>>)
    requires Lower(name) == LastRowIdKey
    ensures LastRowId(Materialise(Answer(Some([name]), [[[x]] + rest] + more))) == Success(x)
  {
    var a := Answer(Some([name]), [[[x]] + rest] + more);
    assert Fetched(a.batches) == [[x]] + rest + Fetched(a.batches[1..]);
    var names := FieldNames([name]);
    assert names == [LastRowIdKey];
    assert RowRecord(names, [x]) == map[LastRowIdKey := x] by {
      assert names[..0] == [] && [x][..0] == [];
    }
  }

  /** No row fetched (or no description) is an IndexError. */
  lemma LastRowIdMissing(a: Answer)
    requires !HasDescription(a.description) || a.batches == [] || a.batches[0] == []
    ensures LastRowId(Materialise(a)) == Failure(IndexError)
  {
  }
}
