/**
 * Statement building for `Database.insert` and `Database.update`: the column
 * list, the `?` placeholders, the SET assignments and the positional
 * parameters built from an ordered column-to-value mapping.
 *
 * Each SQL text is specified by a function that follows the loop of `insert`
 * or `update` in litepiesql.py one entry at a time (the functions recurse on
 * the prefix the loop has walked); the methods EncodeInsert and EncodeUpdate
 * are the loops themselves, and the lemmas say what the texts and parameter
 * lists mean.
 */
module Statements {
  import opened Text
  import opened Wrappers
  import opened Values

  /** One entry of the mapping, in the order `data.items()` yields it. */
  type Entry = (string, Value)

  /** The column names of `data`, in order. */
  function Keys(data: seq<Entry>): seq<string>
  {
    seq(|data|, i requires 0 <= i < |data| => data[i].0)
  }

  // ---------------------------------------------------------------- INSERT

  /** What `insert` binds for a value: None for `null`, the time for `now()`, the value otherwise. */
  function InsertBinding(v: Value, now: int): Value
  {
    match InsertClass(v)
    case Null => PyNone
    case Now => PyStr(IntToString(now))
    case _ => v
  }

  /**
   * `tablelist` after the loop has seen `data`: a separator is added before a
   * key only when the text built so far is non-empty.
   */
  function ColumnList(data: seq<Entry>): string
  {
    SepFold(Keys(data), ", ")
  }

  /** `valueholder` after the loop has seen `data`; its separator follows the same test on `tablelist`. */
  function HolderList(data: seq<Entry>): string
    decreases |data|
  {
    if |data| == 0 then ""
    else
      var prev := HolderList(data[..|data| - 1]);
      (if |ColumnList(data[..|data| - 1])| > 0 then prev + ", " else prev) + "?"
  }

  /** `valuelist` after the insert loop has seen `data`. */
  function InsertParams(data: seq<Entry>, now: int): (r: seq<Value>)
    ensures |r| == |data|
    decreases |data|
  {
    if |data| == 0 then []
    else InsertParams(data[..|data| - 1], now) + [InsertBinding(data[|data| - 1].1, now)]
  }

  /** The INSERT statement as `insert` passes it to `query`. */
  function InsertSql(table: string, data: seq<Entry>): string
  {
    "INSERT INTO " + table + " (" + ColumnList(data) + ") VALUES (" + HolderList(data) + ");"
  }

  /** The value test of the insert loop for one entry: `null`, then `now()`, else the value. */
  method EncodeBinding(value: Value, now: int) returns (bound: Value)
    ensures bound == InsertBinding(value, now)
  {
    var s := StrForm(value);
    if IsNullToken(s) {
      bound := PyNone;
    } else if IsNowToken(s) {
      bound := PyStr(IntToString(now));
    } else {
      bound := value;
    }
  }

  /** What turn `i` of the insert loop adds to the column list, the placeholders and the parameters. */
  lemma InsertLoopStep(data: seq<Entry>, i: nat, now: int)
    requires i < |data|
    ensures var prev := ColumnList(data[..i]);
      ColumnList(data[..i + 1]) == (if |prev| > 0 then prev + ", " else prev) + data[i].0
    ensures HolderList(data[..i + 1])
      == (if |ColumnList(data[..i])| > 0 then HolderList(data[..i]) + ", " else HolderList(data[..i])) + "?"
    ensures InsertParams(data[..i + 1], now) == InsertParams(data[..i], now) + [InsertBinding(data[i].1, now)]
  {
    assert data[..i + 1][..i] == data[..i];
    assert Keys(data[..i + 1]) == Keys(data[..i]) + [data[i].0];
    SepFoldSnoc(Keys(data[..i]), data[i].0, ", ");
  }

  /** The loop of `insert`: builds the statement and its parameters entry by entry. */
  method EncodeInsert(table: string, data: seq<Entry>, now: int) returns (sql: string, params: seq<Value>)
    ensures sql == InsertSql(table, data)
    ensures params == InsertParams(data, now)
  {
    var tablelist := "";
    var valueholder := "";
    params := [];
    for i := 0 to |data|
      invariant tablelist == ColumnList(data[..i])
      invariant valueholder == HolderList(data[..i])
      invariant params == InsertParams(data[..i], now)
    {
      InsertLoopStep(data, i, now);
      var key, value := data[i].0, data[i].1;
      if |tablelist| > 0 {
        tablelist := tablelist + ", ";
        valueholder := valueholder + ", ";
      }
      tablelist := tablelist + key;
      valueholder := valueholder + "?";
      var bound := EncodeBinding(value, now);
      params := params + [bound];
    }
    assert data[..|data|] == data;
    sql := "INSERT INTO " + table + " (" + tablelist + ") VALUES (" + valueholder + ");";
  }

  /**
   * One parameter per entry, in entry order: None when the value's string form
   * lower-cases to "null", the time's digits when it lower-cases to "now()",
   * and the value itself otherwise (an `increment(N)` included).
   */
  lemma {:induction false} InsertParamsAt(data: seq<Entry>, now: int)
    ensures |InsertParams(data, now)| == |data|
    ensures forall i :: 0 <= i < |data| ==>
      var s := StrForm(data[i].1);
      InsertParams(data, now)[i] ==
        if IsNullToken(s) then PyNone
        else if IsNowToken(s) then PyStr(IntToString(now))
        else data[i].1
    decreases |data|
  {
    if |data| > 0 {
      var prefix := data[..|data| - 1];
      InsertParamsAt(prefix, now);
      forall i | 0 <= i < |data| - 1 ensures data[i] == prefix[i] { }
    }
  }

  /** The time bound for `now()` is a string of decimal digits that reads back as the time given. */
  lemma NowBindsTimestamp(v: Value, now: int)
    requires IsNowToken(StrForm(v)) && now >= 0
    ensures InsertBinding(v, now).PyStr?
    ensures AllDigits(InsertBinding(v, now).s)
    ensures ParseNat(InsertBinding(v, now).s) == now
  {
    NullTokenIff(StrForm(v));
    NowTokenIff(StrForm(v));
    NatToStringRoundTrip(now);
  }

  /**
   * When the first column name is not empty, the column list is the names
   * joined by ", ", in mapping order (later empty names included).
   */
  lemma ColumnListJoin(data: seq<Entry>)
    requires |data| > 0 ==> data[0].0 != ""
    ensures ColumnList(data) == Join(Keys(data), ", ")
  {
    SepFoldJoin(Keys(data), ", ");
  }

  /** `n` placeholders "?". */
  function Holders(n: nat): seq<string>
  {
    seq(n, _ => "?")
  }

  /** When the first column name is not empty, the placeholder list is one "?" per entry joined by ", ". */
  lemma {:induction false} HolderListJoin(data: seq<Entry>)
    requires |data| > 0 ==> data[0].0 != ""
    ensures HolderList(data) == Join(Holders(|data|), ", ")
    decreases |data|
  {
    if |data| > 0 {
      var prefix := data[..|data| - 1];
      if |prefix| > 0 {
        assert prefix[0] == data[0];
      }
      HolderListJoin(prefix);
      assert Holders(|data|) == Holders(|prefix|) + ["?"];
      if |prefix| > 0 {
        JoinSnoc(Holders(|prefix|), "?", ", ");
        SepFoldJoin(Keys(prefix), ", ");
      }
    }
  }

  /** Whatever the names, the placeholder list holds exactly one "?" per entry, so as many as parameters. */
  lemma {:induction false} HolderCount(data: seq<Entry>, now: int)
    ensures CountChar('?', HolderList(data)) == |data|
    ensures CountChar('?', HolderList(data)) == |InsertParams(data, now)|
    decreases |data|
  {
    if |data| > 0 {
      var prefix := data[..|data| - 1];
      HolderCount(prefix, now);
      var prev := HolderList(prefix);
      var sep := if |ColumnList(prefix)| > 0 then prev + ", " else prev;
      CountCharConcat('?', sep, "?");
      CountCharConcat('?', prev, ", ");
    }
    InsertParamsAt(data, now);
  }

  /** An empty mapping is not rejected: it yields empty lists and no parameter. */
  lemma InsertEmpty(table: string, now: int)
    ensures InsertSql(table, []) == "INSERT INTO " + table + " () VALUES ();"
    ensures InsertParams([], now) == []
  {
  }

  /** The usual case: a string and an integer column. */
  const UsersData: seq<Entry> := [("name", PyStr("Alice")), ("age", PyInt(30))]

  lemma InsertExampleLists()
    ensures ColumnList(UsersData) == "name, age"
    ensures HolderList(UsersData) == "?, ?"
  {
    ColumnListJoin(UsersData);
    HolderListJoin(UsersData);
    assert Keys(UsersData) == ["name", "age"];
    assert Holders(2) == ["?", "?"];
    assert ["name", "age"][1..] == ["age"] && ["?", "?"][1..] == ["?"];
  }

  /** `{name: "Alice", age: 30}` gives the statement below. */
  lemma InsertExample()
    ensures InsertSql("users", UsersData) == "INSERT INTO users (name, age) VALUES (?, ?);"
  {
    InsertExampleLists();
  }

  /** ... bound to the two values as they are. */
  lemma InsertExampleParams()
    ensures InsertParams(UsersData, 0) == [PyStr("Alice"), PyInt(30)]
  {
    InsertParamsAt(UsersData, 0);
    IntegerIsLiteral(30);
  }

  /**
   * The separator before a key is dropped exactly when every earlier key is
   * empty, since the test is on the column text built so far: a leading empty
   * name leaves no trace in the column list and no separator in the placeholders.
   */
  const EmptyNameData: seq<Entry> := [("", PyInt(1)), ("a", PyInt(2))]

  lemma InsertEmptyNameExample()
    ensures ColumnList(EmptyNameData) == "a"
    ensures HolderList(EmptyNameData) == "??"
  {
    var data := EmptyNameData;
    assert data[..1] == [("", PyInt(1))] && data[..1][..0] == [];
    assert Keys(data[..1]) == [] + [""];
    assert Keys(data) == [""] + ["a"];
    SepFoldSnoc([], "", ", ");
    SepFoldSnoc([""], "a", ", ");
    assert ColumnList(data[..1]) == "";
    assert HolderList(data[..1]) == "?";
  }

  /** An empty name after a non-empty one is joined like any other. */
  const LaterEmptyNameData: seq<Entry> := [("a", PyInt(1)), ("", PyInt(2)), ("b", PyInt(3))]

  lemma InsertLaterEmptyNameExample()
    ensures ColumnList(LaterEmptyNameData) == "a, , b"
    ensures HolderList(LaterEmptyNameData) == "?, ?, ?"
  {
    var data := LaterEmptyNameData;
    ColumnListJoin(data);
    HolderListJoin(data);
    var keys := Keys(data);
    assert keys == ["a", "", "b"] && keys[1..] == ["", "b"] && keys[1..][1..] == ["b"];
    var holders := Holders(3);
    assert holders == ["?", "?", "?"] && holders[1..] == ["?", "?"] && holders[1..][1..] == ["?"];
  }

  // ---------------------------------------------------------------- UPDATE

  /** The assignment `update` writes for one column. */
  function AssignmentOf(key: string, c: ColumnValue): string
  {
    match c
    case Increment(d) => key + "=" + key + "+" + d
    case _ => key + "=?"
  }

  /** The assignments of `data`, one per entry, in order. */
  function Assignments(data: seq<Entry>): seq<string>
  {
    seq(|data|, i requires 0 <= i < |data| => AssignmentOf(data[i].0, UpdateClass(data[i].1)))
  }

  /** `updatelist` after the loop has seen `data`. */
  function AssignmentList(data: seq<Entry>): string
  {
    SepFold(Assignments(data), ", ")
  }

  /** What one entry adds to `valuelist`: nothing for an increment, one value otherwise. */
  function UpdateBinding(v: Value, now: int): seq<Value>
  {
    match UpdateClass(v)
    case Null => [PyNone]
    case Increment(_) => []
    case Now => [PyStr(IntToString(now))]
    case Literal(x) => [x]
  }

  /** `valuelist` after the update loop has seen `data`. */
  function UpdateParams(data: seq<Entry>, now: int): seq<Value>
    decreases |data|
  {
    if |data| == 0 then []
    else UpdateParams(data[..|data| - 1], now) + UpdateBinding(data[|data| - 1].1, now)
  }

  /** One more turn of the update loop on the SET list. */
  lemma AssignmentListSnoc(data: seq<Entry>)
    requires |data| > 0
    ensures var prev := AssignmentList(data[..|data| - 1]);
      AssignmentList(data)
        == (if |prev| > 0 then prev + ", " else prev) + AssignmentOf(data[|data| - 1].0, UpdateClass(data[|data| - 1].1))
  {
    var prefix := data[..|data| - 1];
    var a := AssignmentOf(data[|data| - 1].0, UpdateClass(data[|data| - 1].1));
    assert Assignments(data) == Assignments(prefix) + [a];
    SepFoldSnoc(Assignments(prefix), a, ", ");
  }

  /** The UPDATE statement as `update` passes it to `query`; `where` is inserted verbatim. */
  function UpdateSql(table: string, data: seq<Entry>, where: string): string
  {
    "UPDATE " + table + " SET " + AssignmentList(data) + " WHERE " + where + ";"
  }

  /** What turn `i` of the update loop adds to the SET list and to the parameters. */
  lemma UpdateLoopStep(data: seq<Entry>, i: nat, now: int)
    requires i < |data|
    ensures var prev := AssignmentList(data[..i]);
      AssignmentList(data[..i + 1])
        == (if |prev| > 0 then prev + ", " else prev) + AssignmentOf(data[i].0, UpdateClass(data[i].1))
    ensures UpdateParams(data[..i + 1], now) == UpdateParams(data[..i], now) + UpdateBinding(data[i].1, now)
  {
    assert data[..i + 1][..i] == data[..i];
    AssignmentListSnoc(data[..i + 1]);
  }

  /** The body of the update loop for one entry: its assignment and the values it binds. */
  method EncodeAssignment(key: string, value: Value, now: int) returns (assignment: string, bound: seq<Value>)
    ensures assignment == AssignmentOf(key, UpdateClass(value))
    ensures bound == UpdateBinding(value, now)
  {
    var s := StrForm(value);
    var increment := IncrementArg(s);
    if IsNullToken(s) {
      assignment, bound := key + "=?", [PyNone];
    } else if increment.Some? {
      assignment, bound := key + "=" + key + "+" + increment.value, [];
    } else if IsNowToken(s) {
      assignment, bound := key + "=?", [PyStr(IntToString(now))];
    } else {
      assignment, bound := key + "=?", [value];
    }
  }

  /** The loop of `update`: builds the statement and its parameters entry by entry. */
  method EncodeUpdate(table: string, data: seq<Entry>, where: string, now: int)
    returns (sql: string, params: seq<Value>)
    ensures sql == UpdateSql(table, data, where)
    ensures params == UpdateParams(data, now)
  {
    var updatelist := "";
    params := [];
    for i := 0 to |data|
      invariant updatelist == AssignmentList(data[..i])
      invariant params == UpdateParams(data[..i], now)
    {
      UpdateLoopStep(data, i, now);
      var key, value := data[i].0, data[i].1;
      if |updatelist| > 0 {
        updatelist := updatelist + ", ";
      }
      var assignment, bound := EncodeAssignment(key, value, now);
      updatelist := updatelist + assignment;
      params := params + bound;
    }
    assert data[..|data|] == data;
    sql := "UPDATE " + table + " SET " + updatelist + " WHERE " + where + ";";
  }

  /** The SET list is the assignments joined by ", ", in mapping order, whatever the names. */
  lemma AssignmentListJoin(data: seq<Entry>)
    ensures AssignmentList(data) == Join(Assignments(data), ", ")
  {
    var parts := Assignments(data);
    forall i | 0 <= i < |parts| ensures parts[i] != "" {
      assert |parts[i]| >= 2;
    }
    SepFoldJoin(parts, ", ");
  }

  /** A column is written `key=key+N` exactly when its value matches `increment(N)`. */
  lemma UpdateAssignmentIncrement(key: string, v: Value, d: string)
    ensures AssignmentOf(key, UpdateClass(v)) == key + "=" + key + "+" + d
      <==> IncrementArg(StrForm(v)) == Some(d)
  {
    UpdateIncrementIff(v, d);
    var a := AssignmentOf(key, UpdateClass(v));
    var p := key + "=" + key + "+";
    if UpdateClass(v).Increment? {
      var d' := UpdateClass(v).delta;
      assert a == p + d';
      assert (p + d')[|p|..] == d' && (p + d)[|p|..] == d;
    } else {
      PlaceholderIsNotIncrement(key, d);
    }
  }

  lemma PlaceholderIsNotIncrement(key: string, d: string)
    ensures key + "=?" != key + "=" + key + "+" + d
  {
    var a, b := key + "=?", key + "=" + key + "+" + d;
    if |key| == 0 && |d| == 0 {
      assert a[1] == '?' && b[1] == '+';
    } else {
      assert |a| != |b|;
    }
  }

  /** Every other column is written `key=?`. */
  lemma UpdateAssignmentPlaceholder(key: string, v: Value)
    ensures AssignmentOf(key, UpdateClass(v)) == key + "=?" <==> IncrementArg(StrForm(v)).None?
  {
    match UpdateClass(v)
    case Increment(d) =>
      UpdateIncrementIff(v, d);
      assert |d| > 0;
    case _ =>
  }

  /** The entries whose value is not an increment, in order. */
  function NonIncrement(data: seq<Entry>): seq<Entry>
    decreases |data|
  {
    if |data| == 0 then []
    else
      NonIncrement(data[..|data| - 1])
        + (if UpdateClass(data[|data| - 1].1).Increment? then [] else [data[|data| - 1]])
  }

  /**
   * The parameters of `update` are those `insert` would bind for the
   * non-increment columns alone: one per such column, in column order.
   */
  lemma {:induction false} UpdateParamsAreInsertParams(data: seq<Entry>, now: int)
    ensures UpdateParams(data, now) == InsertParams(NonIncrement(data), now)
    ensures |UpdateParams(data, now)| == |NonIncrement(data)|
    decreases |data|
  {
    if |data| > 0 {
      var prefix := data[..|data| - 1];
      var e := data[|data| - 1];
      UpdateParamsAreInsertParams(prefix, now);
      UpdateAgreesWithInsert(e.1);
      var kept := NonIncrement(prefix);
      if !UpdateClass(e.1).Increment? {
        assert NonIncrement(data) == kept + [e];
        assert UpdateBinding(e.1, now) == [InsertBinding(e.1, now)];
        assert (kept + [e])[..|kept|] == kept;
        assert InsertParams(kept + [e], now) == InsertParams(kept, now) + [InsertBinding(e.1, now)];
      } else {
        assert NonIncrement(data) == kept;
      }
    }
  }

  /**
   * When no column name contains '?', the SET list holds exactly one '?' per
   * bound parameter.
   */
  lemma {:induction false} UpdateHolderCount(data: seq<Entry>, now: int)
    requires forall i :: 0 <= i < |data| ==> '?' !in data[i].0
    ensures CountChar('?', AssignmentList(data)) == |UpdateParams(data, now)|
    decreases |data|
  {
    if |data| > 0 {
      var prefix := data[..|data| - 1];
      var e := data[|data| - 1];
      UpdateHolderCount(prefix, now);
      AssignmentListSnoc(data);
      var prev := AssignmentList(prefix);
      var sep := if |prev| > 0 then prev + ", " else prev;
      CountCharConcat('?', prev, ", ");
      CountCharConcat('?', sep, AssignmentOf(e.0, UpdateClass(e.1)));
      AssignmentHolderCount(e.0, e.1, now);
    }
  }

  /** One assignment holds as many '?' as the values its entry binds: none for an increment, one otherwise. */
  lemma AssignmentHolderCount(key: string, v: Value, now: int)
    requires '?' !in key
    ensures CountChar('?', AssignmentOf(key, UpdateClass(v))) == |UpdateBinding(v, now)|
  {
    var c := UpdateClass(v);
    if c.Increment? {
      UpdateIncrementIff(v, c.delta);
      IncrementArgSound(StrForm(v));
      NumeralHasNoPlaceholder(c.delta);
    }
    AssignmentShapeCount(key, c);
  }

  /** `key=?` holds one '?'; `key=key+N` holds none when neither `key` nor `N` does. */
  lemma AssignmentShapeCount(key: string, c: ColumnValue)
    requires '?' !in key
    requires c.Increment? ==> '?' !in c.delta
    ensures CountChar('?', AssignmentOf(key, c)) == if c.Increment? then 0 else 1
  {
    CountCharAbsent('?', key);
    if c.Increment? {
      var d := c.delta;
      CountCharAbsent('?', d);
      CountCharConcat('?', key, "=");
      CountCharConcat('?', key + "=", key);
      CountCharConcat('?', key + "=" + key, "+");
      CountCharConcat('?', key + "=" + key + "+", d);
    } else {
      CountCharConcat('?', key, "=?");
    }
  }

  lemma NumeralHasNoPlaceholder(d: string)
    requires IsSignedNumeral(d)
    ensures '?' !in d
  {
    forall i | 0 <= i < |d| ensures d[i] != '?' {
      if d[0] == '-' && i > 0 {
        assert d[1..][i - 1] == d[i];
      }
    }
  }

  /** Incrementing by one, as a caller writes it. */
  const StepData: seq<Entry> := [("age", PyStr("increment(1)"))]

  lemma StepDataBindsNothing()
    ensures UpdateClass(StepData[0].1) == Increment("1")
    ensures UpdateParams(StepData, 0) == []
  {
    IncrementArgComplete("1");
    assert "increment(1)" == IncrementPrefix + "1" + ")";
    assert StepData[..0] == [];
  }

  lemma UpdateIncrementExample()
    ensures UpdateSql("users", StepData, "id=1") == "UPDATE users SET age=age+1 WHERE id=1;"
  {
    StepDataBindsNothing();
    AssignmentListSnoc(StepData);
    assert StepData[..0] == [];
    assert AssignmentList(StepData) == "age" + "=" + "age" + "+" + "1";
  }

  /** Three columns: a plain value, a negative increment and `now()`. */
  const MixedData: seq<Entry> :=
    [("name", PyStr("Bob")), ("age", PyStr("increment(-3)")), ("seen", PyStr("now()"))]

  lemma MixedDataClasses()
    ensures UpdateClass(MixedData[0].1) == Literal(PyStr("Bob"))
    ensures UpdateClass(MixedData[1].1) == Increment("-3")
    ensures UpdateClass(MixedData[2].1) == Now
  {
    IncrementArgComplete("-3");
    assert "increment(-3)" == IncrementPrefix + "-3" + ")";
    assert IncrementArg("Bob") == None;
    assert IncrementArg("now()") == None;
  }

  lemma MixedAssignments()
    ensures Assignments(MixedData) == ["name=?", "age=age+-3", "seen=?"]
  {
    MixedDataClasses();
    var a := Assignments(MixedData);
    assert a[0] == "name" + "=?";
    assert a[1] == "age" + "=" + "age" + "+" + "-3";
    assert a[2] == "seen" + "=?";
    assert "name" + "=?" == "name=?";
    assert "age" + "=" + "age" + "+" + "-3" == "age=age+-3";
    assert "seen" + "=?" == "seen=?";
  }

  lemma MixedJoin()
    ensures SepFold(["name=?", "age=age+-3", "seen=?"], ", ") == "name=?, age=age+-3, seen=?"
  {
    var parts := ["name=?", "age=age+-3", "seen=?"];
    SepFoldJoin(parts, ", ");
    assert parts[1..] == ["age=age+-3", "seen=?"] && parts[1..][1..] == ["seen=?"];
    assert Join(parts[1..], ", ") == "age=age+-3, seen=?";
  }

  /** A negative step keeps its sign after the '+'. */
  lemma UpdateMixedExample()
    ensures AssignmentList(MixedData) == "name=?, age=age+-3, seen=?"
  {
    MixedAssignments();
    MixedJoin();
  }

  /** The other columns still bind in order: the plain value, then the time. */
  lemma UpdateMixedParams()
    ensures UpdateParams(MixedData, 7) == [PyStr("Bob"), PyStr("7")]
  {
    MixedDataClasses();
    var data := MixedData;
    assert data[..2][..1] == data[..1] && data[..1][..0] == [];
    assert UpdateParams(data[..1], 7) == [PyStr("Bob")];
    assert UpdateParams(data[..2], 7) == [PyStr("Bob")];
    assert IntToString(7) == "7";
  }
}
