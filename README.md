# LitePieSQL statement building, modelled in Dafny

LitePieSQL (`litepiesql.py`) is a thin wrapper over a Python `sqlite3`
connection. Its `Database` class has four operations:

- `insert(tablename, data)` builds `INSERT INTO t (cols) VALUES (?, ...);` from a column-to-value mapping, executes it, then reads back `last_insert_rowid()`;
- `update(tablename, data, where)` builds `UPDATE t SET ... WHERE where;`;
- `query(sql, escapeList)` executes a statement and either collects the result rows as dictionaries or commits;
- `truncate(tablename)` deletes every row and resets the table's autoincrement counter.

Values in `data` use a small sentinel language, read from the value's
string form `str(value)`:

- `null` in any case binds SQL NULL;
- `now()` in any case binds the current time in seconds, as a string;
- in `update` only, `increment(N)` (exact case) becomes the inline assignment `key=key+N`.

The model has seven modules:

| module | file | contents |
|---|---|---|
| `Wrappers` | wrappers.dfy | `Option`, `Result` |
| `Text` | text.dfy | joining with a separator, ASCII lower-casing, character counts, `str(int)` and its inverse |
| `Values` | values.dfy | the Python values (`PyNone`, `PyInt`, `PyStr`, `PyObject`), `str()` of them, the `null` / `now()` tests, the `increment(N)` regular expression, and the order in which `insert` and `update` classify a value |
| `Statements` | statements.dfy | the SQL text and parameter list of `insert` and `update` as functions over the mapping, the two building loops as methods proved against them, and lemmas about what the text means |
| `Driver` | driver.dfy | the sqlite3 connection and cursor: a log of executed statements, a commit counter, and a script of answers (a description and `fetchmany` batches) |
| `Results` | results.dfy | parameter binding choice, rows into dictionaries keyed by lower-cased field name, the fetch loop's result, the row-id lookup |
| `LitePieSql` | database.dfy | the `Database` class with `Query`, `Insert`, `Update`, `Truncate`, and the `truncate` statements |

The mapping `data` is a `seq<(string, Value)>` in the order `data.items()`
yields it. The clock is an integer parameter `now`. The database is a
`Connection` object. It records each `execute` call as a `Request(sql,
params)`, counts the commits, and answers each execution with the next
`Answer` of a script given at construction.

Points where the code is followed to the letter:

- `insert` puts `", "` before a key only when the column text built so far is non-empty, and it applies the same test to the placeholder text. The separator before a key is therefore dropped exactly when every earlier key is empty: `Statements.InsertEmptyNameExample` shows `(a)` and `(??)` for a leading empty name. Once the first name is non-empty, both lists are plain joins, later empty names included.
- `insert` evaluates the `increment` regular expression and never uses the result, so `increment(N)` is bound unchanged there.
- The `increment` pattern is matched without MULTILINE, so `$` also matches before one final newline: `"increment(5)\n"` counts as an increment of `5`. `\d` is the ASCII digit class, as in Python 2, which the code targets (`itertools.izip`).
- `update` tests `null` first, then `increment`, then `now()`. `N` is copied as text, so `increment(-3)` gives `age=age+-3`.
- `query` binds parameters only for a non-empty list. An `insert` with an empty mapping, or an `update` whose columns are all increments, therefore executes its SQL without parameters.
- The `fetchmany` loop stops at the first empty batch.
- `truncate` calls `execute` on a cursor directly, not through `query`, so it commits nothing.
- An empty mapping is not rejected: it yields `INSERT INTO t () VALUES ();` (`Statements.InsertEmpty`).
- The placeholder is always `?`.
- Every statement ends in `;`.
- The truncate statements are lower case.
- A result row is a Python 2 dict, so it has no key order.

## Model

| member | source | states |
|---|---|---|
| `Statements.EncodeBinding` | litepiesql.py:64-69 | the value test of one insert turn binds what the insert classification prescribes |
| `Statements.InsertLoopStep` | litepiesql.py:51-69 | one insert turn adds ", " before the key and the '?' exactly when the column text so far is non-empty, and one parameter |
| `Statements.EncodeInsert` | litepiesql.py:46-73 | the insert loop yields exactly the INSERT text over the column list and placeholder list, and one parameter per entry |
| `Statements.InsertParams` | litepiesql.py:48-69 | the insert parameter list holds one entry per mapping entry |
| `Statements.InsertParamsAt` | litepiesql.py:62-69 | one parameter per entry, in entry order: None for a lower-cased `null`, the time's digits for a lower-cased `now()`, otherwise the value itself, `increment(N)` included |
| `Statements.NowBindsTimestamp` | litepiesql.py:66-67 | for a non-negative time, the value bound for `now()` is a digit string that reads back as that time |
| `Statements.ColumnListJoin` | litepiesql.py:50-56 | when the first name is non-empty, the column list is the names joined by ", " in mapping order |
| `Statements.HolderListJoin` | litepiesql.py:50-59 | when the first name is non-empty, the placeholder list is one "?" per entry, joined by ", " |
| `Statements.HolderCount` | litepiesql.py:51-69 | for any names, the placeholder list holds exactly one '?' per entry, which is the number of parameters |
| `Statements.InsertEmpty` | litepiesql.py:46-73 | an empty mapping gives `INSERT INTO t () VALUES ();` and no parameter |
| `Statements.InsertExampleLists` | litepiesql.py:50-59 | `{name: "Alice", age: 30}` gives the column list `name, age` and the placeholders `?, ?` |
| `Statements.InsertExample` | litepiesql.py:50-73 | `{name: "Alice", age: 30}` gives `INSERT INTO users (name, age) VALUES (?, ?);` |
| `Statements.InsertExampleParams` | litepiesql.py:62-69 | the same mapping is bound to `["Alice", 30]`, the values as they are |
| `Statements.InsertEmptyNameExample` | litepiesql.py:51-59 | an empty key adds no separator to either list, so the lists are `a` and `??` |
| `Statements.InsertLaterEmptyNameExample` | litepiesql.py:51-59 | an empty key after a non-empty one still gets its separator: the lists are `a, , b` and `?, ?, ?` |
| `Statements.EncodeAssignment` | litepiesql.py:149-161 | one update turn writes the assignment and binds the values the update classification prescribes: none for an increment, one otherwise |
| `Statements.AssignmentListSnoc` | litepiesql.py:145-161 | one more entry adds ", " when the SET text so far is non-empty, then the entry's assignment |
| `Statements.UpdateLoopStep` | litepiesql.py:144-161 | turn `i` of the update loop extends the SET list and the parameters by entry `i`'s assignment and binding |
| `Statements.EncodeUpdate` | litepiesql.py:138-163 | the update loop yields exactly the UPDATE text with the where clause verbatim, and the parameters of the non-increment columns |
| `Statements.AssignmentListJoin` | litepiesql.py:144-161 | the SET list is the per-column assignments joined by ", " in mapping order, for any names |
| `Statements.UpdateAssignmentIncrement` | litepiesql.py:149-155 | a column is written `key=key+N` exactly when its value's string matches `increment(N)` |
| `Statements.UpdateAssignmentPlaceholder` | litepiesql.py:151-161 | a column is written `key=?` exactly when its value does not match `increment(N)` |
| `Statements.PlaceholderIsNotIncrement` | litepiesql.py:152-155 | the `key=?` and `key=key+N` forms never coincide |
| `Statements.UpdateParamsAreInsertParams` | litepiesql.py:151-161 | the update parameters are what insert would bind for the non-increment columns alone, one per such column, in column order |
| `Statements.AssignmentHolderCount` | litepiesql.py:151-161 | with no '?' in the name, an assignment holds as many '?' as its entry binds values: one, or none for an increment |
| `Statements.AssignmentShapeCount` | litepiesql.py:152-160 | `key=?` holds one '?' and `key=key+N` none, when neither `key` nor `N` holds one |
| `Statements.NumeralHasNoPlaceholder` | litepiesql.py:149 | the captured increment step never contains '?' |
| `Statements.UpdateHolderCount` | litepiesql.py:144-161 | with no '?' in any name, the number of '?' in the SET list equals the number of parameters |
| `Statements.StepDataBindsNothing` | litepiesql.py:149-155 | `{age: "increment(1)"}` is an increment of `1` and binds no parameter |
| `Statements.UpdateIncrementExample` | litepiesql.py:144-163 | `{age: "increment(1)"}` with `id=1` gives `UPDATE users SET age=age+1 WHERE id=1;` |
| `Statements.MixedAssignments` | litepiesql.py:149-160 | a plain value, `increment(-3)` and `now()` are written `name=?`, `age=age+-3` and `seen=?` |
| `Statements.MixedJoin` | litepiesql.py:145-146 | those three assignments are joined into `name=?, age=age+-3, seen=?` |
| `Statements.UpdateMixedExample` | litepiesql.py:144-161 | that mapping gives the SET list `name=?, age=age+-3, seen=?` |
| `Statements.UpdateMixedParams` | litepiesql.py:151-161 | that mapping binds the plain value and then the time, and nothing for the increment |
| `Statements.MixedDataClasses` | litepiesql.py:149-156 | how `update` classifies the three values of that example |
| `Values.TokensAreLowerComparisons` | litepiesql.py:64-66 | the character-wise `null` and `now()` tests are the comparisons of the lower-cased string |
| `Values.NullTokenIff` | litepiesql.py:64-65 | the `null` test accepts exactly "null" in any mix of cases |
| `Values.NowTokenIff` | litepiesql.py:66-67 | the `now()` test accepts exactly "now()" in any mix of cases |
| `Values.IncrementArgSound` | litepiesql.py:149 | a match is `increment(`, a signed numeral, `)`, and at most one final newline; the capture is the numeral |
| `Values.IncrementArgComplete` | litepiesql.py:149 | every such string matches and captures its numeral |
| `Values.InsertIgnoresIncrement` | litepiesql.py:62-69 | insert classifies an `increment(N)` value as a literal |
| `Values.UpdateIncrementIff` | litepiesql.py:149-156 | update classifies a value as an increment exactly when the pattern matches it |
| `Values.UpdateAgreesWithInsert` | litepiesql.py:151-161 | apart from increments, update classifies every value as insert does |
| `Values.ClassifyCaseExamples` | litepiesql.py:149-156 | `Increment(1)` is a literal, `increment(-3)` an increment of `-3`, `NuLl` is null, `NOW()` is now, and None is a literal |
| `Text.JoinSnoc` | litepiesql.py:145-146 | joining one more part adds one separator and the part |
| `Text.SepFoldSnoc` | litepiesql.py:145-146 | one more turn of a loop that adds the separator only after non-empty text |
| `Text.SepFoldJoin` | litepiesql.py:51-56 | when the first part is not empty, that loop builds exactly the join of the parts, and its text is non-empty |
| `Text.CountCharConcat` | litepiesql.py:152-160 | the count of a character in a concatenation is the sum of the counts |
| `Text.CountCharAbsent` | litepiesql.py:152-160 | a string without the character counts none of it |
| `Text.NatToStringRoundTrip` | litepiesql.py:67 | `str(n)` is a non-empty digit string without a leading zero that parses back to `n` |
| `Text.IntToStringIsNumeral` | litepiesql.py:149-156 | `str(i)` of any integer is a signed numeral, all digits when `i >= 0` |
| `Values.IntegerIsLiteral` | litepiesql.py:62-69 | an integer value is never `null`, `now()` or `increment(N)`, so insert and update both bind it as it is |
| `Text.Lower` | litepiesql.py:109 | lower-casing keeps the length, leaves no upper-case letter, and keeps every other character in place |
| `Text.LowerIsLowerCase` | litepiesql.py:109 | lower-casing is idempotent |
| `Results.BindChoiceIff` | litepiesql.py:97-100 | parameters are bound exactly when the list is present and non-empty, and then unchanged |
| `Results.RowRecordKeys` | litepiesql.py:116 | a row dictionary's keys are the field names paired with a value |
| `Results.RowRecordValue` | litepiesql.py:116 | a field whose name is not repeated later maps to the row's value at its position |
| `Results.RecordKeysLowerCase` | litepiesql.py:109-116 | every key of a materialised row is lower-case |
| `Results.FetchedUntilEmpty` | litepiesql.py:112-116 | the fetch loop collects every row of the batches before the first empty one, in fetch order, and nothing after |
| `Results.RecordsAppend` | litepiesql.py:115-116 | the records of two row lists in sequence are the records of each, in order |
| `Results.MaterialiseRows` | litepiesql.py:105-116 | with a description, the result is one dictionary per row of the batches before the first empty one, in fetch order, so none when no row comes back |
| `Results.MaterialiseField` | litepiesql.py:107-116 | with a description, one dictionary per fetched row in fetch order, and the lower-cased field name maps to the row's value |
| `Results.MaterialiseNoDescription` | litepiesql.py:117-120 | without a description, the result is empty and one commit is due |
| `Results.LastRowIdFound` | litepiesql.py:76 | a single `last_insert_rowid()` field and a first row holding `x` give the id `x` |
| `Results.LastRowIdMissing` | litepiesql.py:76 | no description or no first row makes the id lookup an IndexError |
| `LitePieSql.FetchedStep` | litepiesql.py:112-116 | a non-empty fetch contributes its rows' records next, before those of the later batches |
| `LitePieSql.FetchedStop` | litepiesql.py:113-114 | an empty fetch leaves the records collected so far as the whole result |
| `LitePieSql.AppendRecords` | litepiesql.py:115-116 | the inner loop appends one dictionary per row, in row order |
| `LitePieSql.FetchAll` | litepiesql.py:112-116 | the `fetchmany` loop returns one record per row of the fetched batches, in order |
| `LitePieSql.Database.Query` | litepiesql.py:84-126 | logs one execution, with parameters only for a non-empty list; returns the materialised rows; commits exactly when there is no description |
| `LitePieSql.Database.Insert` | litepiesql.py:37-82 | logs the INSERT with its parameters, then the row-id query; returns that query's `last_insert_rowid()` field or the lookup error |
| `LitePieSql.Database.Update` | litepiesql.py:128-165 | logs the UPDATE with its parameters, bound only when there are any |
| `LitePieSql.Database.Truncate` | litepiesql.py:167-181 | logs exactly the two delete statements, in order, without parameters, and commits nothing |
| `LitePieSql.Database.constructor` | litepiesql.py:33-35 | a new connection has no statement logged and no commit |
| `Driver.Connection.Execute` | litepiesql.py:97-100 | an execution is appended to the log and is answered with the next scripted answer |
| `Driver.Connection.Commit` | litepiesql.py:120 | a commit adds one to the counter and changes nothing else |
| `Driver.Cursor.constructor` | litepiesql.py:98-100 | a cursor right after `execute` holds the answer's description and batches, none fetched yet |
| `Driver.Connection.constructor` | litepiesql.py:34 | a new connection has logged nothing, committed nothing, and answers with the whole script |
| `Driver.Cursor.FetchMany` | litepiesql.py:113 | `fetchmany` returns the next batch, or nothing once all are fetched |

## Left out

- The sqlite3 driver itself. SQL is never parsed or run. Each execution is answered by a scripted `Answer`, and driver errors (syntax, constraints, I/O) are not modelled. Every execution succeeds.
- The unused cursors `tc` of `insert` and `update`: their opening and closing (lines 44, 79, 135, 165) are left out, since nothing runs on them.
- The opening and closing of the cursor of `truncate` (lines 173, 181). Its two `tc.execute` calls (lines 176, 179) are modelled as two `Connection.Execute` calls, each on a fresh cursor, where the source reuses one cursor; nothing observes the difference, because neither result is read.
- Cursor opening and closing in `query` (lines 94, 123): `Connection.Execute` stands for opening a cursor and calling `execute` on it.
- `time.time()`. The time is an integer parameter `now`, already truncated to whole seconds. The source reads the clock once per `now()` entry, so two `now()` columns of one call could get different seconds. The model gives them the same value.
- The unused `increment` match in `insert` (line 62). It has no effect.
- `str()` of arbitrary objects. The model renders `None`, `int` and `str` the Python way, and any other object by a string it carries. It leaves out the Python 2 `UnicodeEncodeError` that `str()` raises for non-ASCII unicode.
- `str.lower()` outside ASCII. The `null` and `now()` tests are exact, because no non-ASCII character lower-cases to the letters they compare against. Field names with non-ASCII capitals are lower-cased only in their ASCII letters.
- Key order inside a result row. The rows are Python 2 dictionaries, which have no order, so a row is a Dafny `map`.
- Quoting and injection. The table name and the where clause are concatenated as they are.
- Statements.ColumnListJoin: holds only when the first column name is non-empty, because the separator before a key is dropped exactly when every earlier key is empty; `Statements.HolderCount` and `Statements.InsertEmptyNameExample` cover leading empty names.
- Statements.HolderListJoin: holds only when the first column name is non-empty, for the same reason.
- Statements.UpdateHolderCount: holds only when no column name contains '?', because names are copied into the SET list verbatim.
- Results.MaterialiseField: speaks of a field only when no later field lower-cases to the same name. With such a repeat, the later value wins, which `Results.RowRecordValue` states for the last occurrence.
