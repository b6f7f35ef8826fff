/**
 * The values a caller puts in an insert or update mapping, their Python string
 * form, and the sentinel mini-language read off that string form: `null` and
 * `now()` (any case) and `increment(N)` (exact case).
 */
module Values {
  import opened Text
  import opened Wrappers

  /** A Python value as far as the wrapper looks at it. */
  datatype Value =
    | PyNone                  // Python's None
    | PyInt(i: int)           // an int
    | PyStr(s: string)        // a str
    | PyObject(form: string)  // anything else, known only by what str() makes of it

  /** `str(value)`. */
  function StrForm(v: Value): string
  {
    match v
    case PyNone => "None"
    case PyInt(i) => IntToString(i)
    case PyStr(s) => s
    case PyObject(form) => form
  }

  /** `str(value).lower() == 'null'`, one character at a time. */
  predicate IsNullToken(s: string)
  {
    |s| == 4 && LowerChar(s[0]) == 'n' && LowerChar(s[1]) == 'u'
    && LowerChar(s[2]) == 'l' && LowerChar(s[3]) == 'l'
  }

  /** `str(value).lower() == 'now()'`, one character at a time. */
  predicate IsNowToken(s: string)
  {
    |s| == 5 && LowerChar(s[0]) == 'n' && LowerChar(s[1]) == 'o'
    && LowerChar(s[2]) == 'w' && s[3] == '(' && s[4] == ')'
  }

  /** The character-wise tests are litepiesql.py's comparisons of `str(value).lower()`. */
  lemma TokensAreLowerComparisons(s: string)
    ensures IsNullToken(s) <==> Lower(s) == "null"
    ensures IsNowToken(s) <==> Lower(s) == "now()"
  {
    if Lower(s) == "null" {
      assert Lower(s)[0] == 'n' && Lower(s)[1] == 'u' && Lower(s)[2] == 'l' && Lower(s)[3] == 'l';
    }
    if Lower(s) == "now()" {
      assert Lower(s)[0] == 'n' && Lower(s)[1] == 'o' && Lower(s)[2] == 'w';
      assert Lower(s)[3] == '(' && Lower(s)[4] == ')';
    }
  }

  /** The `null` test accepts exactly the sixteen spellings of "null" in any mix of cases. */
  lemma NullTokenIff(s: string)
    ensures IsNullToken(s) <==>
      |s| == 4 && s[0] in "nN" && s[1] in "uU" && s[2] in "lL" && s[3] in "lL"
  {
  }

  /** The `now()` test accepts "now()" in any mix of cases, and nothing else. */
  lemma NowTokenIff(s: string)
    ensures IsNowToken(s) <==>
      |s| == 5 && s[0] in "nN" && s[1] in "oO" && s[2] in "wW" && s[3] == '(' && s[4] == ')'
  {
  }

  const IncrementPrefix: string := "increment("

  /**
   * `re.match("^increment\((\-?\d+)\)$", s)`: the captured group when the
   * pattern matches, None otherwise. Without MULTILINE, `$` matches at the end
   * of the string and also just before one final newline.
   */
  function IncrementArg(s: string): Option<string>
  {
    var body := if |s| > 0 && s[|s| - 1] == '\n' then s[..|s| - 1] else s;
    if |body| > |IncrementPrefix| && body[..|IncrementPrefix|] == IncrementPrefix
       && body[|body| - 1] == ')' && IsSignedNumeral(body[|IncrementPrefix|..|body| - 1])
    then Some(body[|IncrementPrefix|..|body| - 1])
    else None
  }

  /** What matches: `increment(`, a signed numeral, `)`, and at most one final newline. */
  lemma IncrementArgSound(s: string)
    requires IncrementArg(s).Some?
    ensures IsSignedNumeral(IncrementArg(s).value)
    ensures var d := IncrementArg(s).value;
      s == IncrementPrefix + d + ")" || s == IncrementPrefix + d + ")\n"
    ensures |s| >= 12
  {
    var body := if |s| > 0 && s[|s| - 1] == '\n' then s[..|s| - 1] else s;
    var d := IncrementArg(s).value;
    assert body == body[..|IncrementPrefix|] + d + ")";
  }

  /** Conversely, every `increment(N)` with a signed numeral N, with or without one trailing newline, matches and captures N. */
  lemma IncrementArgComplete(d: string)
    requires IsSignedNumeral(d)
    ensures IncrementArg(IncrementPrefix + d + ")") == Some(d)
    ensures IncrementArg(IncrementPrefix + d + ")\n") == Some(d)
  {
    var s := IncrementPrefix + d + ")";
    assert s[..|IncrementPrefix|] == IncrementPrefix;
    assert s[|IncrementPrefix|..|s| - 1] == d;
    var t := IncrementPrefix + d + ")\n";
    assert t == s + "\n";
    assert t[|t| - 1] == '\n' && t[..|t| - 1] == s;
  }

  /** A column value after classification. */
  datatype ColumnValue =
    | Null                    // bind None
    | Now                     // bind the current time as a string of seconds
    | Increment(delta: string)  // inline `key=key+delta`, bind nothing
    | Literal(v: Value)       // bind the value itself

  /** How `insert` reads a value: `null`, then `now()`, else the value itself. */
  function InsertClass(v: Value): ColumnValue
  {
    var s := StrForm(v);
    if IsNullToken(s) then Null
    else if IsNowToken(s) then Now
    else Literal(v)
  }

  /** How `update` reads a value: `null`, then `increment(N)`, then `now()`, else the value itself. */
  function UpdateClass(v: Value): ColumnValue
  {
    var s := StrForm(v);
    if IsNullToken(s) then Null
    else match IncrementArg(s)
      case Some(d) => Increment(d)
      case None => if IsNowToken(s) then Now else Literal(v)
  }

  /** `insert` never treats a value as an increment, so `increment(N)` is passed through as it is. */
  lemma InsertIgnoresIncrement(v: Value)
    requires IncrementArg(StrForm(v)).Some?
    ensures InsertClass(v) == Literal(v)
  {
    IncrementArgSound(StrForm(v));
  }

  /** `update` classifies as an increment exactly the values the regular expression matches. */
  lemma UpdateIncrementIff(v: Value, d: string)
    ensures UpdateClass(v) == Increment(d) <==> IncrementArg(StrForm(v)) == Some(d)
  {
    if IncrementArg(StrForm(v)).Some? {
      IncrementArgSound(StrForm(v));
    }
  }

  /** Apart from increments, `update` classifies every value exactly as `insert` does. */
  lemma UpdateAgreesWithInsert(v: Value)
    ensures UpdateClass(v).Increment? || UpdateClass(v) == InsertClass(v)
  {
  }

  /** The increment test is case-sensitive, unlike the `null` and `now()` tests. */
  lemma ClassifyCaseExamples()
    ensures UpdateClass(PyStr("Increment(1)")) == Literal(PyStr("Increment(1)"))
    ensures UpdateClass(PyStr("increment(-3)")) == Increment("-3")
    ensures UpdateClass(PyStr("NuLl")) == Null && InsertClass(PyStr("NOW()")) == Now
    ensures InsertClass(PyNone) == Literal(PyNone)
  {
    IncrementArgComplete("-3");
    assert "increment(-3)" == IncrementPrefix + "-3" + ")";
    NullTokenIff("NuLl");
    NowTokenIff("NOW()");
    NullTokenIff("None");
    NowTokenIff("None");
    assert IncrementArg("Increment(1)") == None by {
      assert "Increment(1)"[..|IncrementPrefix|][0] != IncrementPrefix[0];
    }
    NullTokenIff("Increment(1)");
    NowTokenIff("Increment(1)");
  }

  /**
   * An integer is never a sentinel: `str(i)` starts with a digit or '-', so it
   * is neither `null`, `now()` nor `increment(N)`, and both operations bind it
   * as it is.
   */
  lemma IntegerIsLiteral(i: int)
    ensures InsertClass(PyInt(i)) == Literal(PyInt(i))
    ensures UpdateClass(PyInt(i)) == Literal(PyInt(i))
  {
    var s := IntToString(i);
    IntToStringIsNumeral(i);
    assert s[0] == '-' || IsDigit(s[0]);
    assert !IsNullToken(s) && !IsNowToken(s);
    assert s[|s| - 1] != '\n';
  }
}
