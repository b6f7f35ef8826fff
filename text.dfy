/**
 * String helpers the wrapper relies on: `", ".join`-style joining, ASCII
 * lower-casing (`str.lower()` on the characters that matter here), character
 * counting, and Python's decimal rendering of integers (`str(int)`).
 */
module Text {

  /** Joins `parts` with `sep` in between, as Python's `sep.join(parts)`. */
  function Join(parts: seq<string>, sep: string): string
    decreases |parts|
  {
    if |parts| == 0 then ""
    else if |parts| == 1 then parts[0]
    else parts[0] + sep + Join(parts[1..], sep)
  }

  /** Appending one more part adds one separator and the part. */
  lemma {:induction false} JoinSnoc(parts: seq<string>, x: string, sep: string)
    requires |parts| > 0
    ensures Join(parts + [x], sep) == Join(parts, sep) + sep + x
    decreases |parts|
  {
    if |parts| == 1 {
      assert parts + [x] == [parts[0], x];
      assert (parts + [x])[1..] == [x];
    } else {
      assert (parts + [x])[1..] == parts[1..] + [x];
      JoinSnoc(parts[1..], x, sep);
    }
  }

  /**
   * Joining the way a loop does it when it tests the text built so far:
   * `if len(acc) > 0: acc += sep` before each part.
   */
  function SepFold(parts: seq<string>, sep: string): string
    decreases |parts|
  {
    if |parts| == 0 then ""
    else
      var prev := SepFold(parts[..|parts| - 1], sep);
      (if |prev| > 0 then prev + sep else prev) + parts[|parts| - 1]
  }

  /** One more turn of that loop. */
  lemma SepFoldSnoc(parts: seq<string>, x: string, sep: string)
    ensures SepFold(parts + [x], sep)
      == (if |SepFold(parts, sep)| > 0 then SepFold(parts, sep) + sep else SepFold(parts, sep)) + x
  {
    assert (parts + [x])[..|parts|] == parts;
  }

  /**
   * When the first part is not empty, that loop builds exactly the join: the
   * text is non-empty from the first turn on, so every later part gets its
   * separator, empty or not.
   */
  lemma {:induction false} SepFoldJoin(parts: seq<string>, sep: string)
    requires |parts| > 0 ==> parts[0] != ""
    ensures SepFold(parts, sep) == Join(parts, sep)
    ensures |parts| > 0 ==> |SepFold(parts, sep)| > 0
    decreases |parts|
  {
    if |parts| > 0 {
      var prefix := parts[..|parts| - 1];
      if |prefix| > 0 {
        assert prefix[0] == parts[0];
      }
      SepFoldJoin(prefix, sep);
      assert parts == prefix + [parts[|parts| - 1]];
      if |prefix| > 0 {
        JoinSnoc(prefix, parts[|parts| - 1], sep);
      }
    }
  }

  function LowerChar(c: char): char
  {
    if 'A' <= c <= 'Z' then (c as int + 32) as char else c
  }

  /**
   * `s.lower()`, restricted to the ASCII letters: same length, no capital
   * left, and every character that is not a capital kept where it was.
   */
  function Lower(s: string): (r: string)
    ensures |r| == |s| && IsLowerCase(r)
    ensures forall i :: 0 <= i < |s| && !('A' <= s[i] <= 'Z') ==> r[i] == s[i]
  {
    seq(|s|, i requires 0 <= i < |s| => LowerChar(s[i]))
  }

  predicate IsLowerCase(s: string)
  {
    forall i :: 0 <= i < |s| ==> !('A' <= s[i] <= 'Z')
  }

  /** Lower-casing changes nothing a second time. */
  lemma LowerIsLowerCase(s: string)
    ensures IsLowerCase(Lower(s))
    ensures Lower(Lower(s)) == Lower(s)
  {
  }

  /** Number of occurrences of `c` in `s`. */
  function CountChar(c: char, s: string): nat
    decreases |s|
  {
    if |s| == 0 then 0 else CountChar(c, s[..|s| - 1]) + (if s[|s| - 1] == c then 1 else 0)
  }

  lemma {:induction false} CountCharConcat(c: char, a: string, b: string)
    ensures CountChar(c, a + b) == CountChar(c, a) + CountChar(c, b)
    decreases |b|
  {
    if |b| == 0 {
      assert a + b == a;
    } else {
      assert (a + b)[..|a + b| - 1] == a + b[..|b| - 1];
      CountCharConcat(c, a, b[..|b| - 1]);
    }
  }

  /** A string without `c` counts none of it. */
  lemma {:induction false} CountCharAbsent(c: char, s: string)
    requires forall i :: 0 <= i < |s| ==> s[i] != c
    ensures CountChar(c, s) == 0
    decreases |s|
  {
    if |s| > 0 {
      CountCharAbsent(c, s[..|s| - 1]);
    }
  }

  predicate IsDigit(c: char)
  {
    '0' <= c <= '9'
  }

  predicate AllDigits(s: string)
  {
    forall i :: 0 <= i < |s| ==> IsDigit(s[i])
  }

  /** The text matched by the regular-expression fragment `-?\d+` (ASCII digits). */
  predicate IsSignedNumeral(d: string)
  {
    if |d| > 0 && d[0] == '-' then |d| > 1 && AllDigits(d[1..]) else |d| > 0 && AllDigits(d)
  }

  function DigitChar(n: nat): char
    requires n < 10
  {
    ('0' as int + n) as char
  }

  /** Decimal digits of `n`, most significant first, as `str(n)` writes them. */
  function NatToString(n: nat): string
    decreases n
  {
    if n < 10 then [DigitChar(n)] else NatToString(n / 10) + [DigitChar(n % 10)]
  }

  /** `str(i)` for a Python integer: a minus sign for negatives, then the digits. */
  function IntToString(i: int): string
  {
    if i < 0 then "-" + NatToString(-i) else NatToString(i)
  }

  /** Reads a string of decimal digits back as a number. */
  function ParseNat(s: string): nat
    requires AllDigits(s)
    decreases |s|
  {
    if |s| == 0 then 0 else 10 * ParseNat(s[..|s| - 1]) + (s[|s| - 1] as int - '0' as int)
  }

  /** `str(n)` is a non-empty digit string without a leading zero that reads back as `n`. */
  lemma {:induction false} NatToStringRoundTrip(n: nat)
    ensures |NatToString(n)| > 0 && AllDigits(NatToString(n))
    ensures |NatToString(n)| > 1 ==> NatToString(n)[0] != '0'
    ensures ParseNat(NatToString(n)) == n
    decreases n
  {
    if n >= 10 {
      NatToStringRoundTrip(n / 10);
      var s := NatToString(n);
      assert s[..|s| - 1] == NatToString(n / 10);
    }
  }

  /** `str(i)` is a signed numeral for every integer. */
  lemma IntToStringIsNumeral(i: int)
    ensures IsSignedNumeral(IntToString(i))
    ensures i >= 0 ==> AllDigits(IntToString(i))
  {
    if i < 0 {
      NatToStringRoundTrip(-i);
      assert IntToString(i)[1..] == NatToString(-i);
    } else {
      NatToStringRoundTrip(i);
    }
  }
}
