/**
 * Text operations the program relies on: Python's `int(str)` and `str(int)`
 * on decimal integers, and splitting/joining on a one-character delimiter.
 */
module Text {
  import opened Wrappers

  predicate IsDigit(c: char) { '0' <= c <= '9' }

  function DigitValue(c: char): nat
    requires IsDigit(c)
  {
    c as int - '0' as int
  }

  function DigitChar(d: nat): char
    requires d < 10
  {
    ('0' as int + d) as char
  }

  /** The ASCII whitespace `int()` ignores around its argument. */
  predicate IsSpace(c: char)
  {
    c == ' ' || c == '\t' || c == '\n' || c == '\r' || c == '\U{000B}' || c == '\U{000C}'
  }

  predicate StartsWith(s: string, prefix: string)
  {
    |prefix| <= |s| && s[..|prefix|] == prefix
  }

  predicate EndsWith(s: string, suffix: string)
  {
    |suffix| <= |s| && s[|s| - |suffix|..] == suffix
  }

  function StripLeft(s: string): string
  {
    if |s| > 0 && IsSpace(s[0]) then StripLeft(s[1..]) else s
  }

  function StripRight(s: string): string
  {
    if |s| > 0 && IsSpace(s[|s| - 1]) then StripRight(s[..|s| - 1]) else s
  }

  function Strip(s: string): string
  {
    StripRight(StripLeft(s))
  }

  /** Decimal digits, where a single underscore may separate two digits ("1_000"). */
  predicate IsDigitGroup(s: string)
  {
    |s| > 0 && IsDigit(s[0]) && IsDigit(s[|s| - 1]) &&
    forall i :: 0 <= i < |s| ==> IsDigit(s[i]) || (s[i] == '_' && i + 1 < |s| && IsDigit(s[i + 1]))
  }

  /** The number the digits of `s` spell, underscores ignored. */
  function DigitsValue(s: string): nat
  {
    if |s| == 0 then 0
    else if IsDigit(s[|s| - 1]) then 10 * DigitsValue(s[..|s| - 1]) + DigitValue(s[|s| - 1])
    else DigitsValue(s[..|s| - 1])
  }

  /** How many decimal digits `s` holds; underscores do not count. */
  function DigitCount(s: string): nat
  {
    if |s| == 0 then 0
    else DigitCount(s[..|s| - 1]) + (if IsDigit(s[|s| - 1]) then 1 else 0)
  }

  /**
   * CPython's default limit on the digits `int()` reads and `str()` writes
   * (`sys.int_info.default_max_str_digits`, since 3.11 and in the security
   * releases 3.10.7, 3.9.14, 3.8.14 and 3.7.14).
   */
  const MaxStrDigits := 4300

  /** A digit group within the limit, and the number it spells. */
  function ParseDigits(g: string): Option<nat>
  {
    if IsDigitGroup(g) && DigitCount(g) <= MaxStrDigits then Some(DigitsValue(g)) else None
  }

  /**
   * Python's `int(s)` for a decimal string: surrounding whitespace is
   * ignored, one optional sign, then a digit group of at most `MaxStrDigits`
   * digits. `None` stands for the `ValueError` it raises otherwise.
   */
  function ParseInt(s: string): (r: Option<int>)
    ensures r.Some? ==> |Strip(s)| > 0
    ensures r.Some? && Strip(s)[0] == '-' ==> r.value <= 0
    ensures r.Some? && Strip(s)[0] != '-' ==> r.value >= 0
  {
    var t := Strip(s);
    if |t| > 0 && (t[0] == '-' || t[0] == '+') then
      match ParseDigits(t[1..])
      case None => None
      case Some(magnitude) => Some(if t[0] == '-' then -(magnitude as int) else magnitude as int)
    else
      match ParseDigits(t)
      case None => None
      case Some(magnitude) => Some(magnitude)
  }

  function NatToString(n: nat): (r: string)
    ensures |r| > 0
    ensures forall i :: 0 <= i < |r| ==> IsDigit(r[i])
  {
    if n < 10 then [DigitChar(n)] else NatToString(n / 10) + [DigitChar(n % 10)]
  }

  /** Python's `str(n)` (and `repr(n)`) for an integer. */
  function IntToString(n: int): (r: string)
    ensures |r| > 0
    ensures forall i :: 0 <= i < |r| ==> IsDigit(r[i]) || (i == 0 && r[i] == '-')
    ensures r[0] == '-' <==> n < 0
  {
    if n < 0 then "-" + NatToString(-n) else NatToString(n)
  }

  /** `n` has few enough digits for `str(n)` and `int()` under the default limit. */
  predicate Printable(n: int)
  {
    |NatToString(if n < 0 then -n else n)| <= MaxStrDigits
  }

  lemma {:induction false} DigitCountAllDigits(s: string)
    requires forall i :: 0 <= i < |s| ==> IsDigit(s[i])
    ensures DigitCount(s) == |s|
  {
    if |s| > 0 {
      DigitCountAllDigits(s[..|s| - 1]);
    }
  }

  lemma {:induction false} NatToStringValue(n: nat)
    ensures DigitsValue(NatToString(n)) == n
  {
    if n >= 10 {
      var prefix := NatToString(n / 10);
      var s := prefix + [DigitChar(n % 10)];
      assert s[..|s| - 1] == prefix;
      NatToStringValue(n / 10);
    }
  }

  lemma StripUnchanged(s: string)
    requires |s| > 0 && !IsSpace(s[0]) && !IsSpace(s[|s| - 1])
    ensures Strip(s) == s
  {
  }

  /** Leading whitespace does not change what `int()` reads. */
  lemma StripLeadingSpace(s: string)
    requires |s| > 0 && !IsSpace(s[0]) && !IsSpace(s[|s| - 1])
    ensures Strip(" " + s) == s
  {
    assert (" " + s)[1..] == s;
    assert StripLeft(" " + s) == StripLeft(s) == s;
  }

  lemma NatDigitGroup(n: nat)
    ensures IsDigitGroup(NatToString(n))
  {
  }

  /**
   * `int(str(n)) == n` for every integer within the digit limit; beyond it,
   * `int()` refuses the text.
   */
  lemma ParseIntRoundTrip(n: int)
    ensures ParseInt(IntToString(n)) == if Printable(n) then Some(n) else None
  {
    var s := IntToString(n);
    var m: nat := if n < 0 then -n else n;
    StripUnchanged(s);
    NatDigitGroup(m);
    DigitCountAllDigits(NatToString(m));
    NatToStringValue(m);
    if n < 0 {
      assert s[1..] == NatToString(m);
    }
  }

  /** Like `ParseIntRoundTrip`, for the text after one space. */
  lemma ParseIntAfterSpace(n: int)
    requires Printable(n)
    ensures ParseInt(" " + IntToString(n)) == Some(n)
  {
    StripLeadingSpace(IntToString(n));
    ParseIntRoundTrip(n);
  }

  lemma {:induction false} StripRightKeepsFirst(s: string)
    requires |s| > 0 && !IsSpace(s[0])
    ensures |StripRight(s)| > 0 && StripRight(s)[0] == s[0]
  {
    if IsSpace(s[|s| - 1]) {
      StripRightKeepsFirst(s[..|s| - 1]);
    }
  }

  /** `int()` refuses text whose first non-blank character is neither a sign nor a digit. */
  lemma ParseIntRejectsLeading(s: string)
    requires |s| > 0 && !IsSpace(s[0]) && !IsDigit(s[0]) && s[0] != '-' && s[0] != '+'
    ensures ParseInt(s) == None
  {
    StripRightKeepsFirst(s);
    assert StripLeft(s) == s;
  }

  /** Python's `sep.join(fields)`. */
  function Join(fields: seq<string>, sep: char): string
  {
    if |fields| == 0 then ""
    else if |fields| == 1 then fields[0]
    else fields[0] + [sep] + Join(fields[1..], sep)
  }

  lemma JoinFour(a: string, b: string, c: string, d: string, sep: char)
    ensures Join([a, b, c, d], sep) == a + [sep] + b + [sep] + c + [sep] + d
  {
    var f := [a, b, c, d];
    assert f[1..][1..][1..] == [d];
    assert f[1..][1..] == [c, d];
    assert Join(f[1..][1..], sep) == c + [sep] + d;
    assert f[1..] == [b, c, d];
    assert Join(f[1..], sep) == b + [sep] + (c + [sep] + d);
    assert Join(f, sep) == a + [sep] + (b + [sep] + (c + [sep] + d));
  }

  /** Python's `s.split(sep)`: the pieces between separators, empty ones kept. */
  function Split(s: string, sep: char): (r: seq<string>)
    ensures |r| > 0
  {
    if |s| == 0 then [""]
    else
      var rest := Split(s[1..], sep);
      if s[0] == sep then [""] + rest else [[s[0]] + rest[0]] + rest[1..]
  }

  lemma {:induction false} SplitWithout(s: string, sep: char)
    requires sep !in s
    ensures Split(s, sep) == [s]
  {
    if |s| > 0 {
      SplitWithout(s[1..], sep);
      assert [s[0]] + s[1..] == s;
    }
  }

  lemma {:induction false} SplitFirst(f: string, sep: char, t: string)
    requires sep !in f
    ensures Split(f + [sep] + t, sep) == [f] + Split(t, sep)
  {
    if |f| == 0 {
      assert f + [sep] + t == [sep] + t;
      assert ([sep] + t)[1..] == t;
    } else {
      var s := f + [sep] + t;
      assert s[0] == f[0];
      assert s[1..] == f[1..] + [sep] + t;
      SplitFirst(f[1..], sep, t);
      assert [f[0]] + f[1..] == f;
    }
  }

  /** Splitting a joined line gives the fields back when none holds the separator. */
  lemma {:induction false} SplitJoin(fields: seq<string>, sep: char)
    requires |fields| > 0
    requires forall i :: 0 <= i < |fields| ==> sep !in fields[i]
    ensures Split(Join(fields, sep), sep) == fields
  {
    if |fields| == 1 {
      SplitWithout(fields[0], sep);
    } else {
      SplitJoin(fields[1..], sep);
      SplitFirst(fields[0], sep, Join(fields[1..], sep));
      assert [fields[0]] + fields[1..] == fields;
    }
  }

  /** The first piece of a split keeps the first character when it is not the separator. */
  lemma SplitFirstChar(s: string, sep: char)
    requires |s| > 0 && s[0] != sep
    ensures |Split(s, sep)[0]| > 0 && Split(s, sep)[0][0] == s[0]
  {
  }
}
