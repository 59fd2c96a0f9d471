/**
 * The small part of Python's text handling that the log parser relies on:
 * `str.strip()`, `file.readline()`, `file.readlines()`, `str(n)` and `int(s)`.
 * Text is a sequence of characters, one per byte of the files involved.
 */
module PyText {
  import opened Wrappers

  /** The characters Python's `str.strip()` and `int()` treat as whitespace. */
  predicate IsSpace(c: char)
  {
    c == ' ' || c == '\t' || c == '\n' || c == '\r' || c == '\U{B}' || c == '\U{C}'
  }

  predicate IsDigit(c: char)
  {
    '0' <= c <= '9'
  }

  predicate AllDigits(s: string)
  {
    forall k :: 0 <= k < |s| ==> IsDigit(s[k])
  }

  // ---------------------------------------------------------------- strip

  /** Drops leading whitespace. */
  function TrimStart(s: string): (r: string)
    ensures |r| <= |s|
    ensures r == s[|s| - |r|..]
    ensures forall k :: 0 <= k < |s| - |r| ==> IsSpace(s[k])
    ensures r == [] || !IsSpace(r[0])
  {
    if |s| > 0 && IsSpace(s[0]) then TrimStart(s[1..]) else s
  }

  /** Drops trailing whitespace. */
  function TrimEnd(s: string): (r: string)
    ensures |r| <= |s|
    ensures r == s[..|r|]
    ensures forall k :: |r| <= k < |s| ==> IsSpace(s[k])
    ensures r == [] || !IsSpace(r[|r| - 1])
  {
    if |s| > 0 && IsSpace(s[|s| - 1]) then TrimEnd(s[..|s| - 1]) else s
  }

  /** Python's `s.strip()`. */
  function Strip(s: string): (r: string)
    ensures r == [] || (!IsSpace(r[0]) && !IsSpace(r[|r| - 1]))
  {
    TrimEnd(TrimStart(s))
  }

  /** `s[i..j]` is what remains of `s` once only whitespace is cut off before `i` and from `j` on. */
  predicate CutToSlice(s: string, i: int, j: int)
  {
    && 0 <= i <= j <= |s|
    && (forall k :: 0 <= k < i ==> IsSpace(s[k]))
    && (forall k :: j <= k < |s| ==> IsSpace(s[k]))
  }

  /**
   * `s.strip()` is the slice of `s` left once the whitespace before and after
   * it is cut off.
   */
  lemma StripSlice(s: string)
    ensures exists i, j :: CutToSlice(s, i, j) && Strip(s) == s[i..j]
  {
    var t := TrimStart(s);
    var r := TrimEnd(t);
    var i := |s| - |t|;
    var j := i + |r|;
    assert r == s[i..j];
    forall k | j <= k < |s|
      ensures IsSpace(s[k])
    {
      assert s[k] == t[k - i];
    }
    assert CutToSlice(s, i, j);
  }

  /** Stripping twice strips nothing more. */
  lemma StripIdempotent(s: string)
    ensures Strip(Strip(s)) == Strip(s)
  {
    var r := Strip(s);
    if r != [] {
      assert TrimStart(r) == r;
      assert TrimEnd(r) == r;
    }
  }

  // ---------------------------------------------------------------- lines

  /**
   * Python's `f.readline()` on the text `s` that remains to be read: up to
   * and including the first newline, or all of `s` when it has none.
   */
  function FirstLine(s: string): (r: string)
    ensures |r| <= |s|
    ensures r == s[..|r|]
    ensures s != [] ==> r != []
    ensures '\n' !in s ==> r == s
    ensures '\n' in s ==> r[|r| - 1] == '\n' && '\n' !in r[..|r| - 1]
  {
    if s == [] then []
    else if s[0] == '\n' then "\n"
    else
      var rest := FirstLine(s[1..]);
      assert '\n' in s ==> '\n' in s[1..];
      assert [s[0]] + rest == s[..1 + |rest|];
      [s[0]] + rest
  }

  /** Concatenation of a sequence of lines. */
  function Flatten(lines: seq<string>): string
  {
    if lines == [] then [] else lines[0] + Flatten(lines[1..])
  }

  /**
   * Python's `f.readlines()` on the text `s` that remains to be read: the
   * successive `readline()` results until the end of the text.
   */
  function SplitLines(s: string): (lines: seq<string>)
    ensures Flatten(lines) == s
    decreases |s|
  {
    if s == [] then []
    else
      var line := FirstLine(s);
      assert s == line + s[|line|..];
      [line] + SplitLines(s[|line|..])
  }

  /** A line as `readline()` returns it: not empty, with no newline before its last character. */
  predicate IsLine(line: string)
  {
    line != [] && '\n' !in line[..|line| - 1]
  }

  predicate EndsInNewline(line: string)
  {
    line != [] && line[|line| - 1] == '\n'
  }

  /**
   * The lines `readlines()` returns are lines as `readline()` gives them, and
   * all but the last end in a newline.
   */
  lemma {:induction false} SplitLinesEndings(s: string)
    ensures forall k :: 0 <= k < |SplitLines(s)| ==> IsLine(SplitLines(s)[k])
    ensures forall k :: 0 <= k < |SplitLines(s)| - 1 ==> EndsInNewline(SplitLines(s)[k])
    decreases |s|
  {
    if s != [] {
      var line := FirstLine(s);
      var rest := s[|line|..];
      SplitLinesEndings(rest);
      var lines := SplitLines(s);
      assert lines == [line] + SplitLines(rest);
      assert '\n' !in s ==> rest == [] && line == s;
      assert IsLine(line);
      assert |lines| > 1 ==> EndsInNewline(line);
      forall k | 1 <= k < |lines|
        ensures lines[k] == SplitLines(rest)[k - 1]
      {
      }
    }
  }

  /** Text ending in its only newline is read as one line. */
  lemma SingleLine(line: string)
    requires line != [] && line[|line| - 1] == '\n' && '\n' !in line[..|line| - 1]
    ensures SplitLines(line) == [line]
  {
    var first := FirstLine(line);
    var k := |first| - 1;
    assert forall j :: 0 <= j < |line| - 1 ==> line[..|line| - 1][j] == line[j] != '\n';
    assert first[k] == '\n' && line[k] == '\n';
    assert first == line;
    assert line[|first|..] == [];
  }

  // ---------------------------------------------------------------- str(n)

  function DigitChar(d: int): (c: char)
    requires 0 <= d < 10
    ensures IsDigit(c)
  {
    ('0' as int + d) as char
  }

  /** Python's `str(n)` for a non-negative integer: its decimal digits. */
  function ShowNat(n: nat): (s: string)
    ensures |s| > 0 && AllDigits(s)
  {
    if n < 10 then [DigitChar(n)] else ShowNat(n / 10) + [DigitChar(n % 10)]
  }

  /** Python's `str(i)` for any integer. */
  function ShowInt(i: int): (s: string)
    ensures |s| > 0
    ensures forall k :: 0 <= k < |s| ==> !IsSpace(s[k])
  {
    if i < 0 then "-" + ShowNat(-i) else ShowNat(i)
  }

  // ---------------------------------------------------------------- int(s)

  /** The value of a string of decimal digits. */
  function DigitsValue(ds: string): nat
    requires AllDigits(ds)
  {
    if ds == [] then 0
    else DigitsValue(ds[..|ds| - 1]) * 10 + (ds[|ds| - 1] as int - '0' as int)
  }

  function ParseDigits(ds: string): (r: Option<nat>)
    ensures r.Some? <==> |ds| > 0 && AllDigits(ds)
  {
    if |ds| > 0 && AllDigits(ds) then Some(DigitsValue(ds)) else None
  }

  /**
   * Python's `int(s)` on text: whitespace around the number is ignored, a
   * sign may lead, at least one decimal digit must follow. `None` stands for
   * the `ValueError` Python raises on anything else.
   */
  function ParseInt(s: string): Option<int>
  {
    var t := Strip(s);
    if |t| > 0 && (t[0] == '-' || t[0] == '+') then
      match ParseDigits(t[1..])
      case None => None
      case Some(v) =>
        var n: int := v;
        Some(if t[0] == '-' then -n else n)
    else
      ParseDigits(t)
  }

  /**
   * What `int` accepts: after stripping, one or more decimal digits, with at
   * most one sign before them; the value is that of the digits, negated
   * after a minus sign.
   */
  lemma ParseIntGrammar(s: string)
    ensures ParseInt(s).Some? <==> (var t := Strip(s);
                                    || (|t| > 0 && AllDigits(t))
                                    || (|t| > 1 && (t[0] == '-' || t[0] == '+') && AllDigits(t[1..])))
    ensures ParseInt(s).Some? && AllDigits(Strip(s)) ==> ParseInt(s).value == DigitsValue(Strip(s))
    ensures ParseInt(s).Some? && Strip(s)[0] == '+' ==> ParseInt(s).value == DigitsValue(Strip(s)[1..])
    ensures ParseInt(s).Some? && Strip(s)[0] == '-' ==> ParseInt(s).value == -(DigitsValue(Strip(s)[1..]) as int)
  {
    var t := Strip(s);
    if |t| > 0 && (t[0] == '-' || t[0] == '+') {
      assert !IsDigit(t[0]);
    }
  }

  /** `int` reads back what `str` wrote, for non-negative values. */
  lemma {:induction false} ShowNatValue(n: nat)
    ensures DigitsValue(ShowNat(n)) == n
  {
    if n >= 10 {
      ShowNatValue(n / 10);
      var s := ShowNat(n);
      assert s[..|s| - 1] == ShowNat(n / 10);
    }
  }

  /** `int(str(i)) == i` for every integer `i`. */
  lemma ParseShowInt(i: int)
    ensures ParseInt(ShowInt(i)) == Some(i)
  {
    var s := ShowInt(i);
    assert TrimStart(s) == s;
    assert TrimEnd(s) == s;
    if i < 0 {
      ShowNatValue(-i);
      assert s[1..] == ShowNat(-i);
    } else {
      ShowNatValue(i);
    }
  }

  // ------------------------------------------------------ str(float) of a time

  function Pow10(n: nat): (r: nat)
    ensures r > 0
  {
    if n == 0 then 1 else 10 * Pow10(n - 1)
  }

  /** The number of decimal digits of `n`. */
  function DigitCount(n: nat): (r: nat)
    ensures r >= 1 && n < Pow10(r)
    ensures r > 1 ==> Pow10(r - 1) <= n
  {
    if n < 10 then 1 else 1 + DigitCount(n / 10)
  }

  /**
   * `n` kept to 12 significant digits: rounded to the nearest multiple of the
   * unit of its twelfth digit, halves rounding up.
   */
  function Round12(n: nat): (r: nat)
    ensures DigitCount(n) <= 12 ==> r == n
    ensures DigitCount(n) > 12 ==>
              (var u := Pow10(DigitCount(n) - 12);
               r % u == 0 && r <= n + u / 2 < r + u)
  {
    if DigitCount(n) <= 12 then n
    else
      var u := Pow10(DigitCount(n) - 12);
      var q := (n + u / 2) / u;
      MultipleBounds(n + u / 2, u);
      q * u
  }

  /** `m / u * u` is the largest multiple of `u` not above `m`. */
  lemma MultipleBounds(m: nat, u: nat)
    requires u > 0
    ensures (m / u * u) % u == 0
    ensures m / u * u <= m < m / u * u + u
  {
    var q := m / u;
    assert m == q * u + m % u;
    MultipleMod(q, u);
  }

  lemma MultipleMod(q: nat, u: nat)
    requires u > 0
    ensures (q * u) % u == 0
  {
    var x := q * u;
    var d, m := x / u, x % u;
    assert x == d * u + m && 0 <= m < u;
    assert (q - d) * u == m;
    MultipleSign(q - d, u);
  }

  lemma MultipleSign(k: int, u: nat)
    requires u > 0
    ensures k >= 1 ==> k * u >= u
    ensures k <= -1 ==> k * u <= -(u as int)
  {
    if k >= 1 {
      assert k * u == (k - 1) * u + u;
    } else if k <= -1 {
      assert k * u == (k + 1) * u - u;
    }
  }

  /** The digit count is the one power-of-ten interval `n` lies in. */
  lemma DigitCountUnique(n: nat, k: nat)
    requires k >= 1 && n < Pow10(k) && (k > 1 ==> Pow10(k - 1) <= n)
    ensures DigitCount(n) == k
  {
    var d := DigitCount(n);
    if d < k {
      Pow10Monotone(d, k - 1);
    } else if d > k {
      Pow10Monotone(k, d - 1);
    }
  }

  /**
   * A creation time is a whole number of ticks of a fixed fraction of a
   * second. Python 2's `str()` on a float writes 12 significant digits, so
   * `float(str(t))` gives back `t` rounded to 12 significant digits.
   */
  function KeptTime(t: int): int
  {
    if t < 0 then -(Round12(-t) as int) else Round12(t)
  }

  /** Python 2's `str(t)` of a creation time, written as the ticks it keeps. */
  function ShowTime(t: int): string
  {
    ShowInt(KeptTime(t))
  }

  /** A time of at most 12 digits is written exactly. */
  lemma ShortTimeKept(t: int)
    requires -(Pow10(12) as int) < t < Pow10(12)
    ensures KeptTime(t) == t
  {
    var n: nat := if t < 0 then -t else t;
    if DigitCount(n) > 12 {
      Pow10Monotone(12, DigitCount(n) - 1);
    }
  }

  lemma {:induction false} Pow10Monotone(i: nat, j: nat)
    requires i <= j
    ensures Pow10(i) <= Pow10(j)
    decreases j
  {
    if i < j {
      Pow10Monotone(i, j - 1);
    }
  }

  /**
   * 1697000000.123456 seconds, in microseconds: Python 2 writes
   * '1697000000.12', which reads back as a strictly earlier time.
   */
  lemma FractionalTimeRoundsDown()
    ensures KeptTime(1697000000123456) == 1697000000120000 < 1697000000123456
  {
    assert Pow10(4) == 10000;
    assert Pow10(16) == 10000000000000000;
    assert Pow10(15) == 1000000000000000;
    DigitCountUnique(1697000000123456, 16);
  }

  /** `float(str(t))` reads back the time `str` kept. */
  lemma ParseShowTime(t: int)
    ensures ParseInt(ShowTime(t)) == Some(KeptTime(t))
    ensures FirstLine(ShowTime(t)) == ShowTime(t)
  {
    ParseShowInt(KeptTime(t));
    FirstLineShowInt(KeptTime(t));
  }

  /** `str(i)` holds no newline, so `readline()` returns all of it. */
  lemma FirstLineShowInt(i: int)
    ensures FirstLine(ShowInt(i)) == ShowInt(i)
  {
    var s := ShowInt(i);
    assert forall k :: 0 <= k < |s| ==> s[k] != '\n';
  }
}
