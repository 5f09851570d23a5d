/** The Python string operations the core relies on (`split`, `join`,
    `strip`, `splitlines`, `in`, `rsplit`, `int`, `str`, `os.path.join`),
    each written out with the CPython behaviour the code depends on. */
module Text {
  import opened Common

  /** `c.isspace()`. */
  predicate IsSpace(c: char) {
    || c == ' ' || c == '\t' || c == '\n' || c == '\r' || c == '\U{000B}' || c == '\U{000C}'
    || ('\U{001C}' <= c <= '\U{001F}') || c == '\U{0085}' || c == '\U{00A0}' || c == '\U{1680}'
    || ('\U{2000}' <= c <= '\U{200A}') || c == '\U{2028}' || c == '\U{2029}' || c == '\U{202F}'
    || c == '\U{205F}' || c == '\U{3000}'
  }

  /** A line boundary of `str.splitlines()` (`\r\n` counts as one). */
  predicate IsLineBreak(c: char) {
    || c == '\n' || c == '\r' || c == '\U{000B}' || c == '\U{000C}'
    || ('\U{001C}' <= c <= '\U{001E}') || c == '\U{0085}' || c == '\U{2028}' || c == '\U{2029}'
  }

  predicate IsDigit(c: char) { '0' <= c <= '9' }

  predicate NoLineBreak(s: string) {
    forall j :: 0 <= j < |s| ==> !IsLineBreak(s[j])
  }

  /** A piece that `str.split()` can return: non-empty, no whitespace. */
  predicate IsToken(s: string) {
    s != [] && forall j :: 0 <= j < |s| ==> !IsSpace(s[j])
  }

  /** `sep.join(parts)`. */
  function Join(parts: seq<string>, sep: string): string
  {
    if parts == [] then ""
    else if |parts| == 1 then parts[0]
    else parts[0] + sep + Join(parts[1..], sep)
  }

  // ---------------------------------------------------------------------
  // str.split(sep)

  /** `s.split(sep)` for a one-character separator: the pieces between the
      separators, empty pieces included, so there is one more piece than
      there are separators. */
  function Split(s: string, sep: char): (parts: seq<string>)
    ensures |parts| >= 1
    ensures forall i :: 0 <= i < |parts| ==> sep !in parts[i]
    ensures Join(parts, [sep]) == s
  {
    if s == [] then [""]
    else if s[0] == sep then [""] + Split(s[1..], sep)
    else
      var rest := Split(s[1..], sep);
      [[s[0]] + rest[0]] + rest[1..]
  }

  lemma {:induction false} SplitNoSeparator(p: string, sep: char)
    requires sep !in p
    ensures Split(p, sep) == [p]
  {
    if p != [] {
      SplitNoSeparator(p[1..], sep);
      assert [p[0]] + p[1..] == p;
    }
  }

  lemma {:induction false} SplitAfterPiece(p: string, t: string, sep: char)
    requires sep !in p
    ensures Split(p + [sep] + t, sep) == [p] + Split(t, sep)
  {
    if p == [] {
      assert p + [sep] + t == [sep] + t;
      assert ([sep] + t)[1..] == t;
    } else {
      assert (p + [sep] + t)[1..] == p[1..] + [sep] + t;
      SplitAfterPiece(p[1..], t, sep);
      assert [p[0]] + p[1..] == p;
    }
  }

  /** Splitting undoes joining when no piece contains the separator. */
  lemma {:induction false} SplitJoin(parts: seq<string>, sep: char)
    requires |parts| >= 1
    requires forall i :: 0 <= i < |parts| ==> sep !in parts[i]
    ensures Split(Join(parts, [sep]), sep) == parts
  {
    if |parts| == 1 {
      SplitNoSeparator(parts[0], sep);
    } else {
      SplitJoin(parts[1..], sep);
      SplitAfterPiece(parts[0], Join(parts[1..], [sep]), sep);
      assert [parts[0]] + parts[1..] == parts;
    }
  }

  /** `s.split(sep)` has a second piece exactly when `s` contains `sep`. */
  lemma SplitHasSecond(s: string, sep: char)
    ensures |Split(s, sep)| >= 2 <==> sep in s
  {
    var parts := Split(s, sep);
    if |parts| == 1 {
      assert s == parts[0];
    } else {
      assert s == parts[0] + [sep] + Join(parts[1..], [sep]);
      assert s[|parts[0]|] == sep;
    }
  }

  // ---------------------------------------------------------------------
  // str.split() on whitespace

  /** Length of the leading run of non-whitespace characters. */
  function TokenLength(s: string): (n: nat)
    ensures n <= |s|
    ensures forall i :: 0 <= i < n ==> !IsSpace(s[i])
    ensures n < |s| ==> IsSpace(s[n])
  {
    if s == [] || IsSpace(s[0]) then 0 else 1 + TokenLength(s[1..])
  }

  /** `s.split()`: the maximal runs of non-whitespace characters. */
  function Fields(s: string): (fs: seq<string>)
    ensures forall i :: 0 <= i < |fs| ==> IsToken(fs[i])
    decreases |s|
  {
    if s == [] then []
    else if IsSpace(s[0]) then Fields(s[1..])
    else
      var n := TokenLength(s);
      [s[..n]] + Fields(s[n..])
  }

  lemma {:induction false} TokenLengthOfToken(t: string, rest: string)
    requires forall j :: 0 <= j < |t| ==> !IsSpace(t[j])
    requires rest == [] || IsSpace(rest[0])
    ensures TokenLength(t + rest) == |t|
  {
    if t == [] {
      assert t + rest == rest;
    } else {
      assert (t + rest)[1..] == t[1..] + rest;
      TokenLengthOfToken(t[1..], rest);
    }
  }

  /** Splitting on whitespace undoes joining tokens with single spaces. */
  lemma {:induction false} FieldsJoin(ts: seq<string>)
    requires forall i :: 0 <= i < |ts| ==> IsToken(ts[i])
    ensures Fields(Join(ts, " ")) == ts
  {
    if ts == [] {
    } else if |ts| == 1 {
      TokenLengthOfToken(ts[0], []);
      assert ts[0] + [] == ts[0];
      assert ts[0][..|ts[0]|] == ts[0] && ts[0][|ts[0]|..] == [];
    } else {
      var t, rest := ts[0], Join(ts[1..], " ");
      var s := t + " " + rest;
      assert s == Join(ts, " ");
      assert s == t + (" " + rest);
      TokenLengthOfToken(t, " " + rest);
      assert s[..|t|] == t;
      assert s[|t|..] == " " + rest;
      assert (" " + rest)[1..] == rest;
      FieldsJoin(ts[1..]);
      assert [t] + ts[1..] == ts;
    }
  }

  // ---------------------------------------------------------------------
  // str.strip()

  function StripLeft(s: string): (r: string)
    ensures |r| <= |s| && r == s[|s| - |r|..]
    ensures forall i :: 0 <= i < |s| - |r| ==> IsSpace(s[i])
    ensures r != [] ==> !IsSpace(r[0])
  {
    if s != [] && IsSpace(s[0]) then StripLeft(s[1..]) else s
  }

  function StripRight(s: string): (r: string)
    ensures |r| <= |s| && r == s[..|r|]
    ensures forall i :: |r| <= i < |s| ==> IsSpace(s[i])
    ensures r != [] ==> !IsSpace(r[|r| - 1])
  {
    if s != [] && IsSpace(s[|s| - 1]) then StripRight(s[..|s| - 1]) else s
  }

  /** `s.strip()`: the result neither starts nor ends with whitespace, is
      empty exactly when `s` is all whitespace, and leaves text that has
      nothing to strip as it is. */
  function Strip(s: string): (r: string)
    ensures r != [] ==> !IsSpace(r[0]) && !IsSpace(r[|r| - 1])
    ensures r == [] <==> forall i :: 0 <= i < |s| ==> IsSpace(s[i])
    ensures s == [] || (!IsSpace(s[0]) && !IsSpace(s[|s| - 1])) ==> r == s
  {
    var l := StripLeft(s);
    var r := StripRight(l);
    assert r != [] ==> r[0] == l[0];
    assert r == [] ==> l == [];
    assert l == [] ==> forall i :: 0 <= i < |s| ==> IsSpace(s[i]);
    r
  }

  // ---------------------------------------------------------------------
  // str.splitlines()

  /** Length of the leading run of characters that are not line breaks. */
  function LineLength(s: string): (n: nat)
    ensures n <= |s|
    ensures forall i :: 0 <= i < n ==> !IsLineBreak(s[i])
    ensures n < |s| ==> IsLineBreak(s[n])
  {
    if s == [] || IsLineBreak(s[0]) then 0 else 1 + LineLength(s[1..])
  }

  /** `s.splitlines()`: the lines without their terminators; a final
      terminator does not start another line. */
  function SplitLines(s: string): (lines: seq<string>)
    ensures forall i :: 0 <= i < |lines| ==> NoLineBreak(lines[i])
    ensures lines == [] <==> s == []
    decreases |s|
  {
    if s == [] then []
    else
      var n := LineLength(s);
      if n == |s| then [s]
      else
        var next := if s[n] == '\r' && n + 1 < |s| && s[n + 1] == '\n' then n + 2 else n + 1;
        [s[..n]] + SplitLines(s[next..])
  }

  lemma {:induction false} LineLengthOfLine(t: string, rest: string)
    requires NoLineBreak(t)
    requires rest == [] || IsLineBreak(rest[0])
    ensures LineLength(t + rest) == |t|
  {
    if t == [] {
      assert t + rest == rest;
    } else {
      assert (t + rest)[1..] == t[1..] + rest;
      LineLengthOfLine(t[1..], rest);
    }
  }

  /** Splitting into lines undoes joining with `\n`, provided the lines hold
      no break and the last one is not empty (a trailing `\n` is dropped). */
  lemma {:induction false} SplitLinesJoin(lines: seq<string>)
    requires |lines| >= 1 && lines[|lines| - 1] != []
    requires forall i :: 0 <= i < |lines| ==> NoLineBreak(lines[i])
    ensures SplitLines(Join(lines, "\n")) == lines
  {
    if |lines| == 1 {
      LineLengthOfLine(lines[0], []);
      assert lines[0] + [] == lines[0];
    } else {
      var t, rest := lines[0], Join(lines[1..], "\n");
      var s := t + "\n" + rest;
      assert s == Join(lines, "\n");
      assert s == t + ("\n" + rest);
      LineLengthOfLine(t, "\n" + rest);
      assert s[..|t|] == t;
      assert s[|t| + 1..] == rest;
      SplitLinesJoin(lines[1..]);
      assert [t] + lines[1..] == lines;
    }
  }

  // ---------------------------------------------------------------------
  // `needle in hay`, str.rsplit(c, 1)[-1]

  /** `needle in hay` for strings: some suffix of `hay` starts with
      `needle`. */
  function Occurs(needle: string, hay: string): (r: bool)
    ensures r <==> exists i :: 0 <= i <= |hay| && needle <= hay[i..]
    decreases |hay|
  {
    if needle <= hay then (assert hay[0..] == hay; true)
    else if hay == [] then false
    else
      (assert forall i :: 1 <= i <= |hay| ==> hay[1..][i - 1..] == hay[i..];
       Occurs(needle, hay[1..]))
  }

  /** `s.rsplit(c, 1)[-1]`: the text after the last `c`, or all of `s`
      when it has none. */
  function AfterLast(s: string, c: char): (r: string)
    ensures c !in r
    ensures |r| <= |s| && r == s[|s| - |r|..]
    ensures |r| < |s| ==> s[|s| - |r| - 1] == c
  {
    if s == [] then []
    else if s[|s| - 1] == c then []
    else AfterLast(s[..|s| - 1], c) + [s[|s| - 1]]
  }

  /** The text after the last `c` of `p + [c] + v` is `v` when `v` has no `c`. */
  lemma {:induction false} AfterLastOf(p: string, v: string, c: char)
    requires c !in v
    ensures AfterLast(p + [c] + v, c) == v
  {
    var s := p + [c] + v;
    if v != [] {
      var w := v[..|v| - 1];
      assert s[..|s| - 1] == p + [c] + w;
      AfterLastOf(p, w, c);
      assert w + [v[|v| - 1]] == v;
    }
  }

  /** Without any `c`, `rsplit(c, 1)[-1]` is the whole string. */
  lemma {:induction false} AfterLastNone(s: string, c: char)
    requires c !in s
    ensures AfterLast(s, c) == s
  {
    if s != [] {
      var init := s[..|s| - 1];
      assert s[|s| - 1] in s;
      assert forall x :: x in init ==> x in s;
      AfterLastNone(init, c);
      assert AfterLast(s, c) == AfterLast(init, c) + [s[|s| - 1]];
      assert init + [s[|s| - 1]] == s;
    }
  }

  /** Joining peels off the last piece. */
  lemma {:induction false} JoinLast(parts: seq<string>, sep: string)
    requires |parts| >= 2
    ensures Join(parts, sep) == Join(parts[..|parts| - 1], sep) + sep + parts[|parts| - 1]
  {
    if |parts| > 2 {
      JoinLast(parts[1..], sep);
      assert parts[1..][..|parts| - 2] == parts[..|parts| - 1][1..];
    }
  }

  /** `s.split(sep)[-1]` is `s.rsplit(sep, 1)[-1]`. */
  lemma SplitLastIsAfterLast(s: string, sep: char)
    ensures Split(s, sep)[|Split(s, sep)| - 1] == AfterLast(s, sep)
  {
    var parts := Split(s, sep);
    var n := |parts|;
    if n == 1 {
      assert s == parts[0];
      AfterLastNone(s, sep);
    } else {
      JoinLast(parts, [sep]);
      AfterLastOf(Join(parts[..n - 1], [sep]), parts[n - 1], sep);
    }
  }

  // ---------------------------------------------------------------------
  // int(s) and str(n)

  function DigitChar(d: nat): (c: char)
    requires d < 10
    ensures IsDigit(c)
  {
    ('0' as int + d) as char
  }

  function DigitValue(c: char): nat
    requires IsDigit(c)
  {
    c as int - '0' as int
  }

  /** `str(n)` for `n >= 0`. */
  function NatToDecimal(n: nat): (s: string)
    ensures s != [] && forall i :: 0 <= i < |s| ==> IsDigit(s[i])
  {
    if n < 10 then [DigitChar(n)] else NatToDecimal(n / 10) + [DigitChar(n % 10)]
  }

  /** `str(n)`. */
  function IntToDecimal(n: int): string
  {
    if n < 0 then "-" + NatToDecimal(-n) else NatToDecimal(n)
  }

  /** The digits `int()` accepts: ASCII digits, with single underscores
      allowed between two digits. */
  predicate ValidDigits(s: string) {
    s != [] && IsDigit(s[0]) && DigitsAfterFirst(s[1..])
  }

  predicate DigitsAfterFirst(s: string)
    decreases |s|
  {
    || s == []
    || (IsDigit(s[0]) && DigitsAfterFirst(s[1..]))
    || (|s| >= 2 && s[0] == '_' && IsDigit(s[1]) && DigitsAfterFirst(s[2..]))
  }

  lemma {:induction false} AllDigitsValid(s: string)
    requires forall i :: 0 <= i < |s| ==> IsDigit(s[i])
    ensures DigitsAfterFirst(s)
    ensures s != [] ==> ValidDigits(s)
  {
    if s != [] { AllDigitsValid(s[1..]); }
  }

  /** The number the digits of `s` spell, underscores skipped. */
  function DigitsValue(s: string): nat
  {
    if s == [] then 0
    else if IsDigit(s[|s| - 1]) then DigitsValue(s[..|s| - 1]) * 10 + DigitValue(s[|s| - 1])
    else DigitsValue(s[..|s| - 1])
  }

  /** `int(s)`: surrounding whitespace, an optional sign, then digits;
      `None` where Python raises ValueError. */
  function ParseInt(s: string): Option<int>
  {
    ParseSigned(Strip(s))
  }

  /** `int()` once the whitespace is stripped. */
  function ParseSigned(t: string): Option<int>
  {
    if t != [] && (t[0] == '-' || t[0] == '+') then
      if ValidDigits(t[1..]) then
        var magnitude: int := DigitsValue(t[1..]);
        Some(if t[0] == '-' then -magnitude else magnitude)
      else None
    else if ValidDigits(t) then Some(DigitsValue(t))
    else None
  }

  lemma {:induction false} DecimalValue(n: nat)
    ensures ValidDigits(NatToDecimal(n))
    ensures DigitsValue(NatToDecimal(n)) == n
  {
    AllDigitsValid(NatToDecimal(n));
    if n >= 10 {
      DecimalValue(n / 10);
      var s := NatToDecimal(n);
      assert s[..|s| - 1] == NatToDecimal(n / 10);
    }
  }

  /** Unpadded unsigned digits parse to the number they spell. */
  lemma ParseUnsigned(t: string)
    requires ValidDigits(t) && IsDigit(t[|t| - 1])
    ensures ParseInt(t) == Some(DigitsValue(t))
  {
    StripDigits(t);
  }

  /** Digits are not stripped. */
  lemma StripDigits(t: string)
    requires ValidDigits(t) && IsDigit(t[|t| - 1])
    ensures Strip(t) == t
  {
    assert !IsSpace(t[0]) && !IsSpace(t[|t| - 1]);
  }

  /** A minus sign before unpadded digits negates them. */
  lemma ParseMinus(d: string)
    requires ValidDigits(d) && IsDigit(d[|d| - 1])
    ensures ParseInt("-" + d) == Some(0 - DigitsValue(d))
  {
    StripMinus(d);
    SignedMinus(d);
  }

  /** A minus sign before digits is not stripped. */
  lemma StripMinus(d: string)
    requires ValidDigits(d) && IsDigit(d[|d| - 1])
    ensures Strip("-" + d) == "-" + d
  {
    var s := "-" + d;
    assert s[0] == '-' && s[|s| - 1] == d[|d| - 1];
  }

  /** The sign read off the stripped text. */
  lemma SignedMinus(d: string)
    requires ValidDigits(d)
    ensures ParseSigned("-" + d) == Some(0 - DigitsValue(d))
  {
    var s := "-" + d;
    assert s[1..] == d;
  }

  lemma ParseNatDecimal(n: nat)
    ensures ParseInt(NatToDecimal(n)) == Some(n)
  {
    var s := NatToDecimal(n);
    DecimalValue(n);
    assert IsDigit(s[|s| - 1]);
    ParseUnsigned(s);
  }

  lemma ParseNegativeDecimal(n: int)
    requires n < 0
    ensures ParseInt(IntToDecimal(n)) == Some(n)
  {
    var m: nat := -n;
    var d := NatToDecimal(m);
    DecimalValue(m);
    assert IsDigit(d[|d| - 1]);
    ParseMinus(d);
    NegativeDecimal(n, d);
  }

  /** `str(n)` of a negative `n` is a minus sign before `str(-n)`. */
  lemma NegativeDecimal(n: int, d: string)
    requires n < 0 && d == NatToDecimal(-n)
    ensures IntToDecimal(n) == "-" + d
  {
  }

  /** `int(str(n)) == n`. */
  lemma ParseIntDecimal(n: int)
    ensures ParseInt(IntToDecimal(n)) == Some(n)
  {
    if n < 0 { ParseNegativeDecimal(n); } else { ParseNatDecimal(n); }
  }

  // ---------------------------------------------------------------------
  // os.path.join

  /** `os.path.join(a, b)` on POSIX: an absolute `b` replaces `a`, otherwise
      `b` is appended after a single `/`. */
  function PathJoin(a: string, b: string): string
  {
    if b != [] && b[0] == '/' then b
    else if a == [] || a[|a| - 1] == '/' then a + b
    else a + "/" + b
  }
}
