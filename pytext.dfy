/**
 * The two pieces of Python text handling the blood-pressure handler relies on:
 * `str.split(sep)` on a one-character separator, and `int(str)` in base 10.
 */
module PyText {
  import opened Options

  /** Number of occurrences of `ch` in `s`. */
  function Count(s: string, ch: char): nat {
    if s == [] then 0 else (if s[0] == ch then 1 else 0) + Count(s[1..], ch)
  }

  lemma {:induction false} CountZero(s: string, ch: char)
    ensures Count(s, ch) == 0 <==> ch !in s
  {
    if s != [] {
      CountZero(s[1..], ch);
      assert s == [s[0]] + s[1..];
    }
  }

  /** The inverse of `Split`: the parts glued back together with the separator between them. */
  function Join(parts: seq<string>, sep: char): string
    requires |parts| >= 1
  {
    if |parts| == 1 then parts[0] else parts[0] + [sep] + Join(parts[1..], sep)
  }

  /**
   * Python's `s.split(sep)`: the maximal runs between separators, so an empty string
   * gives one empty part and there is always one part more than there are separators.
   */
  function Split(s: string, sep: char): (parts: seq<string>)
    ensures |parts| == Count(s, sep) + 1
    ensures forall i :: 0 <= i < |parts| ==> sep !in parts[i]
    ensures Join(parts, sep) == s
    decreases |s|
  {
    if |s| == 0 then [""]
    else
      var rest := Split(s[1..], sep);
      if s[0] == sep then
        var parts := [""] + rest;
        assert parts[1..] == rest;
        parts
      else
        var parts := [[s[0]] + rest[0]] + rest[1..];
        assert forall i :: 1 <= i < |parts| ==> parts[i] == rest[i];
        assert Join(parts, sep) == [s[0]] + Join(rest, sep) by {
          if |rest| > 1 { assert parts[1..] == rest[1..]; }
        }
        assert s == [s[0]] + s[1..];
        parts
  }

  /** A string without the separator splits into itself alone. */
  lemma {:induction false} SplitNoSeparator(s: string, sep: char)
    requires sep !in s
    ensures Split(s, sep) == [s]
  {
    CountZero(s, sep);
  }

  /** Splitting `a + sep + b`, where neither side holds `sep`, gives back exactly `a` and `b`. */
  lemma {:induction false} SplitAround(a: string, b: string, sep: char)
    requires sep !in a && sep !in b
    ensures Split(a + [sep] + b, sep) == [a, b]
  {
    var s := a + [sep] + b;
    if a == [] {
      assert s[1..] == b;
      SplitNoSeparator(b, sep);
    } else {
      assert s[1..] == a[1..] + [sep] + b;
      SplitAround(a[1..], b, sep);
      assert [s[0]] + a[1..] == a;
    }
  }

  predicate IsDigit(ch: char) { '0' <= ch <= '9' }

  /** The ASCII characters Python's `str.isspace` accepts. */
  predicate IsSpace(ch: char) {
    ch == ' ' || ('\t' <= ch <= '\r') || ('\U{1C}' <= ch <= '\U{1F}')
  }

  function StripLeft(s: string): (t: string)
    ensures |t| <= |s| && t == s[|s| - |t|..]
    ensures t == [] || !IsSpace(t[0])
    ensures forall i :: 0 <= i < |s| - |t| ==> IsSpace(s[i])
  {
    if s != [] && IsSpace(s[0]) then StripLeft(s[1..]) else s
  }

  function StripRight(s: string): (t: string)
    ensures |t| <= |s| && t == s[..|t|]
    ensures t == [] || !IsSpace(t[|t| - 1])
    ensures forall i :: |t| <= i < |s| ==> IsSpace(s[i])
  {
    if s != [] && IsSpace(s[|s| - 1]) then StripRight(s[..|s| - 1]) else s
  }

  /** Python's `str.strip()` for the whitespace of `IsSpace`. */
  function Strip(s: string): string {
    StripRight(StripLeft(s))
  }

  /** The value of a string of decimal digits, most significant first. */
  function DigitsValue(ds: string): nat
    requires forall i :: 0 <= i < |ds| ==> IsDigit(ds[i])
  {
    if ds == [] then 0
    else
      var last := ds[|ds| - 1];
      assert IsDigit(last);
      DigitsValue(ds[..|ds| - 1]) * 10 + (last as int - '0' as int)
  }

  /** The characters of `s` other than underscores. */
  function DropUnderscores(s: string): (t: string)
    ensures forall i :: 0 <= i < |t| ==> t[i] != '_' && t[i] in s
    ensures '_' !in s ==> t == s
  {
    if s == [] then []
    else if s[0] == '_' then DropUnderscores(s[1..])
    else [s[0]] + DropUnderscores(s[1..])
  }

  /**
   * The digit part of a Python integer literal: digits, where a single underscore may
   * separate two digits.
   */
  predicate ValidDigits(s: string) {
    && |s| > 0
    && IsDigit(s[0]) && IsDigit(s[|s| - 1])
    && (forall i :: 0 <= i < |s| ==> IsDigit(s[i]) || s[i] == '_')
    && (forall i :: 0 <= i < |s| - 1 ==> !(s[i] == '_' && s[i + 1] == '_'))
  }

  function ParseDigits(s: string): Option<nat> {
    if ValidDigits(s) then Some(DigitsValue(DropUnderscores(s))) else None
  }

  /**
   * Python's `int(s)`: surrounding whitespace is ignored, one optional sign, then the
   * digit part; None is the `ValueError` the blood-pressure handler catches.
   */
  function ParseInt(s: string): (r: Option<int>)
    ensures r.Some? ==> exists ch :: ch in s && IsDigit(ch)
  {
    var t := Strip(s);
    if |t| > 0 && (t[0] == '-' || t[0] == '+') then
      match ParseDigits(t[1..])
      case Some(v) => var n: int := v; Some(if t[0] == '-' then -n else n)
      case None => None
    else
      match ParseDigits(t)
      case Some(v) => Some(v)
      case None => None
  }

  function DigitChar(d: nat): char
    requires d < 10
  {
    ('0' as int + d) as char
  }

  /** Python's `str(n)` for a natural number. */
  function NatToString(n: nat): (s: string)
    ensures |s| > 0 && forall i :: 0 <= i < |s| ==> IsDigit(s[i])
  {
    if n < 10 then [DigitChar(n)] else NatToString(n / 10) + [DigitChar(n % 10)]
  }

  /** Python's `str(n)` for an integer. */
  function IntToString(n: int): string {
    if n < 0 then "-" + NatToString(-n) else NatToString(n)
  }

  lemma {:induction false} DigitsValueOfNatToString(n: nat)
    ensures DigitsValue(NatToString(n)) == n
  {
    if n >= 10 {
      DigitsValueOfNatToString(n / 10);
      var s := NatToString(n);
      assert s[..|s| - 1] == NatToString(n / 10);
    }
  }

  /** A text that neither starts nor ends with whitespace is its own strip. */
  lemma StripKeeps(s: string)
    requires s != [] && !IsSpace(s[0]) && !IsSpace(s[|s| - 1])
    ensures Strip(s) == s
  {
  }

  /** The digit part written for `n` reads back as `n`. */
  lemma ParseDigitsOfNatToString(n: nat)
    ensures ParseDigits(NatToString(n)) == Some(n)
  {
    var digits := NatToString(n);
    DigitsValueOfNatToString(n);
    assert '_' !in digits;
    assert ValidDigits(digits);
  }

  /** `int(str(n)) == n`: the parser reads back every integer the formatter writes. */
  lemma ParseIntOfIntToString(n: int)
    ensures ParseInt(IntToString(n)) == Some(n)
  {
    var s := IntToString(n);
    var digits := NatToString(if n < 0 then -n else n);
    ParseDigitsOfNatToString(if n < 0 then -n else n);
    assert s[|s| - 1] == digits[|digits| - 1];
    StripKeeps(s);
    if n < 0 {
      assert s[1..] == digits;
    } else {
      assert s == digits;
    }
  }

  /** One blank on each side of a text without surrounding whitespace is stripped away. */
  lemma StripSurrounding(s: string)
    requires s != [] && !IsSpace(s[0]) && !IsSpace(s[|s| - 1])
    ensures Strip([' '] + s + [' ']) == s
  {
    var padded := [' '] + s + [' '];
    assert padded[1..] == s + [' '];
    assert StripLeft(padded) == s + [' '];
    assert (s + [' '])[..|s|] == s;
  }

  /** A single underscore between digits is accepted: "1_2" reads as 12. */
  lemma DigitsExample()
    ensures ParseDigits("1_2") == Some(12)
  {
    var d := "1_2";
    assert ValidDigits(d);
    assert d[1..] == "_2";
    assert d[1..][1..] == "2";
    assert DropUnderscores(d) == "12";
    assert "12"[..1] == "1";
    assert "1"[..0] == "";
  }

  /** A text that strips to a plus sign and the digits of `n` reads as `n`. */
  lemma ParseIntOfPlusDigits(s: string, n: nat)
    requires Strip(s) == ['+'] + NatToString(n)
    ensures ParseInt(s) == Some(n)
  {
    ParseDigitsOfNatToString(n);
    assert Strip(s)[1..] == NatToString(n);
  }

  /** `int` accepts surrounding blanks and a plus sign. */
  lemma ParseIntAcceptsBlanksAndPlus(n: nat)
    ensures ParseInt(" +" + NatToString(n) + " ") == Some(n)
  {
    var digits := NatToString(n);
    var core := ['+'] + digits;
    assert " +" + digits + " " == [' '] + core + [' '];
    assert core[|core| - 1] == digits[|digits| - 1];
    StripSurrounding(core);
    ParseIntOfPlusDigits(" +" + digits + " ", n);
  }

  /**
   * The blood-pressure text "systolic/diastolic": split on '/', and both halves must be
   * integers. Any other number of parts, or a part `int` rejects, gives None.
   */
  function ParseBloodPressure(text: string): (r: Option<(int, int)>)
    ensures r.Some? ==> Count(text, '/') == 1
  {
    var parts := Split(text, '/');
    if |parts| != 2 then None
    else
      match (ParseInt(parts[0]), ParseInt(parts[1]))
      case (Some(sys), Some(dia)) => Some((sys, dia))
      case _ => None
  }

  /** A written integer holds no '/'. */
  lemma NoSlashInIntToString(n: int)
    ensures '/' !in IntToString(n)
  {
    assert '/' !in NatToString(if n < 0 then -n else n);
  }

  /** The reading written as "systolic/diastolic" parses back to the two numbers. */
  lemma ParseBloodPressureRoundTrip(sys: int, dia: int)
    ensures ParseBloodPressure(IntToString(sys) + "/" + IntToString(dia)) == Some((sys, dia))
  {
    var a, b := IntToString(sys), IntToString(dia);
    NoSlashInIntToString(sys);
    NoSlashInIntToString(dia);
    SplitAround(a, b, '/');
    assert a + "/" + b == a + ['/'] + b;
    ParseIntOfIntToString(sys);
    ParseIntOfIntToString(dia);
  }

  /** A text with more than one '/' is never a reading, whatever its parts hold. */
  lemma ParseBloodPressureNeedsOneSlash(text: string)
    requires Count(text, '/') != 1
    ensures ParseBloodPressure(text) == None
  {
  }
}
