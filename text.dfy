/**
 * The Python string built-ins the two core files lean on: `str.strip()`,
 * `str.isdigit()`, `int(str)` and the decimal rendering used in f-strings.
 * Characters are Unicode scalar values, as in Python 3.
 */
module Text {
  import opened Common

  /** Python's `str.isspace()` for one character (the whitespace `strip()` removes). */
  predicate IsSpace(c: char)
  {
    c == ' ' || ('\t' <= c <= '\r') || ('\U{1c}' <= c <= '\U{1f}') ||
    c == '\U{85}' || c == '\U{a0}' || c == '\U{1680}' || ('\U{2000}' <= c <= '\U{200a}') ||
    c == '\U{2028}' || c == '\U{2029}' || c == '\U{202f}' || c == '\U{205f}' || c == '\U{3000}'
  }

  /**
   * The whitespace `int()` skips around a literal: every non-ASCII `isspace()`
   * character (CPython maps them to a space first) and the ASCII space and
   * `\t` to `\r`, but not the ASCII separators U+001C to U+001F.
   */
  predicate IsIntSpace(c: char)
  {
    IsSpace(c) && !('\U{1c}' <= c <= '\U{1f}')
  }

  /** Which whitespace is stripped: that of `str.strip()` or that of `int()`. */
  datatype Blanks = StrBlanks | IntBlanks

  predicate IsBlank(c: char, w: Blanks)
  {
    if w == StrBlanks then IsSpace(c) else IsIntSpace(c)
  }

  /** Number of whitespace characters at the start of `s`. */
  function LeadingSpaces(s: string, w: Blanks): (n: nat)
    ensures n <= |s|
    ensures forall k :: 0 <= k < n ==> IsBlank(s[k], w)
    ensures n < |s| ==> !IsBlank(s[n], w)
  {
    if |s| == 0 || !IsBlank(s[0], w) then 0 else 1 + LeadingSpaces(s[1..], w)
  }

  /** Number of whitespace characters at the end of `s`. */
  function TrailingSpaces(s: string, w: Blanks): (n: nat)
    ensures n <= |s|
    ensures forall k :: |s| - n <= k < |s| ==> IsBlank(s[k], w)
    ensures n < |s| ==> !IsBlank(s[|s| - 1 - n], w)
  {
    if |s| == 0 || !IsBlank(s[|s| - 1], w) then 0 else 1 + TrailingSpaces(s[..|s| - 1], w)
  }

  /** `s` without its leading and trailing whitespace of kind `w`. */
  function StripBlanks(s: string, w: Blanks): (r: string)
    ensures |r| <= |s|
    ensures r == [] <==> forall k :: 0 <= k < |s| ==> IsBlank(s[k], w)
    ensures r != [] ==> !IsBlank(r[0], w) && !IsBlank(r[|r| - 1], w)
    ensures LeadingSpaces(s, w) + |r| <= |s| && r == s[LeadingSpaces(s, w)..LeadingSpaces(s, w) + |r|]
    ensures forall k :: LeadingSpaces(s, w) + |r| <= k < |s| ==> IsBlank(s[k], w)
  {
    var a := LeadingSpaces(s, w);
    if a == |s| then
      assert s[a..a] == [];
      []
    else
      var b := TrailingSpaces(s[a..], w);
      assert b < |s| - a;
      s[a..|s| - b]
  }

  /** Python's `s.strip()`: `s` without its leading and trailing whitespace. */
  function Strip(s: string): (r: string)
    ensures |r| <= |s|
    ensures r == [] <==> forall k :: 0 <= k < |s| ==> IsSpace(s[k])
    ensures r != [] ==> !IsSpace(r[0]) && !IsSpace(r[|r| - 1])
    ensures LeadingSpaces(s, StrBlanks) + |r| <= |s|
    ensures r == s[LeadingSpaces(s, StrBlanks)..LeadingSpaces(s, StrBlanks) + |r|]
    ensures forall k :: LeadingSpaces(s, StrBlanks) + |r| <= k < |s| ==> IsSpace(s[k])
  {
    StripBlanks(s, StrBlanks)
  }

  /** Stripping a second time changes nothing. */
  lemma StripIdempotent(s: string)
    ensures Strip(Strip(s)) == Strip(s)
  {
    StripBlanksIdempotent(s, StrBlanks);
  }

  lemma StripBlanksIdempotent(s: string, w: Blanks)
    ensures StripBlanks(StripBlanks(s, w), w) == StripBlanks(s, w)
  {
    var r := StripBlanks(s, w);
    if r != [] {
      assert LeadingSpaces(r, w) == 0;
      assert TrailingSpaces(r[0..], w) == 0 by { assert r[0..] == r; }
      assert r[0..|r|] == r;
    }
  }

  /**
   * The decimal digits `int()` accepts: ASCII, Arabic-Indic, extended
   * Arabic-Indic, Devanagari and full-width (the other scripts' decimal
   * digits are not part of this model).
   */
  predicate IsDecimal(c: char)
  {
    ('0' <= c <= '9') || ('\U{660}' <= c <= '\U{669}') || ('\U{6f0}' <= c <= '\U{6f9}')
      || ('\U{966}' <= c <= '\U{96f}') || ('０' <= c <= '９')
  }

  /**
   * Characters `str.isdigit()` accepts that are no decimal digits: the
   * superscript and subscript digits, the Ethiopic digits, the New Tai Lue
   * digit one, and the circled, parenthesized, full-stop, negative-circled,
   * double-circled and dingbat digits of the Enclosed Alphanumerics and
   * Dingbats blocks (those of the supplementary planes are not part of this
   * model).
   */
  predicate IsOtherDigit(c: char)
  {
    c == '\U{b2}' || c == '\U{b3}' || c == '\U{b9}' || ('\U{1369}' <= c <= '\U{1371}') || c == '\U{19da}'
      || c == '\U{2070}' || ('\U{2074}' <= c <= '\U{2079}') || ('\U{2080}' <= c <= '\U{2089}')
      || ('\U{2460}' <= c <= '\U{2468}') || ('\U{2474}' <= c <= '\U{247c}') || ('\U{2488}' <= c <= '\U{2490}')
      || c == '\U{24ea}' || ('\U{24f5}' <= c <= '\U{24fd}') || c == '\U{24ff}'
      || ('\U{2776}' <= c <= '\U{277e}') || ('\U{2780}' <= c <= '\U{2788}') || ('\U{278a}' <= c <= '\U{2792}')
  }

  /** Python's `str.isdigit()` for one character. */
  predicate IsDigit(c: char)
  {
    IsDecimal(c) || IsOtherDigit(c)
  }

  function DigitValue(c: char): (d: nat)
    requires IsDecimal(c)
    ensures d < 10
  {
    if '0' <= c <= '9' then (c as int) - ('0' as int)
    else if '\U{660}' <= c <= '\U{669}' then (c as int) - 0x660
    else if '\U{6f0}' <= c <= '\U{6f9}' then (c as int) - 0x6f0
    else if '\U{966}' <= c <= '\U{96f}' then (c as int) - 0x966
    else (c as int) - ('０' as int)
  }

  /** `[c for c in s if c.isdigit()]`: the digit characters of `s`, in order. */
  function Digits(s: string): (ds: string)
    ensures |ds| <= |s|
    ensures forall k :: 0 <= k < |ds| ==> IsDigit(ds[k])
    ensures ds == [] <==> forall k :: 0 <= k < |s| ==> !IsDigit(s[k])
  {
    if s == [] then []
    else if IsDigit(s[0]) then [s[0]] + Digits(s[1..])
    else Digits(s[1..])
  }

  lemma {:induction false} DigitsAppend(a: string, b: string)
    ensures Digits(a + b) == Digits(a) + Digits(b)
  {
    if a == [] {
      assert a + b == b;
    } else {
      assert (a + b)[1..] == a[1..] + b;
      DigitsAppend(a[1..], b);
    }
  }

  /** Every character of a digit string is kept by `Digits`. */
  lemma {:induction false} DigitsOfDigitString(ds: string)
    requires forall k :: 0 <= k < |ds| ==> IsDigit(ds[k])
    ensures Digits(ds) == ds
  {
    if ds != [] {
      DigitsOfDigitString(ds[1..]);
    }
  }

  /** The number a string of decimal digits denotes (most significant digit first). */
  function DigitsValue(ds: string): (v: nat)
    requires forall k :: 0 <= k < |ds| ==> IsDecimal(ds[k])
  {
    if ds == [] then 0
    else DigitsValue(ds[..|ds| - 1]) * 10 + DigitValue(ds[|ds| - 1])
  }

  function AsciiDigit(d: nat): (c: char)
    requires d < 10
    ensures '0' <= c <= '9' && IsDecimal(c) && DigitValue(c) == d
  {
    ('0' as int + d) as char
  }

  /** The decimal rendering of a natural number that `str()` and f-strings produce. */
  function NatToString(n: nat): (s: string)
    ensures |s| >= 1
  {
    if n < 10 then [AsciiDigit(n)] else NatToString(n / 10) + [AsciiDigit(n % 10)]
  }

  /** The rendering is made of decimal digits and has no leading zero. */
  lemma {:induction false} NatToStringDecimal(n: nat)
    ensures AllDecimal(NatToString(n))
    ensures |NatToString(n)| > 1 ==> NatToString(n)[0] != '0'
  {
    if n >= 10 {
      NatToStringDecimal(n / 10);
      var s, pre := NatToString(n), NatToString(n / 10);
      assert s == pre + [AsciiDigit(n % 10)];
      forall k | 0 <= k < |s|
        ensures IsDecimal(s[k])
      {
        if k < |pre| {
          assert s[k] == pre[k];
        }
      }
      if |pre| == 1 {
        assert pre == [AsciiDigit(n / 10)];
      }
    }
  }

  /** The rendering uses the ASCII digits only. */
  lemma {:induction false} NatToStringAscii(n: nat)
    ensures forall k :: 0 <= k < |NatToString(n)| ==> '0' <= NatToString(n)[k] <= '9'
  {
    if n >= 10 {
      NatToStringAscii(n / 10);
      var s, pre := NatToString(n), NatToString(n / 10);
      assert s == pre + [AsciiDigit(n % 10)];
      forall k | 0 <= k < |s|
        ensures '0' <= s[k] <= '9'
      {
        if k < |pre| {
          assert s[k] == pre[k];
        }
      }
    }
  }

  /** Reading back a rendered number gives the number. */
  lemma {:induction false} NatToStringRoundTrip(n: nat)
    ensures AllDecimal(NatToString(n)) && DigitsValue(NatToString(n)) == n
  {
    NatToStringDecimal(n);
    if n >= 10 {
      NatToStringRoundTrip(n / 10);
      var s := NatToString(n);
      assert s[..|s| - 1] == NatToString(n / 10);
    }
  }

  /** The decimal rendering of an integer, with a leading `-` when negative. */
  function IntToString(i: int): (s: string)
    ensures |s| >= 1
  {
    if i < 0 then "-" + NatToString(-i) else NatToString(i)
  }

  /** CPython's default limit on the number of digits `int(str)` accepts (version 3.11 and later). */
  const MaxStrDigits: nat := 4300

  predicate AllDecimal(ds: string)
  {
    forall k :: 0 <= k < |ds| ==> IsDecimal(ds[k])
  }

  /**
   * `int(ds)` for a string of `isdigit()` characters: `None` where Python
   * raises `ValueError` (the empty string, a digit that is no decimal digit,
   * or more digits than the conversion limit allows).
   */
  function IntOfDigits(ds: string): Option<nat>
  {
    if ds == [] || |ds| > MaxStrDigits || !AllDecimal(ds) then None else Some(DigitsValue(ds))
  }

  /** The integer literal body `int()` accepts: digits, single underscores between digits. */
  predicate IsIntBody(b: string)
  {
    && |b| > 0
    && IsDecimal(b[0]) && IsDecimal(b[|b| - 1])
    && (forall k :: 0 <= k < |b| ==> IsDecimal(b[k]) || b[k] == '_')
    && (forall k :: 0 <= k < |b| - 1 ==> !DoubleUnderscoreAt(b, k))
  }

  predicate DoubleUnderscoreAt(b: string, k: nat)
    requires k + 1 < |b|
  {
    b[k] == '_' && b[k + 1] == '_'
  }

  /** The literal with its `_` separators dropped. */
  function WithoutUnderscores(b: string): (r: string)
    ensures |r| <= |b|
  {
    if b == [] then [] else (if b[0] == '_' then [] else [b[0]]) + WithoutUnderscores(b[1..])
  }

  /** A literal without separators is kept whole. */
  lemma {:induction false} NoUnderscores(b: string)
    requires forall k :: 0 <= k < |b| ==> b[k] != '_'
    ensures WithoutUnderscores(b) == b
  {
    if b != [] {
      NoUnderscores(b[1..]);
    }
  }

  /** Whether a stripped literal carries a minus sign. */
  predicate IsNegative(t: string)
  {
    |t| > 0 && t[0] == '-'
  }

  /** A stripped literal without its sign. */
  function Unsigned(t: string): (b: string)
    ensures |b| <= |t|
  {
    if |t| > 0 && (t[0] == '-' || t[0] == '+') then t[1..] else t
  }

  /** `int()` of a literal that has already been stripped. */
  function ParseStripped(t: string): (r: Option<int>)
  {
    var body := Unsigned(t);
    if !IsIntBody(body) then None
    else
      match IntOfDigits(WithoutUnderscores(body))
      case None => None
      case Some(v) => Some(if IsNegative(t) then -(v as int) else v as int)
  }

  /** Python's `int(s)` on a string: `None` where it raises `ValueError`. */
  function ParseInt(s: string): (r: Option<int>)
  {
    ParseStripped(StripBlanks(s, IntBlanks))
  }

  /** A string that neither starts nor ends with whitespace is its own strip. */
  lemma StripUnpadded(s: string, w: Blanks)
    requires s != [] && !IsBlank(s[0], w) && !IsBlank(s[|s| - 1], w)
    ensures StripBlanks(s, w) == s
  {
    assert LeadingSpaces(s, w) == 0;
    assert s[0..] == s;
    assert TrailingSpaces(s, w) == 0;
    assert s[0..|s|] == s;
  }

  /** `int()` of an already stripped, unsigned digit string. */
  lemma ParseStrippedUnsigned(ds: string)
    requires 1 <= |ds| <= MaxStrDigits
    requires forall k :: 0 <= k < |ds| ==> IsDecimal(ds[k])
    ensures ParseStripped(ds) == Some(DigitsValue(ds) as int)
  {
    assert Unsigned(ds) == ds && !IsNegative(ds) by {
      assert IsDecimal(ds[0]);
    }
    DecimalIsIntBody(ds);
    NoUnderscores(ds);
    assert AllDecimal(ds);
  }

  /** A non-empty run of decimal digits is an integer literal body. */
  lemma DecimalIsIntBody(ds: string)
    requires |ds| >= 1 && forall k :: 0 <= k < |ds| ==> IsDecimal(ds[k])
    ensures IsIntBody(ds)
  {
    forall k | 0 <= k < |ds| - 1
      ensures !DoubleUnderscoreAt(ds, k)
    {
      assert IsDecimal(ds[k]);
    }
  }

  /** `int()` of an already stripped, `-`-signed digit string. */
  lemma ParseStrippedNegative(s: string)
    requires 2 <= |s| <= MaxStrDigits + 1 && s[0] == '-'
    requires forall k :: 0 <= k < |s[1..]| ==> IsDecimal(s[1..][k])
    ensures ParseStripped(s) == Some(-(DigitsValue(s[1..]) as int))
  {
    assert Unsigned(s) == s[1..] && IsNegative(s);
    DecimalIsIntBody(s[1..]);
    NoUnderscores(s[1..]);
    assert AllDecimal(s[1..]);
  }

  /** `int()` reads back what `str()` renders, within the digit limit. */
  lemma ParseIntRoundTrip(i: int)
    requires |IntToString(i)| <= MaxStrDigits
    ensures ParseInt(IntToString(i)) == Some(i)
  {
    var s := IntToString(i);
    var n: nat := if i < 0 then -i else i;
    NatToStringRoundTrip(n);
    if i < 0 {
      assert s == "-" + NatToString(n);
      assert s[1..] == NatToString(n);
      ParseStrippedNegative(s);
      assert IsDecimal(s[|s| - 1]) by {
        assert s[|s| - 1] == s[1..][|s| - 2];
      }
      StripUnpadded(s, IntBlanks);
    } else {
      JoinedDecimal(s);
    }
  }

  /**
   * `int()` of joined `isdigit()` characters: `None` exactly where the digits
   * are none, include one that is no decimal digit, or exceed the limit.
   */
  lemma ParseJoinedDigits(ds: string)
    requires forall k :: 0 <= k < |ds| ==> IsDigit(ds[k])
    ensures ParseInt(ds) == match IntOfDigits(ds) case None => None case Some(v) => Some(v as int)
    ensures ParseInt(ds).None? <==> ds == [] || |ds| > MaxStrDigits || !AllDecimal(ds)
    ensures ParseInt(ds).Some? ==> ParseInt(ds).value == DigitsValue(ds)
  {
    if ds == [] {
      assert StripBlanks(ds, IntBlanks) == [];
    } else if AllDecimal(ds) {
      JoinedDecimal(ds);
    } else {
      JoinedNotDecimal(ds);
    }
  }

  /** Joined digits that are all decimal read as their decimal value, within the limit. */
  lemma JoinedDecimal(ds: string)
    requires ds != [] && AllDecimal(ds)
    ensures ParseInt(ds) == if |ds| > MaxStrDigits then None else Some(DigitsValue(ds) as int)
  {
    assert IsDecimal(ds[0]) && IsDecimal(ds[|ds| - 1]);
    assert !IsBlank(ds[0], IntBlanks) && !IsBlank(ds[|ds| - 1], IntBlanks) by {
      DigitIsNoSign(ds[0]);
      DigitIsNoSign(ds[|ds| - 1]);
    }
    StripUnpadded(ds, IntBlanks);
    if |ds| <= MaxStrDigits {
      ParseStrippedUnsigned(ds);
    } else {
      TooManyDigits(ds);
    }
  }

  /** A literal with more digits than the limit is refused. */
  lemma TooManyDigits(ds: string)
    requires |ds| > MaxStrDigits && AllDecimal(ds)
    ensures ParseStripped(ds).None?
  {
    assert IsDecimal(ds[0]);
    assert Unsigned(ds) == ds;
    NoUnderscores(ds);
    assert IntOfDigits(ds).None?;
  }

  /** Joined digits with one that is no decimal digit are refused. */
  lemma JoinedNotDecimal(ds: string)
    requires forall k :: 0 <= k < |ds| ==> IsDigit(ds[k])
    requires !AllDecimal(ds)
    ensures ParseInt(ds).None?
  {
    var k :| 0 <= k < |ds| && !IsDecimal(ds[k]);
    DigitIsNoSign(ds[0]);
    DigitIsNoSign(ds[|ds| - 1]);
    DigitIsNoSign(ds[k]);
    StripUnpadded(ds, IntBlanks);
    assert Unsigned(ds) == ds;
    assert !IsIntBody(ds);
  }

  /** An `isdigit()` character is neither whitespace, a separator nor a sign. */
  lemma DigitIsNoSign(c: char)
    requires IsDigit(c)
    ensures !IsSpace(c) && c != '_' && c != '-' && c != '+'
  {
  }

  /**
   * `int()` ignores the whitespace around a literal, and fails on a text
   * with no decimal digit at all.
   */
  lemma ParseIntWhitespace(s: string)
    ensures ParseInt(StripBlanks(s, IntBlanks)) == ParseInt(s)
    ensures (forall k :: 0 <= k < |s| ==> !IsDecimal(s[k])) ==> ParseInt(s).None?
  {
    StripBlanksIdempotent(s, IntBlanks);
    var t := StripBlanks(s, IntBlanks);
    var body := Unsigned(t);
    if IsIntBody(body) {
      var a := LeadingSpaces(s, IntBlanks);
      var j := if |t| > 0 && (t[0] == '-' || t[0] == '+') then 1 else 0;
      assert body[0] == t[j] == s[a + j];
    }
  }

  /**
   * An ASCII separator (U+001C to U+001F) is whitespace to `str.strip()` but
   * not to `int()`: a literal with one at either end does not parse.
   */
  lemma ParseIntSeparatorPadded(c: char, s: string)
    requires '\U{1c}' <= c <= '\U{1f}'
    ensures IsSpace(c) && !IsIntSpace(c)
    ensures ParseInt([c] + s).None?
    ensures ParseInt(s + [c]).None?
  {
    Separated([c] + s, 0);
    Separated(s + [c], |s|);
  }

  /** A text with a separator that `int()` does not strip has no integer in it. */
  lemma Separated(s: string, i: nat)
    requires i < |s| && '\U{1c}' <= s[i] <= '\U{1f}'
    ensures ParseInt(s).None?
  {
    var t := StripBlanks(s, IntBlanks);
    var a := LeadingSpaces(s, IntBlanks);
    assert a <= i < a + |t|;
    assert t[i - a] == s[i];
    var body := Unsigned(t);
    assert !IsIntBody(body);
  }

  /** The digits of a text that holds `str(n)` and no other digit are those of `str(n)`. */
  lemma DigitsAroundNumber(p: string, n: nat, q: string)
    requires forall k :: 0 <= k < |p| ==> !IsDigit(p[k])
    requires forall k :: 0 <= k < |q| ==> !IsDigit(q[k])
    ensures Digits(p + NatToString(n) + q) == NatToString(n)
  {
    NatToStringDecimal(n);
    DigitsAroundRun(p, NatToString(n), q);
  }

  /** The digits of a text that holds one run of digits and no other digit are that run. */
  lemma DigitsAroundRun(p: string, ds: string, q: string)
    requires forall k :: 0 <= k < |p| ==> !IsDigit(p[k])
    requires forall k :: 0 <= k < |ds| ==> IsDigit(ds[k])
    requires forall k :: 0 <= k < |q| ==> !IsDigit(q[k])
    ensures Digits(p + ds + q) == ds
  {
    DigitsOfDigitString(ds);
    assert Digits(p) == [] && Digits(q) == [];
    DigitsAppend(p, ds);
    DigitsAppend(p + ds, q);
    assert Digits(p) + Digits(ds) == ds;
    assert Digits(p + ds) + Digits(q) == ds;
  }
}
