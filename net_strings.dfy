/** The text primitives of the .NET runtime that the terminal relies on:
    ordinal `String.Contains`, `String.TrimEnd()` and `Convert.ToInt32(string)`.
    Strings are sequences of `char`, which in Dafny are Unicode scalar values, whereas
    .NET strings are UTF-16 code units: a supplementary character is one `char` here
    and two code units there, and a lone surrogate cannot be written here. The
    operations modelled give the same results either way: `TrimEnd` removes only
    white space, all of which lies in the Basic Multilingual Plane, and the texts
    searched for or compared with (`"Opened"`, the `\\` prefix, signs and digits)
    are ASCII. */
module NetStrings {

  // ---------------------------------------------------------------------------
  // String.Contains (ordinal comparison)
  // ---------------------------------------------------------------------------

  /** `sub` occurs in `t` starting at index `i`. */
  predicate OccursAt(t: string, sub: string, i: int)
  {
    0 <= i && i + |sub| <= |t| && t[i..i + |sub|] == sub
  }

  /** Ordinal `t.Contains(sub)`: the empty text is in every string, and a text is
      never found in a shorter one. */
  predicate Contains(t: string, sub: string)
    ensures sub == [] ==> Contains(t, sub)
    ensures Contains(t, sub) ==> |sub| <= |t|
  {
    assert sub == [] ==> OccursAt(t, sub, 0);
    exists i | 0 <= i <= |t| - |sub| :: OccursAt(t, sub, i)
  }

  /** A text found in a prefix is found in the whole string. */
  lemma ContainsInPrefix(a: string, t: string, sub: string)
    requires a <= t && Contains(a, sub)
    ensures Contains(t, sub)
  {
    var i :| 0 <= i <= |a| - |sub| && OccursAt(a, sub, i);
    assert t[i..i + |sub|] == a[i..i + |sub|];
    assert OccursAt(t, sub, i);
  }

  /** An occurrence of `sub` in `a + [c] + b` lies wholly inside `a` or wholly
      inside `b` when the separating character `c` does not occur in `sub`. */
  lemma NotContainsAcross(a: string, c: char, b: string, sub: string)
    requires |sub| > 0 && c !in sub
    requires !Contains(a, sub) && !Contains(b, sub)
    ensures !Contains(a + [c] + b, sub)
  {
    var t := a + [c] + b;
    forall i | 0 <= i <= |t| - |sub|
      ensures !OccursAt(t, sub, i)
    {
      if i + |sub| <= |a| {
        assert t[i..i + |sub|] == a[i..i + |sub|];
        assert !OccursAt(a, sub, i);
      } else if i > |a| {
        var j := i - |a| - 1;
        assert t[i..i + |sub|] == b[j..j + |sub|];
        assert !OccursAt(b, sub, j);
      } else {
        assert t[i..i + |sub|][|a| - i] == c;
        assert c in t[i..i + |sub|];
      }
    }
  }

  /** A text that lacks the first character of `sub` does not contain `sub`. */
  lemma NotContainsWithoutHead(t: string, sub: string)
    requires |sub| > 0 && sub[0] !in t
    ensures !Contains(t, sub)
  {
    forall i | 0 <= i <= |t| - |sub|
      ensures !OccursAt(t, sub, i)
    {
      assert t[i..i + |sub|][0] == t[i];
      assert t[i] in t;
    }
  }

  // ---------------------------------------------------------------------------
  // String.TrimEnd() with no arguments: removes trailing Char.IsWhiteSpace characters
  // ---------------------------------------------------------------------------

  /** `Char.IsWhiteSpace`: the Unicode space, line and paragraph separators and
      the control characters U+0009 to U+000D and U+0085. */
  predicate IsWhiteSpace(c: char)
  {
    || c in {' ', '\t', '\n', '\U{B}', '\U{C}', '\r', '\U{85}', '\U{A0}', '\U{1680}'}
    || ('\U{2000}' <= c <= '\U{200A}')
    || c in {'\U{2028}', '\U{2029}', '\U{202F}', '\U{205F}', '\U{3000}'}
  }

  /** `s.TrimEnd()`: the longest prefix of `s` that does not end in white space,
      such that everything cut off is white space. */
  function TrimEnd(s: string): (r: string)
    ensures r <= s
    ensures forall i :: |r| <= i < |s| ==> IsWhiteSpace(s[i])
    ensures |r| > 0 ==> !IsWhiteSpace(r[|r| - 1])
  {
    if |s| > 0 && IsWhiteSpace(s[|s| - 1]) then TrimEnd(s[..|s| - 1]) else s
  }

  /** Trimming twice is trimming once. */
  lemma TrimEndIdempotent(s: string)
    ensures TrimEnd(TrimEnd(s)) == TrimEnd(s)
  {
    var r := TrimEnd(s);
    assert |r| > 0 ==> !IsWhiteSpace(r[|r| - 1]);
  }

  /** Trailing white space added to a name is removed again. */
  lemma {:induction false} TrimEndDropsPadding(s: string, pad: string)
    requires forall i :: 0 <= i < |pad| ==> IsWhiteSpace(pad[i])
    ensures TrimEnd(s + pad) == TrimEnd(s)
    decreases |pad|
  {
    if pad != [] {
      var shorter := pad[..|pad| - 1];
      assert (s + pad)[..|s + pad| - 1] == s + shorter;
      TrimEndDropsPadding(s, shorter);
    } else {
      assert s + pad == s;
    }
  }

  // ---------------------------------------------------------------------------
  // Convert.ToInt32(string) = Int32.Parse(s, NumberStyles.Integer):
  // [white space][sign]digits[white space], value within the 32-bit range
  // ---------------------------------------------------------------------------

  const INT32_MIN: int := -0x8000_0000
  const INT32_MAX: int := 0x7FFF_FFFF

  /** What `Convert.ToInt32` does with a text: a value, or the exception it throws. */
  datatype Conversion = Converted(value: int) | FormatFailure | OverflowFailure

  /** The white space that `NumberStyles.AllowLeadingWhite` and `AllowTrailingWhite` accept. */
  predicate IsNumberWhite(c: char)
  {
    c in {' ', '\t', '\n', '\U{B}', '\U{C}', '\r'}
  }

  predicate IsDigit(c: char)
  {
    '0' <= c <= '9'
  }

  predicate AllDigits(s: string)
  {
    forall i :: 0 <= i < |s| ==> IsDigit(s[i])
  }

  /** The value of a string of decimal digits, most significant first. */
  function DigitsValue(s: string): nat
    requires AllDigits(s)
  {
    if s == [] then 0 else 10 * DigitsValue(s[..|s| - 1]) + (s[|s| - 1] as int - '0' as int)
  }

  function TrimStartNumberWhite(s: string): string
  {
    if |s| > 0 && IsNumberWhite(s[0]) then TrimStartNumberWhite(s[1..]) else s
  }

  function TrimEndNumberWhite(s: string): string
  {
    if |s| > 0 && IsNumberWhite(s[|s| - 1]) then TrimEndNumberWhite(s[..|s| - 1]) else s
  }

  /** The digits part of a trimmed number text: everything after an optional sign. */
  function Unsigned(t: string): string
  {
    if |t| > 0 && (t[0] == '-' || t[0] == '+') then t[1..] else t
  }

  /** `Convert.ToInt32(s)`: a format failure unless the text, without surrounding
      white space, is an optional sign followed by at least one decimal digit; an
      overflow failure when that number lies outside the 32-bit range. */
  function ToInt32(s: string): (r: Conversion)
    ensures r.Converted? ==> INT32_MIN <= r.value <= INT32_MAX
  {
    ConvertTrimmed(TrimEndNumberWhite(TrimStartNumberWhite(s)))
  }

  /** The conversion of a text that has no surrounding white space. */
  function ConvertTrimmed(t: string): (r: Conversion)
    ensures r.Converted? ==> INT32_MIN <= r.value <= INT32_MAX
    ensures r.FormatFailure? <==> Unsigned(t) == [] || !AllDigits(Unsigned(t))
  {
    var digits := Unsigned(t);
    if digits == [] || !AllDigits(digits) then FormatFailure
    else
      var magnitude: int := DigitsValue(digits);
      var v: int := if t[0] == '-' then -magnitude else magnitude;
      if INT32_MIN <= v <= INT32_MAX then Converted(v) else OverflowFailure
  }

  /** `n.ToString()` for an integer: a minus sign for negatives, then decimal digits. */
  function IntToString(n: int): string
  {
    if n < 0 then "-" + NatToDigits(-n) else NatToDigits(n)
  }

  function NatToDigits(n: nat): string
  {
    (if n < 10 then "" else NatToDigits(n / 10)) + [('0' as int + n % 10) as char]
  }

  lemma {:induction false} NatToDigitsValue(n: nat)
    ensures |NatToDigits(n)| > 0 && AllDigits(NatToDigits(n))
    ensures DigitsValue(NatToDigits(n)) == n
  {
    var s := NatToDigits(n);
    if n >= 10 {
      NatToDigitsValue(n / 10);
      assert s[..|s| - 1] == NatToDigits(n / 10);
    } else {
      assert s[..|s| - 1] == "";
    }
  }

  /** An optional minus sign followed by decimal digits is its own trimmed form. */
  lemma SignedDigitsTrimmed(d: string, negative: bool)
    requires |d| > 0 && AllDigits(d)
    ensures var s := if negative then "-" + d else d;
            TrimEndNumberWhite(TrimStartNumberWhite(s)) == s && Unsigned(s) == d && (s[0] == '-' <==> negative)
  {
    var s := if negative then "-" + d else d;
    assert IsDigit(d[0]) && IsDigit(d[|d| - 1]);
    assert s[0] == (if negative then '-' else d[0]);
    assert TrimStartNumberWhite(s) == s;
    assert s[|s| - 1] == d[|d| - 1];
    assert TrimEndNumberWhite(s) == s;
    if negative {
      assert s[1..] == d;
    }
  }

  /** A trimmed text made of an optional sign and digits converts to its signed value. */
  lemma TrimmedConvert(s: string, d: string)
    requires |s| > 0 && TrimEndNumberWhite(TrimStartNumberWhite(s)) == s
    requires |d| > 0 && AllDigits(d) && Unsigned(s) == d
    requires INT32_MIN <= (if s[0] == '-' then -(DigitsValue(d) as int) else DigitsValue(d)) <= INT32_MAX
    ensures ToInt32(s) == Converted(if s[0] == '-' then -(DigitsValue(d) as int) else DigitsValue(d))
  {
    assert ConvertTrimmed(s) == Converted(if s[0] == '-' then -(DigitsValue(d) as int) else DigitsValue(d));
    assert ToInt32(s) == ConvertTrimmed(s);
  }

  /** Any 32-bit integer, written in decimal, converts back to itself. */
  lemma ToInt32RoundTrip(n: int)
    requires INT32_MIN <= n <= INT32_MAX
    ensures ToInt32(IntToString(n)) == Converted(n)
  {
    var m: nat := if n < 0 then -n else n;
    var d := NatToDigits(m);
    var s := IntToString(n);
    assert s == if n < 0 then "-" + d else d;
    NatToDigitsValue(m);
    SignedDigitsTrimmed(d, n < 0);
    assert (s[0] == '-') == (n < 0);
    TrimmedConvert(s, d);
  }

  /** The data bits text the terminal always passes converts to 8. */
  lemma ToInt32Eight()
    ensures ToInt32("8") == Converted(8)
  {
    var s := "8";
    assert TrimStartNumberWhite(s) == s by {
      assert !IsNumberWhite(s[0]);
    }
    assert TrimEndNumberWhite(s) == s by {
      assert !IsNumberWhite(s[|s| - 1]);
    }
    assert Unsigned(s) == s && AllDigits(s);
    assert DigitsValue(s) == 8 by {
      assert s[..0] == "";
    }
    assert ToInt32(s) == ConvertTrimmed(s);
  }

  /** The text "9600" converts to the baud rate 9600. */
  lemma ToInt32Baud9600()
    ensures ToInt32("9600") == Converted(9600)
  {
    var s := "9600";
    assert TrimStartNumberWhite(s) == s by {
      assert !IsNumberWhite(s[0]);
    }
    assert TrimEndNumberWhite(s) == s by {
      assert !IsNumberWhite(s[|s| - 1]);
    }
    assert Unsigned(s) == s && AllDigits(s);
    assert DigitsValue(s) == 9600 by {
      assert DigitsValue("9") == 9 by { assert "9"[..0] == ""; }
      assert DigitsValue("96") == 96 by { assert "96"[..1] == "9"; }
      assert DigitsValue("960") == 960 by { assert "960"[..2] == "96"; }
      assert s[..3] == "960";
    }
    assert ToInt32(s) == ConvertTrimmed(s);
  }
}
