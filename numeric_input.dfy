/** The input-validity test the numeric handlers apply before dispatching:
    an input is rejected when it is the empty string or when JavaScript's
    `Number(...)` conversion of it is NaN. `Number` on a string strips
    JavaScript white space from both ends and then accepts the
    StringNumericLiteral grammar of ECMAScript (section 7.1.4.1.1 of
    ECMA-262): the empty string, an optionally signed decimal literal or
    `Infinity`, or an unsigned binary, octal or hexadecimal integer. */
module NumericInput {

  /** JavaScript WhiteSpace and LineTerminator code points. */
  predicate IsJsSpace(c: char) {
    c == '\t' || c == '\n' || c == '\U{000B}' || c == '\U{000C}' || c == '\r' || c == ' ' ||
    c == '\U{00A0}' || c == '\U{1680}' || ('\U{2000}' <= c <= '\U{200A}') ||
    c == '\U{2028}' || c == '\U{2029}' || c == '\U{202F}' || c == '\U{205F}' ||
    c == '\U{3000}' || c == '\U{FEFF}'
  }

  /** `s` without its leading white space. */
  function TrimStart(s: string): (r: string)
    ensures |r| <= |s| && r == s[|s| - |r|..]
    ensures forall k :: 0 <= k < |s| - |r| ==> IsJsSpace(s[k])
    ensures r == [] || !IsJsSpace(r[0])
  {
    if |s| > 0 && IsJsSpace(s[0]) then TrimStart(s[1..]) else s
  }

  /** `s` without its trailing white space. */
  function TrimEnd(s: string): (r: string)
    ensures |r| <= |s| && r == s[..|r|]
    ensures forall k :: |r| <= k < |s| ==> IsJsSpace(s[k])
    ensures r == [] || !IsJsSpace(r[|r| - 1])
  {
    if |s| > 0 && IsJsSpace(s[|s| - 1]) then TrimEnd(s[..|s| - 1]) else s
  }

  /** `r` is a slice of `s` with only white space before and after it. */
  ghost predicate Surrounded(s: string, r: string) {
    exists a, b :: 0 <= a <= b <= |s| && r == s[a..b] &&
                   (forall k :: 0 <= k < a ==> IsJsSpace(s[k])) &&
                   (forall k :: b <= k < |s| ==> IsJsSpace(s[k]))
  }

  /** `s` with the white space around it removed: a slice of `s` that
      neither starts nor ends with white space, with only white space
      before and after it. */
  function Trim(s: string): (r: string)
    ensures Surrounded(s, r)
    ensures r == [] || (!IsJsSpace(r[0]) && !IsJsSpace(r[|r| - 1]))
  {
    TrimIsSurrounded(s);
    TrimEnd(TrimStart(s))
  }

  /** The witnesses are what `TrimStart` drops and where `TrimEnd` stops. */
  lemma TrimIsSurrounded(s: string)
    ensures Surrounded(s, TrimEnd(TrimStart(s)))
    ensures var r := TrimEnd(TrimStart(s));
            r == [] || (!IsJsSpace(r[0]) && !IsJsSpace(r[|r| - 1]))
  {
    var t := TrimStart(s);
    var r := TrimEnd(t);
    var a := |s| - |t|;
    SliceOfSuffix(s, a, r, t);
    if r != [] {
      assert r[0] == t[0];
    }
  }

  /** A prefix `r` of the suffix `t` of `s` from `a` is the slice of `s` from `a`,
      and what follows `r` in `s` is what follows it in `t`. */
  lemma SliceOfSuffix(s: string, a: nat, r: string, t: string)
    requires a <= |s| && t == s[a..] && |r| <= |t| && r == t[..|r|]
    ensures r == s[a..a + |r|]
    ensures forall k :: a + |r| <= k < |s| ==> s[k] == t[k - a]
  {
  }

  /** Index of the first character of `s` in `cs`, or `|s|` when there is none. */
  function FirstOf(s: string, cs: set<char>): (r: nat)
    ensures r <= |s|
    ensures forall k :: 0 <= k < r ==> s[k] !in cs
    ensures r < |s| ==> s[r] in cs
  {
    if s == [] then 0
    else if s[0] in cs then 0
    else 1 + FirstOf(s[1..], cs)
  }

  predicate IsDigitOf(c: char, radix: nat) {
    match radix
    case 2 => c == '0' || c == '1'
    case 8 => '0' <= c <= '7'
    case 16 => ('0' <= c <= '9') || ('a' <= c <= 'f') || ('A' <= c <= 'F')
    case _ => '0' <= c <= '9'
  }

  /** A non-empty run of digits of the given radix. */
  predicate DigitsOf(s: string, radix: nat) {
    |s| > 0 && forall k :: 0 <= k < |s| ==> IsDigitOf(s[k], radix)
  }

  predicate IsSign(c: char) {
    c == '+' || c == '-'
  }

  /** `digits`, `digits.`, `digits.digits` or `.digits`. */
  predicate Mantissa(m: string) {
    var d := FirstOf(m, {'.'});
    if d == |m| then DigitsOf(m, 10)
    else
      var whole, frac := m[..d], m[d + 1..];
      (DigitsOf(whole, 10) && (frac == [] || DigitsOf(frac, 10))) ||
      (whole == [] && DigitsOf(frac, 10))
  }

  predicate SignedInteger(x: string) {
    DigitsOf(x, 10) || (|x| > 0 && IsSign(x[0]) && DigitsOf(x[1..], 10))
  }

  /** `Infinity`, or a mantissa with an optional exponent part. */
  predicate UnsignedDecimal(u: string) {
    u == "Infinity" ||
    var e := FirstOf(u, {'e', 'E'});
    Mantissa(u[..e]) && (e == |u| || SignedInteger(u[e + 1..]))
  }

  predicate StrDecimal(t: string) {
    UnsignedDecimal(t) || (|t| > 0 && IsSign(t[0]) && UnsignedDecimal(t[1..]))
  }

  /** `0b…`, `0o…` or `0x…` (no sign is allowed before these). */
  predicate NonDecimalInteger(t: string) {
    |t| > 2 && t[0] == '0' &&
    (((t[1] == 'b' || t[1] == 'B') && DigitsOf(t[2..], 2)) ||
     ((t[1] == 'o' || t[1] == 'O') && DigitsOf(t[2..], 8)) ||
     ((t[1] == 'x' || t[1] == 'X') && DigitsOf(t[2..], 16)))
  }

  /** The characters a numeric literal can start with. */
  predicate IsLiteralStart(c: char) {
    IsSign(c) || c == '.' || c == 'I' || ('0' <= c <= '9')
  }

  /** `isNaN(Number(s))`: the trimmed text is not a numeric literal. Text of
      white space alone is not NaN (`Number` reads it as 0), and text that is
      not NaN starts, after its white space, with a sign, a digit, a point
      or the `I` of `Infinity`. */
  predicate NumberIsNaN(s: string)
    ensures (forall k :: 0 <= k < |s| ==> IsJsSpace(s[k])) ==> !NumberIsNaN(s)
    ensures !NumberIsNaN(s) ==> Trim(s) == [] || IsLiteralStart(Trim(s)[0])
  {
    BlankTrimsToEmpty(s);
    LiteralStart(Trim(s));
    var t := Trim(s);
    !(t == [] || StrDecimal(t) || NonDecimalInteger(t))
  }

  /** Text of white space alone trims to nothing. */
  lemma BlankTrimsToEmpty(s: string)
    ensures (forall k :: 0 <= k < |s| ==> IsJsSpace(s[k])) ==> Trim(s) == []
  {
  }

  /** A mantissa starts with a digit or a point. */
  lemma MantissaStart(m: string)
    requires Mantissa(m)
    ensures m != [] && (m[0] == '.' || IsDigitOf(m[0], 10))
  {
    var d := FirstOf(m, {'.'});
    if d < |m| && !DigitsOf(m[..d], 10) {
      assert m[..d] == [];
    } else if d < |m| {
      assert m[..d][0] == m[0];
    }
  }

  /** A numeric literal starts with a sign, a digit, a point or `I`. */
  lemma LiteralStart(t: string)
    ensures t != [] && (StrDecimal(t) || NonDecimalInteger(t)) ==> IsLiteralStart(t[0])
  {
    if t != [] && UnsignedDecimal(t) && t != "Infinity" {
      var e := FirstOf(t, {'e', 'E'});
      MantissaStart(t[..e]);
      assert t[..e][0] == t[0];
    }
  }

  /** The negation of the handlers' rejection test `!input || isNaN(Number(input))`:
      the empty input is invalid, a non-empty input of white space alone is
      valid, and a valid input starts, after its white space, with a sign, a
      digit, a point or `I`. */
  predicate ValidNumberInput(s: string)
    ensures s == [] ==> !ValidNumberInput(s)
    ensures s != [] && (forall k :: 0 <= k < |s| ==> IsJsSpace(s[k])) ==> ValidNumberInput(s)
    ensures ValidNumberInput(s) ==> Trim(s) == [] || IsLiteralStart(Trim(s)[0])
  {
    s != [] && !NumberIsNaN(s)
  }

  /** `FirstOf` finds nothing in text that holds none of the characters. */
  lemma {:induction false} FirstOfNone(s: string, cs: set<char>)
    requires forall k :: 0 <= k < |s| ==> s[k] !in cs
    ensures FirstOf(s, cs) == |s|
  {
    if s != [] {
      FirstOfNone(s[1..], cs);
    }
  }

  /** Every non-empty string of decimal digits passes validation. */
  lemma DigitsAreValid(s: string)
    requires DigitsOf(s, 10)
    ensures ValidNumberInput(s)
  {
    assert !IsJsSpace(s[0]) && !IsJsSpace(s[|s| - 1]) by {
      assert IsDigitOf(s[0], 10) && IsDigitOf(s[|s| - 1], 10);
    }
    TrimUnpadded(s);
    FirstOfNone(s, {'e', 'E'});
    FirstOfNone(s, {'.'});
    assert s[..|s|] == s;
    assert Mantissa(s);
    assert UnsignedDecimal(s);
  }

  /** Trimming ignores white space added at the front. */
  lemma TrimStartSpaced(c: char, s: string)
    requires IsJsSpace(c)
    ensures TrimStart([c] + s) == TrimStart(s)
  {
    assert ([c] + s)[1..] == s;
  }

  /** White space added at the end survives `TrimStart` only when something
      other than white space is left. */
  lemma {:induction false} TrimStartThenSpace(s: string, c: char)
    requires IsJsSpace(c)
    ensures TrimStart(s + [c]) == if TrimStart(s) == [] then [] else TrimStart(s) + [c]
    decreases |s|
  {
    if s == [] {
      assert TrimStart([c]) == TrimStart([c][1..]);
    } else if IsJsSpace(s[0]) {
      assert (s + [c])[1..] == s[1..] + [c];
      TrimStartThenSpace(s[1..], c);
    } else {
      assert (s + [c])[0] == s[0];
    }
  }

  /** Trimming ignores white space added at the end. */
  lemma TrimEndSpaced(s: string, c: char)
    requires IsJsSpace(c)
    ensures TrimEnd(s + [c]) == TrimEnd(s)
  {
    assert (s + [c])[..|s + [c]| - 1] == s;
  }

  /** Surrounding a non-empty input with spaces does not change whether it
      is valid: `Number` parses the same text either way. */
  lemma PaddingKeepsValidity(s: string)
    ensures s != [] ==> (ValidNumberInput(" " + s + " ") <==> ValidNumberInput(s))
  {
    PaddedTrim(s);
    SameTrimSameNaN(" " + s + " ", s);
  }

  /** A space at each end does not change the trimmed text. */
  lemma PaddedTrim(s: string)
    ensures Trim(" " + s + " ") == Trim(s)
  {
    var p := " " + s + " ";
    assert p == [' '] + (s + [' ']);
    TrimStartSpaced(' ', s + [' ']);
    TrimStartThenSpace(s, ' ');
    if TrimStart(s) != [] {
      TrimEndSpaced(TrimStart(s), ' ');
    }
  }

  /** Whether `Number` gives NaN depends only on the trimmed text. */
  lemma SameTrimSameNaN(x: string, y: string)
    requires Trim(x) == Trim(y)
    ensures NumberIsNaN(x) == NumberIsNaN(y)
  {
  }

  /** The empty input is rejected, and an input of white space alone is not:
      `Number` reads it as 0. */
  lemma EmptyAndBlankInput()
    ensures !ValidNumberInput("")
    ensures ValidNumberInput("   ")
  {
  }

  /** Text with no white space at either end is left as it is by `Trim`. */
  lemma TrimUnpadded(s: string)
    requires s == [] || (!IsJsSpace(s[0]) && !IsJsSpace(s[|s| - 1]))
    ensures Trim(s) == s
  {
  }

  /** A literal with no white space around it passes validation. */
  lemma LiteralIsValid(s: string)
    requires s != [] && Trim(s) == s && (StrDecimal(s) || NonDecimalInteger(s))
    ensures ValidNumberInput(s)
  {
  }

  /** Inputs the handlers accept: an integer, a signed decimal with an
      exponent, and a hexadecimal integer. */
  lemma AcceptsInteger()
    ensures ValidNumberInput("42")
  {
    assert DigitsOf("42", 10) by {
      assert IsDigitOf("42"[0], 10) && IsDigitOf("42"[1], 10);
    }
    DigitsAreValid("42");
  }

  lemma AcceptsExponent()
    ensures ValidNumberInput("-3.5e2")
  {
    assert "-3.5e2"[1..] == "3.5e2";
    ExponentExample();
    TrimUnpadded("-3.5e2");
    LiteralIsValid("-3.5e2");
  }

  /** The unsigned part of the exponent example: mantissa "3.5", exponent "2". */
  lemma ExponentExample()
    ensures UnsignedDecimal("3.5e2")
  {
    var d := "3.5e2";
    assert FirstOf(d, {'e', 'E'}) == 3 by {
      assert FirstOf(d, {'e', 'E'}) == 1 + FirstOf(d[1..], {'e', 'E'});
      assert FirstOf(d[1..], {'e', 'E'}) == 1 + FirstOf(d[2..], {'e', 'E'});
      assert FirstOf(d[2..], {'e', 'E'}) == 1 + FirstOf(d[3..], {'e', 'E'});
    }
    assert d[..3] == "3.5" && d[4..] == "2";
    MantissaExample();
    assert SignedInteger("2");
  }

  lemma MantissaExample()
    ensures Mantissa("3.5")
  {
    assert FirstOf("3.5", {'.'}) == 1 by {
      assert FirstOf("3.5", {'.'}) == 1 + FirstOf("3.5"[1..], {'.'});
    }
    assert "3.5"[..1] == "3" && "3.5"[2..] == "5";
  }

  lemma AcceptsHex()
    ensures ValidNumberInput("0x1F")
  {
    var t := "0x1F";
    assert t[2..] == "1F";
    assert DigitsOf("1F", 16) by {
      assert IsDigitOf("1F"[0], 16) && IsDigitOf("1F"[1], 16);
    }
    HexIsValid(t);
  }

  /** Every hexadecimal literal `0x…` or `0X…` with at least one digit passes
      validation, whatever its length. */
  lemma HexIsValid(s: string)
    requires |s| > 2 && s[0] == '0' && (s[1] == 'x' || s[1] == 'X') && DigitsOf(s[2..], 16)
    ensures ValidNumberInput(s)
  {
    assert s[2..][|s| - 3] == s[|s| - 1];
    assert IsDigitOf(s[|s| - 1], 16);
    TrimUnpadded(s);
    assert NonDecimalInteger(s);
    LiteralIsValid(s);
  }

  /** Text with no white space around it that is no numeric literal fails
      validation. */
  lemma LiteralIsInvalid(s: string)
    requires Trim(s) == s && !StrDecimal(s) && !NonDecimalInteger(s)
    ensures !ValidNumberInput(s)
  {
  }

  /** Inputs the handlers reject with "Please enter a valid number": text,
      a hexadecimal prefix without digits, and two decimal points. */
  lemma RejectsText()
    ensures !ValidNumberInput("abc")
  {
    TrimUnpadded("abc");
    TextIsNoLiteral();
    LiteralIsInvalid("abc");
  }

  lemma RejectsBarePrefix()
    ensures !ValidNumberInput("0x")
  {
    TrimUnpadded("0x");
    BarePrefixIsNoLiteral();
    LiteralIsInvalid("0x");
  }

  lemma RejectsTwoPoints()
    ensures !ValidNumberInput("1.2.3")
  {
    TrimUnpadded("1.2.3");
    TwoPointsIsNoLiteral();
    LiteralIsInvalid("1.2.3");
  }

  lemma TextIsNoLiteral()
    ensures !StrDecimal("abc") && !NonDecimalInteger("abc")
  {
    var t := "abc";
    assert FirstOf(t, {'e', 'E'}) == 3 by {
      assert FirstOf(t, {'e', 'E'}) == 1 + FirstOf("bc", {'e', 'E'});
      assert FirstOf("bc", {'e', 'E'}) == 1 + FirstOf("c", {'e', 'E'});
      assert FirstOf("c", {'e', 'E'}) == 1 + FirstOf("", {'e', 'E'});
    }
    assert FirstOf(t, {'.'}) == 3 by {
      assert FirstOf(t, {'.'}) == 1 + FirstOf("bc", {'.'});
      assert FirstOf("bc", {'.'}) == 1 + FirstOf("c", {'.'});
      assert FirstOf("c", {'.'}) == 1 + FirstOf("", {'.'});
    }
    assert !DigitsOf(t, 10) by { assert !IsDigitOf(t[0], 10); }
    assert t[..3] == t;
  }

  lemma BarePrefixIsNoLiteral()
    ensures !StrDecimal("0x") && !NonDecimalInteger("0x")
  {
    var t := "0x";
    assert FirstOf(t, {'e', 'E'}) == 2 by {
      assert FirstOf(t, {'e', 'E'}) == 1 + FirstOf("x", {'e', 'E'});
    }
    assert FirstOf(t, {'.'}) == 2 by {
      assert FirstOf(t, {'.'}) == 1 + FirstOf("x", {'.'});
    }
    assert !DigitsOf(t, 10) by { assert !IsDigitOf(t[1], 10); }
    assert t[..2] == t;
  }

  lemma TwoPointsIsNoLiteral()
    ensures !StrDecimal("1.2.3") && !NonDecimalInteger("1.2.3")
  {
    var t := "1.2.3";
    assert FirstOf(t, {'e', 'E'}) == 5 by {
      assert FirstOf(t, {'e', 'E'}) == 1 + FirstOf(t[1..], {'e', 'E'});
      assert FirstOf(t[1..], {'e', 'E'}) == 1 + FirstOf(t[2..], {'e', 'E'});
      assert FirstOf(t[2..], {'e', 'E'}) == 1 + FirstOf(t[3..], {'e', 'E'});
      assert FirstOf(t[3..], {'e', 'E'}) == 1 + FirstOf(t[4..], {'e', 'E'});
      assert FirstOf(t[4..], {'e', 'E'}) == 1 + FirstOf(t[5..], {'e', 'E'});
    }
    assert t[..5] == t;
    assert FirstOf(t, {'.'}) == 1;
    assert t[..1] == "1" && t[2..] == "2.3";
    assert !DigitsOf("2.3", 10) by { assert !IsDigitOf("2.3"[1], 10); }
  }
}
