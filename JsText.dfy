/** The few JavaScript string operations the routes rely on: `split` on a
    one-character separator, the decimal form of an integer (template
    literals), and `parseInt` without a radix. */
module JsText {
  import opened Base

  // ---------------------------------------------------------------------
  // split / join
  // ---------------------------------------------------------------------

  /** `pieces.join(d)`. */
  function Join(pieces: seq<string>, d: char): string
    requires |pieces| >= 1
  {
    if |pieces| == 1 then pieces[0] else pieces[0] + [d] + Join(pieces[1..], d)
  }

  /** The number of times `d` occurs in `s`. */
  function Occurrences(s: string, d: char): nat
  {
    if |s| == 0 then 0 else (if s[0] == d then 1 else 0) + Occurrences(s[1..], d)
  }

  /** `s.split(d)`: the text between consecutive separators, so n separators
      give n + 1 pieces, none of which holds the separator, and joining the
      pieces back with the separator gives `s` again. */
  function Split(s: string, d: char): (r: seq<string>)
    ensures |r| == Occurrences(s, d) + 1
    ensures forall i :: 0 <= i < |r| ==> d !in r[i]
    ensures Join(r, d) == s
  {
    if |s| == 0 then [""]
    else
      var rest := Split(s[1..], d);
      if s[0] == d then
        assert s == [d] + s[1..];
        [""] + rest
      else
        var r := [[s[0]] + rest[0]] + rest[1..];
        assert r[1..] == rest[1..];
        assert s == [s[0]] + s[1..];
        if |rest| == 1 then r
        else
          assert Join(rest, d) == rest[0] + [d] + Join(rest[1..], d);
          assert Join(r, d) == ([s[0]] + rest[0]) + [d] + Join(rest[1..], d);
          r
  }

  /** The first piece is where the string starts, and is followed by the
      separator when there are more pieces. */
  lemma FirstPieceIsPrefix(s: string, d: char)
    ensures |Split(s, d)[0]| <= |s| && s[..|Split(s, d)[0]|] == Split(s, d)[0]
    ensures |Split(s, d)| > 1 ==> |Split(s, d)[0]| < |s| && s[|Split(s, d)[0]|] == d
  {
    var pieces := Split(s, d);
    if |pieces| > 1 {
      assert s == pieces[0] + [d] + Join(pieces[1..], d);
    }
  }

  /** A string without the separator is a single piece. */
  lemma {:induction false} SplitWithoutSeparator(s: string, d: char)
    requires d !in s
    ensures Split(s, d) == [s]
  {
    if |s| > 0 {
      assert d !in s[1..] by {
        forall i | 0 <= i < |s[1..]| ensures s[1..][i] != d { assert s[1..][i] == s[i + 1]; }
      }
      SplitWithoutSeparator(s[1..], d);
      assert s == [s[0]] + s[1..];
    }
  }

  /** The first piece runs up to the first separator. */
  lemma {:induction false} SplitAtFirst(a: string, d: char, b: string)
    requires d !in a
    ensures Split(a + [d] + b, d) == [a] + Split(b, d)
  {
    var s := a + [d] + b;
    if |a| == 0 {
      assert s[1..] == b;
    } else {
      assert s[1..] == a[1..] + [d] + b;
      assert d !in a[1..] by {
        forall i | 0 <= i < |a[1..]| ensures a[1..][i] != d { assert a[1..][i] == a[i + 1]; }
      }
      SplitAtFirst(a[1..], d, b);
      assert [a[0]] + a[1..] == a;
    }
  }

  // ---------------------------------------------------------------------
  // Decimal form of an integer (what `${n}` prints for an integral number)
  // ---------------------------------------------------------------------

  predicate IsDecimalDigit(c: char) { '0' <= c <= '9' }

  function DigitChar(n: nat): (c: char)
    requires n < 10
    ensures IsDecimalDigit(c)
  {
    ('0' as int + n) as char
  }

  /** The decimal digits of `n`, most significant first, without leading zeros. */
  function NatToDecimal(n: nat): (r: string)
    ensures |r| >= 1
    ensures forall i :: 0 <= i < |r| ==> IsDecimalDigit(r[i])
  {
    if n < 10 then [DigitChar(n)] else NatToDecimal(n / 10) + [DigitChar(n % 10)]
  }

  /** `${n}` for an integral number: a minus sign before the digits of a
      negative one; every other character is a digit. */
  function IntToDecimal(n: int): (r: string)
    ensures |r| >= 1
    ensures r[0] == '-' <==> n < 0
    ensures forall i :: (if n < 0 then 1 else 0) <= i < |r| ==> IsDecimalDigit(r[i])
  {
    if n < 0 then
      var digits := NatToDecimal(-n);
      assert forall i :: 1 <= i < |"-" + digits| ==> ("-" + digits)[i] == digits[i - 1];
      "-" + digits
    else
      assert IsDecimalDigit(NatToDecimal(n)[0]);
      NatToDecimal(n)
  }

  // ---------------------------------------------------------------------
  // Digits of any base up to 36, as parseInt reads them
  // ---------------------------------------------------------------------

  /** The value of `c` as a digit: 0-9, then a-z and A-Z for 10-35. */
  function DigitOf(c: char): Option<nat>
  {
    if '0' <= c <= '9' then Some((c as int - '0' as int) as nat)
    else if 'a' <= c <= 'z' then Some((c as int - 'a' as int + 10) as nat)
    else if 'A' <= c <= 'Z' then Some((c as int - 'A' as int + 10) as nat)
    else None
  }

  predicate IsDigitIn(c: char, base: nat)
  {
    DigitOf(c).Some? && DigitOf(c).value < base
  }

  predicate AllDigitsIn(s: string, base: nat)
  {
    forall i :: 0 <= i < |s| ==> IsDigitIn(s[i], base)
  }

  /** The value of a run of digits in `base`, most significant first. */
  function ValueIn(s: string, base: nat): nat
    requires AllDigitsIn(s, base)
  {
    if |s| == 0 then 0
    else
      ValueIn(s[..|s| - 1], base) * base + DigitOf(s[|s| - 1]).value
  }

  /** The longest prefix of `s` made of digits in `base`. */
  function DigitRun(s: string, base: nat): (r: string)
    ensures |r| <= |s| && r == s[..|r|]
    ensures AllDigitsIn(r, base)
    ensures |r| < |s| ==> !IsDigitIn(s[|r|], base)
  {
    if |s| == 0 || !IsDigitIn(s[0], base) then ""
    else
      var rest := DigitRun(s[1..], base);
      assert s[..|rest| + 1] == [s[0]] + rest;
      [s[0]] + rest
  }

  /** The white space parseInt skips at the front (the ASCII ones, no-break
      space, the byte-order mark and the two Unicode line separators). */
  predicate IsJsWhiteSpace(c: char)
  {
    c == ' ' || c == '\t' || c == '\n' || c == '\r' || c == '\U{000B}' || c == '\U{000C}'
    || c == '\U{00A0}' || c == '\U{FEFF}' || c == '\U{2028}' || c == '\U{2029}'
  }

  /** `s` after its leading white space. */
  function TrimStart(s: string): (r: string)
    ensures |r| <= |s| && r == s[|s| - |r|..]
    ensures forall i :: 0 <= i < |s| - |r| ==> IsJsWhiteSpace(s[i])
    ensures |r| > 0 ==> !IsJsWhiteSpace(r[0])
  {
    if |s| > 0 && IsJsWhiteSpace(s[0]) then TrimStart(s[1..]) else s
  }

  /** `parseInt(s)` with no radix: leading white space is skipped, then one
      optional sign; a `0x` / `0X` prefix selects base 16, otherwise base 10;
      the longest run of digits of that base is read. No digits at all gives
      NaN, here `None`. */
  function ParseInt(s: string): (r: Option<int>)
    // nothing but white space, or a first character that is neither a sign
    // nor a digit, is NaN
    ensures |TrimStart(s)| == 0 ==> r.None?
    ensures |TrimStart(s)| > 0 && TrimStart(s)[0] != '-' && TrimStart(s)[0] != '+' && !IsDecimalDigit(TrimStart(s)[0]) ==>
      r.None?
    // only a leading minus sign makes the result negative
    ensures r.Some? && r.value < 0 ==> TrimStart(s)[0] == '-'
  {
    var t := TrimStart(s);
    if |t| > 0 && t[0] == '-' then
      match ParseUnsigned(t[1..])
      case None => None
      case Some(v) => Some(-v)
    else if |t| > 0 && t[0] == '+' then ParseUnsigned(t[1..])
    else ParseUnsigned(t)
  }

  /** The part of parseInt after the sign. */
  function ParseUnsigned(u: string): (r: Option<int>)
    ensures r.Some? ==> r.value >= 0
  {
    if |u| >= 2 && u[0] == '0' && (u[1] == 'x' || u[1] == 'X') then ParseDigits(u[2..], 16)
    else ParseDigits(u, 10)
  }

  /** The value of the longest leading run of digits, if there is one. */
  function ParseDigits(u: string, base: nat): Option<int>
  {
    var digits := DigitRun(u, base);
    if |digits| == 0 then None else Some(ValueIn(digits, base))
  }

  // ---------------------------------------------------------------------
  // Facts about the decimal form
  // ---------------------------------------------------------------------

  lemma DecimalDigitsAreBase10(s: string)
    requires forall i :: 0 <= i < |s| ==> IsDecimalDigit(s[i])
    ensures AllDigitsIn(s, 10)
  {
  }

  /** Reading the decimal form back gives the number. */
  lemma {:induction false} DecimalValueOfNatToDecimal(n: nat)
    ensures AllDigitsIn(NatToDecimal(n), 10)
    ensures ValueIn(NatToDecimal(n), 10) == n
  {
    var s := NatToDecimal(n);
    DecimalDigitsAreBase10(s);
    if n >= 10 {
      DecimalValueOfNatToDecimal(n / 10);
      assert s[..|s| - 1] == NatToDecimal(n / 10);
    }
  }

  /** Different natural numbers have different decimal forms. */
  lemma NatToDecimalInjective(a: nat, b: nat)
    requires NatToDecimal(a) == NatToDecimal(b)
    ensures a == b
  {
    DecimalValueOfNatToDecimal(a);
    DecimalValueOfNatToDecimal(b);
  }

  /** Different numbers print differently. */
  lemma IntToDecimalInjective(a: int, b: int)
    requires IntToDecimal(a) == IntToDecimal(b)
    ensures a == b
  {
    if a < 0 {
      assert b < 0;
      assert IntToDecimal(a)[1..] == NatToDecimal(-a);
      assert IntToDecimal(b)[1..] == NatToDecimal(-b);
      NatToDecimalInjective(-a, -b);
    } else {
      assert b >= 0;
      NatToDecimalInjective(a, b);
    }
  }

  /** A string made only of digits of the base is read in full. */
  lemma {:induction false} DigitRunOfDigits(s: string, base: nat)
    requires AllDigitsIn(s, base)
    ensures DigitRun(s, base) == s
  {
    if |s| > 0 {
      assert AllDigitsIn(s[1..], base) by {
        forall i | 0 <= i < |s[1..]| ensures IsDigitIn(s[1..][i], base) { assert s[1..][i] == s[i + 1]; }
      }
      DigitRunOfDigits(s[1..], base);
      assert s == [s[0]] + s[1..];
    }
  }

  /** parseInt reads a plain run of decimal digits as its decimal value. */
  lemma {:induction false} ParseIntOfDigits(s: string)
    requires |s| >= 1
    requires forall i :: 0 <= i < |s| ==> IsDecimalDigit(s[i])
    ensures AllDigitsIn(s, 10)
    ensures ParseInt(s) == Some(ValueIn(s, 10))
  {
    DecimalDigitsAreBase10(s);
    assert IsDecimalDigit(s[0]);
    assert TrimStart(s) == s;
    assert |s| >= 2 ==> IsDecimalDigit(s[1]);
    DigitRunOfDigits(s, 10);
    assert ParseDigits(s, 10) == Some(ValueIn(s, 10));
    assert ParseUnsigned(s) == ParseDigits(s, 10);
  }

  /** parseInt reads the decimal form of a natural number back exactly. */
  lemma {:induction false} ParseIntOfDecimal(n: nat)
    ensures ParseInt(NatToDecimal(n)) == Some(n)
  {
    DecimalValueOfNatToDecimal(n);
    ParseIntOfDigits(NatToDecimal(n));
  }
}
