/**
  The two JavaScript string built-ins the order form relies on:
  `String.prototype.trim` (the group-name check) and `parseInt` (the amount
  field), the latter on the values an `<input type="number">` can hold.
 */
module JsText {
  import opened Wrappers

  /**
    The characters `trim` removes: ECMAScript's WhiteSpace (tab, vertical tab,
    form feed, the byte order mark and every space separator) and
    LineTerminator (LF, CR, U+2028, U+2029), sections 12.2 and 12.3 of ECMA-262.
   */
  predicate IsJsWhitespace(c: char)
  {
    || c == '\t' || c == '\n' || c == '\U{000B}' || c == '\U{000C}' || c == '\r'
    || c == ' ' || c == '\U{00A0}' || c == '\U{1680}' || ('\U{2000}' <= c <= '\U{200A}')
    || c == '\U{2028}' || c == '\U{2029}' || c == '\U{202F}' || c == '\U{205F}'
    || c == '\U{3000}' || c == '\U{FEFF}'
  }

  predicate AllWhitespace(s: string)
  {
    forall i :: 0 <= i < |s| ==> IsJsWhitespace(s[i])
  }

  /** `s.trimStart()`: the suffix left after dropping the leading whitespace. */
  function TrimStart(s: string): (r: string)
    ensures |r| <= |s| && r == s[|s| - |r|..]
    ensures forall i :: 0 <= i < |s| - |r| ==> IsJsWhitespace(s[i])
    ensures r == "" || !IsJsWhitespace(r[0])
  {
    if s != "" && IsJsWhitespace(s[0]) then TrimStart(s[1..]) else s
  }

  /** `s.trimEnd()`: the prefix left after dropping the trailing whitespace. */
  function TrimEnd(s: string): (r: string)
    ensures |r| <= |s| && r == s[..|r|]
    ensures forall i :: |r| <= i < |s| ==> IsJsWhitespace(s[i])
    ensures r == "" || !IsJsWhitespace(r[|r| - 1])
  {
    if s != "" && IsJsWhitespace(s[|s| - 1]) then TrimEnd(s[..|s| - 1]) else s
  }

  /** `s.trim()`: the middle of `s`, left after dropping whitespace at both ends. */
  function Trim(s: string): (r: string)
    ensures var k := |s| - |TrimStart(s)|;
            k + |r| <= |s| && r == s[k..k + |r|] &&
            (forall i :: 0 <= i < k ==> IsJsWhitespace(s[i])) &&
            (forall i :: k + |r| <= i < |s| ==> IsJsWhitespace(s[i]))
    ensures r == "" || (!IsJsWhitespace(r[0]) && !IsJsWhitespace(r[|r| - 1]))
    ensures r == "" <==> AllWhitespace(s)
  {
    TrimEnd(TrimStart(s))
  }

  /** Trimming leaves nothing exactly when the string is whitespace only (the empty string included). */
  lemma TrimEmptyIffAllWhitespace(s: string)
    ensures Trim(s) == "" <==> AllWhitespace(s)
  {
  }

  /** Trimming keeps a string with no surrounding whitespace as it is. */
  lemma TrimKeepsInnerText(s: string)
    requires s != "" && !IsJsWhitespace(s[0]) && !IsJsWhitespace(s[|s| - 1])
    ensures Trim(s) == s
  {
  }

  /** `s.startsWith(prefix)` */
  predicate StartsWith(s: string, prefix: string)
  {
    |prefix| <= |s| && s[..|prefix|] == prefix
  }

  predicate IsDigit(c: char)
  {
    '0' <= c <= '9'
  }

  predicate AllDigits(s: string)
  {
    forall i :: 0 <= i < |s| ==> IsDigit(s[i])
  }

  /** The value of a run of decimal digits, most significant first. */
  function DigitsValue(ds: string): nat
    requires AllDigits(ds)
  {
    if ds == "" then 0
    else DigitsValue(ds[..|ds| - 1]) * 10 + ((ds[|ds| - 1] as int) - ('0' as int))
  }

  /** Length of the longest prefix of `s` made of decimal digits. */
  function DigitPrefixLength(s: string): (k: nat)
    ensures k <= |s| && AllDigits(s[..k])
    ensures k == |s| || !IsDigit(s[k])
  {
    if s != "" && IsDigit(s[0]) then
      var k := 1 + DigitPrefixLength(s[1..]);
      assert s[..k] == [s[0]] + s[1..][..k - 1];
      k
    else 0
  }

  /**
    `parseInt(s)` (radix 10) on the value of a number input, which is either
    empty or an optional minus sign followed by a decimal numeral, possibly
    with a fraction or an exponent: the sign, then the longest run of digits;
    `None` stands for NaN, when there is no digit at all.
   */
  function ParseInt(s: string): (r: Option<int>)
  {
    var negative := s != "" && s[0] == '-';
    var body := if negative then s[1..] else s;
    var k := DigitPrefixLength(body);
    if k == 0 then None
    else if negative then Some(-(DigitsValue(body[..k]) as int))
    else Some(DigitsValue(body[..k]))
  }

  /** `String(n)` for a natural number: its decimal numeral without leading zeros. */
  function DecimalString(n: nat): (r: string)
    ensures r != "" && AllDigits(r)
    ensures |r| > 1 ==> r[0] != '0'
  {
    var d := [((n % 10) + ('0' as int)) as char];
    if n < 10 then d else DecimalString(n / 10) + d
  }

  lemma {:induction false} DigitsValueOfDecimal(n: nat)
    ensures DigitsValue(DecimalString(n)) == n
  {
    var r := DecimalString(n);
    if n >= 10 {
      DigitsValueOfDecimal(n / 10);
      assert r[..|r| - 1] == DecimalString(n / 10);
    }
  }

  /** The digit run of a numeral followed by a non-digit is the numeral. */
  lemma {:induction false} DigitPrefixOfNumeral(ds: string, rest: string)
    requires AllDigits(ds)
    requires rest == "" || !IsDigit(rest[0])
    ensures DigitPrefixLength(ds + rest) == |ds|
    decreases |ds|
  {
    if ds != "" {
      assert (ds + rest)[1..] == ds[1..] + rest;
      DigitPrefixOfNumeral(ds[1..], rest);
    } else {
      assert ds + rest == rest;
    }
  }

  /**
    What `parseInt` makes of a string: NaN exactly when no digit follows the
    optional minus sign, and the numeral's value when the rest is all digits.
   */
  lemma {:induction false} ParseIntOfNumeral(s: string)
    ensures ParseInt(s).None? <==>
            !(s != "" && IsDigit(s[0])) && !(|s| > 1 && s[0] == '-' && IsDigit(s[1]))
    ensures s != "" && AllDigits(s) ==> ParseInt(s) == Some(DigitsValue(s))
    ensures |s| > 1 && s[0] == '-' && AllDigits(s[1..]) ==> ParseInt(s) == Some(-(DigitsValue(s[1..]) as int))
  {
    var negative := s != "" && s[0] == '-';
    var body := if negative then s[1..] else s;
    var k := DigitPrefixLength(body);
    assert k == 0 <==> body == "" || !IsDigit(body[0]);
    if negative {
      assert !IsDigit(s[0]);
      if AllDigits(body) {
        DigitPrefixOfNumeral(body, "");
        assert body + "" == body;
      }
    } else if s != "" && AllDigits(s) {
      DigitPrefixOfNumeral(s, "");
      assert s + "" == s;
    }
  }

  /**
    `parseInt` reads back the numeral of any integer, and it stops at the first
    character that is not a digit, so a fraction or an exponent is dropped.
   */
  lemma ParseIntOfDecimal(n: nat, negative: bool, rest: string)
    requires rest == "" || !IsDigit(rest[0])
    ensures ParseInt((if negative then "-" else "") + DecimalString(n) + rest)
            == Some(if negative then -(n as int) else n)
  {
    var ds := DecimalString(n);
    var body := ds + rest;
    var s := (if negative then "-" else "") + ds + rest;
    var sign := s != "" && s[0] == '-';
    if negative {
      assert s == "-" + body;
      assert sign && s[1..] == body;
    } else {
      assert s == body;
      assert s[0] == ds[0] && IsDigit(ds[0]);
      assert !sign;
    }
    DigitPrefixOfNumeral(ds, rest);
    assert body[..|ds|] == ds;
    DigitsValueOfDecimal(n);
  }
}
