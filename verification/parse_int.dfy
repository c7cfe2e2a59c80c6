/**
  JavaScript's global `parseInt(string, 10)` as section 19.2.5 of ECMA-262
  defines it: leading white space is skipped, one optional sign is taken,
  then the longest run of decimal digits is read and everything after it is
  ignored. With no digits the result is NaN, modelled as `None`.
 */
module JsParseInt {

  import opened Wrappers
  import opened Numerals

  /**
    The code points ECMA-262 trims before parsing: its WhiteSpace production
    (tab, vertical tab, form feed, the byte order mark and every space
    separator of category Zs) and its LineTerminator production.
   */
  predicate IsStrWhiteSpace(c: char) {
    var n := c as int;
    || n == 0x09 || n == 0x0B || n == 0x0C || n == 0xFEFF
    || n == 0x20 || n == 0xA0 || n == 0x1680 || (0x2000 <= n <= 0x200A)
    || n == 0x202F || n == 0x205F || n == 0x3000
    || n == 0x0A || n == 0x0D || n == 0x2028 || n == 0x2029
  }

  /** Drops the leading white space, and nothing more. */
  function TrimStart(s: string): (t: string)
    ensures |t| <= |s| && t == s[|s| - |t|..]
    ensures forall i :: 0 <= i < |s| - |t| ==> IsStrWhiteSpace(s[i])
    ensures |t| == 0 || !IsStrWhiteSpace(t[0])
  {
    if |s| > 0 && IsStrWhiteSpace(s[0]) then TrimStart(s[1..]) else s
  }

  /** The longest prefix of `s` made of decimal digits. */
  function LeadingDigits(s: string): (d: string)
    ensures |d| <= |s| && d == s[..|d|]
    ensures AllDigits(d)
    ensures |d| == |s| || !IsDigit(s[|d|])
  {
    if |s| > 0 && IsDigit(s[0]) then [s[0]] + LeadingDigits(s[1..]) else []
  }

  /** The text starts with a decimal digit, or with one sign character and then a digit. */
  predicate StartsInteger(t: string) {
    || (|t| > 0 && IsDigit(t[0]))
    || (|t| > 1 && (t[0] == '+' || t[0] == '-') && IsDigit(t[1]))
  }

  /** After its leading white space, the text starts with an optionally signed integer. */
  predicate HasIntegerPrefix(s: string) {
    StartsInteger(TrimStart(s))
  }

  /**
    `parseInt(s, 10)`; `None` is NaN. A number is read exactly when the text
    has an integer prefix; its value is that of the leading digits after the
    white space and the sign, negated after a minus sign.
   */
  function ParseInt(s: string): (r: Option<int>)
    ensures r.Some? ==> exists i :: 0 <= i < |s| && IsDigit(s[i])
    ensures r.Some? <==> HasIntegerPrefix(s)
    ensures r.Some? ==>
      var t := TrimStart(s);
      var digits := LeadingDigits(if IsDigit(t[0]) then t else t[1..]);
      r.value == (if t[0] == '-' then -(DigitsValue(digits) as int) else DigitsValue(digits))
  {
    var t := TrimStart(s);
    var r := ParseSigned(t);
    assert r.Some? ==> var k := if IsDigit(t[0]) then 0 else 1; IsDigit(t[k]) && t[k] == s[|s| - |t| + k];
    r
  }

  /** The steps after trimming: an optional sign, then the leading digits. */
  function ParseSigned(t: string): (r: Option<int>)
    ensures r.Some? <==> StartsInteger(t)
    ensures r.Some? ==>
      var digits := LeadingDigits(if IsDigit(t[0]) then t else t[1..]);
      r.value == (if t[0] == '-' then -(DigitsValue(digits) as int) else DigitsValue(digits))
  {
    var negative := |t| > 0 && t[0] == '-';
    var unsigned := if |t| > 0 && (t[0] == '-' || t[0] == '+') then t[1..] else t;
    var digits := LeadingDigits(unsigned);
    if |digits| == 0 then None
    else
      var magnitude: int := DigitsValue(digits);
      Some(if negative then -magnitude else magnitude)
  }

  /** A run of digits followed by anything that does not continue it reads as that run. */
  lemma {:induction false} LeadingDigitsOfRun(ds: string, tail: string)
    requires AllDigits(ds)
    requires |tail| == 0 || !IsDigit(tail[0])
    ensures LeadingDigits(ds + tail) == ds
    decreases |ds|
  {
    if |ds| > 0 {
      assert (ds + tail)[1..] == ds[1..] + tail;
      LeadingDigitsOfRun(ds[1..], tail);
      assert [ds[0]] + ds[1..] == ds;
    } else {
      assert ds + tail == tail;
    }
  }

  /**
    Reading back the decimal numeral of any integer gives that integer, and
    whatever follows the numeral is ignored unless it continues the digits.
   */
  lemma ParseIntRoundTrip(n: int, tail: string)
    requires |tail| == 0 || !IsDigit(tail[0])
    ensures ParseInt(IntToDecimal(n) + tail) == Some(n)
  {
    var s := IntToDecimal(n) + tail;
    assert !IsStrWhiteSpace(s[0]);
    assert TrimStart(s) == s;
    if n < 0 {
      var m := NatToDecimal(-n);
      assert s[1..] == m + tail;
      LeadingDigitsOfRun(m, tail);
    } else {
      LeadingDigitsOfRun(NatToDecimal(n), tail);
    }
  }

  /** A run of digits behind white space and an optional plus sign reads as its value. */
  lemma ParseIntOfPaddedDigits(ws: string, sign: string, digits: string)
    requires forall i :: 0 <= i < |ws| ==> IsStrWhiteSpace(ws[i])
    requires sign == "" || sign == "+"
    requires |digits| > 0 && AllDigits(digits)
    ensures ParseInt(ws + sign + digits) == Some(DigitsValue(digits))
  {
    var t := sign + digits;
    ParseSignedOfDigits(sign, digits);
    ParseIntWithoutWhiteSpace(t);
    ParseIntSkipsWhiteSpace(ws, t);
    ParseIntRegrouped(ws, sign, digits, DigitsValue(digits));
  }

  lemma ParseIntRegrouped(ws: string, sign: string, digits: string, v: int)
    requires ParseInt(ws + (sign + digits)) == Some(v)
    ensures ParseInt(ws + sign + digits) == Some(v)
  {
    assert ws + sign + digits == ws + (sign + digits);
  }

  /** Text that does not start with white space is parsed as it stands. */
  lemma ParseIntWithoutWhiteSpace(t: string)
    requires |t| > 0 && !IsStrWhiteSpace(t[0])
    ensures ParseInt(t) == ParseSigned(t)
  {
    assert TrimStart(t) == t;
  }

  /** An optional plus sign and then digits read as the value of the digits. */
  lemma ParseSignedOfDigits(sign: string, digits: string)
    requires sign == "" || sign == "+"
    requires |digits| > 0 && AllDigits(digits)
    ensures |sign + digits| > 0 && !IsStrWhiteSpace((sign + digits)[0])
    ensures ParseSigned(sign + digits) == Some(DigitsValue(digits))
  {
    var t := sign + digits;
    assert LeadingDigits(digits) == digits;
    var unsigned := if |t| > 0 && (t[0] == '-' || t[0] == '+') then t[1..] else t;
    assert unsigned == digits by {
      if sign == "+" {
        assert t[1..] == digits;
      } else {
        assert t == digits;
      }
    }
    assert !(|t| > 0 && t[0] == '-');
  }

  /** White space in front of a numeral changes nothing. */
  lemma {:induction false} ParseIntSkipsWhiteSpace(ws: string, s: string)
    requires forall i :: 0 <= i < |ws| ==> IsStrWhiteSpace(ws[i])
    ensures ParseInt(ws + s) == ParseInt(s)
  {
    TrimStartSkips(ws, s);
  }

  lemma {:induction false} TrimStartSkips(ws: string, s: string)
    requires forall i :: 0 <= i < |ws| ==> IsStrWhiteSpace(ws[i])
    ensures TrimStart(ws + s) == TrimStart(s)
    decreases |ws|
  {
    if |ws| > 0 {
      assert (ws + s)[1..] == ws[1..] + s;
      TrimStartSkips(ws[1..], s);
    } else {
      assert ws + s == s;
    }
  }
}
