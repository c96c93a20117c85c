/** JavaScript's global `parseInt(string)` with no radix, the preprocessing
    step of every zod schema in the controllers, and the id validator
    `z.preprocess(parseInt, z.number().nonnegative())` built on it.
    `None` stands for `NaN`, which `z.number()` refuses. */
module Parsing {
  import opened Wrappers

  /** The characters `parseInt` skips before the number: white space and
      line terminators (tab, vertical tab, form feed, space, no-break space,
      the Unicode space separators, byte-order mark, LF, CR, LS, PS). */
  predicate IsWhiteSpace(c: char)
  {
    c == '\t' || c == '\n' || c == '\U{000B}' || c == '\U{000C}' || c == '\r' ||
    c == ' ' || c == '\U{00A0}' || c == '\U{1680}' || ('\U{2000}' <= c <= '\U{200A}') ||
    c == '\U{2028}' || c == '\U{2029}' || c == '\U{202F}' || c == '\U{205F}' ||
    c == '\U{3000}' || c == '\U{FEFF}'
  }

  function TrimStart(s: string): (r: string)
    ensures |r| <= |s| && r == s[|s| - |r|..]
    ensures r == [] || !IsWhiteSpace(r[0])
    ensures forall i :: 0 <= i < |s| - |r| ==> IsWhiteSpace(s[i])
  {
    if s != [] && IsWhiteSpace(s[0]) then TrimStart(s[1..]) else s
  }

  /** The value of a digit in radix 10 or 16, if `c` is one. */
  function DigitValue(c: char, radix: nat): Option<nat>
  {
    if '0' <= c <= '9' then Some(c as int - '0' as int)
    else if radix == 16 && 'a' <= c <= 'f' then Some(c as int - 'a' as int + 10)
    else if radix == 16 && 'A' <= c <= 'F' then Some(c as int - 'A' as int + 10)
    else None
  }

  predicate AllDigits(s: string, radix: nat)
  {
    forall i :: 0 <= i < |s| ==> DigitValue(s[i], radix).Some?
  }

  /** The length of the longest prefix of `s` made of digits; parsing stops
      at the first character that is not one. */
  function DigitRun(s: string, radix: nat): (n: nat)
    ensures n <= |s| && AllDigits(s[..n], radix)
    ensures n < |s| ==> DigitValue(s[n], radix).None?
  {
    if s != [] && DigitValue(s[0], radix).Some? then
      var n := 1 + DigitRun(s[1..], radix);
      assert forall i :: 1 <= i < n ==> s[..n][i] == s[1..][..n - 1][i - 1];
      n
    else 0
  }

  /** The number a run of digits denotes (most significant digit first). */
  function Magnitude(digits: string, radix: nat): nat
    requires AllDigits(digits, radix)
  {
    if digits == [] then 0
    else Magnitude(digits[..|digits| - 1], radix) * radix + DigitValue(digits[|digits| - 1], radix).value
  }

  /** The digits after the sign: radix 16 after a `0x`/`0X` prefix and
      radix 10 otherwise, converted up to the first character that is not a
      digit; no digit at all gives `NaN`. */
  function ParseMagnitude(u: string): Option<nat>
  {
    var hex := |u| >= 2 && u[0] == '0' && (u[1] == 'x' || u[1] == 'X');
    var radix := if hex then 16 else 10;
    var v := if hex then u[2..] else u;
    var n := DigitRun(v, radix);
    if n == 0 then None else Some(Magnitude(v[..n], radix))
  }

  /** `parseInt(s)`: skip leading white space, read an optional sign, then
      the digits. */
  function ParseInt(s: string): (r: Option<int>)
    ensures TrimStart(s) == [] ==> r == None
    ensures r.Some? && r.value < 0 ==> TrimStart(s)[0] == '-'
  {
    var t := TrimStart(s);
    var negative := t != [] && t[0] == '-';
    var u := if t != [] && (t[0] == '-' || t[0] == '+') then t[1..] else t;
    match ParseMagnitude(u)
    case None => None
    case Some(m) => Some(if negative then -(m as int) else m as int)
  }

  /** `z.preprocess(parseInt, z.number().nonnegative())`: the identifier, or
      `None` when the schema refuses the parameter. */
  function ParseId(raw: string): (r: Option<nat>)
    ensures r.Some? <==> ParseInt(raw).Some? && ParseInt(raw).value >= 0
    ensures r.Some? ==> r.value == ParseInt(raw).value
  {
    match ParseInt(raw)
    case Some(n) => if n >= 0 then Some(n) else None
    case None => None
  }

  /** The decimal digits of `n`, most significant first, without leading zeros. */
  function DecimalString(n: nat): (s: string)
    ensures s != [] && AllDigits(s, 10)
    ensures '0' <= s[0] <= '9'
  {
    if n < 10 then [DigitChar(n)] else DecimalString(n / 10) + [DigitChar(n % 10)]
  }

  function DigitChar(d: nat): char
    requires d < 10
  {
    ('0' as int + d) as char
  }

  lemma {:induction false} MagnitudeOfDecimal(n: nat)
    ensures Magnitude(DecimalString(n), 10) == n
  {
    var s := DecimalString(n);
    if n >= 10 {
      assert s[..|s| - 1] == DecimalString(n / 10);
      MagnitudeOfDecimal(n / 10);
    }
  }

  lemma {:induction false} DigitRunOfDecimal(d: string, tail: string)
    requires AllDigits(d, 10)
    requires tail == [] || DigitValue(tail[0], 10).None?
    ensures DigitRun(d + tail, 10) == |d|
  {
    if d != [] {
      assert (d + tail)[1..] == d[1..] + tail;
      DigitRunOfDecimal(d[1..], tail);
    } else {
      assert d + tail == tail;
    }
  }

  /** Decimal text of a non-negative number, optionally followed by text that
      does not continue the number (a fraction such as ".5", letters), reads
      back as that number. A leading "0" followed by "x" would switch to
      radix 16, hence the side condition. */
  lemma {:induction false} MagnitudeDecimal(n: nat, tail: string)
    requires tail == [] || DigitValue(tail[0], 10).None?
    requires n == 0 && tail != [] ==> tail[0] != 'x' && tail[0] != 'X'
    ensures ParseMagnitude(DecimalString(n) + tail) == Some(n)
  {
    var d := DecimalString(n);
    var u := d + tail;
    if n >= 10 {
      LeadingDigit(n);
      assert u[0] == d[0];
    } else if |u| >= 2 {
      assert u[1] == tail[0];
    }
    DigitRunOfDecimal(d, tail);
    assert u[..|d|] == d;
    MagnitudeOfDecimal(n);
  }

  /** Text that starts with a digit is read without a sign. */
  lemma Unsigned(u: string)
    requires u != [] && '0' <= u[0] <= '9'
    ensures ParseMagnitude(u).Some? ==> ParseInt(u) == Some(ParseMagnitude(u).value as int)
  {
    assert !IsWhiteSpace(u[0]);
    assert TrimStart(u) == u;
    assert u[0] != '-' && u[0] != '+';
  }

  /** A minus sign negates the number that follows it. */
  lemma Negated(u: string)
    ensures ParseMagnitude(u).Some? ==> ParseInt("-" + u) == Some(-(ParseMagnitude(u).value as int))
  {
    var s := "-" + u;
    assert s[0] == '-' && !IsWhiteSpace(s[0]);
    assert TrimStart(s) == s;
    assert s[1..] == u;
  }

  lemma ParseIntDecimal(n: nat, tail: string)
    requires tail == [] || DigitValue(tail[0], 10).None?
    requires n == 0 && tail != [] ==> tail[0] != 'x' && tail[0] != 'X'
    ensures ParseInt(DecimalString(n) + tail) == Some(n)
  {
    var u := DecimalString(n) + tail;
    assert u[0] == DecimalString(n)[0];
    MagnitudeDecimal(n, tail);
    Unsigned(u);
  }

  lemma LeadingDigit(n: nat)
    requires n >= 10
    ensures DecimalString(n)[0] != '0'
    decreases n
  {
    if n / 10 >= 10 {
      LeadingDigit(n / 10);
    }
  }

  /** The same with a minus sign: a negative number, which the id schema refuses. */
  lemma ParseIntNegative(n: nat, tail: string)
    requires n > 0
    requires tail == [] || DigitValue(tail[0], 10).None?
    ensures ParseInt("-" + DecimalString(n) + tail) == Some(-(n as int))
    ensures ParseId("-" + DecimalString(n) + tail) == None
  {
    var u := DecimalString(n) + tail;
    assert "-" + DecimalString(n) + tail == "-" + u;
    MagnitudeDecimal(n, tail);
    Negated(u);
  }

  /** Text that starts with neither white space, a sign nor a digit (such as
      "hello") is `NaN`. */
  lemma ParseIntNoDigits(s: string)
    requires s != [] && !IsWhiteSpace(s[0]) && s[0] != '-' && s[0] != '+'
    requires DigitValue(s[0], 10).None?
    ensures ParseInt(s) == None
    ensures ParseId(s) == None
  {
    assert TrimStart(s) == s;
  }

  /** The id validator accepts the decimal text of every identifier, as that identifier. */
  lemma ParseIdDecimal(n: nat, tail: string)
    requires tail == [] || DigitValue(tail[0], 10).None?
    requires n == 0 && tail != [] ==> tail[0] != 'x' && tail[0] != 'X'
    ensures ParseId(DecimalString(n) + tail) == Some(n)
  {
    ParseIntDecimal(n, tail);
  }
}
