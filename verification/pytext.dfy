/** The pieces of Python's text handling the application relies on: `str.isspace`,
    `str.strip`, the substring test `in`, `str(int)` and `int(str)` in base 10. */
module PyText {
  import opened Wrappers

  /** Python's `str.isspace()`: the characters `str.strip()` removes. */
  predicate IsSpace(c: char) {
    || ('\t' <= c && c <= '\r')
    || ('\U{1C}' <= c && c <= ' ')
    || c == '\U{85}' || c == '\U{A0}' || c == '\U{1680}'
    || ('\U{2000}' <= c && c <= '\U{200A}')
    || c == '\U{2028}' || c == '\U{2029}' || c == '\U{202F}'
    || c == '\U{205F}' || c == '\U{3000}'
  }

  predicate IsDigit(c: char) {
    '0' <= c <= '9'
  }

  ghost predicate AllSpace(s: string) {
    forall k :: 0 <= k < |s| ==> IsSpace(s[k])
  }

  /** Neither end of `s` is whitespace: what `strip()` leaves behind. */
  predicate IsStripped(s: string) {
    |s| == 0 || (!IsSpace(s[0]) && !IsSpace(s[|s| - 1]))
  }

  /** Number of whitespace characters at the front of `s`. */
  function LeadingSpaces(s: string): (n: nat)
    ensures n <= |s|
    ensures forall k :: 0 <= k < n ==> IsSpace(s[k])
    ensures n < |s| ==> !IsSpace(s[n])
  {
    if |s| > 0 && IsSpace(s[0]) then 1 + LeadingSpaces(s[1..]) else 0
  }

  /** Number of whitespace characters at the back of `s`. */
  function TrailingSpaces(s: string): (n: nat)
    ensures n <= |s|
    ensures forall k :: |s| - n <= k < |s| ==> IsSpace(s[k])
    ensures n < |s| ==> !IsSpace(s[|s| - n - 1])
  {
    if |s| > 0 && IsSpace(s[|s| - 1]) then 1 + TrailingSpaces(s[..|s| - 1]) else 0
  }

  /** `s.strip()`: the result is a slice of `s`, everything cut off either side is
      whitespace, and the result itself starts and ends with a non-space. */
  function Strip(s: string): (r: string)
    ensures IsStripped(r)
    ensures exists i :: 0 <= i <= |s| - |r| && s[i..i + |r|] == r && AllSpace(s[..i]) && AllSpace(s[i + |r|..])
  {
    var i := LeadingSpaces(s);
    var t := s[i..];
    var j := TrailingSpaces(t);
    var r := t[..|t| - j];
    assert s[i..i + |r|] == r;
    assert AllSpace(s[..i]);
    assert s[i + |r|..] == t[|t| - j..];
    r
  }

  /** Stripping text that is already stripped changes nothing. */
  lemma StripStripped(s: string)
    requires IsStripped(s)
    ensures Strip(s) == s
  {
  }

  /** `strip()` is idempotent. */
  lemma StripIdempotent(s: string)
    ensures Strip(Strip(s)) == Strip(s)
  {
  }

  /** Python's `t in s` for strings: `t` occurs in `s` at some offset. */
  predicate Contains(s: string, t: string) {
    exists i :: 0 <= i <= |s| - |t| && t <= s[i..]
  }

  /** A string never contains a longer one. */
  lemma NotContainsLonger(s: string, t: string)
    requires |s| < |t|
    ensures !Contains(s, t)
  {
  }

  /** Every string contains its own prefixes. */
  lemma ContainsPrefix(s: string, t: string)
    requires t <= s
    ensures Contains(s, t)
  {
    assert s[0..] == s;
  }

  function DigitChar(d: nat): (c: char)
    requires d < 10
    ensures IsDigit(c)
  {
    (('0' as int) + d) as char
  }

  function DigitOf(c: char): (d: nat)
    requires IsDigit(c)
    ensures d < 10 && DigitChar(d) == c
  {
    (c as int) - ('0' as int)
  }

  /** `str(n)` for a non-negative integer: its decimal digits, most significant first. */
  function NatToDecimal(n: nat): (d: string)
    ensures |d| > 0
    ensures forall k :: 0 <= k < |d| ==> IsDigit(d[k])
    decreases n
  {
    if n < 10 then [DigitChar(n)] else NatToDecimal(n / 10) + [DigitChar(n % 10)]
  }

  /** `str(i)` for any integer: a minus sign before the digits of a negative value. */
  function IntToDecimal(i: int): string {
    if i < 0 then "-" + NatToDecimal(-i) else NatToDecimal(i)
  }

  /** The digit string accepted by `int()` in base 10: digits, with single
      underscores allowed only between two digits. */
  predicate IsDigitGroup(d: string) {
    && |d| > 0
    && IsDigit(d[0])
    && forall k {:trigger d[k]} :: 0 <= k < |d| ==> IsDigit(d[k]) || (d[k] == '_' && k + 1 < |d| && IsDigit(d[k + 1]))
  }

  /** A digit group ends with a digit. */
  lemma DigitGroupEnds(d: string)
    requires IsDigitGroup(d)
    ensures IsDigit(d[|d| - 1]) && IsStripped(d)
  {
  }

  /** The value of a digit group; underscores only separate digits. */
  function DigitsValue(d: string): nat {
    if |d| == 0 then 0
    else if IsDigit(d[|d| - 1]) then 10 * DigitsValue(d[..|d| - 1]) + DigitOf(d[|d| - 1])
    else DigitsValue(d[..|d| - 1])
  }

  /** Python's default `sys.int_info.default_max_str_digits`: `int(str)` and
      `str(int)` in base 10 raise `ValueError` beyond this many digits. */
  const MaxStrDigits := 4300

  /** Number of decimal digits in `s`; signs and underscores do not count. */
  function DigitCount(s: string): (n: nat)
    ensures n <= |s|
  {
    if |s| == 0 then 0 else (if IsDigit(s[0]) then 1 else 0) + DigitCount(s[1..])
  }

  /** A string made of digits only has one digit per character. */
  lemma {:induction false} DigitCountOfDigits(s: string)
    requires forall k :: 0 <= k < |s| ==> IsDigit(s[k])
    ensures DigitCount(s) == |s|
  {
    if |s| > 0 {
      assert forall k :: 0 <= k < |s| - 1 ==> s[1..][k] == s[k + 1];
      DigitCountOfDigits(s[1..]);
    }
  }

  /** `str(i)` stays within the digit limit, so Python produces it. */
  predicate WithinStrLimit(i: int) {
    |NatToDecimal(if i < 0 then -i else i)| <= MaxStrDigits
  }

  /** What `int()` accepts once surrounding whitespace is removed: an optional sign
      directly followed by a digit group. */
  predicate IsIntLiteral(t: string) {
    || IsDigitGroup(t)
    || (|t| > 0 && (t[0] == '+' || t[0] == '-') && IsDigitGroup(t[1..]))
  }

  /** The ASCII information separators U+001C..U+001F. `isspace()` holds of them,
      but `int()` leaves ASCII characters as they are and then skips only
      `\t\n\v\f\r` and space, so one of them anywhere makes `int()` fail. */
  predicate IsInfoSeparator(c: char) {
    '\U{1C}' <= c && c <= '\U{1F}'
  }

  predicate HasInfoSeparator(s: string) {
    exists k :: 0 <= k < |s| && IsInfoSeparator(s[k])
  }

  /** `int(s)` in base 10; `None` where Python raises `ValueError`. Apart from the
      information separators, the whitespace `int()` skips around the literal is
      exactly what `strip()` removes; a literal of more than `MaxStrDigits` digits
      is refused. */
  function ParseInt(s: string): (r: Option<int>)
    ensures r.Some? <==> && !HasInfoSeparator(s)
                         && IsIntLiteral(Strip(s))
                         && DigitCount(Strip(s)) <= MaxStrDigits
    ensures r.Some? && Strip(s)[0] != '-' ==> r.value >= 0
    ensures r.Some? && Strip(s)[0] == '-' ==> r.value <= 0
  {
    var t := Strip(s);
    if HasInfoSeparator(s) || DigitCount(t) > MaxStrDigits then None
    else if |t| > 0 && (t[0] == '+' || t[0] == '-') then
      if IsDigitGroup(t[1..]) then
        var v: int := DigitsValue(t[1..]);
        Some(if t[0] == '-' then -v else v)
      else None
    else if IsDigitGroup(t) then Some(DigitsValue(t))
    else None
  }

  /** An information separator before the digits makes `int()` fail. */
  lemma InfoSeparatorRejected()
    ensures ParseInt("\U{1C}1") == None
  {
  }

  /** A literal one digit over the limit is refused, however well formed. */
  lemma TooManyDigitsRejected(d: string)
    requires IsDigitGroup(d) && DigitCount(d) > MaxStrDigits
    ensures ParseInt(d) == None
  {
    DigitGroupEnds(d);
    StripStripped(d);
  }

  /** The digits `str` produces read back to the same number. */
  lemma {:induction false} DigitsValueOfDecimal(n: nat)
    ensures DigitsValue(NatToDecimal(n)) == n
    decreases n
  {
    if n >= 10 {
      var p := NatToDecimal(n / 10);
      var d := p + [DigitChar(n % 10)];
      assert d[..|d| - 1] == p;
      DigitsValueOfDecimal(n / 10);
    }
  }

  /** A digit group alone is read as its non-negative value. */
  lemma ParseDigitGroup(d: string)
    requires IsDigitGroup(d) && DigitCount(d) <= MaxStrDigits
    ensures ParseInt(d) == Some(DigitsValue(d))
  {
    DigitGroupEnds(d);
    StripStripped(d);
  }

  /** A minus sign followed by a digit group is read as the negated value. */
  lemma ParseNegatedDigitGroup(d: string)
    requires IsDigitGroup(d) && DigitCount(d) <= MaxStrDigits
    ensures ParseInt("-" + d) == Some(-(DigitsValue(d) as int))
  {
    var s := "-" + d;
    assert s[1..] == d;
    assert DigitCount(s) == DigitCount(d);
    DigitGroupEnds(d);
    assert s[|s| - 1] == d[|d| - 1];
    assert IsStripped(s);
    StripStripped(s);
  }

  /** Decimal digits always form a digit group. */
  lemma DecimalIsDigitGroup(n: nat)
    ensures IsDigitGroup(NatToDecimal(n))
  {
  }

  /** `int(str(i)) == i` for every integer `i` that `str` renders, that is, one
      within the digit limit. */
  lemma ParseIntOfDecimal(i: int)
    requires WithinStrLimit(i)
    ensures ParseInt(IntToDecimal(i)) == Some(i)
  {
    var n: nat := if i < 0 then -i else i;
    DigitsValueOfDecimal(n);
    DecimalIsDigitGroup(n);
    DigitCountOfDigits(NatToDecimal(n));
    if i < 0 {
      ParseNegatedDigitGroup(NatToDecimal(n));
    } else {
      ParseDigitGroup(NatToDecimal(n));
    }
  }
}
