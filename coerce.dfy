/** Python's `int(...)` applied to a value taken out of the decoded JSON cart.

    The cart posted by the browser is a JSON array of objects; a field of one of
    those objects is whatever JSON put there (or nothing, when the key is
    missing). `int()` accepts integers and booleans as they are, parses strings
    in base 10 and raises on `None`, on a list and on a dict. JSON numbers with a
    fraction or an exponent, which `json.loads` makes floats and `int()`
    truncates, are not represented, in prices and quantities alike.
 */
module Coerce {

  datatype Option<+T> = None | Some(value: T)

  /** What `item[key]` finds in one decoded cart object. */
  datatype Field =
    | Absent          // the key is missing: `item[key]` raises KeyError
    | JNull           // JSON null: `int(None)` raises TypeError
    | JBool(b: bool)  // JSON true/false: `int(True) == 1`, `int(False) == 0`
    | JInt(i: int)    // a JSON integer
    | JStr(s: string) // a JSON string, parsed by `int(s)`
    | JOther          // a JSON array or object: `int([...])`, `int({...})` raise TypeError

  predicate IsDigit(c: char) { '0' <= c <= '9' }

  /** The ASCII padding `int()` strips: the space and `'\t'` to `'\r'`. The ASCII
      separators U+001C to U+001F, white space to `str.isspace`, are not stripped. */
  predicate IsSpace(c: char) {
    c == ' ' || '\t' <= c <= '\r'
  }

  /** Leading white space removed. */
  function TrimStart(s: string): string {
    if s != [] && IsSpace(s[0]) then TrimStart(s[1..]) else s
  }

  /** Trailing white space removed. */
  function TrimEnd(s: string): string {
    if s != [] && IsSpace(s[|s| - 1]) then TrimEnd(s[..|s| - 1]) else s
  }

  /** `s.strip()`, as `int()` applies it before parsing. */
  function Strip(s: string): string {
    TrimEnd(TrimStart(s))
  }

  /** Digits, with single underscores allowed between two digits ("1_000"). */
  predicate IsDigitGroups(s: string) {
    |s| > 0 && IsDigit(s[0]) && IsDigit(s[|s| - 1]) &&
    (forall i :: 0 <= i < |s| ==> IsDigit(s[i]) || s[i] == '_') &&
    NoDoubleUnderscore(s)
  }

  /** No two underscores in a row. */
  predicate NoDoubleUnderscore(s: string) {
    |s| < 2 || (!(s[0] == '_' && s[1] == '_') && NoDoubleUnderscore(s[1..]))
  }

  predicate AllDigits(s: string) {
    forall i :: 0 <= i < |s| ==> IsDigit(s[i])
  }

  function DropUnderscores(s: string): (r: string)
    ensures (forall i :: 0 <= i < |s| ==> IsDigit(s[i]) || s[i] == '_') ==> AllDigits(r)
    ensures |r| <= |s|
  {
    if s == [] then []
    else (if s[0] == '_' then [] else [s[0]]) + DropUnderscores(s[1..])
  }

  /** The number a string of decimal digits denotes. */
  function DigitsValue(s: string): nat
    requires AllDigits(s)
  {
    if s == [] then 0
    else 10 * DigitsValue(s[..|s| - 1]) + (s[|s| - 1] as int - '0' as int)
  }

  /** The most digits `int()` converts from a string (the default of
      `sys.set_int_max_str_digits`); underscores do not count. */
  const MaxStrDigits: nat := 4300

  /** The digits after the optional sign; None where they are malformed or too many. */
  function ParseDigitGroups(body: string): Option<nat> {
    if IsDigitGroups(body) && |DropUnderscores(body)| <= MaxStrDigits
    then Some(DigitsValue(DropUnderscores(body)))
    else None
  }

  /** A stripped string: an optional sign, then digit groups. */
  function ParseSigned(t: string): Option<int> {
    var signed := |t| > 0 && (t[0] == '-' || t[0] == '+');
    match ParseDigitGroups(if signed then t[1..] else t)
    case Some(n) => Some(if signed && t[0] == '-' then -(n as int) else n)
    case None => None
  }

  /** `int(s)` for a string `s`: None where Python raises ValueError. */
  function ParseInt(s: string): Option<int> {
    ParseSigned(Strip(s))
  }

  /** `int(v)` for a value found in a cart object: None where Python raises. */
  function ToInt(f: Field): Option<int> {
    match f
    case Absent => None
    case JNull => None
    case JBool(b) => Some(if b then 1 else 0)
    case JInt(i) => Some(i)
    case JStr(s) => ParseInt(s)
    case JOther => None
  }

  /** `str(n)` for a natural number n. */
  function Decimal(n: nat): string {
    if n < 10 then [('0' as int + n) as char]
    else Decimal(n / 10) + [('0' as int + n % 10) as char]
  }

  /** `str(i)` for any integer i. */
  function IntToString(i: int): string {
    if i < 0 then "-" + Decimal(-i) else Decimal(i)
  }

  lemma {:induction false} DecimalIsDigits(n: nat)
    ensures |Decimal(n)| > 0 && AllDigits(Decimal(n))
    ensures DigitsValue(Decimal(n)) == n
  {
    if n >= 10 {
      DecimalIsDigits(n / 10);
      var s := Decimal(n);
      assert s[..|s| - 1] == Decimal(n / 10);
    }
  }

  lemma {:induction false} DropUnderscoresOfDigits(s: string)
    requires AllDigits(s)
    ensures DropUnderscores(s) == s
  {
    if s != [] {
      DropUnderscoresOfDigits(s[1..]);
    }
  }

  lemma StripUnpadded(s: string)
    requires |s| > 0 && !IsSpace(s[0]) && !IsSpace(s[|s| - 1])
    ensures Strip(s) == s
  {
    assert TrimStart(s) == s;
  }

  lemma {:induction false} DigitsHaveNoUnderscorePair(d: string)
    requires AllDigits(d)
    ensures NoDoubleUnderscore(d)
  {
    if |d| >= 2 {
      DigitsHaveNoUnderscorePair(d[1..]);
    }
  }

  lemma DigitsAreGroups(d: string)
    requires |d| > 0 && AllDigits(d)
    ensures IsDigitGroups(d) && DropUnderscores(d) == d
  {
    DropUnderscoresOfDigits(d);
    DigitsHaveNoUnderscorePair(d);
  }

  /** A run of at most `MaxStrDigits` digits is well-formed digit groups. */
  lemma DigitsParse(d: string)
    requires 0 < |d| <= MaxStrDigits && AllDigits(d)
    ensures ParseDigitGroups(d) == Some(DigitsValue(d))
  {
    DigitsAreGroups(d);
  }

  /** `int()` reads a plain run of at most `MaxStrDigits` digits as its decimal value. */
  lemma ParseIntOfDigits(d: string)
    requires 0 < |d| <= MaxStrDigits && AllDigits(d)
    ensures ParseInt(d) == Some(DigitsValue(d))
  {
    UnsignedDigitsParse(d);
    StripUnpadded(d);
  }

  lemma UnsignedDigitsParse(d: string)
    requires 0 < |d| <= MaxStrDigits && AllDigits(d)
    ensures ParseSigned(d) == Some(DigitsValue(d))
  {
    DigitsParse(d);
    assert !(d[0] == '+' || d[0] == '-');
  }

  lemma NegativeSigned(m: string, n: nat)
    requires |m| > 1 && m[0] == '-' && ParseDigitGroups(m[1..]) == Some(n)
    ensures ParseSigned(m) == Some(-(n as int))
  {
  }

  /** A minus sign followed by digits, stripped, parses to the negated value. */
  lemma NegatedDigitsParse(m: string, d: string)
    requires 0 < |d| <= MaxStrDigits && AllDigits(d)
    requires |m| > 1 && m[0] == '-' && m[1..] == d && m[|m| - 1] == d[|d| - 1]
    ensures ParseInt(m) == Some(-(DigitsValue(d) as int))
  {
    DigitsParse(d);
    NegativeSigned(m, DigitsValue(d));
    StripUnpadded(m);
  }

  /** `int()` reads a minus sign and a run of at most `MaxStrDigits` digits as the
      negated value. */
  lemma ParseIntOfNegatedDigits(d: string)
    requires 0 < |d| <= MaxStrDigits && AllDigits(d)
    ensures ParseInt("-" + d) == Some(-(DigitsValue(d) as int))
  {
    var m := "-" + d;
    assert m[0] == '-' && m[1..] == d && m[|m| - 1] == d[|d| - 1];
    NegatedDigitsParse(m, d);
  }

  /** More than `MaxStrDigits` digits make `int()` raise, with or without a sign. */
  lemma TooManyDigitsRejected(d: string)
    requires |d| > MaxStrDigits && AllDigits(d)
    ensures ParseInt(d) == None && ParseInt("-" + d) == None
  {
    DropUnderscoresOfDigits(d);
    StripUnpadded(d);
    assert !(d[0] == '+' || d[0] == '-');
    var m := "-" + d;
    assert m[0] == '-' && m[1..] == d && m[|m| - 1] == d[|d| - 1];
    StripUnpadded(m);
  }

  /** An ASCII separator U+001C to U+001F before the digits makes `int()` raise. */
  lemma SeparatorIsNotPadding(c: char, d: string)
    requires '\U{1C}' <= c <= '\U{1F}' && 0 < |d| && AllDigits(d)
    ensures ParseInt([c] + d) == None
  {
    var t := [c] + d;
    assert t[0] == c && t[|t| - 1] == d[|d| - 1];
    StripUnpadded(t);
  }

  /** A number of at most `MaxStrDigits` digits, written out by `str`, is read back
      by `int` unchanged. */
  lemma ParseIntRoundTrip(i: int)
    requires |Decimal(if i < 0 then -i else i)| <= MaxStrDigits
    ensures ParseInt(IntToString(i)) == Some(i)
    ensures ToInt(JStr(IntToString(i))) == Some(i)
  {
    var n: nat := if i < 0 then -i else i;
    DecimalIsDigits(n);
    if i < 0 {
      ParseIntOfNegatedDigits(Decimal(n));
    } else {
      ParseIntOfDigits(Decimal(n));
    }
  }
}
