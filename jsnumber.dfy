/**
 * JavaScript `Number(string)` (ECMAScript StringToNumber) over exact reals: the conversion
 * behind `Number(form.amount)` in the submit guards and `z.coerce.number()` in the edit schemas.
 * Results are exact; binary rounding and overflow to Infinity are not modelled.
 */
module JsNumber {

  import opened Wrappers

  datatype Num = NaN | PosInf | NegInf | Finite(value: real)

  /** The JavaScript comparison `n > 0` (false for NaN). */
  predicate IsPositive(n: Num) {
    n.PosInf? || (n.Finite? && n.value > 0.0)
  }

  /** JavaScript WhiteSpace and LineTerminator code points, which `Number` trims. */
  predicate IsWhite(c: char) {
    var k := c as int;
    k == 9 || k == 10 || k == 11 || k == 12 || k == 13 || k == 32 || k == 0xA0 || k == 0x1680
    || (0x2000 <= k <= 0x200A) || k == 0x2028 || k == 0x2029 || k == 0x202F || k == 0x205F
    || k == 0x3000 || k == 0xFEFF
  }

  /** `s` without its leading white space: a suffix of `s`, and only white space was dropped. */
  function TrimStart(s: string): (r: string)
    ensures |r| <= |s| && r == s[|s| - |r|..]
    ensures forall i :: 0 <= i < |s| - |r| ==> IsWhite(s[i])
    ensures r == [] || !IsWhite(r[0])
  {
    if |s| > 0 && IsWhite(s[0]) then TrimStart(s[1..]) else s
  }

  /** `s` without its trailing white space: a prefix of `s`, and only white space was dropped. */
  function TrimEnd(s: string): (r: string)
    ensures |r| <= |s| && r == s[..|r|]
    ensures forall i :: |r| <= i < |s| ==> IsWhite(s[i])
    ensures r == [] || !IsWhite(r[|r| - 1])
  {
    if |s| > 0 && IsWhite(s[|s| - 1]) then TrimEnd(s[..|s| - 1]) else s
  }

  function Trim(s: string): string {
    TrimEnd(TrimStart(s))
  }

  /** The value of a digit in bases up to 16, or 16 when `c` is no digit at all. */
  function DigitValue(c: char): nat {
    if '0' <= c <= '9' then c as nat - '0' as nat
    else if 'a' <= c <= 'f' then c as nat - 'a' as nat + 10
    else if 'A' <= c <= 'F' then c as nat - 'A' as nat + 10
    else 16
  }

  predicate AllDigits(s: string, radix: nat) {
    forall i :: 0 <= i < |s| ==> DigitValue(s[i]) < radix
  }

  /** The value of a digit string read most significant digit first. */
  function DigitsValue(s: string, radix: nat): nat
    requires AllDigits(s, radix)
  {
    if s == [] then 0 else DigitsValue(s[..|s| - 1], radix) * radix + DigitValue(s[|s| - 1])
  }

  function Pow10(n: nat): (r: real)
    ensures r >= 1.0
  {
    if n == 0 then 1.0 else 10.0 * Pow10(n - 1)
  }

  /** `v * 10^e` for a possibly negative exponent. */
  function Scale(v: real, e: int): real {
    if e >= 0 then v * Pow10(e) else v / Pow10(-e)
  }

  /** First index at which `s` holds `a` or `b`, or `|s|` when neither occurs. */
  function FirstOf(s: string, a: char, b: char): (i: nat)
    ensures i <= |s|
    ensures i < |s| ==> s[i] == a || s[i] == b
    ensures forall j :: 0 <= j < i ==> s[j] != a && s[j] != b
  {
    if s == [] then 0
    else if s[0] == a || s[0] == b then 0
    else 1 + FirstOf(s[1..], a, b)
  }

  function Negate(n: Num): Num {
    match n
    case NaN => NaN
    case PosInf => NegInf
    case NegInf => PosInf
    case Finite(v) => Finite(-v)
  }

  function RadixOf(c: char): nat {
    if c == 'x' || c == 'X' then 16
    else if c == 'o' || c == 'O' then 8
    else if c == 'b' || c == 'B' then 2
    else 0
  }

  /** A signed exponent `[+-]digits`, or None when malformed. */
  function Exponent(x: string): (r: Option<int>) {
    if |x| > 0 && (x[0] == '+' || x[0] == '-') then
      var ds := x[1..];
      if ds != [] && AllDigits(ds, 10) then
        Some(if x[0] == '-' then -(DigitsValue(ds, 10) as int) else DigitsValue(ds, 10))
      else None
    else if x != [] && AllDigits(x, 10) then Some(DigitsValue(x, 10))
    else None
  }

  /** `digits[.digits][(e|E)exponent]`, `.digits[...]`, `digits.[...]` with at least one digit. */
  function Decimal(u: string): Num {
    var k := FirstOf(u, 'e', 'E');
    var mantissa := u[..k];
    var d := FirstOf(mantissa, '.', '.');
    var intPart := mantissa[..d];
    var frac := if d < |mantissa| then mantissa[d + 1..] else "";
    var exp := if k < |u| then Exponent(u[k + 1..]) else Some(0);
    if AllDigits(intPart, 10) && AllDigits(frac, 10) && |intPart| + |frac| >= 1 && exp.Some? then
      var v := DigitsValue(intPart, 10) as real + DigitsValue(frac, 10) as real / Pow10(|frac|);
      Finite(Scale(v, exp.value))
    else NaN
  }

  function Unsigned(u: string): Num {
    if u == "Infinity" then PosInf else Decimal(u)
  }

  /** The trimmed, non-empty text: a 0x/0o/0b integer, or a signed decimal literal. */
  function Literal(t: string): Num
    requires t != ""
  {
    if |t| >= 2 && t[0] == '0' && RadixOf(t[1]) > 0 then
      var ds := t[2..];
      if ds != [] && AllDigits(ds, RadixOf(t[1])) then Finite(DigitsValue(ds, RadixOf(t[1])) as real)
      else NaN
    else if t[0] == '-' then Negate(Unsigned(t[1..]))
    else if t[0] == '+' then Unsigned(t[1..])
    else Unsigned(t)
  }

  /** `Number(s)`: blank text is 0, anything that is not a numeric literal is NaN. */
  function ToNumber(s: string): Num {
    var t := Trim(s);
    if t == "" then Finite(0.0) else Literal(t)
  }

  // ---- Rendering, the partner of ToNumber ----

  function DigitChar(d: nat): (c: char)
    requires d < 10
    ensures DigitValue(c) == d
  {
    ('0' as int + d) as char
  }

  /** The decimal numeral of `n`, without leading zeros. */
  function NatToDecimal(n: nat): (s: string)
    ensures s != [] && AllDigits(s, 10)
    ensures forall i :: 0 <= i < |s| ==> '0' <= s[i] <= '9'
  {
    if n < 10 then [DigitChar(n)] else NatToDecimal(n / 10) + [DigitChar(n % 10)]
  }

  /** An amount of cents as the text `units.cc` a user types into an amount field. */
  function CentsToDecimal(cents: nat): (s: string) {
    var c := cents % 100;
    NatToDecimal(cents / 100) + "." + [DigitChar(c / 10), DigitChar(c % 10)]
  }

  lemma {:induction false} NatToDecimalValue(n: nat)
    ensures DigitsValue(NatToDecimal(n), 10) == n
  {
    var s := NatToDecimal(n);
    if n >= 10 {
      assert s[..|s| - 1] == NatToDecimal(n / 10);
      NatToDecimalValue(n / 10);
    } else {
      assert s[..|s| - 1] == [];
    }
  }

  lemma TrimDigits(s: string)
    requires forall i :: 0 <= i < |s| ==> '0' <= s[i] <= '9' || s[i] == '.'
    ensures Trim(s) == s
  {
    if |s| > 0 {
      assert !IsWhite(s[0]);
      assert TrimStart(s) == s;
      assert !IsWhite(s[|s| - 1]);
    }
  }

  lemma FirstOfAt(s: string, a: char, b: char, k: nat)
    requires k <= |s| && (k < |s| ==> s[k] == a || s[k] == b)
    requires forall j :: 0 <= j < k ==> s[j] != a && s[j] != b
    ensures FirstOf(s, a, b) == k
  {
  }

  /** Decimal on a digit string with one `.` at `d`, naming the two digit runs. */
  lemma DecimalAt(u: string, d: nat, intPart: string, frac: string)
    requires d < |u| && forall i :: 0 <= i < |u| ==> ('0' <= u[i] <= '9') == (i != d)
    requires u[d] == '.' && d > 0
    requires intPart == u[..d] && frac == u[d + 1..]
    ensures AllDigits(intPart, 10) && AllDigits(frac, 10)
    ensures Decimal(u) == Finite(DigitsValue(intPart, 10) as real + DigitsValue(frac, 10) as real / Pow10(|frac|))
  {
    DecimalNoExponent(u, d);
  }

  /** Decimal on a digit string with a possible `.` and no exponent. */
  lemma DecimalNoExponent(u: string, d: nat)
    requires d <= |u| && forall i :: 0 <= i < |u| ==> ('0' <= u[i] <= '9') == (i != d)
    requires d < |u| ==> u[d] == '.'
    requires d > 0
    ensures var frac := if d < |u| then u[d + 1..] else "";
      AllDigits(u[..d], 10) && AllDigits(frac, 10)
      && Decimal(u) == Finite(DigitsValue(u[..d], 10) as real + DigitsValue(frac, 10) as real / Pow10(|frac|))
  {
    FirstOfAt(u, 'e', 'E', |u|);
    var mantissa := u[..|u|];
    assert mantissa == u;
    FirstOfAt(u, '.', '.', d);
    var frac := if d < |u| then u[d + 1..] else "";
    assert AllDigits(u[..d], 10);
    assert AllDigits(frac, 10);
    var v := DigitsValue(u[..d], 10) as real + DigitsValue(frac, 10) as real / Pow10(|frac|);
    assert Scale(v, 0) == v;
  }

  /** Unsigned text of digits and dots, starting with a digit, is read as a decimal literal. */
  lemma PlainDecimal(t: string)
    requires t != [] && '0' <= t[0] <= '9'
    requires forall i :: 0 <= i < |t| ==> '0' <= t[i] <= '9' || t[i] == '.'
    ensures ToNumber(t) == Decimal(t)
  {
    TrimDigits(t);
    assert t != "Infinity" by { assert t[0] != 'I'; }
    assert |t| >= 2 ==> RadixOf(t[1]) == 0;
    assert Literal(t) == Unsigned(t);
  }

  /** Round trip: `Number` reads back every natural number it is shown. */
  lemma NatRoundTrip(n: nat)
    ensures ToNumber(NatToDecimal(n)) == Finite(n as real)
  {
    PlainDecimal(NatToDecimal(n));
    NatDecimal(n);
  }

  /** A numeral without a dot or an exponent is read as the value of its digits. */
  lemma NatDecimal(n: nat)
    ensures Decimal(NatToDecimal(n)) == Finite(n as real)
  {
    DigitsDecimal(NatToDecimal(n));
    NatToDecimalValue(n);
  }

  /** A non-empty string of digits alone is read as the value of those digits. */
  lemma DigitsDecimal(u: string)
    requires u != [] && AllDigits(u, 10)
    ensures Decimal(u) == Finite(DigitsValue(u, 10) as real)
  {
    FirstOfAt(u, 'e', 'E', |u|);
    assert u[..|u|] == u;
    FirstOfAt(u, '.', '.', |u|);
    var v := DigitsValue(u, 10) as real + DigitsValue("", 10) as real / Pow10(0);
    assert v == DigitsValue(u, 10) as real;
    assert Scale(v, 0) == v;
  }

  lemma TwoDigitsValue(a: nat, b: nat)
    requires a < 10 && b < 10
    ensures AllDigits([DigitChar(a), DigitChar(b)], 10)
    ensures DigitsValue([DigitChar(a), DigitChar(b)], 10) == 10 * a + b
  {
    var s := [DigitChar(a), DigitChar(b)];
    assert s[..1] == [DigitChar(a)];
    assert [DigitChar(a)][..0] == [];
    assert DigitsValue([DigitChar(a)], 10) == a;
  }

  /** Round trip: an amount typed as `units.cc` reads back as exactly that many cents. */
  lemma CentsRoundTrip(cents: nat)
    ensures ToNumber(CentsToDecimal(cents)) == Finite(cents as real / 100.0)
  {
    var s := CentsToDecimal(cents);
    CentsShape(cents);
    PlainDecimal(s);
    CentsDecimal(cents);
  }

  lemma CentsShape(cents: nat)
    ensures var s := CentsToDecimal(cents);
      s != [] && '0' <= s[0] <= '9'
      && forall i :: 0 <= i < |s| ==> '0' <= s[i] <= '9' || s[i] == '.'
  {
    var c := cents % 100;
    DottedShape(NatToDecimal(cents / 100), [DigitChar(c / 10), DigitChar(c % 10)]);
  }

  /** `units + "." + fraction` for two digit strings: the only non-digit is the dot after the units. */
  lemma DottedShape(units: string, fraction: string)
    requires units != [] && forall i :: 0 <= i < |units| ==> '0' <= units[i] <= '9'
    requires forall i :: 0 <= i < |fraction| ==> '0' <= fraction[i] <= '9'
    ensures var s := units + "." + fraction;
      (forall i :: 0 <= i < |s| ==> ('0' <= s[i] <= '9') == (i != |units|))
      && s[|units|] == '.' && s[..|units|] == units && s[|units| + 1..] == fraction
  {
    var s := units + "." + fraction;
    forall i | 0 <= i < |s| ensures ('0' <= s[i] <= '9') == (i != |units|) {
      if i < |units| { assert s[i] == units[i]; }
      else if i > |units| { assert s[i] == fraction[i - |units| - 1]; }
    }
    assert s[..|units|] == units;
    assert s[|units| + 1..] == fraction;
  }

  lemma CentsDecimal(cents: nat)
    ensures Decimal(CentsToDecimal(cents)) == Finite(cents as real / 100.0)
  {
    var c := cents % 100;
    UnitsAndDigitsDecimal(cents / 100, c / 10, c % 10);
    assert 10 * (c / 10) + c % 10 == c;
    CentsSplit(cents);
  }

  /** `q.ab` is read as q plus the two digits as hundredths. */
  lemma UnitsAndDigitsDecimal(q: nat, a: nat, b: nat)
    requires a < 10 && b < 10
    ensures Decimal(NatToDecimal(q) + "." + [DigitChar(a), DigitChar(b)]) == Finite(q as real + (10 * a + b) as real / 100.0)
  {
    var units := NatToDecimal(q);
    var fd := [DigitChar(a), DigitChar(b)];
    DottedDecimal(units, fd);
    TwoDigitsValue(a, b);
    NatToDecimalValue(q);
    assert Pow10(2) == 100.0;
  }

  /** `units.fraction` is read as the units plus the fraction's digits scaled down. */
  lemma DottedDecimal(units: string, fraction: string)
    requires units != [] && forall i :: 0 <= i < |units| ==> '0' <= units[i] <= '9'
    requires forall i :: 0 <= i < |fraction| ==> '0' <= fraction[i] <= '9'
    ensures AllDigits(units, 10) && AllDigits(fraction, 10)
    ensures Decimal(units + "." + fraction)
      == Finite(DigitsValue(units, 10) as real + DigitsValue(fraction, 10) as real / Pow10(|fraction|))
  {
    DottedShape(units, fraction);
    DecimalAt(units + "." + fraction, |units|, units, fraction);
  }

  lemma CentsSplit(cents: nat)
    ensures (cents / 100) as real + (cents % 100) as real / 100.0 == cents as real / 100.0
  {
    assert cents == (cents / 100) * 100 + cents % 100;
  }

  /** A blank amount field converts to 0, which no guard `amount > 0` accepts. */
  lemma BlankIsZero(s: string)
    requires forall i :: 0 <= i < |s| ==> IsWhite(s[i])
    ensures ToNumber(s) == Finite(0.0) && !IsPositive(ToNumber(s))
  {
    BlankTrimsToEmpty(s);
  }

  lemma BlankTrimsToEmpty(s: string)
    requires forall i :: 0 <= i < |s| ==> IsWhite(s[i])
    ensures Trim(s) == ""
  {
  }
}
