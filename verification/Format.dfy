// Rendering amounts from decimal strings with string operations only, never through a float.
// Each regular expression of the source is modelled on every string, not only on digits.

module Format {
  import opened Prelude

  const MINUS := '\U{2212}'

  predicate IsDigit(c: char) {
    '0' <= c <= '9'
  }

  predicate IsWord(c: char) {
    IsDigit(c) || 'a' <= c <= 'z' || 'A' <= c <= 'Z' || c == '_'
  }

  /** The white space that trimming removes. */
  predicate IsSpace(c: char) {
    var code := c as int;
    || 9 <= code <= 13 || code == 32 || code == 0xA0 || code == 0x1680 || 0x2000 <= code <= 0x200A
    || code == 0x2028 || code == 0x2029 || code == 0x202F || code == 0x205F || code == 0x3000 || code == 0xFEFF
  }

  function TrimStart(s: string): string {
    if s != "" && IsSpace(s[0]) then TrimStart(s[1..]) else s
  }

  function TrimEnd(s: string): string {
    if s != "" && IsSpace(s[|s| - 1]) then TrimEnd(s[..|s| - 1]) else s
  }

  /** Whether the value is written negative, and the rest of it. */
  function SplitSign(value: string): (bool, string) {
    var trimmed := TrimEnd(TrimStart(value));
    if trimmed != "" && (trimmed[0] == '-' || trimmed[0] == MINUS) then (true, trimmed[1..])
    else if trimmed != "" && trimmed[0] == '+' then (false, trimmed[1..])
    else (false, trimmed)
  }

  /** The text before the first occurrence of `c`. */
  function Before(s: string, c: char): string {
    if s == "" || s[0] == c then "" else [s[0]] + Before(s[1..], c)
  }

  /** The text after the first occurrence of `c`, if there is one. */
  function After(s: string, c: char): Option<string> {
    if s == "" then None else if s[0] == c then Some(s[1..]) else After(s[1..], c)
  }

  /** The first two pieces of a value split at its points; a missing second piece is empty. */
  function SplitPoint(s: string): (string, string) {
    var rest := After(s, '.');
    (Before(s, '.'), if rest.None? then "" else Before(rest.value, '.'))
  }

  function Zeros(n: nat): string {
    if n == 0 then "" else "0" + Zeros(n - 1)
  }

  function Upto(s: string, n: nat): string {
    if n <= |s| then s[..n] else s
  }

  function From(s: string, n: nat): string {
    if n <= |s| then s[n..] else ""
  }

  function OrZero(whole: string): string {
    if whole == "" then "0" else whole
  }

  /** How many digits follow without a break, from position `i` on. */
  function DigitRun(s: string, i: nat): nat
    requires i <= |s|
    decreases |s| - i
  {
    if i == |s| || !IsDigit(s[i]) then 0 else 1 + DigitRun(s, i + 1)
  }

  /** Inside a word, where a whole number of digit triples ends the run. */
  predicate CommaBefore(s: string, i: nat)
    requires i < |s|
  {
    && (if i == 0 then !IsWord(s[0]) else IsWord(s[i - 1]) == IsWord(s[i]))
    && 0 < DigitRun(s, i) && DigitRun(s, i) % 3 == 0
  }

  function GroupFrom(s: string, i: nat): string
    requires i <= |s|
    decreases |s| - i
  {
    if i == |s| then "" else (if CommaBefore(s, i) then "," else "") + [s[i]] + GroupFrom(s, i + 1)
  }

  function Group(whole: string): string {
    GroupFrom(whole, 0)
  }

  /** Exactly `places` decimals, cut and never rounded. */
  function Fixed(digits: string, places: nat): string {
    var (whole, fraction) := SplitPoint(digits);
    if places == 0 then OrZero(whole)
    else OrZero(whole) + "." + Upto(fraction + Zeros(places), places)
  }

  function StripEnd(s: string): string {
    if s != "" && s[|s| - 1] == '0' then StripEnd(s[..|s| - 1]) else s
  }

  function TrimTrailingZeros(digits: string): string {
    if '.' !in digits then digits
    else
      var kept := StripEnd(digits);
      if kept == digits then digits
      else if kept != "" && kept[|kept| - 1] == '.' then kept[..|kept| - 1]
      else kept
  }

  /** Leading zeros go as long as a digit follows them. */
  function StripStart(s: string): string {
    if 2 <= |s| && s[0] == '0' && IsDigit(s[1]) then StripStart(s[1..]) else s
  }

  /** Moves the decimal point `shift` places to the right. */
  function ShiftDecimal(whole: string, fraction: string, shift: nat): string {
    var padded := fraction + Zeros(shift);
    var moved, rest := Upto(padded, shift), StripEnd(From(padded, shift));
    var newWhole := StripStart(whole + moved);
    if rest != "" then newWhole + "." + rest else newWhole
  }

  function Symbol(currency: string): string {
    if currency == "KRW" then "\U{20A9}" else if currency == "USD" then "$" else if currency == "JPY" then "\U{A5}" else ""
  }

  function Places(currency: string): nat {
    if currency == "KRW" || currency == "JPY" then 0 else 2
  }

  function Grouped(digits: string): string {
    var (whole, fraction) := SplitPoint(digits);
    if fraction != "" then Group(whole) + "." + fraction else Group(whole)
  }

  function Money(value: string, currency: string): string {
    var (negative, digits) := SplitSign(value);
    (if negative then [MINUS] else "") + Symbol(currency) + Grouped(Fixed(digits, Places(currency)))
  }

  function SignedPercent(value: string, places: nat): string {
    var (negative, digits) := SplitSign(value);
    var (whole, fraction) := SplitPoint(digits);
    [if negative then MINUS else '+'] + Fixed(ShiftDecimal(whole, fraction, 2), places) + "%"
  }

  function RatioToPercent(value: string, places: nat): string {
    var (negative, digits) := SplitSign(value);
    var (whole, fraction) := SplitPoint(digits);
    (if negative then [MINUS] else "") + Fixed(ShiftDecimal(whole, fraction, 2), places)
  }

  function Quantity(value: string): string {
    var (negative, digits) := SplitSign(value);
    (if negative then [MINUS] else "") + Grouped(TrimTrailingZeros(digits))
  }
}
