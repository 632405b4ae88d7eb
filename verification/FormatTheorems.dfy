// The rendered text denotes the number that was given: exactly, or cut to the places shown.

module FormatTheorems {
  import opened NatAlgebra
  import opened Prelude
  import opened Format

  predicate AllDigits(s: string) {
    forall i :: 0 <= i < |s| ==> IsDigit(s[i])
  }

  /** A plain decimal: digits, and possibly a point with more digits. */
  predicate Plain(text: string, whole: string, fraction: string) {
    AllDigits(whole) && AllDigits(fraction) && (text == whole + "." + fraction || (fraction == "" && text == whole))
  }

  function Pow10(n: nat): nat {
    if n == 0 then 1 else 10 * Pow10(n - 1)
  }

  /** The number a string of digits denotes. */
  function Number(s: string): nat {
    if s == "" then 0
    else 10 * Number(s[..|s| - 1]) + if IsDigit(s[|s| - 1]) then s[|s| - 1] as int - '0' as int else 0
  }

  lemma {:induction false} Pow10Sum(a: nat, b: nat)
    ensures Pow10(a + b) == Mul(Pow10(a), Pow10(b))
  {
    if 0 < a {
      Pow10Sum(a - 1, b);
      MulTen(Pow10(a - 1), Pow10(b));
    }
  }

  lemma {:induction false} Pow10Positive(n: nat)
    ensures 0 < Pow10(n)
  {
    if 0 < n { Pow10Positive(n - 1); }
  }

  lemma {:induction false} NumberOfJoin(a: string, b: string)
    requires AllDigits(a) && AllDigits(b)
    ensures Number(a + b) == Mul(Number(a), Pow10(|b|)) + Number(b)
  {
    if b == "" {
      assert a + b == a;
    } else {
      var init := b[..|b| - 1];
      NumberOfJoin(a, init);
      assert (a + b)[..|a + b| - 1] == a + init;
      MulTen(Number(a), Pow10(|init|));
    }
  }

  lemma {:induction false} NumberBounded(s: string)
    requires AllDigits(s)
    ensures Number(s) < Pow10(|s|)
  {
    if s != "" { NumberBounded(s[..|s| - 1]); }
  }

  lemma {:induction false} ZerosAreZero(n: nat)
    ensures |Zeros(n)| == n && AllDigits(Zeros(n)) && Number(Zeros(n)) == 0
  {
    if 0 < n {
      ZerosAreZero(n - 1);
      NumberOfJoin("0", Zeros(n - 1));
      assert Number("0") == 0;
    }
  }

  /** The decimal digits of a natural number denote that number, so different numbers read differently. */
  lemma {:induction false} NatTextDenotes(n: nat)
    ensures AllDigits(NatText(n)) && NatText(n) != "" && Number(NatText(n)) == n
  {
    var text := NatText(n);
    if 10 <= n { NatTextDenotes(n / 10); }
    assert text[..|text| - 1] == if n < 10 then "" else NatText(n / 10);
  }

  // ---- Splitting ---------------------------------------------------------------------------------------------

  lemma {:induction false} DigitsHaveNoPoint(s: string, rest: string)
    requires AllDigits(s)
    ensures Before(s, '.') == s && After(s, '.') == None
    ensures Before(s + "." + rest, '.') == s && After(s + "." + rest, '.') == Some(rest)
  {
    var text := s + "." + rest;
    if s != "" {
      DigitsHaveNoPoint(s[1..], rest);
      assert text[1..] == s[1..] + "." + rest && s == [s[0]] + s[1..];
    } else {
      assert text == "." + rest && text[1..] == rest;
    }
  }

  lemma SplitsWhereWritten(text: string, whole: string, fraction: string)
    requires Plain(text, whole, fraction)
    ensures SplitPoint(text) == (whole, fraction)
  {
    DigitsHaveNoPoint(whole, fraction);
    DigitsHaveNoPoint(fraction, "");
  }

  // ---- Written values ----------------------------------------------------------------------------------------

  /** White space is the language's: control spaces, the space separators, both line ends and the zero-width mark. */
  lemma SpaceTable(c: char)
    ensures IsSpace(c) <==>
              c in "\t\n\U{B}\U{C}\r \U{A0}\U{1680}\U{2000}\U{2001}\U{2002}\U{2003}\U{2004}\U{2005}\U{2006}\U{2007}\U{2008}\U{2009}\U{200A}\U{2028}\U{2029}\U{202F}\U{205F}\U{3000}\U{FEFF}"
  {
  }

  predicate AllSpace(s: string) {
    forall i :: 0 <= i < |s| ==> IsSpace(s[i])
  }

  /** A decimal as it is written: white space around an optional sign and a plain decimal. */
  datatype Written = Written(before: string, sign: string, text: string, after: string) {
    function Value(): string {
      before + sign + text + after
    }

    /** Written with a hyphen or a minus sign. */
    predicate Negative() {
      sign == "-" || sign == "\U{2212}"
    }

    predicate Valid(whole: string, fraction: string) {
      && AllSpace(before) && AllSpace(after) && (sign == "" || sign == "+" || Negative())
      && Plain(text, whole, fraction)
    }
  }

  lemma {:induction false} SpaceBefore(space: string, rest: string)
    requires AllSpace(space)
    ensures TrimStart(space + rest) == TrimStart(rest)
  {
    if space != "" {
      SpaceBefore(space[1..], rest);
      assert (space + rest)[1..] == space[1..] + rest;
    } else {
      assert space + rest == rest;
    }
  }

  lemma {:induction false} SpaceAfter(core: string, space: string)
    requires AllSpace(space)
    ensures TrimEnd(core + space) == TrimEnd(core)
  {
    if space != "" {
      SpaceAfter(core, space[..|space| - 1]);
      assert (core + space)[..|core + space| - 1] == core + space[..|space| - 1];
    } else {
      assert core + space == core;
    }
  }

  /** Trimming removes the white space around a core that neither begins nor ends with any. */
  lemma TrimsToCore(before: string, core: string, after: string)
    requires AllSpace(before) && AllSpace(after)
    requires core != "" ==> !IsSpace(core[0]) && !IsSpace(core[|core| - 1])
    ensures TrimEnd(TrimStart(before + core + after)) == core
  {
    assert before + core + after == before + (core + after);
    SpaceBefore(before, core + after);
    if core == "" {
      assert core + after == after && after + "" == after;
      SpaceBefore(after, "");
    } else {
      SpaceAfter(core, after);
    }
  }

  /** The sign and the digits of a written value are found where they stand. */
  lemma SignIsSplit(w: Written, whole: string, fraction: string)
    requires w.Valid(whole, fraction)
    ensures SplitSign(w.Value()) == (w.Negative(), w.text)
  {
    var core := w.sign + w.text;
    assert forall i :: 0 <= i < |w.text| ==> IsDigit(w.text[i]) || w.text[i] == '.';
    assert w.Value() == w.before + core + w.after;
    TrimsToCore(w.before, core, w.after);
    if w.sign == "" {
      assert core == w.text;
    } else {
      assert core[1..] == w.text;
    }
  }

  // ---- Cutting and shifting ----------------------------------------------------------------------------------

  /** `shown` units of 10^-places are n * 10^-scale cut to that many places. */
  predicate Cut(n: nat, scale: nat, shown: nat, places: nat) {
    Mul(shown, Pow10(scale)) <= Mul(n, Pow10(places)) < Mul(shown + 1, Pow10(scale))
  }

  /** A number has only one cut to the given places. */
  lemma CutIsUnique(n: nat, scale: nat, a: nat, b: nat, places: nat)
    requires Cut(n, scale, a, places) && Cut(n, scale, b, places)
    ensures a == b
  {
    Pow10Positive(scale);
    MulOrder(a, b + 1, Pow10(scale));
    MulOrder(b, a + 1, Pow10(scale));
  }

  lemma CutShorter(a: nat, b: nat, kept: nat, dropped: nat)
    requires b < Pow10(dropped)
    ensures Cut(Mul(a, Pow10(dropped)) + b, dropped + kept, a, kept)
  {
    var k, d := Pow10(kept), Pow10(dropped);
    Pow10Sum(dropped, kept);
    Pow10Positive(kept);
    hide Mul, Pow10;
    MulAssociates(a, d, k);
    MulAssociates(a + 1, d, k);
    MulSum(a, 1, d);
    assert Mul(1, d) == d by { OneTimes(d); }
    MulOrder(Mul(a, d), Mul(a, d) + b, k);
    MulOrder(Mul(a, d) + b, Mul(a, d) + d, k);
  }

  lemma OneTimes(d: nat)
    ensures Mul(1, d) == d
  {
  }

  lemma CutLonger(n: nat, scale: nat, added: nat)
    ensures Cut(n, scale, Mul(n, Pow10(added)), scale + added)
  {
    var s, a := Pow10(scale), Pow10(added);
    Pow10Sum(scale, added);
    Pow10Positive(scale);
    hide Mul, Pow10;
    MulAssociates(n, a, s);
    MulCommutes(a, s);
    MulSum(Mul(n, a), 1, s);
    OneTimes(s);
  }

  /** Cutting or padding the fraction cuts the number. */
  lemma CutFraction(whole: string, fraction: string, places: nat)
    requires AllDigits(whole) && AllDigits(fraction)
    ensures var shown := Upto(fraction + Zeros(places), places);
            && |shown| == places && AllDigits(shown)
            && Cut(Number(whole + fraction), |fraction|, Number(whole + shown), places)
  {
    hide Cut, Number, Zeros;
    ZerosAreZero(places);
    var shown := Upto(fraction + Zeros(places), places);
    if places <= |fraction| {
      var dropped := fraction[places..];
      assert shown == fraction[..places] && whole + fraction == (whole + shown) + dropped;
      NumberOfJoin(whole + shown, dropped);
      NumberBounded(dropped);
      CutShorter(Number(whole + shown), Number(dropped), places, |dropped|);
    } else {
      var added := Zeros(places)[..places - |fraction|];
      assert shown == fraction + added && whole + shown == (whole + fraction) + added;
      ZerosPrefix(places, places - |fraction|);
      hide AllDigits;
      NumberOfJoin(whole + fraction, added);
      CutLonger(Number(whole + fraction), |fraction|, |added|);
    }
  }

  lemma {:induction false} ZerosPrefix(n: nat, m: nat)
    requires m <= n
    ensures |Zeros(n)| == n && Zeros(n)[..m] == Zeros(m) && Number(Zeros(m)) == 0 && AllDigits(Zeros(m))
  {
    ZerosAreZero(n);
    ZerosAreZero(m);
    if 0 < m {
      ZerosPrefix(n - 1, m - 1);
      assert Zeros(n)[..m] == "0" + Zeros(n - 1)[..m - 1];
    }
  }

  lemma OrZeroKeepsValue(whole: string, shown: string)
    requires AllDigits(whole) && AllDigits(shown)
    ensures AllDigits(OrZero(whole)) && 0 < |OrZero(whole)| && Number(OrZero(whole) + shown) == Number(whole + shown)
  {
    NumberOfJoin(OrZero(whole), shown);
    NumberOfJoin(whole, shown);
    assert Number("0") == 0;
  }

  /** What `Fixed` prints: the number cut to `places` decimals, with at least one integer digit. */
  lemma FixedCuts(text: string, whole: string, fraction: string, places: nat) returns (w: string, f: string)
    requires Plain(text, whole, fraction)
    ensures Fixed(text, places) == w + (if places == 0 then "" else "." + f)
    ensures w == OrZero(whole) && AllDigits(w) && 0 < |w| && AllDigits(f) && |f| == places
    ensures Cut(Number(whole + fraction), |fraction|, Number(w + f), places)
  {
    hide Cut, Number, Upto, Zeros, SplitPoint;
    SplitsWhereWritten(text, whole, fraction);
    CutFraction(whole, fraction, places);
    w, f := OrZero(whole), Upto(fraction + Zeros(places), places);
    OrZeroKeepsValue(whole, f);
    assert w + "." + f == w + ("." + f) && w + "" == w;
    hide AllDigits;
  }

  lemma {:induction false} StripEndKeepsValue(head: string, tail: string)
    requires AllDigits(head) && AllDigits(tail)
    ensures var kept := StripEnd(tail);
            && AllDigits(kept) && |kept| <= |tail| && kept == tail[..|kept|]
            && Mul(Number(head + kept), Pow10(|tail|)) == Mul(Number(head + tail), Pow10(|kept|))
            && (kept != "" ==> kept[|kept| - 1] != '0')
  {
    if tail != "" && tail[|tail| - 1] == '0' {
      var init := tail[..|tail| - 1];
      StripEndKeepsValue(head, init);
      var kept := StripEnd(tail);
      assert kept == StripEnd(init) && init[..|kept|] == tail[..|kept|];
      assert (head + tail)[..|head + tail| - 1] == head + init;
      assert Number(head + tail) == 10 * Number(head + init);
      assert Pow10(|tail|) == 10 * Pow10(|init|);
      MulTen(Number(head + kept), Pow10(|init|));
      MulTen(Number(head + init), Pow10(|kept|));
    } else {
      assert tail[..|tail|] == tail;
    }
  }

  lemma {:induction false} StripStartKeepsValue(s: string, tail: string)
    requires AllDigits(s) && AllDigits(tail)
    ensures AllDigits(StripStart(s)) && (s != "" ==> StripStart(s) != "") && Number(StripStart(s) + tail) == Number(s + tail)
    ensures |StripStart(s)| <= 1 || StripStart(s)[0] != '0'
  {
    if 2 <= |s| && s[0] == '0' {
      StripStartKeepsValue(s[1..], tail);
      assert s + tail == "0" + (s[1..] + tail);
      NumberOfJoin("0", s[1..] + tail);
      assert Number("0") == 0;
    }
  }

  lemma PaddedParts(fraction: string, shift: nat) returns (moved: string, tail: string)
    requires AllDigits(fraction)
    ensures moved == Upto(fraction + Zeros(shift), shift) && tail == From(fraction + Zeros(shift), shift)
    ensures AllDigits(moved) && AllDigits(tail) && |tail| == |fraction| && |moved| == shift
    ensures moved + tail == fraction + Zeros(shift) && Number(Zeros(shift)) == 0 && AllDigits(Zeros(shift))
  {
    ZerosAreZero(shift);
    hide Number;
    var padded := fraction + Zeros(shift);
    moved, tail := Upto(padded, shift), From(padded, shift);
    assert forall i :: 0 <= i < |moved| ==> moved[i] == padded[i];
    assert forall i :: 0 <= i < |tail| ==> tail[i] == padded[shift + i];
  }

  lemma DigitsJoin(a: string, b: string)
    requires AllDigits(a) && AllDigits(b)
    ensures AllDigits(a + b)
  {
  }

  /** The shifted text denotes the same number times 10^shift. */
  lemma ShiftMultiplies(whole: string, fraction: string, shift: nat) returns (w: string, f: string)
    requires AllDigits(whole) && AllDigits(fraction)
    ensures Plain(ShiftDecimal(whole, fraction, shift), w, f)
    ensures Mul(Number(w + f), Pow10(|fraction|)) == Mul(Mul(Number(whole + fraction), Pow10(shift)), Pow10(|f|))
    ensures whole != "" || 0 < shift ==> w != ""
    ensures |w| <= 1 || w[0] != '0'
  {
    hide StripEnd, StripStart, Pow10, Mul, Number, AllDigits, Zeros, Upto, From;
    var moved, tail := PaddedParts(fraction, shift);
    f := StripEnd(tail);
    w := StripStart(whole + moved);
    DigitsJoin(whole, moved);
    DigitsJoin(whole, fraction);
    StripEndKeepsValue(whole + moved, tail);
    StripStartKeepsValue(whole + moved, f);
    assert (whole + moved) + tail == whole + (moved + tail);
    assert (whole + fraction) + Zeros(shift) == whole + (fraction + Zeros(shift));
    NumberOfJoin(whole + fraction, Zeros(shift));
    assert |Zeros(shift)| == shift by { ZerosAreZero(shift); }
  }

  lemma CutAfterShift(n: nat, scale: nat, m: nat, shifted: nat, shift: nat, shown: nat, places: nat)
    requires Mul(m, Pow10(scale)) == Mul(Mul(n, Pow10(shift)), Pow10(shifted))
    requires Cut(m, shifted, shown, places)
    ensures Cut(n, scale, shown, shift + places)
  {
    var s, r, p, b := Pow10(scale), Pow10(shifted), Pow10(places), Pow10(shift);
    Pow10Sum(shift, places);
    Pow10Positive(scale);
    Pow10Positive(shifted);
    hide Mul, Pow10;
    MulOrder(Mul(shown, r), Mul(m, p), s);
    MulOrder(Mul(m, p), Mul(shown + 1, r), s);
    MulSwap(shown, r, s);
    MulSwap(shown + 1, r, s);
    MulSwap(m, p, s);
    MulSwap(Mul(n, b), r, p);
    MulAssociates(n, b, p);
    MulOrder(Mul(shown, s), Mul(n, Mul(b, p)), r);
    MulOrder(Mul(n, Mul(b, p)), Mul(shown + 1, s), r);
  }

  // ---- Percentages -------------------------------------------------------------------------------------------

  lemma PercentBody(whole: string, fraction: string, places: nat) returns (w: string, f: string)
    requires AllDigits(whole) && AllDigits(fraction)
    ensures Fixed(ShiftDecimal(whole, fraction, 2), places) == w + (if places == 0 then "" else "." + f)
    ensures AllDigits(w) && 0 < |w| && AllDigits(f) && |f| == places
    ensures |w| == 1 || w[0] != '0'
    ensures Cut(Number(whole + fraction), |fraction|, Number(w + f), 2 + places)
  {
    hide Fixed, ShiftDecimal, Cut;
    var a, b := ShiftMultiplies(whole, fraction, 2);
    w, f := FixedCuts(ShiftDecimal(whole, fraction, 2), a, b, places);
    CutAfterShift(Number(whole + fraction), |fraction|, Number(a + b), |b|, 2, Number(w + f), places);
  }

  /**
   * For every written decimal v, a signed percentage prints a minus sign exactly when v is written negative
   * and a plus sign otherwise, then exactly 100 * |v| cut to `places` decimals without needless leading zeros, and a percent sign.
   */
  lemma SignedPercentIsExact(v: Written, whole: string, fraction: string, places: nat) returns (w: string, f: string)
    requires v.Valid(whole, fraction)
    ensures SignedPercent(v.Value(), places)
            == (if v.sign == "-" || v.sign == "\U{2212}" then "\U{2212}" else "+") + (w + (if places == 0 then "" else "." + f)) + "%"
    ensures AllDigits(w) && 0 < |w| && AllDigits(f) && |f| == places
    ensures |w| == 1 || w[0] != '0'
    ensures Cut(Number(whole + fraction), |fraction|, Number(w + f), 2 + places)
  {
    hide Fixed, ShiftDecimal, Cut, SplitSign;
    SignIsSplit(v, whole, fraction);
    SplitsWhereWritten(v.text, whole, fraction);
    w, f := PercentBody(whole, fraction, places);
  }

  /** The same without a plus sign and without a unit. */
  lemma RatioToPercentIsExact(v: Written, whole: string, fraction: string, places: nat) returns (w: string, f: string)
    requires v.Valid(whole, fraction)
    ensures RatioToPercent(v.Value(), places)
            == (if v.sign == "-" || v.sign == "\U{2212}" then "\U{2212}" else "") + (w + (if places == 0 then "" else "." + f))
    ensures AllDigits(w) && 0 < |w| && AllDigits(f) && |f| == places
    ensures |w| == 1 || w[0] != '0'
    ensures Cut(Number(whole + fraction), |fraction|, Number(w + f), 2 + places)
  {
    hide Fixed, ShiftDecimal, Cut, SplitSign;
    SignIsSplit(v, whole, fraction);
    SplitsWhereWritten(v.text, whole, fraction);
    w, f := PercentBody(whole, fraction, places);
  }

  // ---- Commas ------------------------------------------------------------------------------------------------

  function WithoutCommas(s: string): string {
    if s == "" then "" else (if s[0] == ',' then "" else [s[0]]) + WithoutCommas(s[1..])
  }

  /** Counting from the right, every fourth character is a comma, and no other is. */
  predicate CommasInPlace(s: string) {
    forall k :: 0 <= k < |s| ==> (s[k] == ',' <==> (|s| - k) % 4 == 0)
  }

  lemma {:induction false} RunOfDigits(s: string, i: nat)
    requires AllDigits(s) && i <= |s|
    ensures DigitRun(s, i) == |s| - i
    decreases |s| - i
  {
    if i < |s| { RunOfDigits(s, i + 1); }
  }

  lemma {:induction false} WithoutCommasJoins(a: string, b: string)
    ensures WithoutCommas(a + b) == WithoutCommas(a) + WithoutCommas(b)
  {
    if a == "" {
      assert a + b == b;
    } else {
      WithoutCommasJoins(a[1..], b);
      assert (a + b)[1..] == a[1..] + b && (a + b)[0] == a[0];
      var first := if a[0] == ',' then "" else [a[0]];
      assert first + (WithoutCommas(a[1..]) + WithoutCommas(b)) == (first + WithoutCommas(a[1..])) + WithoutCommas(b);
    }
  }

  lemma CommaByPosition(s: string, i: nat)
    requires AllDigits(s) && i < |s|
    ensures CommaBefore(s, i) <==> 0 < i && (|s| - i) % 3 == 0
  {
    RunOfDigits(s, i);
  }

  lemma {:induction false} GroupedDigits(s: string, i: nat)
    requires AllDigits(s) && i <= |s|
    ensures WithoutCommas(GroupFrom(s, i)) == s[i..]
    decreases |s| - i
  {
    hide CommaBefore;
    if i < |s| {
      GroupedDigits(s, i + 1);
      var comma := if CommaBefore(s, i) then "," else "";
      WithoutCommasJoins(comma + [s[i]], GroupFrom(s, i + 1));
      WithoutCommasJoins(comma, [s[i]]);
      assert [s[i]][1..] == "" && ","[1..] == "";
      assert s[i..] == [s[i]] + s[i + 1..];
    }
  }

  /** The length of the grouped text from position `i` on, when a comma may stand before it. */
  function GroupedLength(left: nat, first: bool): nat {
    left + if first && 0 < left then (left - 1) / 3 else left / 3
  }

  lemma OneDigitMore(left: nat, first: bool)
    requires 0 < left
    ensures var rest := GroupedLength(left - 1, false);
            if !first && left % 3 == 0 then (rest + 2) % 4 == 0 && GroupedLength(left, first) == rest + 2
            else (rest + 1) % 4 != 0 && GroupedLength(left, first) == rest + 1
  {
  }

  lemma {:induction false} GroupedPositions(s: string, i: nat)
    requires AllDigits(s) && i <= |s|
    ensures CommasInPlace(GroupFrom(s, i)) && |GroupFrom(s, i)| == GroupedLength(|s| - i, i == 0)
    decreases |s| - i
  {
    if i < |s| {
      GroupedPositions(s, i + 1);
      CommaByPosition(s, i);
      OneDigitMore(|s| - i, i == 0);
      hide CommaBefore, CommasInPlace, GroupedLength;
      var rest, g := GroupFrom(s, i + 1), GroupFrom(s, i);
      var head := (if CommaBefore(s, i) then "," else "") + [s[i]];
      assert g == head + rest;
      PrefixCommas(head, rest, CommaBefore(s, i));
    }
  }

  /** Putting a digit, or a comma and a digit, before text that has its commas in place. */
  lemma PrefixCommas(head: string, rest: string, comma: bool)
    requires CommasInPlace(rest)
    requires |head| == (if comma then 2 else 1) && IsDigit(head[|head| - 1]) && (comma ==> head[0] == ',')
    requires if comma then (|rest| + 2) % 4 == 0 else (|rest| + 1) % 4 != 0
    ensures CommasInPlace(head + rest)
  {
    var g := head + rest;
    forall k | 0 <= k < |g| ensures g[k] == ',' <==> (|g| - k) % 4 == 0 {
      if |head| <= k { assert g[k] == rest[k - |head|] && |g| - k == |rest| - (k - |head|); }
    }
  }

  /** Grouping digits inserts a comma before every third digit from the right, and does nothing else. */
  lemma GroupingIsExact(whole: string)
    requires AllDigits(whole)
    ensures WithoutCommas(Group(whole)) == whole && CommasInPlace(Group(whole))
  {
    GroupedDigits(whole, 0);
    GroupedPositions(whole, 0);
    assert whole[0..] == whole;
  }

  // ---- Money and quantities ----------------------------------------------------------------------------------

  /** The symbol and the decimals of each currency. */
  lemma CurrencyTable(currency: string)
    ensures (Symbol(currency), Places(currency)) ==
              if currency == "KRW" then ("\U{20A9}", 0)
              else if currency == "USD" then ("$", 2)
              else if currency == "JPY" then ("\U{A5}", 0)
              else ("", 2)
  {
  }

  /**
   * For every written decimal v, an amount prints a minus sign exactly when v is written negative, the
   * currency's symbol, and |v| cut to the currency's decimals, with a comma exactly every three integer digits.
   */
  lemma MoneyIsCut(v: Written, currency: string, whole: string, fraction: string) returns (w: string, f: string)
    requires v.Valid(whole, fraction)
    ensures Money(v.Value(), currency)
            == (if v.sign == "-" || v.sign == "\U{2212}" then "\U{2212}" else "") + Symbol(currency)
               + (Group(w) + (if Places(currency) == 0 then "" else "." + f))
    ensures AllDigits(w) && 0 < |w| && AllDigits(f) && |f| == Places(currency)
    ensures WithoutCommas(Group(w)) == w && CommasInPlace(Group(w))
    ensures Cut(Number(whole + fraction), |fraction|, Number(w + f), Places(currency))
  {
    hide Fixed, Cut, SplitSign, Group, Symbol, Places, Number;
    SignIsSplit(v, whole, fraction);
    w, f := FixedCuts(v.text, whole, fraction, Places(currency));
    var shaped := Fixed(v.text, Places(currency));
    assert Plain(shaped, w, f);
    SplitsWhereWritten(shaped, w, f);
    GroupingIsExact(w);
  }

  /** What trimming leaves of a plain decimal: the same number, with no zero at the end of its fraction. */
  lemma TrimKeepsValue(text: string, whole: string, fraction: string) returns (f: string)
    requires Plain(text, whole, fraction)
    ensures Plain(TrimTrailingZeros(text), whole, f)
    ensures Mul(Number(whole + f), Pow10(|fraction|)) == Mul(Number(whole + fraction), Pow10(|f|))
    ensures f != "" ==> f[|f| - 1] != '0'
    ensures f == "" <==> Number(fraction) == 0
    ensures TrimTrailingZeros(text) == if fraction == "" then text else if f == "" then whole else whole + "." + f
  {
    ZeroFractionVanishes(fraction);
    if text == whole && fraction == "" {
      f := "";
      assert '.' !in text;
    } else {
      f := StripEnd(fraction);
      StripEndKeepsValue(whole, fraction);
      StripEndOfTail(whole + ".", fraction);
      assert text[|whole|] == '.';
      assert text == (whole + ".") + fraction;
      if f == "" {
        StripStopsAtPoint(whole);
        if fraction != "" { assert (whole + ".")[..|whole|] == whole; }
      }
    }
  }

  /** A fraction is trimmed away exactly when it is zero. */
  lemma ZeroFractionVanishes(fraction: string)
    requires AllDigits(fraction)
    ensures StripEnd(fraction) == "" <==> Number(fraction) == 0
  {
    hide Mul, Pow10;
    var kept := StripEnd(fraction);
    StripEndKeepsValue("", fraction);
    assert "" + kept == kept && "" + fraction == fraction;
    Pow10Positive(|fraction|);
    Pow10Positive(|kept|);
    VanishTogether(Number(kept), Pow10(|fraction|), Number(fraction), Pow10(|kept|));
  }

  lemma VanishTogether(a: nat, p: nat, b: nat, q: nat)
    requires Mul(a, p) == Mul(b, q) && 0 < p && 0 < q
    ensures a == 0 <==> b == 0
  {
    MulOrder(a, 0, p);
    MulOrder(b, 0, q);
    assert Mul(0, p) == 0 == Mul(0, q);
  }

  lemma {:induction false} StripEndOfTail(head: string, tail: string)
    requires AllDigits(tail) && head != "" && head[|head| - 1] == '.'
    ensures StripEnd(head + tail) == head + StripEnd(tail)
  {
    var text := head + tail;
    if tail == "" {
      assert text == head && StripEnd(tail) == "" && head + "" == head;
    } else if tail[|tail| - 1] == '0' {
      StripEndOfTail(head, tail[..|tail| - 1]);
      assert text[..|text| - 1] == head + tail[..|tail| - 1];
    }
  }

  lemma StripStopsAtPoint(whole: string)
    ensures StripEnd(whole + ".") == whole + "."
  {
  }

  /**
   * For every written decimal v, a quantity prints a minus sign exactly when v is written negative and then
   * exactly |v|, with no trailing zero in the fraction and a comma exactly every three integer digits.
   */
  lemma QuantityIsExact(v: Written, whole: string, fraction: string) returns (f: string)
    requires v.Valid(whole, fraction)
    ensures Quantity(v.Value())
            == (if v.sign == "-" || v.sign == "\U{2212}" then "\U{2212}" else "") + (Group(whole) + (if f == "" then "" else "." + f))
    ensures AllDigits(f) && (f != "" ==> f[|f| - 1] != '0') && (f == "" <==> Number(fraction) == 0)
    ensures WithoutCommas(Group(whole)) == whole && CommasInPlace(Group(whole))
    ensures Mul(Number(whole + f), Pow10(|fraction|)) == Mul(Number(whole + fraction), Pow10(|f|))
  {
    hide SplitSign, Group, TrimTrailingZeros, SplitPoint, Number, Mul, Pow10, WithoutCommas, CommasInPlace;
    SignIsSplit(v, whole, fraction);
    f := TrimKeepsValue(v.text, whole, fraction);
    SplitsWhereWritten(TrimTrailingZeros(v.text), whole, f);
    GroupingIsExact(whole);
  }
}
