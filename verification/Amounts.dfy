/**
 Amounts as the user types them (packages/wallet-ui/src/amount.ts).

 `round` is how a double holds a whole number: exact up to 2^53 and monotone.  What the
 parser makes of a text is computed through it, step by step as the source does.
 */
module Amounts {
  import opened Text
  import opened Wrappers

  const SATS_PER_BTC: nat := 100_000_000
  const MAX_SAFE: nat := 9_007_199_254_740_991

  datatype Unit = Sat | Btc

  datatype AmountError = NotWhole | NotANumber | TooManyDecimals | TooLarge | NotPositive

  /** A parsed amount, or the reason it is not one.  Empty text is neither. */
  datatype AmountParse = AmountParse(sats: Option<nat>, error: Option<AmountError>)

  ghost predicate Rounding(round: nat -> nat) {
    && (forall n: nat :: n <= MAX_SAFE + 1 ==> round(n) == n)
    && (forall m: nat, n: nat :: m <= n ==> round(m) <= round(n))
  }

  function Failed(error: AmountError): AmountParse {
    AmountParse(None, Some(error))
  }

  /** `Number.isSafeInteger`, then the sign. */
  function Checked(n: nat): AmountParse {
    if n > MAX_SAFE then Failed(TooLarge) else if n == 0 then Failed(NotPositive) else AmountParse(Some(n), None)
  }

  function IndexOfDot(s: string): (i: nat)
    ensures i <= |s|
    ensures forall k :: 0 <= k < i ==> s[k] != '.'
    ensures i < |s| ==> s[i] == '.'
  {
    if s == "" || s[0] == '.' then 0 else 1 + IndexOfDot(s[1..])
  }

  /** `whole * SATS_PER_BTC + frac`, every operand and result a double. */
  function InDoubles(round: nat -> nat, whole: nat, frac: nat): nat {
    round(round(round(whole) * SATS_PER_BTC) + round(frac))
  }

  /** The text before the first point, and the text after it; the whole text and nothing when it has none. */
  function Halves(text: string): (h: (string, string))
    ensures h.0 <= text
  {
    var dot := IndexOfDot(text);
    (text[..dot], if dot < |text| then text[dot + 1..] else "")
  }

  function ParseBtc(round: nat -> nat, text: string): AmountParse {
    var (whole, frac) := Halves(text);
    if !AllDigits(whole) || !AllDigits(frac) then Failed(NotANumber)
    else if whole == "" && frac == "" then Failed(NotANumber)
    else if |frac| > 8 then Failed(TooManyDecimals)
    else Checked(InDoubles(round, Value(whole), Value(PadEnd(frac, 8))))
  }

  function ParseAmount(round: nat -> nat, raw: string, unit: Unit): AmountParse {
    var text := JsTrim(raw);
    if text == "" then AmountParse(None, None)
    else if unit.Btc? then ParseBtc(round, text)
    else if !AllDigits(text) then Failed(NotWhole)
    else Checked(round(Value(text)))
  }

  function StripZeros(s: string): (t: string)
    ensures t <= s
  {
    if s != "" && s[|s| - 1] == '0' then StripZeros(s[..|s| - 1]) else s
  }

  function PadStart(s: string, k: nat): string {
    if |s| >= k then s else Zeros(k - |s|) + s
  }

  function FormatAmount(sats: nat, unit: Unit): string {
    if unit.Sat? then Decimal(sats) else
    var whole := sats / SATS_PER_BTC;
    var frac := StripZeros(PadStart(Decimal(sats - whole * SATS_PER_BTC), 8));
    if frac != "" then Decimal(whole) + "." + frac else Decimal(whole)
  }

  /** A unit switch: the field keeps its text when that is no amount. */
  function ConvertField(round: nat -> nat, text: string, from: Unit, to: Unit): string {
    var p := ParseAmount(round, text, from);
    if p.sats.Some? then FormatAmount(p.sats.value, to) else text
  }

  // ---------------------------------------------------------------- rounding is harmless

  /** Doubles decide too large exactly where the integers do. */
  lemma CheckedRound(round: nat -> nat, n: nat)
    requires Rounding(round)
    ensures Checked(round(n)) == Checked(n)
  {
    if n > MAX_SAFE {
      assert round(MAX_SAFE + 1) <= round(n);
    }
  }

  /** ... and so they do for the sum of a whole number of BTC and a part of one. */
  ghost predicate Agrees(round: nat -> nat) {
    forall w: nat, f: nat :: f < SATS_PER_BTC ==> Checked(InDoubles(round, w, f)) == Checked(w * SATS_PER_BTC + f)
  }

  lemma CheckedSum(round: nat -> nat, w: nat, f: nat)
    requires Rounding(round) && f < SATS_PER_BTC
    ensures Checked(InDoubles(round, w, f)) == Checked(w * SATS_PER_BTC + f)
  {
    if w > MAX_SAFE {
      assert round(w) >= MAX_SAFE + 1 by {
        assert round(MAX_SAFE + 1) <= round(w);
      }
      assert round(MAX_SAFE + 1) <= round(round(w) * SATS_PER_BTC);
    } else {
      assert round(w) == w;
      if w * SATS_PER_BTC > MAX_SAFE {
        assert round(MAX_SAFE + 1) <= round(w * SATS_PER_BTC);
      }
    }
    CheckedRound(round, round(round(w) * SATS_PER_BTC) + round(f));
  }

  lemma DoublesAgree(round: nat -> nat)
    requires Rounding(round)
    ensures Agrees(round)
  {
    forall w: nat, f: nat | f < SATS_PER_BTC
      ensures Checked(InDoubles(round, w, f)) == Checked(w * SATS_PER_BTC + f)
    {
      CheckedSum(round, w, f);
    }
  }

  // ---------------------------------------------------------------- what a text denotes

  /** `text` is a numeral of `n` hundred-millionths: digits, and at most eight more after a point. */
  predicate Spells(whole: string, frac: string, n: nat) {
    && AllDigits(whole) && AllDigits(frac) && |frac| <= 8 && whole + frac != ""
    && Value(whole) * SATS_PER_BTC + Shift(Value(frac), 8 - |frac|) == n
  }

  ghost predicate DenotesBtc(text: string, n: nat) {
    Spells(text, "", n) ||
    exists whole, frac {:trigger Spells(whole, frac, n)} :: text == whole + "." + frac && Spells(whole, frac, n)
  }

  lemma EightDigitsBound(s: string)
    requires AllDigits(s) && |s| == 8
    ensures Value(s) < SATS_PER_BTC
  {
    ValueBound(s);
    ShiftEight();
  }

  lemma {:induction false} FracBound(frac: string)
    requires AllDigits(frac) && |frac| <= 8
    ensures Value(PadEnd(frac, 8)) == Shift(Value(frac), 8 - |frac|) < SATS_PER_BTC
  {
    EightDigitsBound(PadEnd(frac, 8));
    PadEndValue(frac, 8);
  }

  /** The two spellings, and nothing else, split into their halves. */
  lemma HalvesSpell(text: string, n: nat)
    ensures DenotesBtc(text, n) <==> Spells(Halves(text).0, Halves(text).1, n)
  {
    var (whole, frac) := Halves(text);
    var dot := IndexOfDot(text);
    if dot < |text| {
      assert text == whole + "." + frac;
      forall w, f | text == w + "." + f && AllDigits(w)
        ensures w == whole && f == frac
      {
        assert text[|w|] == '.' && text[..|w|] == w && text[|w| + 1..] == f;
        assert forall k :: 0 <= k < |w| ==> text[k] == w[k];
      }
      assert !AllDigits(text);
    } else {
      assert text == whole;
      forall w: string, f: string
        ensures text != w + "." + f
      {
        assert (w + "." + f)[|w|] == '.';
      }
    }
  }

  lemma ParseBtcSpells(round: nat -> nat, text: string, n: nat)
    requires Agrees(round)
    ensures ParseBtc(round, text) == AmountParse(Some(n), None) <==>
            Spells(Halves(text).0, Halves(text).1, n) && 1 <= n <= MAX_SAFE
  {
    var (whole, frac) := Halves(text);
    if AllDigits(whole) && AllDigits(frac) && |frac| <= 8 {
      FracBound(frac);
    }
  }

  /** The BTC field takes a text exactly when it spells a safe positive number of sats, and takes it for that number. */
  lemma BtcAcceptsExactly(round: nat -> nat, raw: string, n: nat)
    requires Rounding(round)
    ensures ParseAmount(round, raw, Btc) == AmountParse(Some(n), None) <==> DenotesBtc(JsTrim(raw), n) && 1 <= n <= MAX_SAFE
  {
    DoublesAgree(round);
    ParseBtcSpells(round, JsTrim(raw), n);
    HalvesSpell(JsTrim(raw), n);
  }

  /** The sat field takes a text exactly when it is the digits of a safe positive number. */
  lemma SatAcceptsExactly(round: nat -> nat, raw: string, n: nat)
    requires Rounding(round)
    ensures ParseAmount(round, raw, Sat) == AmountParse(Some(n), None) <==>
            JsTrim(raw) != "" && AllDigits(JsTrim(raw)) && Value(JsTrim(raw)) == n && 1 <= n <= MAX_SAFE
  {
    if AllDigits(JsTrim(raw)) {
      CheckedRound(round, Value(JsTrim(raw)));
    }
  }

  /** Why a sat text is not taken: it is no whole number, too large a one, or none above zero. */
  lemma SatErrors(round: nat -> nat, raw: string)
    requires Rounding(round)
    ensures var text, p := JsTrim(raw), ParseAmount(round, raw, Sat);
            && (p.error == Some(NotWhole) <==> text != "" && !AllDigits(text))
            && (p.error == Some(TooLarge) <==> text != "" && AllDigits(text) && Value(text) > MAX_SAFE)
            && (p.error == Some(NotPositive) <==> text != "" && AllDigits(text) && Value(text) == 0)
            && (p.error.None? && p.sats.None? <==> text == "")
            && p.error != Some(NotANumber) && p.error != Some(TooManyDecimals)
  {
    if AllDigits(JsTrim(raw)) {
      CheckedRound(round, Value(JsTrim(raw)));
    }
  }

  /** Digits, with a point among them or none, and not the point alone. */
  predicate IsNumeral(text: string) {
    var (whole, frac) := Halves(text);
    AllDigits(whole) && AllDigits(frac) && whole + frac != ""
  }

  /** What a numeral of at most eight decimals comes to in sats. */
  function SatsSpelled(text: string): nat
    requires IsNumeral(text) && |Halves(text).1| <= 8
  {
    var (whole, frac) := Halves(text);
    Value(whole) * SATS_PER_BTC + Shift(Value(frac), 8 - |frac|)
  }

  lemma NumeralParses(round: nat -> nat, text: string)
    requires Agrees(round) && IsNumeral(text) && |Halves(text).1| <= 8
    ensures ParseBtc(round, text) == Checked(SatsSpelled(text))
  {
    FracBound(Halves(text).1);
  }

  /** Why a BTC text is not taken: it is no number, has over 8 decimals, or is too large or zero in sats. */
  lemma BtcErrors(round: nat -> nat, raw: string)
    requires Rounding(round)
    ensures var text, p := JsTrim(raw), ParseAmount(round, raw, Btc);
            var decimals := |Halves(text).1|;
            && (p.error == Some(NotANumber) <==> text != "" && !IsNumeral(text))
            && (p.error == Some(TooManyDecimals) <==> text != "" && IsNumeral(text) && decimals > 8)
            && (p.error == Some(TooLarge) <==> text != "" && IsNumeral(text) && decimals <= 8 && SatsSpelled(text) > MAX_SAFE)
            && (p.error == Some(NotPositive) <==> text != "" && IsNumeral(text) && decimals <= 8 && SatsSpelled(text) == 0)
            && (p.error.None? && p.sats.None? <==> text == "") && p.error != Some(NotWhole)
  {
    DoublesAgree(round);
    var text := JsTrim(raw);
    if IsNumeral(text) && |Halves(text).1| <= 8 {
      NumeralParses(round, text);
    }
  }

  // ---------------------------------------------------------------- round trip

  /** Stripping zeros and padding them back changes nothing. */
  lemma {:induction false} StripThenPad(s: string)
    ensures PadEnd(StripZeros(s), |s|) == s
  {
    if s != "" && s[|s| - 1] == '0' {
      var t := s[..|s| - 1];
      StripThenPad(t);
      assert s == t + "0";
      PadOneMore(StripZeros(t), |t|);
    }
  }

  lemma {:induction false} PadOneMore(s: string, k: nat)
    requires |s| <= k
    ensures PadEnd(s, k + 1) == PadEnd(s, k) + "0"
    decreases k - |s|
  {
    if |s| < k {
      PadOneMore(s + "0", k);
    }
  }

  lemma StripValue(s: string)
    requires AllDigits(s)
    ensures AllDigits(StripZeros(s)) && Value(s) == Shift(Value(StripZeros(s)), |s| - |StripZeros(s)|)
  {
  }

  lemma PadStartValue(s: string, k: nat)
    requires AllDigits(s) && |s| <= k
    ensures |PadStart(s, k)| == k && AllDigits(PadStart(s, k)) && Value(PadStart(s, k)) == Value(s)
  {
    LeadingZeros(k - |s|, s);
  }

  lemma PaddedRemainder(r: nat)
    requires r < SATS_PER_BTC
    ensures var padded := PadStart(Decimal(r), 8); |padded| == 8 && AllDigits(padded) && Value(padded) == r
  {
    ShiftEight();
    DecimalLength(r, 8);
    PadStartValue(Decimal(r), 8);
    ValueOfDecimal(r);
  }

  /** The digits after the point spell the remainder in full. */
  lemma FracSpells(r: nat)
    requires r < SATS_PER_BTC
    ensures var frac := StripZeros(PadStart(Decimal(r), 8));
            AllDigits(frac) && |frac| <= 8 && Shift(Value(frac), 8 - |frac|) == r
  {
    PaddedRemainder(r);
    StripValue(PadStart(Decimal(r), 8));
  }

  lemma FormatSpells(n: nat)
    ensures DenotesBtc(FormatAmount(n, Btc), n)
  {
    var w := n / SATS_PER_BTC;
    var frac := StripZeros(PadStart(Decimal(n - w * SATS_PER_BTC), 8));
    FracSpells(n - w * SATS_PER_BTC);
    ValueOfDecimal(w);
    assert Spells(Decimal(w), frac, n);
  }

  lemma DigitsAtBothEnds(s: string)
    requires s != "" && IsDigit(s[0]) && IsDigit(s[|s| - 1])
    ensures JsTrim(s) == s
  {
  }

  lemma FormatIsTight(n: nat, unit: Unit)
    ensures JsTrim(FormatAmount(n, unit)) == FormatAmount(n, unit)
  {
    FracSpells(n % SATS_PER_BTC);
    DigitsAtBothEnds(FormatAmount(n, unit));
  }

  /** Parsing the printed text gives the amount back, in either unit. */
  lemma FormatParses(round: nat -> nat, n: nat, unit: Unit)
    requires Rounding(round) && 1 <= n <= MAX_SAFE
    ensures ParseAmount(round, FormatAmount(n, unit), unit) == AmountParse(Some(n), None)
  {
    FormatIsTight(n, unit);
    if unit.Sat? {
      ValueOfDecimal(n);
      SatAcceptsExactly(round, Decimal(n), n);
    } else {
      FormatSpells(n);
      BtcAcceptsExactly(round, FormatAmount(n, Btc), n);
    }
  }

  lemma ParsedIsSafe(round: nat -> nat, raw: string, unit: Unit)
    ensures var p := ParseAmount(round, raw, unit); p.sats.Some? ==> 1 <= p.sats.value <= MAX_SAFE
  {
  }

  /** A field that holds no amount keeps its text through a switch, and one that holds an amount prints it in the new unit. */
  lemma SwitchKeepsText(round: nat -> nat, text: string, from: Unit, to: Unit)
    ensures ParseAmount(round, text, from).sats.None? ==> ConvertField(round, text, from, to) == text
    ensures ParseAmount(round, text, from).sats.Some? ==>
              ConvertField(round, text, from, to) == FormatAmount(ParseAmount(round, text, from).sats.value, to)
  {
  }

  /** Switching the unit of a field never changes the sats in it. */
  lemma {:induction false} SwitchKeepsSats(round: nat -> nat, text: string, from: Unit, to: Unit)
    requires Rounding(round)
    ensures ParseAmount(round, text, from).sats.Some? ==>
              ParseAmount(round, ConvertField(round, text, from, to), to).sats == ParseAmount(round, text, from).sats
  {
    var p := ParseAmount(round, text, from);
    if p.sats.Some? {
      ParsedIsSafe(round, text, from);
      FormatParses(round, p.sats.value, to);
    }
  }
}
