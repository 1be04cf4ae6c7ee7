/**
 Fee rates across the two languages, in exact rationals.

 The screens speak sat/vB in tenths (packages/wallet-ui/src/ui/format.ts,
 packages/wallet-ui/src/types.ts, packages/wallet-ui/src/feebump.ts); the core builds in whole
 sat/kwu, 250 to the sat/vB (crates/wallet-core/src/wallet.rs).  A number that is not finite is None.
 */
module Rates {
  import opened Wrappers

  const MAX_RATE: real := 10000.0
  const MAX_KWU: nat := 2_500_000
  /** `FeeRate::BROADCAST_MIN`, 1 sat/vB. */
  const MIN_KWU: nat := 250

  function Ceil(x: real): int {
    -((-x).Floor)
  }

  function Max(x: real, y: real): real {
    if x < y then y else x
  }

  /** `Math.round`. */
  function Round(x: real): int {
    (x + 0.5).Floor
  }

  // ---------------------------------------------------------------- the screens

  function TypeableRate(rate: real): real {
    var tenths := Round(rate * 1000000.0) as real / 100000.0;
    Max(1.0, Ceil(tenths) as real / 10.0)
  }

  function FieldRate(typed: Option<real>): real {
    if typed.Some? && typed.value > 0.0 then TypeableRate(typed.value) else 1.0
  }

  /** `feeRateError`: whether a screen submits this rate. */
  predicate Submits(rate: Option<real>) {
    rate.Some? && 0.0 < rate.value <= MAX_RATE
  }

  function Outbid(market: Option<real>, toBeat: Option<real>): real {
    var mustBeat := if toBeat.Some? && toBeat.value > 0.0 then toBeat.value + 1.0 else 0.0;
    TypeableRate(Max(if market.Some? then market.value else 1.0, mustBeat))
  }

  // ---------------------------------------------------------------- the core

  /** `fee_rate_from_sat_vb`, in sat/kwu. */
  function CoreRate(satPerVb: Option<real>): Option<nat> {
    if satPerVb.None? || !(0.0 <= satPerVb.value <= MAX_RATE) then None
    else Some(Ceil(Max(satPerVb.value, 1.0) * 250.0))
  }

  // ---------------------------------------------------------------- tenths

  /** A typeable rate is a whole number of tenths, at least ten of them. */
  function Tenths(rate: real): (t: int)
    ensures t >= 10 && t as real / 10.0 == TypeableRate(rate)
  {
    var t := Ceil(Round(rate * 1000000.0) as real / 100000.0);
    if t < 10 then 10 else t
  }

  /** A tenth is 25 sat/kwu, so the core builds at exactly the rate the screen names. */
  lemma TenthIsWholeKwu(t: int)
    requires 10 <= t
    ensures CoreRate(Some(t as real / 10.0)) == if t <= 100_000 then Some(25 * t) else None
  {
  }

  /** Beyond the noise of a double, a typeable rate is the least tenth that is not under the rate. */
  lemma TypeableIsLeastTenth(rate: real, t: int)
    requires t >= 10
    ensures t >= Tenths(rate) <==> t * 100_000 >= Round(rate * 1000000.0)
  {
  }

  lemma {:induction false} TypeableMonotone(r: real, q: real)
    requires r <= q
    ensures Tenths(r) <= Tenths(q) && TypeableRate(r) <= TypeableRate(q)
  {
    assert Round(r * 1000000.0) <= Round(q * 1000000.0);
    TypeableIsLeastTenth(q, Tenths(q));
    TypeableIsLeastTenth(r, Tenths(q));
  }

  /** It is under the rate itself by less than half a millionth, if at all. */
  lemma TypeableNotUnder(rate: real)
    ensures TypeableRate(rate) >= rate - 0.0000005
  {
  }

  // ---------------------------------------------------------------- the chain

  /**
   A minimum the core names, `k` sat/kwu, is shown as `k / 250` rounded up to a tenth: typed
   back it is the least multiple of 25 sat/kwu that is neither under `k` nor under the relay
   minimum, unless the core takes no rate that high.
   */
  lemma {:induction false} MinimumConvertsBack(k: nat)
    ensures var back := CoreRate(Some(TypeableRate(k as real / 250.0)));
            if k > MAX_KWU then back == None
            else back.Some? && back.value >= k && back.value >= MIN_KWU && back.value % 25 == 0 &&
                 (back.value - 25 < k || back.value == MIN_KWU)
  {
    var rate := k as real / 250.0;
    assert rate * 1000000.0 == (4000 * k) as real;
    assert Round(rate * 1000000.0) == 4000 * k;
    var t := Tenths(rate);
    TypeableIsLeastTenth(rate, t);
    if t > 10 {
      TypeableIsLeastTenth(rate, t - 1);
    }
    TypeableIsLeastTenth(rate, 100_000);
    TenthIsWholeKwu(t);
  }

  /** Rounded to six decimals, in millionths. */
  function Millionths(rate: real): int {
    Round(rate * 1000000.0)
  }

  /** A built rate that is the least the core can build at in whole tenths, for so many millionths of a sat/vB. */
  predicate LeastBuilt(built: nat, millionths: int) {
    && built % 25 == 0 && built >= MIN_KWU && built * 4000 >= millionths
    && ((built - 25) * 4000 < millionths || built == MIN_KWU)
  }

  lemma TypeableIsBuilt(rate: real)
    ensures CoreRate(Some(TypeableRate(rate))).None? <==> Millionths(rate) > 4000 * MAX_KWU
    ensures CoreRate(Some(TypeableRate(rate))).Some? ==> LeastBuilt(CoreRate(Some(TypeableRate(rate))).value, Millionths(rate))
  {
    var t := Tenths(rate);
    TypeableIsLeastTenth(rate, t);
    if t > 10 {
      TypeableIsLeastTenth(rate, t - 1);
    }
    TypeableIsLeastTenth(rate, 100_000);
    TenthIsWholeKwu(t);
  }

  /**
   What is typed is what is built: for every rate a screen submits, the least rate in whole
   tenths that is not under it to six decimals, and 1 sat/vB at least.
   */
  lemma TypedIsBuilt(typed: real)
    requires Submits(Some(typed))
    ensures CoreRate(Some(FieldRate(Some(typed)))).Some?
    ensures LeastBuilt(CoreRate(Some(FieldRate(Some(typed)))).value, Millionths(typed))
  {
    FieldRateIsExact(typed);
    TypeableIsBuilt(typed);
  }

  /** In whole tenths from ten on it is exactly that, and with nothing positive in the field 1 sat/vB. */
  lemma TypedTenthIsBuilt(t: nat, none: Option<real>)
    requires 10 <= t <= 100_000 && (none.Some? ==> none.value <= 0.0)
    ensures CoreRate(Some(FieldRate(Some(t as real / 10.0)))) == Some(25 * t)
    ensures CoreRate(Some(FieldRate(none))) == Some(MIN_KWU)
  {
    var typed := t as real / 10.0;
    assert typed * 1000000.0 == (t * 100_000) as real;
    assert Millionths(typed) == t * 100_000;
    TypedIsBuilt(typed);
    var built := CoreRate(Some(FieldRate(Some(typed)))).value;
    assert built >= 25 * t && (built - 25 < 25 * t || built == MIN_KWU);
  }

  /** A screen submits exactly the positive rates the core takes. */
  lemma SubmitsWhatIsTaken(rate: Option<real>)
    ensures Submits(rate) <==> rate.Some? && rate.value > 0.0 && CoreRate(rate).Some?
    ensures CoreRate(rate).Some? <==> rate.Some? && 0.0 <= rate.value <= 10000.0
  {
  }

  /** Every rate a screen submits is one the core takes, and it builds at exactly the rate the field names. */
  lemma {:induction false} FieldRateIsExact(typed: real)
    requires Submits(Some(typed))
    ensures var named := FieldRate(Some(typed));
            && 1.0 <= named <= MAX_RATE
            && CoreRate(Some(named)).Some?
            && CoreRate(Some(named)).value as real == named * 250.0
            && MIN_KWU <= CoreRate(Some(named)).value <= MAX_KWU
  {
    assert Tenths(typed) <= 100_000 by {
      TypeableIsLeastTenth(typed, 100_000);
    }
    TenthIsWholeKwu(Tenths(typed));
  }

  /**
   A bump or a package offered against a transaction at `k` sat/kwu is built at no less than
   250 sat/kwu more, whatever the market asks, or is over what the core takes at all; with no
   market rate that is exactly when `k + 250` is.
   */
  lemma OutbidBeats(market: Option<real>, k: nat)
    requires k > 0
    ensures var built := CoreRate(Some(Outbid(market, Some(k as real / 250.0))));
            && (built.Some? ==> built.value >= k + 250)
            && (market.None? ==> (built.Some? <==> k + 250 <= MAX_KWU))
  {
  }

  /** What a suggestion may not be under: the market, else 1 sat/vB; and the margin over what it must beat. */
  function LeastOffer(market: Option<real>, toBeat: Option<real>): real {
    var asked := if market.Some? then Max(market.value, 0.0) else 1.0;
    if toBeat.Some? && toBeat.value > 0.0 then Max(asked, toBeat.value + 1.0) else asked
  }

  /**
   So a suggestion, with anything to beat or nothing, is built at the least multiple of 25 sat/kwu,
   and 250 at least, that is not under `LeastOffer` to six decimals; or that is over what the core takes.
   */
  lemma {:induction false} OutbidIsLeast(market: Option<real>, toBeat: Option<real>)
    ensures var built, least := CoreRate(Some(Outbid(market, toBeat))), Millionths(LeastOffer(market, toBeat));
            && (built.None? <==> least > 4000 * MAX_KWU)
            && (built.Some? ==> LeastBuilt(built.value, least))
  {
    var least := LeastOffer(market, toBeat);
    assert Outbid(market, toBeat) == TypeableRate(least);
    TypeableIsBuilt(least);
  }

  function PerVb(kwu: Option<nat>): Option<real> {
    if kwu.None? then None else Some(kwu.value as real / 250.0)
  }

  /** Between rates the core itself names, the least is exact: no rounding is left. */
  lemma {:induction false} OutbidConvertsBack(market: Option<nat>, toBeat: Option<nat>)
    ensures var built := CoreRate(Some(Outbid(PerVb(market), PerVb(toBeat))));
            var asked := if market.Some? then market.value else MIN_KWU;
            var least := if toBeat.Some? && toBeat.value > 0 && asked < toBeat.value + 250 then toBeat.value + 250 else asked;
            && (built.None? <==> least > MAX_KWU)
            && (built.Some? ==> built.value >= least && built.value >= MIN_KWU && built.value % 25 == 0 &&
                                (built.value - 25 < least || built.value == MIN_KWU))
  {
    var asked := if market.Some? then market.value else MIN_KWU;
    var least := if toBeat.Some? && toBeat.value > 0 && asked < toBeat.value + 250 then toBeat.value + 250 else asked;
    OutbidIsLeast(PerVb(market), PerVb(toBeat));
    assert LeastOffer(PerVb(market), PerVb(toBeat)) == least as real / 250.0;
    assert least as real / 250.0 * 1000000.0 == (4000 * least) as real;
    assert Round(least as real / 250.0 * 1000000.0) == 4000 * least;
  }
}
