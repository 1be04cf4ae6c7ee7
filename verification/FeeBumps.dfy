/**
 What a cancel and a child-pays-for-parent pay (crates/wallet-core/src/wallet.rs).

 Rates are in sat/kwu and sizes in vbytes, four weight units each.  A fee pays rate `r` over
 `v` vbytes when fee * 1000 >= r * 4 * v.
 */
module FeeBumps {
  import opened Rates

  const U64: nat := 0x1_0000_0000_0000_0000

  function DivCeil(n: nat, d: nat): (q: nat)
    requires d > 0
    ensures (q as int - 1) * d < n <= q * d
  {
    (n + d - 1) / d
  }

  function FeeAt(rate: nat, vsize: nat): nat {
    DivCeil(rate * vsize * 4, 1000)
  }

  /** As the release build computes it: a u64 product wraps. */
  function FeeAtU64(rate: nat, vsize: nat): nat {
    DivCeil((rate * vsize * 4) % U64, 1000)
  }

  predicate Pays(fee: nat, rate: nat, vsize: nat) {
    fee * 1000 >= rate * 4 * vsize
  }

  /** The fee is the least that pays the rate. */
  lemma FeeAtIsLeast(rate: nat, vsize: nat, fee: nat)
    ensures Pays(fee, rate, vsize) <==> fee >= FeeAt(rate, vsize)
  {
  }

  lemma WrapsBelow(product: nat)
    ensures DivCeil(product % U64, 1000) == DivCeil(product, 1000) <==> product < U64
  {
    if product >= U64 {
      assert product % U64 <= product - U64;
    }
  }

  lemma ProductFits(rate: nat, vsize: nat)
    requires rate <= MAX_KWU && vsize * 10_000_000 < U64
    ensures rate * vsize * 4 < U64
  {
    MulLess(rate, MAX_KWU, vsize);
  }

  /** It goes wrong exactly when the product does not fit, which no rate the core admits makes of a size below 2^64 / 10^7. */
  lemma FeeAtNeverWraps(rate: nat, vsize: nat)
    ensures FeeAtU64(rate, vsize) == FeeAt(rate, vsize) <==> rate * vsize * 4 < U64
    ensures rate <= MAX_KWU && vsize * 10_000_000 < U64 ==> rate * vsize * 4 < U64
  {
    var product := rate * vsize * 4;
    assert FeeAtU64(rate, vsize) == DivCeil(product % U64, 1000) && FeeAt(rate, vsize) == DivCeil(product, 1000);
    WrapsBelow(product);
    if rate <= MAX_KWU && vsize * 10_000_000 < U64 {
      ProductFits(rate, vsize);
    }
  }

  lemma MulLess(a: nat, b: nat, x: nat)
    requires a <= b
    ensures a * x <= b * x
  {
  }

  // ---------------------------------------------------------------- child pays for parent

  function SaturatingSub(a: nat, b: nat): nat {
    if a < b then 0 else a - b
  }

  function MaxNat(a: nat, b: nat): nat {
    if a < b then b else a
  }

  function CpfpFee(rate: nat, parentVsize: nat, parentFee: nat, childVsize: nat): nat {
    MaxNat(SaturatingSub(FeeAt(rate, parentVsize + childVsize), parentFee), FeeAt(MIN_KWU, childVsize))
  }

  /** A child fee is enough, for the pair at the rate and the child at the relay minimum, exactly from the one built on. */
  lemma CpfpFeeIsLeast(rate: nat, parentVsize: nat, parentFee: nat, childVsize: nat, fee: nat)
    ensures Pays(parentFee + fee, rate, parentVsize + childVsize) && Pays(fee, MIN_KWU, childVsize) <==>
            fee >= CpfpFee(rate, parentVsize, parentFee, childVsize)
  {
  }

  /** When the parent alone pays below the rate, the child alone pays above it: it makes up the difference. */
  lemma CpfpChildPaysAbove(rate: nat, parentVsize: nat, parentFee: nat, childVsize: nat)
    requires !Pays(parentFee, rate, parentVsize)
    ensures CpfpFee(rate, parentVsize, parentFee, childVsize) * 1000 > rate * 4 * childVsize
  {
  }

  // ---------------------------------------------------------------- cancel

  function CancelFee(rate: nat, vsize: nat, originalFee: nat): nat {
    MaxNat(FeeAt(rate, vsize), originalFee + FeeAt(MIN_KWU, vsize))
  }

  /** It pays the rate, and outbids the original by the relay fee of its own size. */
  predicate Replaces(fee: nat, rate: nat, vsize: nat, originalFee: nat) {
    Pays(fee, rate, vsize) && fee >= originalFee && Pays(fee - originalFee, MIN_KWU, vsize)
  }

  /**
   A fee replaces the original, at the rate asked, exactly from the one built on: it is more
   than the original's (BIP 125, Implementation Details, rule 3) by at least what relaying the
   replacement costs (rule 4).
   */
  lemma CancelFeeIsLeast(rate: nat, vsize: nat, originalFee: nat, fee: nat)
    ensures Replaces(fee, rate, vsize, originalFee) <==> fee >= CancelFee(rate, vsize, originalFee)
  {
  }

  // ---------------------------------------------------------------- the signed size

  function Sum(xs: seq<nat>): nat {
    if xs == [] then 0 else xs[0] + Sum(xs[1..])
  }

  function VbytesCeil(weight: nat): nat {
    DivCeil(weight, 4)
  }

  /** Four weight units to the vbyte, and a part of one counts whole. */
  lemma VbytesIsLeast(weight: nat, vsize: nat)
    ensures vsize >= VbytesCeil(weight) <==> 4 * vsize >= weight
  {
  }

  /** The size shown for an unsigned transaction of this weight, each input at its descriptor's maximum. */
  function SignedVsize(weight: nat, inputs: nat, maxSatisfaction: nat, segwit: bool): nat {
    VbytesCeil(weight + maxSatisfaction * inputs + if segwit && inputs > 0 then 2 else 0)
  }

  /** The size it has with these satisfactions; marker and flag come with any witness. */
  function ActualVsize(weight: nat, satisfactions: seq<nat>, witnessed: bool): nat {
    VbytesCeil(weight + Sum(satisfactions) + if witnessed then 2 else 0)
  }

  lemma {:induction false} SumAtMost(xs: seq<nat>, max: nat)
    requires forall i :: 0 <= i < |xs| ==> xs[i] <= max
    ensures Sum(xs) <= max * |xs|
    ensures (forall i :: 0 <= i < |xs| ==> xs[i] == max) ==> Sum(xs) == max * |xs|
  {
    if xs != [] {
      SumAtMost(xs[1..], max);
      assert max * |xs| == max + max * |xs[1..]|;
    }
  }

  /** The size shown is never under the size signed, and is that size when every signature is as long as it can be. */
  lemma SignedVsizeBounds(weight: nat, satisfactions: seq<nat>, max: nat, segwit: bool, witnessed: bool)
    requires forall i :: 0 <= i < |satisfactions| ==> satisfactions[i] <= max
    requires witnessed ==> segwit && satisfactions != []
    ensures ActualVsize(weight, satisfactions, witnessed) <= SignedVsize(weight, |satisfactions|, max, segwit)
    ensures (forall i :: 0 <= i < |satisfactions| ==> satisfactions[i] == max) && (witnessed <==> segwit && satisfactions != []) ==>
              ActualVsize(weight, satisfactions, witnessed) == SignedVsize(weight, |satisfactions|, max, segwit)
  {
    SumAtMost(satisfactions, max);
  }

  lemma PaysSmaller(fee: nat, rate: nat, vsize: nat, smaller: nat)
    requires Pays(fee, rate, vsize) && smaller <= vsize
    ensures Pays(fee, rate, smaller)
  {
  }

  lemma ScaleLess(r: nat, a: nat, b: nat)
    requires a <= b
    ensures r * a <= r * b
  {
  }

  /** So the child's guarantees hold of the transaction the network sees, signed. */
  lemma CpfpHoldsSigned(rate: nat, parentVsize: nat, parentFee: nat, weight: nat, satisfactions: seq<nat>, max: nat,
                        segwit: bool, witnessed: bool)
    requires forall i :: 0 <= i < |satisfactions| ==> satisfactions[i] <= max
    requires witnessed ==> segwit && satisfactions != []
    ensures var signed := ActualVsize(weight, satisfactions, witnessed);
            var fee := CpfpFee(rate, parentVsize, parentFee, SignedVsize(weight, |satisfactions|, max, segwit));
            && Pays(parentFee + fee, rate, parentVsize + signed)
            && Pays(fee, MIN_KWU, signed)
            && (!Pays(parentFee, rate, parentVsize) ==> fee * 1000 > rate * 4 * signed)
  {
    var shown := SignedVsize(weight, |satisfactions|, max, segwit);
    var signed := ActualVsize(weight, satisfactions, witnessed);
    var fee := CpfpFee(rate, parentVsize, parentFee, shown);
    SignedVsizeBounds(weight, satisfactions, max, segwit, witnessed);
    CpfpFeeIsLeast(rate, parentVsize, parentFee, shown, fee);
    PaysSmaller(parentFee + fee, rate, parentVsize + shown, parentVsize + signed);
    PaysSmaller(fee, MIN_KWU, shown, signed);
    if !Pays(parentFee, rate, parentVsize) {
      CpfpChildPaysAbove(rate, parentVsize, parentFee, shown);
      ScaleLess(rate * 4, signed, shown);
    }
  }

  /** And so do a cancel's: it outbids the original as BIP 125 asks, and pays the rate. */
  lemma {:induction false} CancelHoldsSigned(rate: nat, originalFee: nat, weight: nat, satisfactions: seq<nat>, max: nat, segwit: bool,
                                             witnessed: bool, shown: nat, signed: nat)
    requires forall i :: 0 <= i < |satisfactions| ==> satisfactions[i] <= max
    requires witnessed ==> segwit && satisfactions != []
    requires shown == SignedVsize(weight, |satisfactions|, max, segwit) && signed == ActualVsize(weight, satisfactions, witnessed)
    ensures Replaces(CancelFee(rate, shown, originalFee), rate, signed, originalFee)
  {
    SignedVsizeBounds(weight, satisfactions, max, segwit, witnessed);
    CancelFeeIsLeast(rate, shown, originalFee, CancelFee(rate, shown, originalFee));
    PaysSmaller(CancelFee(rate, shown, originalFee), rate, shown, signed);
    PaysSmaller(CancelFee(rate, shown, originalFee) - originalFee, MIN_KWU, shown, signed);
  }
}
