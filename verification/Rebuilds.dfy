/**
 Reusing the Go builder after a build (reference/go/transaction/builder.go:153-168): the pool is
 handed to the funding loop by value, and what the loop takes is not taken from the builder's.
 */
module Rebuilds {
  import opened Wrappers
  import opened UtxoSelector
  import opened Funding
  import opened Transfers
  import opened TxBuilding

  // ---------------------------------------------------------------- when building again is safe

  /** No input spends a coin of the pool. */
  predicate Apart(ins: seq<TxInput>, pool: seq<Utxo>) {
    forall i, j :: 0 <= i < |ins| && 0 <= j < |pool| ==> PointOf(ins[i]) != CoinPoint(pool[j])
  }

  lemma DrawnIn(pool: seq<Utxo>, used: seq<Utxo>, rest: seq<Utxo>, u: Utxo)
    requires Splits(used, rest, pool) && u in used
    ensures u in pool
  {
    assert u in multiset(used) + multiset(rest);
    assert u in multiset(pool);
  }

  /** The inputs after a build: those before it, then the coins it drew. */
  lemma {:induction false} DrawnInputs(lib: Library, pool: seq<Utxo>, ins0: seq<TxInput>, from: string, used: seq<Utxo>,
                                       rest: seq<Utxo>, ins: seq<TxInput>)
    requires Drawing(lib, pool, ins0, PointsOf(ins0), from, used, rest, ins, PointsOf(ins))
    ensures |ins| == |ins0| + |used| && ins[..|ins0|] == ins0
    ensures forall i :: 0 <= i < |used| ==> PointOf(ins[|ins0| + i]) == CoinPoint(used[i])
    ensures Splits(used, rest, pool) || used == []
  {
  }

  /** A build leaves the pool apart from the inputs exactly when it draws nothing from it. */
  lemma {:induction false} StaysApartIff(lib: Library, pool: seq<Utxo>, ins0: seq<TxInput>, from: string, used: seq<Utxo>,
                                         rest: seq<Utxo>, ins: seq<TxInput>)
    requires Drawing(lib, pool, ins0, PointsOf(ins0), from, used, rest, ins, PointsOf(ins)) && Apart(ins0, pool)
    ensures Apart(ins, pool) <==> used == []
  {
    DrawnInputs(lib, pool, ins0, from, used, rest, ins);
    if used != [] {
      DrawnIn(pool, used, rest, used[0]);
      var j :| 0 <= j < |pool| && pool[j] == used[0];
      assert PointOf(ins[|ins0|]) == CoinPoint(pool[j]);
    }
  }

  /** Coins drawn from a pool of different coins are different. */
  lemma {:induction false} DrawnDistinct(pool: seq<Utxo>, used: seq<Utxo>, rest: seq<Utxo>)
    requires Splits(used, rest, pool) && DistinctCoins(pool)
    ensures DistinctCoins(used)
  {
    forall i, j | 0 <= i < j < |used|
      ensures CoinPoint(used[i]) != CoinPoint(used[j])
    {
      DrawnApart(pool, used, rest, i, j);
    }
  }

  /** Inputs are different when the earlier ones are, the drawn ones are, and none of the drawn is among the earlier. */
  lemma {:induction false} TogetherDistinct(ins0: seq<TxInput>, used: seq<Utxo>, ins: seq<TxInput>)
    requires |ins| == |ins0| + |used| && ins[..|ins0|] == ins0 && DistinctPoints(PointsOf(ins0)) && DistinctCoins(used)
    requires forall i :: 0 <= i < |used| ==> PointOf(ins[|ins0| + i]) == CoinPoint(used[i])
    ensures DistinctPoints(PointsOf(ins)) <==> Apart(ins0, used)
  {
    var ops, n := PointsOf(ins), |ins0|;
    assert forall i :: 0 <= i < n ==> ops[i] == PointsOf(ins0)[i] by {
      assert forall i :: 0 <= i < n ==> ins[..n][i] == ins[i];
    }
    assert forall i :: 0 <= i < |used| ==> ops[n + i] == CoinPoint(used[i]);
    if Apart(ins0, used) {
      forall i, j | 0 <= i < j < |ops|
        ensures ops[i] != ops[j]
      {
        if n <= i {
          assert ops[i] == CoinPoint(used[i - n]) && ops[j] == CoinPoint(used[j - n]);
        } else if n <= j {
          assert ops[i] == PointOf(ins0[i]) && ops[j] == CoinPoint(used[j - n]);
        }
      }
    }
    if DistinctPoints(ops) {
      forall i, j | 0 <= i < n && 0 <= j < |used|
        ensures PointOf(ins0[i]) != CoinPoint(used[j])
      {
        assert ops[i] != ops[n + j];
      }
    }
  }

  /** Inputs apart from the pool are still all different after a build. */
  lemma {:induction false} BuildRepeatsNothing(lib: Library, pool: seq<Utxo>, ins0: seq<TxInput>, from: string, used: seq<Utxo>,
                                               rest: seq<Utxo>, ins: seq<TxInput>)
    requires Drawing(lib, pool, ins0, PointsOf(ins0), from, used, rest, ins, PointsOf(ins)) && Apart(ins0, pool)
    requires DistinctPoints(PointsOf(ins0)) && DistinctCoins(pool)
    ensures DistinctPoints(PointsOf(ins))
  {
    DrawnInputs(lib, pool, ins0, from, used, rest, ins);
    if used != [] {
      DrawnDistinct(pool, used, rest);
    }
    forall i, j | 0 <= i < |ins0| && 0 <= j < |used|
      ensures PointOf(ins0[i]) != CoinPoint(used[j])
    {
      DrawnIn(pool, used, rest, used[j]);
      var k :| 0 <= k < |pool| && pool[k] == used[j];
    }
    TogetherDistinct(ins0, used, ins);
  }

  /** Two builds from one pool repeat a coin exactly when the second draws one that the first drew. */
  lemma {:induction false} TwiceRepeatsIff(lib: Library, pool: seq<Utxo>, from: string, ins0: seq<TxInput>,
                                           used: seq<Utxo>, rest: seq<Utxo>, ins: seq<TxInput>,
                                           again: seq<Utxo>, left: seq<Utxo>, more: seq<TxInput>)
    requires Drawing(lib, pool, ins0, PointsOf(ins0), from, used, rest, ins, PointsOf(ins)) && Apart(ins0, pool)
    requires Drawing(lib, pool, ins, PointsOf(ins), from, again, left, more, PointsOf(more))
    requires DistinctPoints(PointsOf(ins0)) && DistinctCoins(pool)
    ensures DistinctPoints(PointsOf(more)) <==> forall u :: u in again ==> u !in used
  {
    BuildRepeatsNothing(lib, pool, ins0, from, used, rest, ins);
    DrawnInputs(lib, pool, ins0, from, used, rest, ins);
    DrawnInputs(lib, pool, ins, from, again, left, more);
    if again != [] {
      DrawnDistinct(pool, again, left);
    }
    TogetherDistinct(ins, again, more);
    ApartIffNew(pool, ins0, used, rest, ins, again, left);
  }

  lemma {:induction false} ApartIffNew(pool: seq<Utxo>, ins0: seq<TxInput>, used: seq<Utxo>, rest: seq<Utxo>, ins: seq<TxInput>,
                                       again: seq<Utxo>, left: seq<Utxo>)
    requires Apart(ins0, pool) && DistinctCoins(pool)
    requires |ins| == |ins0| + |used| && ins[..|ins0|] == ins0
    requires forall i :: 0 <= i < |used| ==> PointOf(ins[|ins0| + i]) == CoinPoint(used[i])
    requires (Splits(used, rest, pool) || used == []) && (Splits(again, left, pool) || again == [])
    ensures Apart(ins, again) <==> forall u :: u in again ==> u !in used
  {
    var n := |ins0|;
    if Apart(ins, again) {
      forall u | u in again
        ensures u !in used
      {
        var j :| 0 <= j < |again| && again[j] == u;
        forall i | 0 <= i < |used|
          ensures used[i] != u
        {
          assert PointOf(ins[n + i]) != CoinPoint(again[j]);
        }
      }
    }
    if forall u :: u in again ==> u !in used {
      forall i, j | 0 <= i < |ins| && 0 <= j < |again|
        ensures PointOf(ins[i]) != CoinPoint(again[j])
      {
        DrawnIn(pool, again, left, again[j]);
        var b :| 0 <= b < |pool| && pool[b] == again[j];
        if i < n {
          assert ins[i] == ins[..n][i] == ins0[i];
        } else {
          DrawnIn(pool, used, rest, used[i - n]);
          var a :| 0 <= a < |pool| && pool[a] == used[i - n];
          assert again[j] in again;
          assert a != b;
        }
      }
    }
  }

  /** What a caller can check before either build: that it needs nothing. */
  predicate EitherNeedsNothing(lib: Library, before: seq<TxInput>, outs: seq<TxOut>, between: seq<TxInput>, more: seq<TxOut>,
                               changeAddr: string) {
    NeedsNothing(lib, before, outs, changeAddr) || NeedsNothing(lib, between, more, changeAddr)
  }

  /** A build with no error before it, as far as the coins it draws go. */
  method BuildOnce(b: TxBuilder) returns (ghost used: seq<Utxo>, ghost rest: seq<Utxo>)
    requires b.Valid() && b.errs == []
    modifies b`pkt, b`errs, b.inputs
    ensures b.Valid()
    ensures Drawing(b.lib, b.utxos, old(b.inputs.list), PointsOf(old(b.inputs.list)), b.fromAddr, used, rest, b.inputs.list,
                    PointsOf(b.inputs.list))
    ensures b.errs == [] ==>
              && b.pkt.Some? && b.pkt.value.ins == PointsOf(b.inputs.list)
              && (used == [] <==> NeedsNothing(b.lib, old(b.inputs.list), b.outputs, b.changeAddr))
  {
    used, rest := b.Build();
  }

  /**
   Build, one more payment, build: the packet repeats a coin exactly when the second build draws
   one the first drew, and so never when either of them needs nothing.  `between` is the inputs
   the first build left.
   */
  method BuildPayBuild(b: TxBuilder, addr: string, amt: int)
    returns (between: seq<TxInput>, ghost used: seq<Utxo>, ghost again: seq<Utxo>)
    requires b.Valid() && b.errs == []
    requires Apart(b.inputs.list, b.utxos) && DistinctPoints(PointsOf(b.inputs.list)) && DistinctCoins(b.utxos)
    modifies b`pkt, b`errs, b`outputs, b.inputs
    ensures b.errs == [] ==>
              b.pkt.Some? && (DistinctPoints(b.pkt.value.ins) <==> forall u :: u in again ==> u !in used)
    ensures b.errs == [] && EitherNeedsNothing(b.lib, old(b.inputs.list), old(b.outputs), between, b.outputs, b.changeAddr) ==>
              DistinctPoints(b.pkt.value.ins)
  {
    ghost var ins0 := b.inputs.list;
    ghost var rest, left;
    again := [];
    used, rest := BuildOnce(b);
    between := b.inputs.list;
    if b.errs != [] {
      return;
    }
    b.To(addr, amt);
    if b.errs != [] {
      return;
    }
    again, left := BuildOnce(b);
    if b.errs == [] {
      TwiceRepeatsIff(b.lib, b.utxos, b.fromAddr, ins0, used, rest, between, again, left, b.inputs.list);
    }
  }

  // ---------------------------------------------------------------- and when it is not

  const COIN_A := Utxo(RawTx("a", [TxOut(50, "me")]), 0, 50)
  const COIN_B := Utxo(RawTx("b", [TxOut(40, "me")]), 0, 40)

  function DecodeAny(text: string): Option<Address> {
    Some(Address(text, P2WPKH))
  }

  function ScriptAny(a: Address): Option<Script> {
    Some(a.text)
  }

  function FeeTen(p2pkh: int, p2tr: int, p2wpkh: int, nested: int, outs: seq<TxOut>, script: int): int {
    10
  }

  function AnyLibrary(): Library {
    Library(DecodeAny, ScriptAny, FeeTen)
  }

  const ME := Address("me", P2WPKH)

  const IN_A := InputOf(COIN_A, ME)
  const IN_B := InputOf(COIN_B, ME)
  const OUT_X := TxOut(45, "x")
  const OUT_Y := TxOut(40, "y")

  lemma SurplusOf(ins: seq<TxInput>, outputs: seq<TxOut>)
    ensures Surplus(AnyLibrary(), ins, outputs, Total(outputs, OutAmount), ME) ==
            Some(Total(ins, InAmount) - Total(outputs, OutAmount) - 10)
  {
  }

  /** Five short: not finished, but `COIN_B` covers it. */
  lemma FiveShort(ins: seq<TxInput>, outputs: seq<TxOut>, p: Packet, rest: seq<Utxo>)
    requires Total(ins, InAmount) == Total(outputs, OutAmount) + 5 && |rest| == 1 && rest[0] == COIN_B
    ensures !Short(AnyLibrary(), ins, outputs, Total(outputs, OutAmount), "me", rest)
    ensures !Finished(AnyLibrary(), p, ins, outputs, "me")
  {
    SurplusOf(ins, outputs);
    var amounts := Amounts(rest, ValueOf);
    assert amounts[0] == 40;
    assert OneIsEnough(amounts, 5);
  }

  /** With `COIN_B`, not short. */
  lemma NotShort(ins0: seq<TxInput>, outputs: seq<TxOut>, rest: seq<Utxo>)
    requires Total(ins0, InAmount) == Total(outputs, OutAmount) + 5
    ensures !Short(AnyLibrary(), ins0 + [IN_B], outputs, Total(outputs, OutAmount), "me", rest)
  {
    SurplusOf(ins0 + [IN_B], outputs);
    TotalSnoc(ins0, IN_B, InAmount);
  }

  lemma NoOtherFailure(e: Error)
    ensures Fails(AnyLibrary(), e, "me", "me") ==> e == Insufficient
  {
  }

  lemma OneOf(us: seq<Utxo>, u: Utxo, rest: seq<Utxo>)
    requires Splits(us, rest, [u])
    ensures (us == [u] && rest == []) || (us == [] && rest == [u])
  {
    assert |multiset(us) + multiset(rest)| == |multiset([u])| == 1;
    if |us| == 1 {
      assert us[0] in multiset(us) + multiset(rest);
    } else {
      assert rest[0] in multiset(us) + multiset(rest);
    }
  }

  /** Either nothing was drawn or `COIN_B` was. */
  lemma DrawsB(ins0: seq<TxInput>, used: seq<Utxo>, rest: seq<Utxo>, ins: seq<TxInput>)
    requires Drawing(AnyLibrary(), [COIN_B], ins0, PointsOf(ins0), "me", used, rest, ins, PointsOf(ins))
    ensures (ins == ins0 && rest == [COIN_B]) || ins == ins0 + [IN_B]
  {
    OneOf(used, COIN_B, rest);
    assert InputsOf([COIN_B], ME) == [IN_B];
  }

  lemma NoFailure(ins: seq<TxInput>, outputs: seq<TxOut>, rest: seq<Utxo>, e: Error)
    requires AllSupported(ins) && !Short(AnyLibrary(), ins, outputs, Total(outputs, OutAmount), "me", rest)
    ensures !BuildFails(AnyLibrary(), e, ins, outputs, "me", "me", rest)
  {
    NoOtherFailure(e);
  }

  predicate AllP2wpkh(ins: seq<TxInput>) {
    forall i :: 0 <= i < |ins| ==> ins[i].address.kind == P2WPKH
  }

  lemma P2wpkhSupported(ins: seq<TxInput>)
    requires AllP2wpkh(ins)
    ensures AllSupported(ins) && AllP2wpkh(ins + [IN_B])
  {
  }

  /** Five short as it was, and not short with `COIN_B`: no failure, and finished only with it. */
  lemma EitherWay(ins0: seq<TxInput>, outputs: seq<TxOut>, rest: seq<Utxo>, ins: seq<TxInput>, e: Error, p: Packet)
    requires (ins == ins0 && |rest| == 1 && rest[0] == COIN_B) || ins == ins0 + [IN_B]
    requires Total(ins0, InAmount) == Total(outputs, OutAmount) + 5 && AllP2wpkh(ins0)
    ensures !BuildFails(AnyLibrary(), e, ins, outputs, "me", "me", rest)
    ensures ins == ins0 ==> !Finished(AnyLibrary(), p, ins, outputs, "me")
  {
    P2wpkhSupported(ins0);
    P2wpkhSupported(ins0 + [IN_B]);
    if ins == ins0 {
      FiveShort(ins0, outputs, p, rest);
    } else {
      NotShort(ins0, outputs, rest);
    }
    NoFailure(ins, outputs, rest, e);
  }

  /** Five short, with `COIN_B` to draw from: the build takes it, and does not fail. */
  lemma {:induction false} TakesB(ins0: seq<TxInput>, outputs: seq<TxOut>, used: seq<Utxo>, rest: seq<Utxo>, ins: seq<TxInput>,
                                  e: Error, p: Packet)
    requires Drawing(AnyLibrary(), [COIN_B], ins0, PointsOf(ins0), "me", used, rest, ins, PointsOf(ins))
    requires Total(ins0, InAmount) == Total(outputs, OutAmount) + 5 && AllP2wpkh(ins0)
    ensures !BuildFails(AnyLibrary(), e, ins, outputs, "me", "me", rest)
    ensures Finished(AnyLibrary(), p, ins, outputs, "me") ==> ins == ins0 + [IN_B]
  {
    DrawsB(ins0, used, rest, ins);
    EitherWay(ins0, outputs, rest, ins, e, p);
  }

  predicate TwoCoins(coins: seq<Utxo>) {
    |coins| == 2 && coins[0] == COIN_A && coins[1] == COIN_B
  }

  lemma AIsEnough(coins: seq<Utxo>)
    requires TwoCoins(coins)
    ensures OneIsEnough(Amounts(coins, ValueOf), 45) && Suffices(Amounts(coins, ValueOf), 45) && AllWhole(coins)
  {
    assert Amounts(coins, ValueOf)[0] == 50;
  }

  lemma PicksA(coins: seq<Utxo>, selected: seq<Utxo>, left: seq<Utxo>)
    requires TwoCoins(coins) && Splits(selected, left, coins)
    requires |selected| == 1 && forall i :: 0 <= i < |coins| ==> coins[i].value <= selected[0].value
    ensures selected == [COIN_A] && left == [COIN_B]
  {
    assert selected[0] in multiset(selected) + multiset(left);
    assert selected[0] in coins && coins[0].value == 50;
    assert selected[0] == COIN_A;
    assert coins == [COIN_A] + [COIN_B] && selected == [COIN_A];
    assert multiset(coins) == multiset([COIN_A]) + multiset([COIN_B]);
    assert multiset(left) == multiset(coins) - multiset(selected);
    OneOf(left, COIN_B, []);
  }

  ghost predicate Stands(b: TxBuilder, ins: seq<TxInput>, utxos: seq<Utxo>, outputs: seq<TxOut>)
    reads b, b.inputs
  {
    && b.lib == AnyLibrary() && b.fromAddr == b.changeAddr == "me" && b.errs == []
    && b.inputs.list == ins && b.utxos == utxos && b.outputs == outputs
  }

  method SelectA(coins: seq<Utxo>) returns (b: TxBuilder)
    requires TwoCoins(coins)
    ensures fresh(b) && fresh(b.inputs) && b.Valid()
    ensures Stands(b, [IN_A], [COIN_B], [OUT_X])
  {
    b := new TxBuilder(AnyLibrary());
    b.From("me");
    b.To("x", 45);
    TotalSnoc([], OUT_X, OutAmount);
    AIsEnough(coins);
    ghost var selected := b.SelectUtxo(coins);
    PicksA(coins, selected, b.utxos);
  }

  method BuildShort(b: TxBuilder, ghost ins: seq<TxInput>, ghost outputs: seq<TxOut>)
    requires b.Valid() && Stands(b, ins, [COIN_B], outputs)
    requires Total(ins, InAmount) == Total(outputs, OutAmount) + 5
    requires AllP2wpkh(ins)
    modifies b`pkt, b`errs, b.inputs
    ensures b.Valid() && Stands(b, ins + [IN_B], [COIN_B], outputs)
    ensures b.pkt.Some? && b.pkt.value.ins == PointsOf(b.inputs.list)
  {
    ghost var used, rest := b.Build();
    ghost var e := if b.errs != [] then b.errs[0] else Insufficient;
    ghost var p := if b.pkt.Some? then b.pkt.value else Packet([], [], []);
    TakesB(ins, outputs, used, rest, b.inputs.list, e, p);
  }

  lemma BothFiveShort()
    ensures Total([IN_A], InAmount) == Total([OUT_X], OutAmount) + 5
    ensures Total([IN_A] + [IN_B], InAmount) == Total([OUT_X] + [OUT_Y], OutAmount) + 5
  {
    TotalSnoc([], IN_A, InAmount);
    TotalSnoc([], OUT_X, OutAmount);
    TotalSnoc([IN_A], IN_B, InAmount);
    TotalSnoc([OUT_X], OUT_Y, OutAmount);
  }

  /**
   `Build` leaves the pool it drew from as it was, so building again after one more payment can
   take the same coin again: here the packet spends `COIN_B` twice.
   */
  method BuildTwice() returns (p: Packet)
    ensures |p.ins| == 3 && p.ins[1] == p.ins[2] == CoinPoint(COIN_B)
  {
    BothFiveShort();
    var coins := [COIN_A, COIN_B];
    var b := SelectA(coins);
    BuildShort(b, [IN_A], [OUT_X]);
    b.To("y", 40);
    BuildShort(b, [IN_A] + [IN_B], [OUT_X] + [OUT_Y]);
    p := b.pkt.value;
    assert p.ins == PointsOf([IN_A] + [IN_B] + [IN_B]);
  }
}
