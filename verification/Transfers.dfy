/**
 A whole transfer through the Go builder (reference/go/transaction/transaction.go:54-73), up to
 signing.
 */
module Transfers {
  import opened Wrappers
  import opened UtxoSelector
  import opened Funding
  import opened TxBuilding

  datatype Payment = Payment(addr: string, amt: int)

  /** Each payment's own output, in order. */
  predicate Paid(lib: Library, to: seq<Payment>, outs: seq<TxOut>) {
    |outs| == |to| && forall i :: 0 <= i < |to| ==> OutputFor(lib, to[i].addr, to[i].amt) == Some(outs[i])
  }

  /** The transfer asked for: these coins of the sender's, these payments, and nothing lost but the fee of those inputs. */
  ghost predicate Transfer(lib: Library, coins: seq<Utxo>, from: string, to: seq<Payment>, used: seq<Utxo>, rest: seq<Utxo>,
                           p: Packet) {
    match lib.decode(from)
    case None => false
    case Some(address) =>
      Drawn(coins, used, rest)
      && p.ins == PointsOf(InputsOf(used, address)) && AllDecorated(p.inputs, InputsOf(used, address))
      && Pays(lib, to, used, address, p.outs)
  }

  /** The payments first, and inputs less outputs exactly the fee. */
  ghost predicate Pays(lib: Library, to: seq<Payment>, used: seq<Utxo>, address: Address, outs: seq<TxOut>)
    requires AllWhole(used)
  {
    exists paid :: PaysExactly(lib, to, used, address, outs, paid)
  }

  predicate PaysExactly(lib: Library, to: seq<Payment>, used: seq<Utxo>, address: Address, outs: seq<TxOut>, paid: seq<TxOut>)
    requires AllWhole(used)
  {
    && Paid(lib, to, paid) && paid <= outs
    && FeeOf(lib, InputsOf(used, address), paid, address) == Some(Total(used, ValueOf) - Total(outs, OutAmount))
  }

  predicate AllPayable(lib: Library, to: seq<Payment>) {
    forall i :: 0 <= i < |to| ==> OutputFor(lib, to[i].addr, to[i].amt).Some?
  }

  function PayAmount(p: Payment): int {
    p.amt
  }

  lemma {:induction false} PaidTotal(lib: Library, to: seq<Payment>, outs: seq<TxOut>)
    requires Paid(lib, to, outs)
    ensures Total(outs, OutAmount) == Total(to, PayAmount)
  {
    if to != [] {
      var n := |to| - 1;
      PaidTotal(lib, to[..n], outs[..n]);
      assert OutputFor(lib, to[n].addr, to[n].amt) == Some(outs[n]);
    }
  }

  method AddPayments(b: TxBuilder, to: seq<Payment>)
    requires b.errs == [] && b.outputs == []
    modifies b`outputs, b`errs
    ensures b.errs == [] <==> AllPayable(b.lib, to)
    ensures b.errs == [] ==> Paid(b.lib, to, b.outputs)
  {
    for i := 0 to |to|
      invariant b.errs == [] <==> forall k :: 0 <= k < i ==> OutputFor(b.lib, to[k].addr, to[k].amt).Some?
      invariant b.errs == [] ==> Paid(b.lib, to[..i], b.outputs)
    {
      b.To(to[i].addr, to[i].amt);
    }
    assert to[..|to|] == to;
  }

  /** What was selected first and what the build drew after it, together. */
  lemma InputsTogether(lib: Library, selected: seq<Utxo>, left: seq<Utxo>, used: seq<Utxo>, rest: seq<Utxo>, from: string,
                       ins: seq<TxInput>)
    requires AllWhole(selected) && lib.decode(from).Some?
    requires var chosen := Spending(lib, selected, from);
             Drawing(lib, left, chosen, PointsOf(chosen), from, used, rest, ins, PointsOf(ins))
    ensures Drawn(left, used, rest) && AllWhole(selected + used)
    ensures ins == InputsOf(selected + used, lib.decode(from).value)
  {
  }

  lemma TransferIs(lib: Library, coins: seq<Utxo>, from: string, to: seq<Payment>, used: seq<Utxo>, rest: seq<Utxo>,
                   outputs: seq<TxOut>, p: Packet)
    requires lib.decode(from).Some? && from != "" && Drawn(coins, used, rest) && Paid(lib, to, outputs)
    requires Finished(lib, p, InputsOf(used, lib.decode(from).value), outputs, from)
    ensures Transfer(lib, coins, from, to, used, rest, p)
  {
    var address := lib.decode(from).value;
    FundedPaysItsFee(lib, InputsOf(used, address), outputs, p.outs, from);
    InputsTotal(used, address);
    assert PaysExactly(lib, to, used, address, p.outs, outputs);
  }

  /** Ready to build: the payments listed, and coins selected for them. */
  ghost predicate Ready(lib: Library, coins: seq<Utxo>, from: string, to: seq<Payment>, selected: seq<Utxo>, left: seq<Utxo>,
                        ins: seq<TxInput>, outputs: seq<TxOut>) {
    match lib.decode(from)
    case None => false
    case Some(address) =>
      AllWhole(selected) && Splits(selected, left, coins) && ins == InputsOf(selected, address) && Paid(lib, to, outputs)
  }

  /**
   How a transfer went: the outputs its payments became, the coins selected for them and those
   left, and the coins the build drew after that and those left in the end.
   */
  datatype Course = Course(outs: seq<TxOut>, first: seq<Utxo>, left: seq<Utxo>, drawn: seq<Utxo>, rest: seq<Utxo>)

  /** Every coin was taken by a greedy selection: for the payments first, and then each time for just what was missing. */
  ghost predicate Followed(lib: Library, coins: seq<Utxo>, from: string, to: seq<Payment>, c: Course) {
    match c
    case Course(outs, first, left, drawn, rest) =>
      && Paid(lib, to, outs) && AllWhole(first)
      && Selects(coins, Total(outs, OutAmount), ValueOf, first, left)
      && DrawnForBuild(lib, left, Spending(lib, first, from), from, outs, from, drawn, rest)
  }

  /** The build's result, on top of the selection's, is the transfer. */
  lemma {:induction false} TransferDone(lib: Library, coins: seq<Utxo>, from: string, to: seq<Payment>, selected: seq<Utxo>,
                                        left: seq<Utxo>, chosen: seq<TxInput>, used: seq<Utxo>, rest: seq<Utxo>,
                                        ins: seq<TxInput>, outputs: seq<TxOut>, p: Packet)
    requires AllWhole(coins) && from != "" && Ready(lib, coins, from, to, selected, left, chosen, outputs)
    requires Drawing(lib, left, chosen, PointsOf(chosen), from, used, rest, ins, PointsOf(ins))
    requires Finished(lib, p, ins, outputs, from)
    ensures Transfer(lib, coins, from, to, selected + used, rest, p)
  {
    InputsTogether(lib, selected, left, used, rest, from, ins);
    WholeParts(selected, left, coins);
    DrawMore(coins, selected, left, used, rest);
    TransferIs(lib, coins, from, to, selected + used, rest, outputs, p);
  }

  /** What the chain needs before it builds: good payments, coins a selection covers them with, and a good sender. */
  predicate Payable(lib: Library, coins: seq<Utxo>, from: string, to: seq<Payment>) {
    AllPayable(lib, to) && Suffices(Amounts(coins, ValueOf), Total(to, PayAmount)) && lib.decode(from).Some?
  }

  /** The chain up to the selection; the sender's address takes the change. */
  method Prepare(lib: Library, coins: seq<Utxo>, from: string, to: seq<Payment>) returns (b: TxBuilder, ghost selected: seq<Utxo>)
    requires AllWhole(coins)
    ensures fresh(b) && fresh(b.inputs) && b.Valid() && b.lib == lib
    ensures b.errs == [] <==> Payable(lib, coins, from, to)
    ensures b.errs == [] ==>
              && b.fromAddr == b.changeAddr == from
              && Ready(lib, coins, from, to, selected, b.utxos, b.inputs.list, b.outputs)
              && Selects(coins, Total(b.outputs, OutAmount), ValueOf, selected, b.utxos)
              && b.inputs.list == Spending(lib, selected, from)
  {
    b := new TxBuilder(lib);
    b.From(from);
    b.Change(from);
    AddPayments(b, to);
    if b.errs == [] {
      PaidTotal(lib, to, b.outputs);
    }
    selected := b.SelectUtxo(coins);
  }

  /** Why a chain that could be prepared stops in the build: coins drawn and left, and what is wrong with those inputs. */
  ghost predicate Stuck(lib: Library, coins: seq<Utxo>, from: string, outs: seq<TxOut>, used: seq<Utxo>, rest: seq<Utxo>, e: Error) {
    match lib.decode(from)
    case None => false
    case Some(address) => Drawn(coins, used, rest) && BuildFails(lib, e, InputsOf(used, address), outs, from, from, rest)
  }

  lemma {:induction false} StuckIs(lib: Library, coins: seq<Utxo>, from: string, to: seq<Payment>, selected: seq<Utxo>, left: seq<Utxo>,
                                   chosen: seq<TxInput>, used: seq<Utxo>, rest: seq<Utxo>, ins: seq<TxInput>, outputs: seq<TxOut>, e: Error)
    requires AllWhole(coins) && Ready(lib, coins, from, to, selected, left, chosen, outputs)
    requires Drawing(lib, left, chosen, PointsOf(chosen), from, used, rest, ins, PointsOf(ins))
    requires BuildFails(lib, e, ins, outputs, from, from, rest)
    ensures Stuck(lib, coins, from, outputs, selected + used, rest, e)
  {
    InputsTogether(lib, selected, left, used, rest, from, ins);
    WholeParts(selected, left, coins);
    DrawMore(coins, selected, left, used, rest);
  }

  /** Up to signing: the transfer, or why not; and nothing else stops it. */
  method NewTransferTx(lib: Library, coins: seq<Utxo>, from: string, to: seq<Payment>)
    returns (packet: Result<Packet, seq<Error>>, ghost c: Course)
    requires AllWhole(coins)
    ensures packet.Ok? ==> Payable(lib, coins, from, to)
    ensures Payable(lib, coins, from, to) ==> Followed(lib, coins, from, to, c)
    ensures packet.Ok? && from != "" ==> Transfer(lib, coins, from, to, c.first + c.drawn, c.rest, packet.value)
    ensures packet.Err? && Payable(lib, coins, from, to) ==>
              |packet.error| == 1 && Stuck(lib, coins, from, c.outs, c.first + c.drawn, c.rest, packet.error[0])
    ensures packet.Err? ==> packet.error != []
  {
    var b;
    ghost var selected;
    b, selected := Prepare(lib, coins, from, to);
    ghost var chosen, left := b.inputs.list, b.utxos;
    ghost var prepared := b.errs == [];
    ghost var used, rest := b.Build();
    c := Course(b.outputs, selected, left, used, rest);
    if prepared && b.errs != [] {
      StuckIs(lib, coins, from, to, selected, left, chosen, used, rest, b.inputs.list, b.outputs, b.errs[0]);
    }
    if b.errs == [] && from != "" {
      TransferDone(lib, coins, from, to, selected, left, chosen, used, rest, b.inputs.list, b.outputs, b.pkt.value);
    }
    packet := if b.errs != [] then Err(b.errs) else Ok(b.pkt.value);
  }

  /** Every input of a transfer carries its own coin: the output, the whole transaction, or both, as the sender's kind needs. */
  lemma TransferCarries(lib: Library, coins: seq<Utxo>, from: string, to: seq<Payment>, used: seq<Utxo>, rest: seq<Utxo>,
                        p: Packet, i: nat)
    requires Transfer(lib, coins, from, to, used, rest, p) && i < |used|
    ensures lib.decode(from).Some? && |p.ins| == |p.inputs| == |used| && used[i] in coins && used[i].vout < |used[i].raw.outs|
    ensures p.ins[i] == OutPoint(used[i].raw.txid, used[i].vout)
    ensures var kind, said := lib.decode(from).value.kind, p.inputs[i];
            && (SignsOutput(kind) || SignsWholeTx(kind))
            && said.prevOut == (if SignsOutput(kind) then Some(used[i].raw.outs[used[i].vout]) else None)
            && said.prevTx == (if SignsWholeTx(kind) then Some(used[i].raw) else None)
            && (said.sighash == 1 <==> kind == P2WPKH)
  {
    var ins := InputsOf(used, lib.decode(from).value);
    AllCarry(p.inputs, ins);
    assert Decorated(ins[i]) == Some(p.inputs[i]);
    DecoratedCarries(ins[i]);
    assert used[i] in multiset(used) + multiset(rest);
    assert used[i] in multiset(coins);
  }

  // ---------------------------------------------------------------- each coin once

  predicate DistinctPoints(ops: seq<OutPoint>) {
    forall i, j :: 0 <= i < j < |ops| ==> ops[i] != ops[j]
  }

  function CoinPoint(u: Utxo): OutPoint {
    OutPoint(u.raw.txid, u.vout)
  }

  predicate DistinctCoins(us: seq<Utxo>) {
    forall i, j :: 0 <= i < j < |us| ==> CoinPoint(us[i]) != CoinPoint(us[j])
  }

  lemma {:induction false} CountedTwice(us: seq<Utxo>, i: nat, j: nat)
    requires i < j < |us| && us[i] == us[j]
    ensures multiset(us)[us[i]] >= 2
  {
    assert us == us[..j] + us[j..];
    assert us[..j][i] == us[i] && us[j..][0] == us[j];
    assert us[i] in multiset(us[..j]) && us[i] in multiset(us[j..]);
  }

  lemma {:induction false} CountedOnce(us: seq<Utxo>, u: Utxo)
    requires DistinctCoins(us)
    ensures multiset(us)[u] <= 1
  {
    if us != [] {
      CountedOnce(us[1..], u);
      assert us == [us[0]] + us[1..];
      forall k | 0 <= k < |us[1..]|
        ensures us[1..][k] != us[0]
      {
        assert CoinPoint(us[0]) != CoinPoint(us[k + 1]);
      }
      assert us[0] !in multiset(us[1..]);
    }
  }

  /** From coins that are all different, a transfer's inputs are all different. */
  lemma NoCoinTwice(lib: Library, coins: seq<Utxo>, from: string, to: seq<Payment>, used: seq<Utxo>, rest: seq<Utxo>, p: Packet)
    requires Transfer(lib, coins, from, to, used, rest, p) && DistinctCoins(coins)
    ensures DistinctPoints(p.ins)
  {
    forall i, j | 0 <= i < j < |p.ins|
      ensures p.ins[i] != p.ins[j]
    {
      DrawnApart(coins, used, rest, i, j);
    }
  }

  lemma DrawnApart(coins: seq<Utxo>, used: seq<Utxo>, rest: seq<Utxo>, i: nat, j: nat)
    requires Splits(used, rest, coins) && DistinctCoins(coins) && i < j < |used|
    ensures CoinPoint(used[i]) != CoinPoint(used[j])
  {
    assert used[i] in multiset(used) && used[j] in multiset(used);
    assert used[i] in multiset(coins) && used[j] in multiset(coins);
    var a :| 0 <= a < |coins| && coins[a] == used[i];
    var b :| 0 <= b < |coins| && coins[b] == used[j];
    assert multiset(coins)[used[i]] >= multiset(used)[used[i]];
    if used[i] == used[j] {
      CountedTwice(used, i, j);
      CountedOnce(coins, used[i]);
    }
  }
}
