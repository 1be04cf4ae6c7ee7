/**
 Reading and describing PSBTs (crates/wallet-core/src/wallet.rs): filling in what this
 wallet's history knows, reviewing one made elsewhere, and telling payment from change in one
 made here.
 */
module Psbts {
  import opened Wrappers

  const U64: nat := 0x1_0000_0000_0000_0000

  type Script = string
  type Txid = string

  datatype TxOut = TxOut(script: Script, value: nat)

  datatype OutPoint = OutPoint(txid: Txid, vout: nat)

  datatype Tx = Tx(inputs: seq<OutPoint>, outputs: seq<TxOut>)

  /** What a PSBT says of one input: the output spent, the whole transaction that made it, and whether it is final. */
  datatype Claim = Claim(utxo: Option<TxOut>, prevTx: Option<seq<TxOut>>, finalized: bool)

  datatype Psbt = Psbt(tx: Tx, claims: seq<Claim>)

  predicate WellFormed(p: Psbt) {
    |p.claims| == |p.tx.inputs|
  }

  /** Whole transactions and single outputs known, which scripts are ours, and whether a keychain of ours is segwit. */
  datatype Wallet = Wallet(whole: map<Txid, seq<TxOut>>, single: map<OutPoint, TxOut>, mine: Script -> bool, segwit: Script -> bool)

  /** `graph.get_tx` with the output it is spent at. */
  function WholeOut(w: Wallet, op: OutPoint): Option<TxOut> {
    if op.txid in w.whole && op.vout < |w.whole[op.txid]| then Some(w.whole[op.txid][op.vout]) else None
  }

  /** `graph.get_txout`. */
  function KnownOut(w: Wallet, op: OutPoint): Option<TxOut> {
    if op.txid in w.whole then WholeOut(w, op)
    else if op in w.single then Some(w.single[op])
    else None
  }

  function Sum(xs: seq<TxOut>): nat {
    if xs == [] then 0 else xs[0].value + Sum(xs[1..])
  }

  // ---------------------------------------------------------------- filling in our own coins

  /** This input spends a coin of ours whose whole transaction is in our history. */
  predicate OursWhole(w: Wallet, op: OutPoint) {
    WholeOut(w, op).Some? && w.mine(WholeOut(w, op).value.script)
  }

  function Filled(w: Wallet, op: OutPoint, c: Claim): Claim {
    if !OursWhole(w, op) then c
    else
      var out := WholeOut(w, op).value;
      c.(utxo := if w.segwit(out.script) then Some(out) else None, prevTx := Some(w.whole[op.txid]))
  }

  /** What a filled input says: the whole transaction, and beside it the output itself exactly on a segwit script. */
  lemma FilledSays(w: Wallet, op: OutPoint, c: Claim)
    ensures Filled(w, op, c).finalized == c.finalized
    ensures if op.txid in w.whole && op.vout < |w.whole[op.txid]| && w.mine(w.whole[op.txid][op.vout].script) then
              var out := w.whole[op.txid][op.vout];
              && Filled(w, op, c).prevTx == Some(w.whole[op.txid])
              && (w.segwit(out.script) ==> Filled(w, op, c).utxo == Some(out))
              && (!w.segwit(out.script) ==> Filled(w, op, c).utxo == None)
            else Filled(w, op, c) == c
  {
  }

  function FilledAll(w: Wallet, ops: seq<OutPoint>, cs: seq<Claim>): (ds: seq<Claim>)
    ensures |ds| == |cs|
    ensures forall i :: 0 <= i < |cs| ==> ds[i] == if i < |ops| then Filled(w, ops[i], cs[i]) else cs[i]
  {
    if cs == [] || ops == [] then cs else [Filled(w, ops[0], cs[0])] + FilledAll(w, ops[1..], cs[1..])
  }

  /** `fill_ours`, over the PSBT's inputs in place. */
  method FillOurs(w: Wallet, ops: seq<OutPoint>, claims: array<Claim>)
    modifies claims
    ensures claims[..] == FilledAll(w, ops, old(claims[..]))
  {
    var n := if |ops| < claims.Length then |ops| else claims.Length;
    for i := 0 to n
      invariant forall k :: 0 <= k < claims.Length ==>
                  claims[k] == if k < i then Filled(w, ops[k], old(claims[k])) else old(claims[k])
    {
      var prev := ops[i];
      if prev.txid in w.whole && prev.vout < |w.whole[prev.txid]| {
        var prevTx := w.whole[prev.txid];
        var txout := prevTx[prev.vout];
        if w.mine(txout.script) {
          if w.segwit(txout.script) {
            claims[i] := claims[i].(utxo := Some(txout));
          } else {
            claims[i] := claims[i].(utxo := None);
          }
          claims[i] := claims[i].(prevTx := Some(prevTx));
        }
      }
    }
  }

  // ---------------------------------------------------------------- review

  /** The value a PSBT's own words give an input: its output, else its previous transaction's. */
  function ClaimedValue(op: OutPoint, c: Claim): Option<nat> {
    if c.utxo.Some? then Some(c.utxo.value.value)
    else if c.prevTx.Some? && op.vout < |c.prevTx.value| then Some(c.prevTx.value[op.vout].value)
    else None
  }

  function ClaimedTotal(ops: seq<OutPoint>, cs: seq<Claim>): Option<nat>
    requires |ops| == |cs|
  {
    if ops == [] then Some(0)
    else
      var first := ClaimedValue(ops[0], cs[0]);
      var rest := ClaimedTotal(ops[1..], cs[1..]);
      if first.Some? && rest.Some? then Some(first.value + rest.value) else None
  }

  /** `Psbt::fee`, None for its errors. */
  function Fee(p: Psbt): Option<nat>
    requires WellFormed(p)
  {
    var ins := ClaimedTotal(p.tx.inputs, p.claims);
    var outs := Sum(p.tx.outputs);
    if ins.None? || ins.value >= U64 || outs >= U64 || ins.value < outs then None else Some(ins.value - outs)
  }

  function OwnValue(w: Wallet, op: OutPoint): Option<nat> {
    if KnownOut(w, op).Some? && w.mine(KnownOut(w, op).value.script) then Some(KnownOut(w, op).value.value) else None
  }

  datatype InputView = InputView(value: Option<nat>, ours: bool, finalized: bool)

  datatype Review = Review(inputs: seq<InputView>, fee: Option<nat>, net: int, finalized: bool, signable: bool)

  function ViewOf(w: Wallet, op: OutPoint, c: Claim): InputView {
    var own := OwnValue(w, op);
    InputView(if own.Some? then own else ClaimedValue(op, c), own.Some?, c.finalized)
  }

  function Spent(w: Wallet, ops: seq<OutPoint>): nat {
    if ops == [] then 0
    else (if OwnValue(w, ops[0]).Some? then OwnValue(w, ops[0]).value else 0) + Spent(w, ops[1..])
  }

  function Received(w: Wallet, outs: seq<TxOut>): nat {
    if outs == [] then 0 else (if w.mine(outs[0].script) then outs[0].value else 0) + Received(w, outs[1..])
  }

  function PaidToOthers(w: Wallet, outs: seq<TxOut>): nat {
    if outs == [] then 0 else (if w.mine(outs[0].script) then 0 else outs[0].value) + PaidToOthers(w, outs[1..])
  }

  function Views(w: Wallet, p: Psbt): (vs: seq<InputView>)
    requires WellFormed(p)
    ensures |vs| == |p.tx.inputs|
    ensures forall i :: 0 <= i < |vs| ==> vs[i] == ViewOf(w, p.tx.inputs[i], p.claims[i])
  {
    seq(|p.tx.inputs|, i requires 0 <= i < |p.tx.inputs| => ViewOf(w, p.tx.inputs[i], p.claims[i]))
  }

  function ReviewOf(w: Wallet, watchOnly: bool, p: Psbt): Review
    requires WellFormed(p)
  {
    var inputs := Views(w, p);
    Review(
      inputs,
      Fee(p),
      Received(w, p.tx.outputs) - Spent(w, p.tx.inputs),
      inputs != [] && forall i :: 0 <= i < |inputs| ==> inputs[i].finalized,
      !watchOnly && exists i :: 0 <= i < |inputs| && inputs[i].ours && !inputs[i].finalized)
  }

  /** History's word on an output: its whole transaction's when that is known, else the single output known. */
  predicate HistorySays(w: Wallet, op: OutPoint, out: TxOut) {
    if op.txid in w.whole then op.vout < |w.whole[op.txid]| && w.whole[op.txid][op.vout] == out
    else op in w.single && w.single[op] == out
  }

  /** An input of ours that is not final yet. */
  predicate Unsigned(r: Review, p: Psbt, i: nat) {
    i < |r.inputs| && i < |p.claims| && r.inputs[i].ours && !p.claims[i].finalized
  }

  /**
   What a review says of each input and of the whole: ours exactly when history has an output of
   ours there, at its value; final when every input is, and there is one; and to be signed
   here when a wallet with keys has an input of ours that is not final.
   */
  lemma ReviewSays(w: Wallet, watchOnly: bool, p: Psbt)
    requires WellFormed(p)
    ensures var r := ReviewOf(w, watchOnly, p);
            && |r.inputs| == |p.tx.inputs|
            && (forall i :: 0 <= i < |r.inputs| ==> r.inputs[i].finalized == p.claims[i].finalized)
            && (forall i :: 0 <= i < |r.inputs| ==>
                  (r.inputs[i].ours <==> exists out :: HistorySays(w, p.tx.inputs[i], out) && w.mine(out.script)))
            && (forall i, out :: 0 <= i < |r.inputs| && HistorySays(w, p.tx.inputs[i], out) && w.mine(out.script) ==>
                  r.inputs[i].value == Some(out.value))
            && (forall i :: 0 <= i < |r.inputs| && !r.inputs[i].ours ==>
                  r.inputs[i].value == ClaimedValue(p.tx.inputs[i], p.claims[i]))
            && (r.finalized <==> p.claims != [] && forall i :: 0 <= i < |p.claims| ==> p.claims[i].finalized)
            && (r.signable <==> !watchOnly && exists i :: 0 <= i < |r.inputs| && Unsigned(r, p, i))
  {
    forall i | 0 <= i < |p.tx.inputs|
      ensures OwnValue(w, p.tx.inputs[i]).Some? <==> exists out :: HistorySays(w, p.tx.inputs[i], out) && w.mine(out.script)
      ensures forall out :: HistorySays(w, p.tx.inputs[i], out) && w.mine(out.script) ==> OwnValue(w, p.tx.inputs[i]) == Some(out.value)
    {
      OwnIsHistory(w, p.tx.inputs[i]);
    }
    var r := ReviewOf(w, watchOnly, p);
    assert forall i :: 0 <= i < |p.claims| ==> r.inputs[i] == ViewOf(w, p.tx.inputs[i], p.claims[i]);
    assert forall i :: 0 <= i < |p.claims| ==> (p.claims[i].finalized <==> r.inputs[i].finalized);
    SignableIs(r, p, watchOnly);
  }

  /** What is spent is what the inputs that are ours are worth, input by input. */
  lemma SpentIs(w: Wallet, op: OutPoint, ops: seq<OutPoint>, out: TxOut)
    ensures Spent(w, []) == 0
    ensures HistorySays(w, op, out) && w.mine(out.script) ==> Spent(w, [op] + ops) == out.value + Spent(w, ops)
    ensures (forall o :: HistorySays(w, op, o) ==> !w.mine(o.script)) ==> Spent(w, [op] + ops) == Spent(w, ops)
  {
    assert ([op] + ops)[1..] == ops;
    OwnIsHistory(w, op);
  }

  lemma SignableIs(r: Review, p: Psbt, watchOnly: bool)
    requires |r.inputs| == |p.claims| && forall i :: 0 <= i < |p.claims| ==> (p.claims[i].finalized <==> r.inputs[i].finalized)
    requires r.signable <==> !watchOnly && exists i :: 0 <= i < |r.inputs| && r.inputs[i].ours && !r.inputs[i].finalized
    ensures r.signable <==> !watchOnly && exists i :: 0 <= i < |r.inputs| && Unsigned(r, p, i)
  {
    if i :| 0 <= i < |r.inputs| && r.inputs[i].ours && !r.inputs[i].finalized {
      assert Unsigned(r, p, i);
    }
  }

  lemma OwnIsHistory(w: Wallet, op: OutPoint)
    ensures OwnValue(w, op).Some? <==> exists out :: HistorySays(w, op, out) && w.mine(out.script)
    ensures forall out :: HistorySays(w, op, out) && w.mine(out.script) ==> OwnValue(w, op) == Some(out.value)
  {
    if KnownOut(w, op).Some? {
      assert HistorySays(w, op, KnownOut(w, op).value);
    }
  }

  /** A PSBT's own word on an input: its output's value, else its previous transaction's at that index. */
  lemma ClaimSays(op: OutPoint, c: Claim)
    ensures c.utxo.Some? ==> ClaimedValue(op, c) == Some(c.utxo.value.value)
    ensures c.utxo.None? && c.prevTx.Some? && op.vout < |c.prevTx.value| ==> ClaimedValue(op, c) == Some(c.prevTx.value[op.vout].value)
    ensures c.utxo.None? && (c.prevTx.None? || op.vout >= |c.prevTx.value|) ==> ClaimedValue(op, c).None?
  {
  }

  /** What `import_psbt` and `sign_psbt` hand to the review: our records filled in, and then some inputs finalized. */
  predicate Prepared(w: Wallet, given: Psbt, p: Psbt) {
    && WellFormed(given) && WellFormed(p) && p.tx == given.tx
    && forall i :: 0 <= i < |p.claims| ==>
         var filled := Filled(w, given.tx.inputs[i], given.claims[i]);
         p.claims[i].utxo == filled.utxo && p.claims[i].prevTx == filled.prevTx
  }

  predicate AllOursWhole(w: Wallet, ops: seq<OutPoint>) {
    forall i :: 0 <= i < |ops| ==> OursWhole(w, ops[i])
  }

  lemma OwnIsClaimed(w: Wallet, given: Psbt, p: Psbt, i: nat)
    requires Prepared(w, given, p) && i < |p.claims| && OursWhole(w, p.tx.inputs[i])
    ensures OwnValue(w, p.tx.inputs[i]) == ClaimedValue(p.tx.inputs[i], p.claims[i]) == Some(WholeOut(w, p.tx.inputs[i]).value.value)
  {
  }

  lemma {:induction false} TotalIsSpent(w: Wallet, ops: seq<OutPoint>, cs: seq<Claim>)
    requires |ops| == |cs|
    requires forall i :: 0 <= i < |ops| ==> OwnValue(w, ops[i]).Some? && ClaimedValue(ops[i], cs[i]) == OwnValue(w, ops[i])
    ensures ClaimedTotal(ops, cs) == Some(Spent(w, ops))
  {
    if ops != [] {
      TotalIsSpent(w, ops[1..], cs[1..]);
    }
  }

  lemma {:induction false} OutputsSplit(w: Wallet, outs: seq<TxOut>)
    ensures Received(w, outs) + PaidToOthers(w, outs) == Sum(outs)
  {
    if outs != [] {
      OutputsSplit(w, outs[1..]);
    }
  }

  /** What is received is what goes to scripts of ours, and what is paid the rest: all, none, and output by output. */
  lemma {:induction false} ReceivedIs(w: Wallet, outs: seq<TxOut>, o: TxOut)
    ensures (forall i :: 0 <= i < |outs| ==> w.mine(outs[i].script)) ==> Received(w, outs) == Sum(outs) && PaidToOthers(w, outs) == 0
    ensures (forall i :: 0 <= i < |outs| ==> !w.mine(outs[i].script)) ==> Received(w, outs) == 0 && PaidToOthers(w, outs) == Sum(outs)
    ensures Received(w, [o] + outs) == Received(w, outs) + (if w.mine(o.script) then o.value else 0)
  {
    assert ([o] + outs)[1..] == outs;
    if outs != [] {
      ReceivedIs(w, outs[1..], o);
    }
  }

  /**
   When every input is a coin of ours with its whole transaction in our history, the review
   says what history says, whatever the PSBT claimed: each input's value, a fee of what goes
   in less what goes out, and a net effect that with the fee and what others get is nothing.
   */
  lemma ReviewTrustsHistory(w: Wallet, watchOnly: bool, given: Psbt, p: Psbt)
    requires Prepared(w, given, p) && AllOursWhole(w, p.tx.inputs)
    ensures var r := ReviewOf(w, watchOnly, p);
            && (forall i :: 0 <= i < |r.inputs| ==>
                  r.inputs[i].ours && r.inputs[i].value == Some(WholeOut(w, p.tx.inputs[i]).value.value))
            && (r.fee.Some? <==> Sum(p.tx.outputs) <= Spent(w, p.tx.inputs) < U64)
            && (r.fee.Some? ==> r.net + r.fee.value + PaidToOthers(w, p.tx.outputs) == 0)
  {
    forall i | 0 <= i < |p.claims|
      ensures OwnValue(w, p.tx.inputs[i]) == ClaimedValue(p.tx.inputs[i], p.claims[i]) == Some(WholeOut(w, p.tx.inputs[i]).value.value)
    {
      OwnIsClaimed(w, given, p, i);
    }
    TotalIsSpent(w, p.tx.inputs, p.claims);
    OutputsSplit(w, p.tx.outputs);
  }

  /** Two PSBTs of one transaction, their inputs filled in, have the same fee. */
  predicate SameFee(w: Wallet, tx: Tx, cs: seq<Claim>, ds: seq<Claim>)
    requires |cs| == |ds| == |tx.inputs|
  {
    Fee(Psbt(tx, FilledAll(w, tx.inputs, cs))) == Fee(Psbt(tx, FilledAll(w, tx.inputs, ds)))
  }

  /** Claims of these values on every input, but for one of `at` on input `i`. */
  function Claiming(n: nat, i: nat, at: Option<nat>): (cs: seq<Claim>)
    requires i < n
    ensures |cs| == n
  {
    seq(n, (k: nat) => Claim(Some(TxOut("", 0)), None, false))
      [i := Claim(if at.Some? then Some(TxOut("", at.value)) else None, None, false)]
  }

  /** The fee reviewed when `at` is claimed of input `i`. */
  function FeeClaiming(w: Wallet, tx: Tx, i: nat, at: Option<nat>): Option<nat>
    requires i < |tx.inputs|
  {
    Fee(Psbt(tx, FilledAll(w, tx.inputs, Claiming(|tx.inputs|, i, at))))
  }

  /**
   One input that is not so, and the fee reviewed is what a PSBT likes: with `at` claimed of that
   input, `at` and the coins known to be ours, less the outputs.
   */
  lemma {:induction false} FeeCanBeClaimed(w: Wallet, tx: Tx, i: nat, at: nat)
    requires i < |tx.inputs| && !OursWhole(w, tx.inputs[i])
    requires Sum(tx.outputs) <= at && at + OthersTotal(w, tx.inputs) < U64
    ensures FeeClaiming(w, tx, i, Some(at)) == Some(at + OthersTotal(w, tx.inputs) - Sum(tx.outputs))
  {
    var ops := tx.inputs;
    var gs := FilledAll(w, ops, Claiming(|ops|, i, Some(at)));
    forall k | 0 <= k < |ops|
      ensures ClaimedValue(ops[k], gs[k]).Some?
      ensures k != i ==> ClaimedValue(ops[k], gs[k]) == Some(if OursWhole(w, ops[k]) then WholeOut(w, ops[k]).value.value else 0)
    {
    }
    EnoughTotal(w, ops, gs, i, at);
  }

  lemma {:induction false} FeeUnclaimed(w: Wallet, tx: Tx, i: nat)
    requires i < |tx.inputs| && !OursWhole(w, tx.inputs[i])
    ensures FeeClaiming(w, tx, i, None).None?
  {
    UnknownTotal(tx.inputs, FilledAll(w, tx.inputs, Claiming(|tx.inputs|, i, None)), i);
  }

  lemma {:induction false} UnknownTotal(ops: seq<OutPoint>, cs: seq<Claim>, i: nat)
    requires |ops| == |cs| && i < |ops| && ClaimedValue(ops[i], cs[i]).None?
    ensures ClaimedTotal(ops, cs).None?
  {
    if i > 0 {
      UnknownTotal(ops[1..], cs[1..], i - 1);
    }
  }

  /** What the inputs known to be ours are worth. */
  function OthersTotal(w: Wallet, ops: seq<OutPoint>): nat {
    if ops == [] then 0 else (if OursWhole(w, ops[0]) then WholeOut(w, ops[0]).value.value else 0) + OthersTotal(w, ops[1..])
  }

  lemma {:induction false} EnoughTotal(w: Wallet, ops: seq<OutPoint>, cs: seq<Claim>, i: nat, enough: nat)
    requires |ops| == |cs| && i < |ops| && !OursWhole(w, ops[i]) && ClaimedValue(ops[i], cs[i]) == Some(enough)
    requires forall k :: 0 <= k < |ops| && k != i ==>
               ClaimedValue(ops[k], cs[k]) == Some(if OursWhole(w, ops[k]) then WholeOut(w, ops[k]).value.value else 0)
    ensures ClaimedTotal(ops, cs) == Some(enough + OthersTotal(w, ops))
  {
    if i > 0 {
      EnoughTotal(w, ops[1..], cs[1..], i - 1, enough);
    } else {
      RestTotal(w, ops[1..], cs[1..]);
    }
  }

  lemma {:induction false} RestTotal(w: Wallet, ops: seq<OutPoint>, cs: seq<Claim>)
    requires |ops| == |cs|
    requires forall k :: 0 <= k < |ops| ==>
               ClaimedValue(ops[k], cs[k]) == Some(if OursWhole(w, ops[k]) then WholeOut(w, ops[k]).value.value else 0)
    ensures ClaimedTotal(ops, cs) == Some(OthersTotal(w, ops))
  {
    if ops != [] {
      RestTotal(w, ops[1..], cs[1..]);
    }
  }

  ghost predicate FeeIsHistory(w: Wallet, tx: Tx) {
    forall cs, ds {:trigger SameFee(w, tx, cs, ds)} :: |cs| == |ds| == |tx.inputs| ==> SameFee(w, tx, cs, ds)
  }

  /** The fee under review is history's, whatever a PSBT claims, exactly when every input is ours with its whole transaction. */
  lemma FeeIsHistoryIff(w: Wallet, tx: Tx)
    requires Sum(tx.outputs) + OthersTotal(w, tx.inputs) < U64
    ensures FeeIsHistory(w, tx) <==> AllOursWhole(w, tx.inputs)
  {
    if AllOursWhole(w, tx.inputs) {
      forall cs, ds | |cs| == |ds| == |tx.inputs|
        ensures SameFee(w, tx, cs, ds)
      {
        RestTotal(w, tx.inputs, FilledAll(w, tx.inputs, cs));
        RestTotal(w, tx.inputs, FilledAll(w, tx.inputs, ds));
      }
    } else {
      var i :| 0 <= i < |tx.inputs| && !OursWhole(w, tx.inputs[i]);
      FeeCanBeClaimed(w, tx, i, Sum(tx.outputs));
      FeeUnclaimed(w, tx, i);
      var n := |tx.inputs|;
      assert !SameFee(w, tx, Claiming(n, i, Some(Sum(tx.outputs))), Claiming(n, i, None));
    }
  }

  // ---------------------------------------------------------------- payment and change

  /** What a build aimed to pay: the outputs named, one output of a drain, or outputs it did not choose. */
  datatype Paid = Exact(list: seq<TxOut>) | Drain(script: Script) | Rebuilt

  datatype Totals = Totals(out: nat, change: nat)

  function Claims(paid: Paid): multiset<TxOut> {
    if paid.Exact? then multiset(paid.list) else multiset{}
  }

  predicate Pays(w: Wallet, paid: Paid, claims: multiset<TxOut>, o: TxOut) {
    o in claims || (paid.Drain? && o.script == paid.script) || !w.mine(o.script)
  }

  /** Each output in turn: one a named recipient still claims, or not ours, is paid out; the rest is change. */
  function Tally(w: Wallet, paid: Paid, claims: multiset<TxOut>, outs: seq<TxOut>): Totals {
    if outs == [] then Totals(0, 0)
    else
      var rest := Tally(w, paid, claims - multiset{outs[0]}, outs[1..]);
      if Pays(w, paid, claims, outs[0]) then rest.(out := rest.out + outs[0].value)
      else rest.(change := rest.change + outs[0].value)
  }

  function Position(list: seq<TxOut>, o: TxOut): (i: nat)
    ensures i <= |list| && (i < |list| ==> list[i] == o) && (i == |list| ==> o !in list)
  {
    if list == [] || list[0] == o then 0 else 1 + Position(list[1..], o)
  }

  /** `Vec::swap_remove`: the last element takes the place of the one removed. */
  function SwapRemove(list: seq<TxOut>, i: nat): seq<TxOut>
    requires i < |list|
  {
    list[i := list[|list| - 1]][..|list| - 1]
  }

  lemma SwapRemoveTakesOne(list: seq<TxOut>, i: nat)
    requires i < |list|
    ensures multiset(SwapRemove(list, i)) == multiset(list) - multiset{list[i]}
  {
    var n := |list| - 1;
    assert list == list[..n] + [list[n]];
    if i < n {
      assert SwapRemove(list, i) == list[..n][i := list[n]];
      assert multiset(list[..n][i := list[n]]) == multiset(list[..n]) - multiset{list[i]} + multiset{list[n]};
    } else {
      assert SwapRemove(list, i) == list[..n];
    }
  }

  /** Nothing is counted twice or missed. */
  lemma {:induction false} TallyIsAll(w: Wallet, paid: Paid, claims: multiset<TxOut>, outs: seq<TxOut>)
    ensures var t := Tally(w, paid, claims, outs); t.out + t.change == Sum(outs)
  {
    if outs != [] {
      TallyIsAll(w, paid, claims - multiset{outs[0]}, outs[1..]);
    }
  }

  function Without(outs: seq<TxOut>, i: nat): seq<TxOut>
    requires i < |outs|
  {
    outs[..i] + outs[i + 1..]
  }

  function Add(w: Wallet, paid: Paid, claims: multiset<TxOut>, o: TxOut, t: Totals): Totals {
    if Pays(w, paid, claims, o) then t.(out := t.out + o.value) else t.(change := t.change + o.value)
  }

  /** Two outputs are told apart the same whichever comes first. */
  lemma AddCommutes(w: Wallet, paid: Paid, claims: multiset<TxOut>, o: TxOut, h: TxOut, t: Totals)
    ensures Add(w, paid, claims, h, Add(w, paid, claims - multiset{h}, o, t)) ==
            Add(w, paid, claims, o, Add(w, paid, claims - multiset{o}, h, t))
  {
  }

  lemma TallyStep(w: Wallet, paid: Paid, claims: multiset<TxOut>, o: TxOut, outs: seq<TxOut>)
    ensures Tally(w, paid, claims, [o] + outs) == Add(w, paid, claims, o, Tally(w, paid, claims - multiset{o}, outs))
  {
  }

  /** One output's claim: whether the build named it, and the claims left. */
  method TakeClaim(w: Wallet, paid: Paid, unclaimed: seq<TxOut>, o: TxOut) returns (designated: bool, left: seq<TxOut>)
    requires !paid.Exact? ==> unclaimed == []
    ensures !paid.Exact? ==> left == []
    ensures multiset(left) == multiset(unclaimed) - multiset{o}
    ensures designated || !w.mine(o.script) <==> Pays(w, paid, multiset(unclaimed), o)
  {
    designated, left := false, unclaimed;
    match paid {
      case Exact(_) =>
        var i := Position(unclaimed, o);
        designated := i < |unclaimed|;
        if designated {
          SwapRemoveTakesOne(unclaimed, i);
          left := SwapRemove(unclaimed, i);
        }
      case Drain(script) => designated := script == o.script;
      case Rebuilt =>
    }
  }

  /** The totals of the outputs before `n`, with these claims left for the rest, come to those of all of them. */
  predicate Running(w: Wallet, paid: Paid, outs: seq<TxOut>, n: nat, claims: multiset<TxOut>, t: Totals)
    requires n <= |outs|
  {
    match Tally(w, paid, claims, outs[n..])
    case Totals(out, change) => Tally(w, paid, Claims(paid), outs) == Totals(t.out + out, t.change + change)
  }

  lemma RunningFrom(w: Wallet, paid: Paid, outs: seq<TxOut>)
    ensures Running(w, paid, outs, 0, Claims(paid), Totals(0, 0))
  {
    assert outs[0..] == outs;
  }

  lemma RunningNext(w: Wallet, paid: Paid, outs: seq<TxOut>, n: nat, claims: multiset<TxOut>, t: Totals)
    requires n < |outs| && Running(w, paid, outs, n, claims, t)
    ensures Running(w, paid, outs, n + 1, claims - multiset{outs[n]}, Add(w, paid, claims, outs[n], t))
  {
    assert outs[n..] == [outs[n]] + outs[n + 1..];
    TallyStep(w, paid, claims, outs[n], outs[n + 1..]);
  }

  lemma RunningTo(w: Wallet, paid: Paid, outs: seq<TxOut>, claims: multiset<TxOut>, t: Totals)
    requires Running(w, paid, outs, |outs|, claims, t)
    ensures Tally(w, paid, Claims(paid), outs) == t
  {
    assert outs[|outs|..] == [];
  }

  /** The loop of `summarize`. */
  method Summarize(w: Wallet, paid: Paid, outputs: seq<TxOut>) returns (totalOut: nat, change: nat)
    ensures Totals(totalOut, change) == Tally(w, paid, Claims(paid), outputs)
  {
    var unclaimed := if paid.Exact? then paid.list else [];
    totalOut, change := 0, 0;
    RunningFrom(w, paid, outputs);
    assert multiset(unclaimed) == Claims(paid);
    for n := 0 to |outputs|
      invariant !paid.Exact? ==> unclaimed == []
      invariant Running(w, paid, outputs, n, multiset(unclaimed), Totals(totalOut, change))
    {
      var o := outputs[n];
      RunningNext(w, paid, outputs, n, multiset(unclaimed), Totals(totalOut, change));
      var designated;
      designated, unclaimed := TakeClaim(w, paid, unclaimed, o);
      if designated || !w.mine(o.script) {
        totalOut := totalOut + o.value;
      } else {
        change := change + o.value;
      }
    }
    RunningTo(w, paid, outputs, multiset(unclaimed), Totals(totalOut, change));
  }

  lemma ClaimsCommute(claims: multiset<TxOut>, h: TxOut, o: TxOut)
    ensures claims - multiset{h} - multiset{o} == claims - multiset{o} - multiset{h}
  {
  }

  /** An output taken first of the rest may be taken before the first, too. */
  lemma TakePast(w: Wallet, paid: Paid, claims: multiset<TxOut>, h: TxOut, o: TxOut, tail: seq<TxOut>, rest: seq<TxOut>)
    requires Tally(w, paid, claims - multiset{h}, tail) ==
             Add(w, paid, claims - multiset{h}, o, Tally(w, paid, claims - multiset{h} - multiset{o}, rest))
    ensures Tally(w, paid, claims, [h] + tail) == Add(w, paid, claims, o, Tally(w, paid, claims - multiset{o}, [h] + rest))
  {
    TallyStep(w, paid, claims, h, tail);
    TallyStep(w, paid, claims - multiset{o}, h, rest);
    ClaimsCommute(claims, h, o);
    AddCommutes(w, paid, claims, o, h, Tally(w, paid, claims - multiset{o} - multiset{h}, rest));
  }

  /** Any output may be taken first. */
  lemma {:induction false} TakeFirst(w: Wallet, paid: Paid, claims: multiset<TxOut>, outs: seq<TxOut>, i: nat)
    requires i < |outs|
    ensures Tally(w, paid, claims, outs) ==
            Add(w, paid, claims, outs[i], Tally(w, paid, claims - multiset{outs[i]}, Without(outs, i)))
  {
    if i == 0 {
      assert Without(outs, 0) == outs[1..];
    } else {
      var rest := Without(outs[1..], i - 1);
      assert outs == [outs[0]] + outs[1..] && Without(outs, i) == [outs[0]] + rest;
      TakeFirst(w, paid, claims - multiset{outs[0]}, outs[1..], i - 1);
      TakePast(w, paid, claims, outs[0], outs[i], outs[1..], rest);
    }
  }

  lemma WithoutTakesOne(outs: seq<TxOut>, i: nat)
    requires i < |outs|
    ensures multiset(Without(outs, i)) == multiset(outs) - multiset{outs[i]}
  {
    assert outs == outs[..i] + [outs[i]] + outs[i + 1..];
  }

  /** The totals depend on which outputs there are, not on their order. */
  lemma {:induction false} TallyAnyOrder(w: Wallet, paid: Paid, claims: multiset<TxOut>, outs: seq<TxOut>, other: seq<TxOut>)
    requires multiset(outs) == multiset(other)
    ensures Tally(w, paid, claims, outs) == Tally(w, paid, claims, other)
    decreases |outs|
  {
    if outs == [] {
      assert |multiset(other)| == |other| == 0;
    } else {
      assert outs[0] in multiset(other);
      var i :| 0 <= i < |other| && other[i] == outs[0];
      WithoutTakesOne(outs, 0);
      WithoutTakesOne(other, i);
      TallyAnyOrder(w, paid, claims - multiset{outs[0]}, Without(outs, 0), Without(other, i));
      TakeFirst(w, paid, claims, outs, 0);
      TakeFirst(w, paid, claims, other, i);
    }
  }

  lemma {:induction false} RecipientsFirst(w: Wallet, list: seq<TxOut>, named: seq<TxOut>, change: seq<TxOut>)
    requires forall i :: 0 <= i < |change| ==> w.mine(change[i].script)
    ensures Tally(w, Exact(list), multiset(named), named + change) == Totals(Sum(named), Sum(change))
  {
    if named == [] {
      assert named + change == change;
      ChangeOnly(w, list, change);
    } else {
      assert (named + change)[1..] == named[1..] + change;
      assert named == [named[0]] + named[1..];
      assert multiset(named) - multiset{named[0]} == multiset(named[1..]);
      RecipientsFirst(w, list, named[1..], change);
    }
  }

  lemma {:induction false} ChangeOnly(w: Wallet, list: seq<TxOut>, change: seq<TxOut>)
    requires forall i :: 0 <= i < |change| ==> w.mine(change[i].script)
    ensures Tally(w, Exact(list), multiset{}, change) == Totals(0, Sum(change))
  {
    if change != [] {
      assert multiset{} - multiset{change[0]} == multiset{};
      ChangeOnly(w, list, change[1..]);
    }
  }

  /**
   A payment: outputs that are the recipients and change of ours, in any order, are told apart
   exactly, even where a recipient is ours and shares its script and amount with the change;
   with the fee they are what went in.
   */
  lemma {:induction false} PaymentIsExact(w: Wallet, recipients: seq<TxOut>, change: seq<TxOut>, p: Psbt)
    requires forall i :: 0 <= i < |change| ==> w.mine(change[i].script)
    requires multiset(p.tx.outputs) == multiset(recipients + change) && WellFormed(p)
    ensures Tally(w, Exact(recipients), Claims(Exact(recipients)), p.tx.outputs) == Totals(Sum(recipients), Sum(change))
    ensures Fee(p).Some? ==> Sum(recipients) + Sum(change) + Fee(p).value == ClaimedTotal(p.tx.inputs, p.claims).value
  {
    TallyAnyOrder(w, Exact(recipients), multiset(recipients), p.tx.outputs, recipients + change);
    RecipientsFirst(w, recipients, recipients, change);
    TallyIsAll(w, Exact(recipients), multiset(recipients), p.tx.outputs);
  }

  /** A replacement or a child: what is ours is change, so a cancel, all of it ours, pays nobody. */
  lemma {:induction false} RebuiltIsByOwner(w: Wallet, outs: seq<TxOut>)
    ensures Tally(w, Rebuilt, multiset{}, outs) == Totals(PaidToOthers(w, outs), Received(w, outs))
  {
    if outs != [] {
      assert multiset{} - multiset{outs[0]} == multiset{};
      RebuiltIsByOwner(w, outs[1..]);
    }
  }

  /** The outputs to any other script. */
  function Elsewhere(outs: seq<TxOut>, script: Script): seq<TxOut> {
    if outs == [] then [] else (if outs[0].script == script then [] else [outs[0]]) + Elsewhere(outs[1..], script)
  }

  /** Max: change is only what comes back to us at another script; all to the address it drains to is paid, whoever owns it. */
  lemma {:induction false} DrainPaysItsScript(w: Wallet, script: Script, outs: seq<TxOut>)
    ensures var t := Tally(w, Drain(script), multiset{}, outs);
            t.change == Received(w, Elsewhere(outs, script)) && t.out + t.change == Sum(outs)
  {
    if outs != [] {
      assert multiset{} - multiset{outs[0]} == multiset{};
      DrainPaysItsScript(w, script, outs[1..]);
      var rest := Elsewhere(outs[1..], script);
      if outs[0].script != script {
        assert Elsewhere(outs, script)[1..] == rest;
      } else {
        assert Elsewhere(outs, script) == rest;
      }
    }
  }
}
