/**
 The Go transaction builder and its packet (reference/go/transaction/builder.go, inout.go).

 The fee rate is part of the library's fee.  After the first error every step is skipped.
 */
module TxBuilding {
  import opened Wrappers
  import opened UtxoSelector
  import opened Funding

  // ---------------------------------------------------------------- the packet

  datatype PInput = PInput(prevTx: Option<RawTx>, prevOut: Option<TxOut>, sighash: nat)

  datatype Packet = Packet(ins: seq<OutPoint>, outs: seq<TxOut>, inputs: seq<PInput>)

  const BLANK := PInput(None, None, 0)

  function Decorated(t: TxInput): Option<PInput> {
    match t.address.kind
    case P2PK => Some(PInput(Some(t.tx), None, 0))
    case P2PKH => Some(PInput(Some(t.tx), None, 0))
    case P2WPKH => Some(PInput(Some(t.tx), Some(t.prevOut), 1))
    case P2TR => Some(PInput(None, Some(t.prevOut), 0))
    case _ => None
  }

  predicate AllDecorated(ps: seq<PInput>, ins: seq<TxInput>) {
    |ps| == |ins| && forall i :: 0 <= i < |ins| ==> Decorated(ins[i]) == Some(ps[i])
  }

  predicate AllSupported(ins: seq<TxInput>) {
    forall i :: 0 <= i < |ins| ==> Decorated(ins[i]).Some?
  }

  /** Spent by a signature over the output itself, and over the whole transaction that made it. */
  predicate SignsOutput(kind: Kind) {
    kind == P2WPKH || kind == P2TR
  }

  predicate SignsWholeTx(kind: Kind) {
    kind == P2PK || kind == P2PKH || kind == P2WPKH
  }

  /** What a signer finds with an input: its output, the whole transaction, or both, as its kind needs; ALL only on P2WPKH. */
  predicate Carries(p: PInput, t: TxInput) {
    && p.prevOut == (if SignsOutput(t.address.kind) then Some(t.prevOut) else None)
    && p.prevTx == (if SignsWholeTx(t.address.kind) then Some(t.tx) else None)
    && (p.sighash == 1 <==> t.address.kind == P2WPKH)
    && (p.sighash == 0 <==> t.address.kind != P2WPKH)
  }

  lemma DecoratedCarries(t: TxInput)
    ensures Decorated(t).Some? <==> SignsOutput(t.address.kind) || SignsWholeTx(t.address.kind)
    ensures Decorated(t).Some? ==> Carries(Decorated(t).value, t)
  {
  }

  lemma AllCarry(ps: seq<PInput>, ins: seq<TxInput>)
    requires AllDecorated(ps, ins)
    ensures forall i :: 0 <= i < |ins| ==> Carries(ps[i], ins[i])
  {
    forall i | 0 <= i < |ins|
      ensures Carries(ps[i], ins[i])
    {
      assert Decorated(ins[i]) == Some(ps[i]);
      DecoratedCarries(ins[i]);
    }
  }

  method DecorateTxInputs(packet: array<PInput>, inputs: seq<TxInput>) returns (err: Option<Error>)
    requires forall i :: 0 <= i < packet.Length ==> packet[i] == BLANK
    modifies packet
    ensures packet.Length != |inputs| ==> err == Some(Mismatch)
    ensures packet.Length == |inputs| ==> err == if AllSupported(inputs) then None else Some(Unsupported)
    ensures err == Some(Unsupported) <==>
              packet.Length == |inputs| && exists i :: 0 <= i < |inputs| && inputs[i].address.kind in {P2SH, P2WSH, Invalid}
    ensures err.None? ==> AllDecorated(packet[..], inputs)
    ensures err.None? ==> forall i :: 0 <= i < |inputs| ==> Carries(packet[i], inputs[i])
  {
    if packet.Length != |inputs| {
      return Some(Mismatch);
    }
    for i := 0 to packet.Length
      invariant forall k :: 0 <= k < i ==> Decorated(inputs[k]) == Some(packet[k])
      invariant forall k :: i <= k < packet.Length ==> packet[k] == BLANK
    {
      var t := inputs[i];
      match t.address.kind {
        case P2PK =>
          packet[i] := packet[i].(prevTx := Some(t.tx));
        case P2PKH =>
          packet[i] := packet[i].(prevTx := Some(t.tx));
        case P2WPKH =>
          packet[i] := packet[i].(prevTx := Some(t.tx), prevOut := Some(t.prevOut), sighash := 1);
        case P2TR =>
          packet[i] := packet[i].(prevOut := Some(t.prevOut), sighash := 0);
        case _ =>
          assert Decorated(inputs[i]).None?;
          return Some(Unsupported);
      }
    }
    err := None;
    AllCarry(packet[..], inputs);
    SupportedIs(inputs);
  }

  /** A blank packet for the message, and then its inputs decorated. */
  method MakePacket(msg: MsgTx, inputs: seq<TxInput>) returns (made: Result<Packet, Error>)
    requires msg.ins == PointsOf(inputs)
    ensures if AllSupported(inputs) then made.Ok? && made.value.ins == msg.ins && made.value.outs == msg.outs
                                         && AllDecorated(made.value.inputs, inputs)
            else made == Err(Unsupported)
  {
    var decorated := new PInput[|msg.ins|](_ => BLANK);
    var err := DecorateTxInputs(decorated, inputs);
    if err.Some? {
      return Err(err.value);
    }
    made := Ok(Packet(msg.ins, msg.outs, decorated[..]));
  }

  // ---------------------------------------------------------------- the builder

  /** What an input says of its coin is what the coin's own transaction says. */
  predicate FromCoin(t: TxInput) {
    t.txid == t.tx.txid && t.vout < |t.tx.outs| && t.prevOut == t.tx.outs[t.vout]
  }

  predicate AllFromCoins(ins: seq<TxInput>) {
    forall i :: 0 <= i < |ins| ==> FromCoin(ins[i])
  }

  lemma SpendingFromCoins(lib: Library, ins: seq<TxInput>, us: seq<Utxo>, from: string)
    requires AllFromCoins(ins) && AllWhole(us)
    ensures AllFromCoins(ins + Spending(lib, us, from))
  {
  }

  lemma DrawnFromCoins(lib: Library, pool0: seq<Utxo>, ins0: seq<TxInput>, ops0: seq<OutPoint>, from: string,
                       used: seq<Utxo>, rest: seq<Utxo>, ins: seq<TxInput>, ops: seq<OutPoint>)
    requires Drawing(lib, pool0, ins0, ops0, from, used, rest, ins, ops)
    requires AllFromCoins(ins0) && ops0 == PointsOf(ins0)
    ensures AllFromCoins(ins) && ops == PointsOf(ins)
  {
  }

  /** The outputs for these payments, until one of them fails. */
  function OutputFor(lib: Library, addr: string, amt: int): Option<TxOut> {
    match lib.decode(addr)
    case None => None
    case Some(address) =>
      match lib.script(address)
      case None => None
      case Some(script) => Some(TxOut(amt, script))
  }

  /** An output pays the amount asked, to the script of the address given; and there is none for a bad address or one without a script. */
  lemma OutputPays(lib: Library, addr: string, amt: int)
    ensures OutputFor(lib, addr, amt).Some? <==> lib.decode(addr).Some? && lib.script(lib.decode(addr).value).Some?
    ensures OutputFor(lib, addr, amt).Some? ==>
              OutputFor(lib, addr, amt).value.value == amt && Some(OutputFor(lib, addr, amt).value.script) == lib.script(lib.decode(addr).value)
  {
  }

  /** A packet finished: a wire input and a decorated one for each input, and funded when there is where to send change. */
  predicate Finished(lib: Library, p: Packet, ins: seq<TxInput>, outputs: seq<TxOut>, changeAddr: string) {
    var Packet(points, outs, decorated) := p;
    points == PointsOf(ins) && AllDecorated(decorated, ins) && OutputsDone(lib, ins, outputs, outs, changeAddr)
  }

  predicate OutputsDone(lib: Library, ins: seq<TxInput>, outputs: seq<TxOut>, outs: seq<TxOut>, changeAddr: string) {
    if changeAddr == "" then outs == outputs else Funded(lib, ins, outputs, outs, Total(outputs, OutAmount), changeAddr)
  }

  lemma SupportedIs(ins: seq<TxInput>)
    ensures AllSupported(ins) <==> forall i :: 0 <= i < |ins| ==> SignsOutput(ins[i].address.kind) || SignsWholeTx(ins[i].address.kind)
  {
    forall i | 0 <= i < |ins|
      ensures Decorated(ins[i]).Some? <==> SignsOutput(ins[i].address.kind) || SignsWholeTx(ins[i].address.kind)
    {
      DecoratedCarries(ins[i]);
    }
  }

  /** A finished packet pays the outputs asked for first, and after them change at most; and with nowhere to send change just those. */
  lemma FinishedPays(lib: Library, p: Packet, ins: seq<TxInput>, outputs: seq<TxOut>, changeAddr: string)
    requires Finished(lib, p, ins, outputs, changeAddr)
    ensures outputs <= p.outs && |p.outs| <= |outputs| + 1
    ensures changeAddr == "" ==> p.outs == outputs
    ensures |p.outs| > |outputs| ==>
              && lib.decode(changeAddr).Some? && p.outs[|outputs|].value > 0
              && lib.script(lib.decode(changeAddr).value) == Some(p.outs[|outputs|].script)
  {
  }

  /** What a wire input names, in the transaction its own input comes with. */
  predicate NamesItsCoin(op: OutPoint, t: TxInput) {
    op.txid == t.tx.txid && op.vout < |t.tx.outs| && t.prevOut == t.tx.outs[op.vout]
  }

  /** Every input of a finished packet carries what signing it needs, of the very output its place in the message names. */
  lemma FinishedCarries(lib: Library, p: Packet, ins: seq<TxInput>, outputs: seq<TxOut>, changeAddr: string)
    requires Finished(lib, p, ins, outputs, changeAddr) && AllFromCoins(ins)
    ensures |p.ins| == |p.inputs| == |ins|
    ensures forall i :: 0 <= i < |ins| ==> Carries(p.inputs[i], ins[i]) && NamesItsCoin(p.ins[i], ins[i])
  {
    AllCarry(p.inputs, ins);
    forall i | 0 <= i < |ins|
      ensures NamesItsCoin(p.ins[i], ins[i])
    {
      assert FromCoin(ins[i]) && p.ins[i] == PointOf(ins[i]);
    }
  }

  /** A build that draws nothing: no change address to fund, or inputs that cover the outputs and their fee. */
  predicate NeedsNothing(lib: Library, ins: seq<TxInput>, outputs: seq<TxOut>, changeAddr: string) {
    changeAddr == "" || Covers(lib, ins, outputs, Total(outputs, OutAmount), changeAddr)
  }

  /** Inputs that finished a transaction as they were, without drawing, covered it. */
  lemma FinishedCovers(lib: Library, ins: seq<TxInput>, outputs: seq<TxOut>, outs: seq<TxOut>, changeAddr: string)
    requires OutputsDone(lib, ins, outputs, outs, changeAddr)
    ensures NeedsNothing(lib, ins, outputs, changeAddr)
  {
  }

  /** What a build draws: turn by turn for what is missing, when there is where to send change. */
  ghost predicate DrawnForBuild(lib: Library, pool: seq<Utxo>, ins: seq<TxInput>, from: string, outputs: seq<TxOut>,
                                changeAddr: string, used: seq<Utxo>, rest: seq<Utxo>) {
    var change := ChangeOf(lib, changeAddr);
    match change
    case None => used == [] && rest == pool
    case Some(address) =>
      exists h: Draws :: DrawnBy(lib, pool, ins, from, outputs, Total(outputs, OutAmount), address, used, rest, h)
  }

  /** Where change goes, if there is anywhere. */
  function ChangeOf(lib: Library, changeAddr: string): Option<Address> {
    if changeAddr == "" then None else lib.decode(changeAddr)
  }

  lemma DrawnInTurnForBuild(lib: Library, pool: seq<Utxo>, ins: seq<TxInput>, from: string, outputs: seq<TxOut>,
                            changeAddr: string, used: seq<Utxo>, rest: seq<Utxo>)
    requires changeAddr != "" && DrawnInTurn(lib, pool, ins, from, outputs, Total(outputs, OutAmount), changeAddr, used, rest)
    ensures DrawnForBuild(lib, pool, ins, from, outputs, changeAddr, used, rest)
  {
  }

  lemma NothingDrawnForBuild(lib: Library, pool: seq<Utxo>, ins: seq<TxInput>, from: string, outputs: seq<TxOut>, changeAddr: string)
    ensures DrawnForBuild(lib, pool, ins, from, outputs, changeAddr, [], pool)
  {
    if ChangeOf(lib, changeAddr).Some? {
      NoTurns(lib, pool, ins, from, outputs, Total(outputs, OutAmount), changeAddr);
    }
  }

  /** Why a build fails; never for a mismatch between the message and its inputs. */
  predicate BuildFails(lib: Library, e: Error, ins: seq<TxInput>, outputs: seq<TxOut>, changeAddr: string, fromAddr: string,
                       rest: seq<Utxo>) {
    var wanted := Total(outputs, OutAmount);
    match e
    case Unsupported => !AllSupported(ins)
    case Insufficient => Short(lib, ins, outputs, wanted, changeAddr, rest)
    case _ => Fails(lib, e, changeAddr, fromAddr)
  }

  /** One error for each of `n` coins. */
  predicate BadAddresses(errs: seq<Error>, n: nat) {
    |errs| == n && forall i :: 0 <= i < n ==> errs[i] == BadAddress
  }

  /** The first `i` coins: each an input, or each an error. */
  ghost predicate EachAdded(lib: Library, coins: seq<Utxo>, i: nat, from: string, ins0: seq<TxInput>, ins: seq<TxInput>,
                            errs: seq<Error>)
    requires AllWhole(coins) && i <= |coins|
  {
    match lib.decode(from)
    case None => ins == ins0 && BadAddresses(errs, i)
    case Some(address) => errs == [] && ins == ins0 + InputsOf(coins[..i], address)
  }

  lemma EachAddedNext(lib: Library, coins: seq<Utxo>, i: nat, from: string, ins0: seq<TxInput>, ins: seq<TxInput>, errs: seq<Error>)
    requires AllWhole(coins) && i < |coins| && EachAdded(lib, coins, i, from, ins0, ins, errs)
    ensures match lib.decode(from)
            case None => EachAdded(lib, coins, i + 1, from, ins0, ins, errs + [BadAddress])
            case Some(address) => EachAdded(lib, coins, i + 1, from, ins0, ins + [InputOf(coins[i], address)], errs)
  {
    if lib.decode(from).Some? {
      SpendingNext(lib, coins, i, from);
    }
  }

  lemma AllAdded(lib: Library, coins: seq<Utxo>, from: string, ins0: seq<TxInput>, ins: seq<TxInput>, errs: seq<Error>)
    requires AllWhole(coins) && EachAdded(lib, coins, |coins|, from, ins0, ins, errs)
    ensures ins == ins0 + Spending(lib, coins, from)
    ensures BadAddresses(errs, if lib.decode(from).None? then |coins| else 0)
    ensures AllFromCoins(ins0) ==> AllFromCoins(ins)
  {
    assert coins[..|coins|] == coins;
    if AllFromCoins(ins0) {
      SpendingFromCoins(lib, ins0, coins, from);
    }
  }

  /** A transaction finished without drawing was covered by the inputs it had. */
  lemma FinishedUndrawn(lib: Library, pool: seq<Utxo>, ins0: seq<TxInput>, from: string, used: seq<Utxo>, rest: seq<Utxo>,
                        ins: seq<TxInput>, p: Packet, outputs: seq<TxOut>, changeAddr: string)
    requires Drawing(lib, pool, ins0, PointsOf(ins0), from, used, rest, ins, PointsOf(ins))
    requires Finished(lib, p, ins, outputs, changeAddr)
    ensures used == [] ==> NeedsNothing(lib, ins0, outputs, changeAddr)
  {
    if used == [] {
      NothingUsed(lib, pool, ins0, from, rest, ins);
      FinishedCovers(lib, ins, outputs, p.outs, changeAddr);
    }
  }

  lemma NothingUsed(lib: Library, pool: seq<Utxo>, ins0: seq<TxInput>, from: string, rest: seq<Utxo>, ins: seq<TxInput>)
    requires Drawing(lib, pool, ins0, PointsOf(ins0), from, [], rest, ins, PointsOf(ins))
    ensures ins == ins0
  {
  }

  class TxBuilder {
    const lib: Library
    const inputs: TxInputs
    var fromAddr: string
    var changeAddr: string
    var utxos: seq<Utxo>
    var outputs: seq<TxOut>
    var pkt: Option<Packet>
    var errs: seq<Error>

    ghost predicate Valid()
      reads this, inputs
    {
      AllWhole(utxos) && AllFromCoins(inputs.list)
    }

    constructor (lib: Library)
      ensures Valid() && fresh(inputs) && this.lib == lib
      ensures fromAddr == "" && changeAddr == "" && utxos == [] && outputs == [] && pkt == None && errs == []
      ensures inputs.list == []
    {
      this.lib := lib;
      var none := new TxInputs();
      inputs := none;
      fromAddr, changeAddr, utxos, outputs, pkt, errs := "", "", [], [], None, [];
    }

    method From(addr: string)
      modifies `fromAddr
      ensures fromAddr == if errs == [] then addr else old(fromAddr)
    {
      if errs == [] {
        fromAddr := addr;
      }
    }

    method Change(addr: string)
      modifies `changeAddr
      ensures changeAddr == if errs == [] then addr else old(changeAddr)
    {
      if errs == [] {
        changeAddr := addr;
      }
    }

    method To(addr: string, amt: int)
      modifies `outputs, `errs
      ensures old(errs) != [] ==> outputs == old(outputs) && errs == old(errs)
      ensures old(errs) == [] && OutputFor(lib, addr, amt).Some? ==>
                errs == [] && outputs == old(outputs) + [OutputFor(lib, addr, amt).value]
      ensures old(errs) == [] && OutputFor(lib, addr, amt).None? ==>
                outputs == old(outputs) && errs == [if lib.decode(addr).None? then BadAddress else NoScript]
    {
      if errs != [] {
        return;
      }
      var address := lib.decode(addr);
      if address.None? {
        errs := errs + [BadAddress];
        return;
      }
      var script := lib.script(address.value);
      if script.None? {
        errs := errs + [NoScript];
        return;
      }
      outputs := outputs + [TxOut(amt, script.value)];
    }

    /** Each coin an input; on a bad sender address, one error for each. */
    method AddAll(coins: seq<Utxo>)
      requires Valid() && AllWhole(coins) && errs == []
      modifies `errs, inputs
      ensures inputs.list == old(inputs.list) + Spending(lib, coins, fromAddr)
      ensures BadAddresses(errs, if lib.decode(fromAddr).None? then |coins| else 0)
      ensures AllFromCoins(inputs.list)
    {
      ghost var ins0 := inputs.list;
      for i := 0 to |coins|
        invariant EachAdded(lib, coins, i, fromAddr, ins0, inputs.list, errs)
      {
        EachAddedNext(lib, coins, i, fromAddr, ins0, inputs.list, errs);
        var err := inputs.AddInput(lib, coins[i], fromAddr);
        if err.Some? {
          errs := errs + [err.value];
        }
      }
      AllAdded(lib, coins, fromAddr, ins0, inputs.list, errs);
    }

    /** Coins for the outputs. */
    method SelectUtxo(coins: seq<Utxo>) returns (ghost selected: seq<Utxo>)
      requires Valid() && AllWhole(coins)
      modifies `utxos, `changeAddr, `errs, inputs
      ensures Valid()
      ensures old(errs) != [] ==> Unmoved(old(utxos), old(changeAddr), old(inputs.list)) && errs == old(errs)
      ensures old(errs) == [] && !Suffices(Amounts(coins, ValueOf), Total(outputs, OutAmount)) ==>
                Unmoved(old(utxos), old(changeAddr), old(inputs.list)) && errs == [Insufficient]
      ensures old(errs) == [] && Suffices(Amounts(coins, ValueOf), Total(outputs, OutAmount)) ==>
                && (OneIsEnough(Amounts(coins, ValueOf), Total(outputs, OutAmount)) ==>
                      |selected| == 1 && forall i :: 0 <= i < |coins| ==> coins[i].value <= selected[0].value)
                && AllWhole(selected) && Selects(coins, Total(outputs, OutAmount), ValueOf, selected, utxos)
                && inputs.list == old(inputs.list) + Spending(lib, selected, fromAddr)
                && BadAddresses(errs, if lib.decode(fromAddr).None? then |selected| else 0)
                && changeAddr == if old(changeAddr) == "" then fromAddr else old(changeAddr)
    {
      selected := [];
      if errs != [] {
        return;
      }
      var amountTotal := OutTotal(outputs);
      var chosen, unselected, ok := UtxoSelector.SelectUtxo(coins, amountTotal, ValueOf);
      if !ok {
        errs := errs + [Insufficient];
        return;
      }
      selected := chosen;
      WholeParts(chosen, unselected, coins);
      AddAll(chosen);
      utxos := unselected;
      if changeAddr == "" {
        changeAddr := fromAddr;
      }
    }

    ghost predicate Unmoved(utxos: seq<Utxo>, changeAddr: string, ins: seq<TxInput>)
      reads this, inputs
    {
      this.utxos == utxos && this.changeAddr == changeAddr && inputs.list == ins
    }

    /** The wire message: inputs and outputs, funded when there is a change address. */
    method Message() returns (err: Option<Error>, msg: MsgTx, ghost used: seq<Utxo>, ghost rest: seq<Utxo>)
      requires Valid()
      modifies inputs
      ensures fresh(msg) && Valid()
      ensures Drawing(lib, utxos, old(inputs.list), PointsOf(old(inputs.list)), fromAddr, used, rest, inputs.list, msg.ins)
      ensures msg.ins == PointsOf(inputs.list)
      ensures DrawnForBuild(lib, utxos, old(inputs.list), fromAddr, outputs, changeAddr, used, rest)
      ensures err.None? ==> OutputsDone(lib, inputs.list, outputs, msg.outs, changeAddr)
      ensures NeedsNothing(lib, old(inputs.list), outputs, changeAddr) ==> used == []
      ensures err.Some? ==> err != Some(Unsupported)
                            && BuildFails(lib, err.value, inputs.list, outputs, changeAddr, fromAddr, rest)
    {
      used, rest := [], utxos;
      NothingDrawn(lib, utxos, inputs.list, PointsOf(inputs.list), fromAddr);
      NothingDrawnForBuild(lib, utxos, inputs.list, fromAddr, outputs, changeAddr);
      msg := new MsgTx();
      var ins := inputs.ToWire();
      msg.ins := ins;
      msg.outs := outputs;
      err := None;
      if changeAddr != "" {
        err, used, rest := FundRawTransaction(lib, msg, inputs, outputs, changeAddr, utxos, fromAddr);
        DrawnFromCoins(lib, utxos, old(inputs.list), ins, fromAddr, used, rest, inputs.list, msg.ins);
        DrawnInTurnForBuild(lib, utxos, old(inputs.list), fromAddr, outputs, changeAddr, used, rest);
      }
    }

    /** The message, and then what each of its inputs spends. */
    method Assemble() returns (made: Result<Packet, Error>, ghost used: seq<Utxo>, ghost rest: seq<Utxo>)
      requires Valid()
      modifies inputs
      ensures Valid()
      ensures Drawing(lib, utxos, old(inputs.list), PointsOf(old(inputs.list)), fromAddr, used, rest, inputs.list,
                      PointsOf(inputs.list))
      ensures DrawnForBuild(lib, utxos, old(inputs.list), fromAddr, outputs, changeAddr, used, rest)
      ensures NeedsNothing(lib, old(inputs.list), outputs, changeAddr) ==> used == []
      ensures made.Ok? ==> Finished(lib, made.value, inputs.list, outputs, changeAddr)
      ensures made.Ok? && used == [] ==> NeedsNothing(lib, old(inputs.list), outputs, changeAddr)
      ensures made.Err? ==> BuildFails(lib, made.error, inputs.list, outputs, changeAddr, fromAddr, rest)
    {
      var err, msg;
      err, msg, used, rest := Message();
      if err.Some? {
        return Err(err.value), used, rest;
      }
      made := MakePacket(msg, inputs.list);
      if made.Ok? {
        FinishedUndrawn(lib, utxos, old(inputs.list), fromAddr, used, rest, inputs.list, made.value, outputs, changeAddr);
      }
    }

    /** The packet. */
    method Build() returns (ghost used: seq<Utxo>, ghost rest: seq<Utxo>)
      requires Valid()
      modifies `pkt, `errs, inputs
      ensures Valid()
      ensures Drawing(lib, utxos, old(inputs.list), PointsOf(old(inputs.list)), fromAddr, used, rest, inputs.list,
                      PointsOf(inputs.list))
      ensures DrawnForBuild(lib, utxos, old(inputs.list), fromAddr, outputs, changeAddr, used, rest)
      ensures old(errs) != [] ==> errs == old(errs) && pkt == old(pkt) && used == []
      ensures old(errs) == [] && errs == [] ==>
                pkt.Some? && Finished(lib, pkt.value, inputs.list, outputs, changeAddr)
                && |pkt.value.ins| == |pkt.value.inputs| == |inputs.list|
                && (forall i :: 0 <= i < |inputs.list| ==>
                      Carries(pkt.value.inputs[i], inputs.list[i]) && NamesItsCoin(pkt.value.ins[i], inputs.list[i]))
                && (used == [] <==> NeedsNothing(lib, old(inputs.list), outputs, changeAddr))
      ensures old(errs) == [] && errs != [] ==>
                pkt == old(pkt) && |errs| == 1
                && BuildFails(lib, errs[0], inputs.list, outputs, changeAddr, fromAddr, rest)
    {
      if errs != [] {
        used, rest := [], utxos;
        NothingDrawn(lib, utxos, inputs.list, PointsOf(inputs.list), fromAddr);
        NothingDrawnForBuild(lib, utxos, inputs.list, fromAddr, outputs, changeAddr);
        return;
      }
      var made;
      made, used, rest := Assemble();
      if made.Err? {
        errs := errs + [made.error];
        return;
      }
      pkt := Some(made.value);
      FinishedCarries(lib, made.value, inputs.list, outputs, changeAddr);
    }
  }
}
