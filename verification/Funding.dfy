/**
 Funding and building a transaction (reference/go/transaction/builder.go, fee.go, inout.go).

 Address decoding, output scripts and the size estimate are the library's.  A coin comes with
 the transaction that made it, and its index is within it: on anything else the Go code panics.
 */
module Funding {
  import opened Wrappers
  import opened UtxoSelector

  type Script = string
  type Txid = string

  datatype Kind = P2PK | P2PKH | P2SH | P2WPKH | P2WSH | P2TR | Invalid

  datatype Address = Address(text: string, kind: Kind)

  datatype TxOut = TxOut(value: int, script: Script)

  datatype OutPoint = OutPoint(txid: Txid, vout: nat)

  datatype RawTx = RawTx(txid: Txid, outs: seq<TxOut>)

  datatype Utxo = Utxo(raw: RawTx, vout: nat, value: int)

  datatype TxInput = TxInput(txid: Txid, vout: nat, tx: RawTx, prevOut: TxOut, amount: int, address: Address)

  /** `size`: P2PKH, P2TR, P2WPKH and nested inputs, the outputs, and the change script's length. */
  datatype Library = Library(decode: string -> Option<Address>,
                             script: Address -> Option<Script>,
                             fee: (int, int, int, int, seq<TxOut>, int) -> int)

  datatype Error = BadAddress | NoScript | NoFundScript | Insufficient | Mismatch | Unsupported

  predicate Whole(u: Utxo) {
    u.vout < |u.raw.outs|
  }

  predicate AllWhole(us: seq<Utxo>) {
    forall i :: 0 <= i < |us| ==> Whole(us[i])
  }

  function ValueOf(u: Utxo): int {
    u.value
  }

  function InAmount(t: TxInput): int {
    t.amount
  }

  function OutAmount(o: TxOut): int {
    o.value
  }

  function InputOf(u: Utxo, from: Address): TxInput
    requires Whole(u)
  {
    TxInput(u.raw.txid, u.vout, u.raw, u.raw.outs[u.vout], u.value, from)
  }

  function InputsOf(us: seq<Utxo>, from: Address): (ins: seq<TxInput>)
    requires AllWhole(us)
    ensures |ins| == |us|
    ensures forall i :: 0 <= i < |us| ==> ins[i] == InputOf(us[i], from)
  {
    seq(|us|, i requires 0 <= i < |us| => InputOf(us[i], from))
  }

  function PointOf(t: TxInput): OutPoint {
    OutPoint(t.txid, t.vout)
  }

  function PointsOf(ins: seq<TxInput>): (ops: seq<OutPoint>)
    ensures |ops| == |ins|
    ensures forall i :: 0 <= i < |ins| ==> ops[i] == PointOf(ins[i])
  {
    seq(|ins|, i requires 0 <= i < |ins| => PointOf(ins[i]))
  }

  lemma {:induction false} InputsTotal(us: seq<Utxo>, from: Address)
    requires AllWhole(us)
    ensures Total(InputsOf(us, from), InAmount) == Total(us, ValueOf)
  {
    if us != [] {
      var most := us[..|us| - 1];
      InputsTotal(most, from);
      assert InputsOf(us, from)[..|us| - 1] == InputsOf(most, from);
    }
  }

  lemma TotalSnoc<T>(xs: seq<T>, x: T, amount: T -> int)
    ensures Total(xs + [x], amount) == Total(xs, amount) + amount(x)
  {
  }

  // ---------------------------------------------------------------- what an input may be, and its fee

  function CountKind(ins: seq<TxInput>, kind: Kind): nat {
    if ins == [] then 0 else CountKind(ins[..|ins| - 1], kind) + if ins[|ins| - 1].address.kind == kind then 1 else 0
  }

  function FundScriptSize(kind: Kind): Option<int> {
    match kind
    case P2PK => Some(35)
    case P2PKH => Some(25)
    case P2SH => Some(23)
    case P2WPKH => Some(22)
    case P2WSH => Some(34)
    case P2TR => Some(34)
    case Invalid => None
  }

  /** One piece of an output script: an opcode, or a push of so many bytes. */
  datatype Piece = Opcode | Push(n: nat)

  function Length(pieces: seq<Piece>): int {
    if pieces == [] then 0 else (match pieces[0] case Opcode => 1 case Push(n) => 1 + n) + Length(pieces[1..])
  }

  /** The standard output script of each kind. */
  function OutputScript(kind: Kind): seq<Piece> {
    match kind
    case P2PK => [Push(33), Opcode]
    case P2PKH => [Opcode, Opcode, Push(20), Opcode, Opcode]
    case P2SH => [Opcode, Push(20), Opcode]
    case P2WPKH => [Opcode, Push(20)]
    case P2WSH => [Opcode, Push(32)]
    case P2TR => [Opcode, Push(32)]
    case Invalid => []
  }

  /** The size reckoned for a change script is the length of that script. */
  lemma {:induction false} FundScriptIsThatLong(kind: Kind)
    ensures FundScriptSize(kind) == if kind == Invalid then None else Some(Length(OutputScript(kind)))
  {
    var pieces := OutputScript(kind);
    if |pieces| > 0 {
      LengthNext(pieces);
    }
    if |pieces| > 1 {
      LengthNext(pieces[1..]);
    }
    if |pieces| > 2 {
      LengthNext(pieces[2..]);
    }
    if |pieces| > 3 {
      LengthNext(pieces[3..]);
      LengthNext(pieces[4..]);
    }
  }

  lemma LengthNext(pieces: seq<Piece>)
    requires pieces != []
    ensures Length(pieces) == (match pieces[0] case Opcode => 1 case Push(n) => 1 + n) + Length(pieces[1..])
  {
  }

  function FeeOf(lib: Library, ins: seq<TxInput>, outs: seq<TxOut>, change: Address): Option<int> {
    var size := FundScriptSize(change.kind);
    if size.None? then None
    else Some(lib.fee(CountKind(ins, P2PKH), CountKind(ins, P2TR), CountKind(ins, P2WPKH), 0, outs, size.value))
  }

  /** A sender's inputs are all of one kind, and are reckoned as that many of that kind and none of another. */
  lemma {:induction false} OneKindFee(lib: Library, ins: seq<TxInput>, kind: Kind, outs: seq<TxOut>, change: Address)
    requires forall i :: 0 <= i < |ins| ==> ins[i].address.kind == kind
    ensures FeeOf(lib, ins, outs, change).None? <==> change.kind == Invalid
    ensures change.kind != Invalid ==>
              var size, n := Length(OutputScript(change.kind)), |ins|;
              FeeOf(lib, ins, outs, change).value ==
              if kind == P2PKH then lib.fee(n, 0, 0, 0, outs, size)
              else if kind == P2TR then lib.fee(0, n, 0, 0, outs, size)
              else if kind == P2WPKH then lib.fee(0, 0, n, 0, outs, size)
              else lib.fee(0, 0, 0, 0, outs, size)
  {
    FundScriptIsThatLong(change.kind);
    AllOfKind(ins, kind, P2PKH);
    AllOfKind(ins, kind, P2TR);
    AllOfKind(ins, kind, P2WPKH);
  }

  lemma {:induction false} AllOfKind(ins: seq<TxInput>, kind: Kind, counted: Kind)
    requires forall i :: 0 <= i < |ins| ==> ins[i].address.kind == kind
    ensures CountKind(ins, counted) == if kind == counted then |ins| else 0
  {
    if ins != [] {
      AllOfKind(ins[..|ins| - 1], kind, counted);
    }
  }

  /** `EstimateTxFee`: nothing decodes to a nested input, and P2PK, P2SH and P2WSH inputs weigh nothing. */
  method EstimateTxFee(lib: Library, ins: seq<TxInput>, outs: seq<TxOut>, change: Address) returns (fee: Option<int>)
    ensures fee == FeeOf(lib, ins, outs, change)
  {
    var p2pkh, p2wpkh, p2tr := 0, 0, 0;
    for i := 0 to |ins|
      invariant p2pkh == CountKind(ins[..i], P2PKH)
      invariant p2wpkh == CountKind(ins[..i], P2WPKH)
      invariant p2tr == CountKind(ins[..i], P2TR)
    {
      assert ins[..i + 1][..i] == ins[..i];
      match ins[i].address.kind {
        case P2PKH => p2pkh := p2pkh + 1;
        case P2WPKH => p2wpkh := p2wpkh + 1;
        case P2TR => p2tr := p2tr + 1;
        case _ =>
      }
    }
    assert ins[..|ins|] == ins;
    var size := FundScriptSize(change.kind);
    if size.None? {
      return None;
    }
    fee := Some(lib.fee(p2pkh, p2tr, p2wpkh, 0, outs, size.value));
  }

  // ---------------------------------------------------------------- inputs and the wire message

  class TxInputs {
    var list: seq<TxInput>

    constructor ()
      ensures list == []
    {
      list := [];
    }

    method AddInput(lib: Library, u: Utxo, from: string) returns (err: Option<Error>)
      requires Whole(u)
      modifies this
      ensures err == if lib.decode(from).None? then Some(BadAddress) else None
      ensures list == if err.Some? then old(list) else old(list) + [InputOf(u, lib.decode(from).value)]
    {
      var prevOut := u.raw.outs[u.vout];
      var address := lib.decode(from);
      if address.None? {
        return Some(BadAddress);
      }
      list := list + [TxInput(u.raw.txid, u.vout, u.raw, prevOut, u.value, address.value)];
      err := None;
    }

    method AmountTotal() returns (total: int)
      ensures total == Total(list, InAmount)
    {
      total := 0;
      for i := 0 to |list|
        invariant total == Total(list[..i], InAmount)
      {
        assert list[..i + 1][..i] == list[..i];
        total := total + list[i].amount;
      }
      assert list[..|list|] == list;
    }

    method ToWire() returns (ops: seq<OutPoint>)
      ensures ops == PointsOf(list)
    {
      ops := [];
      for i := 0 to |list|
        invariant ops == PointsOf(list[..i])
      {
        ops := ops + [OutPoint(list[i].txid, list[i].vout)];
      }
    }
  }

  class MsgTx {
    var ins: seq<OutPoint>
    var outs: seq<TxOut>

    constructor ()
      ensures ins == [] && outs == []
    {
      ins, outs := [], [];
    }

    method AddTxIn(op: OutPoint)
      modifies `ins
      ensures ins == old(ins) + [op]
    {
      ins := ins + [op];
    }

    method AddTxOut(out: TxOut)
      modifies `outs
      ensures outs == old(outs) + [out]
    {
      outs := outs + [out];
    }
  }

  method OutTotal(outs: seq<TxOut>) returns (total: int)
    ensures total == Total(outs, OutAmount)
  {
    total := 0;
    for i := 0 to |outs|
      invariant total == Total(outs[..i], OutAmount)
    {
      assert outs[..i + 1][..i] == outs[..i];
      total := total + outs[i].value;
    }
    assert outs[..|outs|] == outs;
  }

  // ---------------------------------------------------------------- the funding loop

  /** The inputs these coins become. */
  function Spending(lib: Library, us: seq<Utxo>, from: string): (ins: seq<TxInput>)
    requires AllWhole(us)
    ensures |ins| == if lib.decode(from).Some? then |us| else 0
  {
    if lib.decode(from).Some? then InputsOf(us, lib.decode(from).value) else []
  }

  lemma SpendingConcat(lib: Library, a: seq<Utxo>, b: seq<Utxo>, from: string)
    requires AllWhole(a) && AllWhole(b)
    ensures AllWhole(a + b)
    ensures Spending(lib, a + b, from) == Spending(lib, a, from) + Spending(lib, b, from)
    ensures PointsOf(Spending(lib, a + b, from)) == PointsOf(Spending(lib, a, from)) + PointsOf(Spending(lib, b, from))
  {
  }

  lemma SpendingNext(lib: Library, us: seq<Utxo>, i: nat, from: string)
    requires AllWhole(us) && i < |us| && lib.decode(from).Some?
    ensures AllWhole(us[..i]) && AllWhole(us[..i + 1])
    ensures Spending(lib, us[..i + 1], from) == Spending(lib, us[..i], from) + [InputOf(us[i], lib.decode(from).value)]
    ensures PointsOf(Spending(lib, us[..i + 1], from)) ==
            PointsOf(Spending(lib, us[..i], from)) + [OutPoint(us[i].raw.txid, us[i].vout)]
    ensures Total(us[..i + 1], ValueOf) == Total(us[..i], ValueOf) + us[i].value
  {
    TotalSnoc(us[..i], us[i], ValueOf);
    assert us[..i + 1] == us[..i] + [us[i]];
  }

  /** After the first `i` of these coins: what the inputs, the message and the running total were, and what they are. */
  predicate AddedTo(lib: Library, selected: seq<Utxo>, i: nat, from: string, ins0: seq<TxInput>, ops0: seq<OutPoint>, total0: int,
                    ins: seq<TxInput>, ops: seq<OutPoint>, total: int) {
    && i <= |selected| && AllWhole(selected[..i])
    && ins == ins0 + Spending(lib, selected[..i], from)
    && ops == ops0 + PointsOf(Spending(lib, selected[..i], from))
    && total == total0 + Total(selected[..i], ValueOf)
  }

  lemma AddedNext(lib: Library, selected: seq<Utxo>, i: nat, from: string, ins0: seq<TxInput>, ops0: seq<OutPoint>, total0: int,
                  ins: seq<TxInput>, ops: seq<OutPoint>, total: int)
    requires AllWhole(selected) && i < |selected| && lib.decode(from).Some?
    requires AddedTo(lib, selected, i, from, ins0, ops0, total0, ins, ops, total)
    ensures var u := selected[i];
            AddedTo(lib, selected, i + 1, from, ins0, ops0, total0, ins + [InputOf(u, lib.decode(from).value)],
                    ops + [OutPoint(u.raw.txid, u.vout)], total + u.value)
  {
    SpendingNext(lib, selected, i, from);
  }

  /** One round's coins, added to the inputs and to the message side by side. */
  method AddSelected(lib: Library, msgTx: MsgTx, inputs: TxInputs, selected: seq<Utxo>, from: string, total: int)
    returns (err: Option<Error>, inTotal: int)
    requires AllWhole(selected) && selected != []
    modifies msgTx`ins, inputs
    ensures err == if lib.decode(from).None? then Some(BadAddress) else None
    ensures inputs.list == old(inputs.list) + Spending(lib, selected, from)
    ensures msgTx.ins == old(msgTx.ins) + PointsOf(Spending(lib, selected, from))
    ensures err.None? ==> inTotal == total + Total(selected, ValueOf)
  {
    inTotal := total;
    err := None;
    ghost var ins0, ops0 := inputs.list, msgTx.ins;
    for i := 0 to |selected|
      invariant err.None? && (i == 0 || lib.decode(from).Some?)
      invariant AddedTo(lib, selected, i, from, ins0, ops0, total, inputs.list, msgTx.ins, inTotal)
    {
      var u := selected[i];
      if lib.decode(from).Some? {
        AddedNext(lib, selected, i, from, ins0, ops0, total, inputs.list, msgTx.ins, inTotal);
      }
      err := inputs.AddInput(lib, u, from);
      if err.Some? {
        return;
      }
      msgTx.AddTxIn(OutPoint(u.raw.txid, u.vout));
      inTotal := inTotal + u.value;
    }
    assert selected[..|selected|] == selected;
  }

  /** The coins drawn so far, and those left. */
  ghost predicate Drawn(pool: seq<Utxo>, used: seq<Utxo>, rest: seq<Utxo>) {
    AllWhole(used) && AllWhole(rest) && Splits(used, rest, pool)
  }

  lemma WholeParts(a: seq<Utxo>, b: seq<Utxo>, c: seq<Utxo>)
    requires Splits(a, b, c) && AllWhole(c)
    ensures AllWhole(a) && AllWhole(b)
  {
    forall i | 0 <= i < |a|
      ensures Whole(a[i])
    {
      assert a[i] in multiset(a) + multiset(b);
      assert a[i] in c;
    }
    forall i | 0 <= i < |b|
      ensures Whole(b[i])
    {
      assert b[i] in multiset(a) + multiset(b);
      assert b[i] in c;
    }
  }

  lemma DrawMore(pool: seq<Utxo>, used: seq<Utxo>, rest: seq<Utxo>, more: seq<Utxo>, left: seq<Utxo>)
    requires Drawn(pool, used, rest) && Splits(more, left, rest)
    ensures Drawn(pool, used + more, left)
  {
    WholeParts(more, left, rest);
  }

  lemma Shrinks(more: seq<Utxo>, left: seq<Utxo>, rest: seq<Utxo>)
    requires Splits(more, left, rest) && more != []
    ensures |left| < |rest|
  {
    assert |multiset(more) + multiset(left)| == |multiset(rest)|;
  }

  lemma AmountGrows(lib: Library, ins: seq<TxInput>, more: seq<Utxo>, from: string)
    requires AllWhole(more) && lib.decode(from).Some?
    ensures Total(ins + Spending(lib, more, from), InAmount) == Total(ins, InAmount) + Total(more, ValueOf)
  {
    InputsTotal(more, lib.decode(from).value);
    TotalConcat(ins, Spending(lib, more, from), InAmount);
  }

  /** What these inputs leave over the outputs and their own fee, when it can be estimated. */
  function Surplus(lib: Library, ins: seq<TxInput>, userOuts: seq<TxOut>, wanted: int, change: Address): Option<int> {
    match FeeOf(lib, ins, userOuts, change)
    case None => None
    case Some(fee) => Some(Total(ins, InAmount) - wanted - fee)
  }

  /** It can be told exactly of a change address with a standard script, and is what goes in less what goes out and the fee. */
  lemma SurplusIs(lib: Library, ins: seq<TxInput>, userOuts: seq<TxOut>, wanted: int, change: Address)
    ensures Surplus(lib, ins, userOuts, wanted, change).Some? <==> change.kind != Invalid
    ensures change.kind != Invalid ==>
              && FeeOf(lib, ins, userOuts, change).Some?
              && Surplus(lib, ins, userOuts, wanted, change).value + wanted + FeeOf(lib, ins, userOuts, change).value == Total(ins, InAmount)
  {
  }

  /** The fee, estimated, and what is then left over. */
  method Reckon(lib: Library, inputs: TxInputs, userOuts: seq<TxOut>, outTotal: int, change: Address, inTotal: int)
    returns (fund: Option<int>)
    requires inTotal == Total(inputs.list, InAmount)
    ensures fund == Surplus(lib, inputs.list, userOuts, outTotal, change)
    ensures fund.None? ==> FundScriptSize(change.kind).None?
  {
    var fee := EstimateTxFee(lib, inputs.list, userOuts, change);
    if fee.None? {
      return None;
    }
    fund := Some(inTotal - outTotal - fee.value);
  }

  /** Funded: the surplus over the fee of these very inputs is not negative, and is the change, if there is any. */
  predicate Funded(lib: Library, ins: seq<TxInput>, userOuts: seq<TxOut>, outs: seq<TxOut>, wanted: int, changeAddr: string) {
    match lib.decode(changeAddr)
    case None => false
    case Some(change) =>
      var surplus := Surplus(lib, ins, userOuts, wanted, change);
      lib.script(change).Some? && surplus.Some? && surplus.value >= 0
      && outs == if surplus.value > 0 then userOuts + [TxOut(surplus.value, lib.script(change).value)] else userOuts
  }

  /** Nothing is missing. */
  predicate Enough(surplus: Option<int>) {
    match surplus
    case None => false
    case Some(fund) => fund >= 0
  }

  /** These inputs cover the outputs and their own fee, so funding draws nothing. */
  predicate Covers(lib: Library, ins: seq<TxInput>, userOuts: seq<TxOut>, wanted: int, changeAddr: string) {
    match lib.decode(changeAddr)
    case None => false
    case Some(change) => Enough(Surplus(lib, ins, userOuts, wanted, change))
  }

  /** Short: these inputs do not cover the outputs and their fee, and the selection finds nothing in what is left. */
  predicate Short(lib: Library, ins: seq<TxInput>, userOuts: seq<TxOut>, wanted: int, changeAddr: string, rest: seq<Utxo>) {
    match lib.decode(changeAddr)
    case None => false
    case Some(change) => NothingCovers(Surplus(lib, ins, userOuts, wanted, change), rest)
  }

  predicate NothingCovers(surplus: Option<int>, rest: seq<Utxo>) {
    match surplus
    case None => false
    case Some(fund) => fund < 0 && !Suffices(Amounts(rest, ValueOf), -fund)
  }

  /** Why the loop gives up: a bad sender, an address that takes no change, or nothing that covers what is missing. */
  predicate LoopFails(lib: Library, e: Error, kind: Kind, fromAddr: string, surplus: Option<int>, rest: seq<Utxo>) {
    match e
    case BadAddress => lib.decode(fromAddr).None?
    case NoFundScript => FundScriptSize(kind).None?
    case Insufficient => NothingCovers(surplus, rest)
    case _ => false
  }

  /** Why an error that is not about the amount comes back. */
  predicate Fails(lib: Library, e: Error, changeAddr: string, fromAddr: string) {
    match lib.decode(changeAddr)
    case None => e == BadAddress
    case Some(change) =>
      match lib.script(change)
      case None => e == NoScript
      case Some(_) =>
        e == Insufficient
        || (e == BadAddress && lib.decode(fromAddr).None?)
        || (e == NoFundScript && FundScriptSize(change.kind).None?)
  }

  /** Where a run of the loop stands: the coins drawn became inputs, and inputs of the message, side by side. */
  ghost predicate Drawing(lib: Library, pool0: seq<Utxo>, ins0: seq<TxInput>, ops0: seq<OutPoint>, from: string,
                          used: seq<Utxo>, rest: seq<Utxo>, ins: seq<TxInput>, ops: seq<OutPoint>) {
    var sender := lib.decode(from);
    match sender
    case None => used == [] && rest == pool0 && AllWhole(pool0) && ins == ins0 && ops == ops0
    case Some(address) =>
      Drawn(pool0, used, rest) && ins == ins0 + InputsOf(used, address) && ops == ops0 + PointsOf(InputsOf(used, address))
  }

  lemma NothingDrawn(lib: Library, pool: seq<Utxo>, ins: seq<TxInput>, ops: seq<OutPoint>, from: string)
    requires AllWhole(pool)
    ensures Drawing(lib, pool, ins, ops, from, [], pool, ins, ops)
  {
  }

  lemma DrawingMore(lib: Library, pool0: seq<Utxo>, ins0: seq<TxInput>, ops0: seq<OutPoint>, from: string,
                    used: seq<Utxo>, rest: seq<Utxo>, ins: seq<TxInput>, ops: seq<OutPoint>, more: seq<Utxo>, left: seq<Utxo>)
    requires Drawing(lib, pool0, ins0, ops0, from, used, rest, ins, ops)
    requires Splits(more, left, rest) && AllWhole(more) && lib.decode(from).Some?
    ensures Drawing(lib, pool0, ins0, ops0, from, used + more, left, ins + Spending(lib, more, from),
                    ops + PointsOf(Spending(lib, more, from)))
  {
    DrawMore(pool0, used, rest, more, left);
    SpendingConcat(lib, used, more, from);
    Regroup(ins0, Spending(lib, used, from), Spending(lib, more, from));
    Regroup(ops0, PointsOf(Spending(lib, used, from)), PointsOf(Spending(lib, more, from)));
  }

  lemma Regroup<T>(a: seq<T>, b: seq<T>, c: seq<T>)
    ensures a + b + c == a + (b + c)
  {
  }

  /** The pool left is still whole. */
  lemma RestWhole(lib: Library, pool0: seq<Utxo>, ins0: seq<TxInput>, ops0: seq<OutPoint>, from: string,
                  used: seq<Utxo>, rest: seq<Utxo>, ins: seq<TxInput>, ops: seq<OutPoint>)
    requires Drawing(lib, pool0, ins0, ops0, from, used, rest, ins, ops)
    ensures AllWhole(rest)
  {
  }

  /** Coins of the pool that come to the deficit; what is left of the pool is shorter. */
  method SelectMissing(pool: seq<Utxo>, missing: int) returns (selected: seq<Utxo>, left: seq<Utxo>, ok: bool)
    requires AllWhole(pool)
    ensures ok <==> Suffices(Amounts(pool, ValueOf), missing)
    ensures ok ==> Selects(pool, missing, ValueOf, selected, left)
    ensures ok ==> selected != [] && AllWhole(selected) && |left| < |pool|
  {
    selected, left, ok := SelectUtxo(pool, missing, ValueOf);
    if ok {
      WholeParts(selected, left, pool);
      Shrinks(selected, left, pool);
    }
  }

  /** A turn of the loop: with these coins drawn something is missing, and a selection for just that is drawn next. */
  ghost predicate Turn(lib: Library, ins0: seq<TxInput>, from: string, userOuts: seq<TxOut>, wanted: int, change: Address,
                       used: seq<Utxo>, pool: seq<Utxo>, more: seq<Utxo>, left: seq<Utxo>) {
    AllWhole(used) &&
    match Surplus(lib, ins0 + Spending(lib, used, from), userOuts, wanted, change)
    case None => false
    case Some(fund) => fund < 0 && Selects(pool, -fund, ValueOf, more, left)
  }

  /** The turns of a run, the last one outermost: each drew `more` and left `left`. */
  datatype Draws = NoDraws | Then(before: Draws, more: seq<Utxo>, left: seq<Utxo>)

  function UsedIn(h: Draws): seq<Utxo> {
    match h
    case NoDraws => []
    case Then(before, more, _) => UsedIn(before) + more
  }

  function LeftIn(h: Draws, pool0: seq<Utxo>): seq<Utxo> {
    match h
    case NoDraws => pool0
    case Then(_, _, left) => left
  }

  ghost predicate Turns(lib: Library, pool0: seq<Utxo>, ins0: seq<TxInput>, from: string, userOuts: seq<TxOut>, wanted: int,
                        change: Address, h: Draws) {
    match h
    case NoDraws => true
    case Then(before, more, left) =>
      && Turn(lib, ins0, from, userOuts, wanted, change, UsedIn(before), LeftIn(before, pool0), more, left)
      && Turns(lib, pool0, ins0, from, userOuts, wanted, change, before)
  }

  /** The coins drawn came out of the pool in these turns. */
  ghost predicate DrawnBy(lib: Library, pool0: seq<Utxo>, ins0: seq<TxInput>, from: string, userOuts: seq<TxOut>, wanted: int,
                          change: Address, used: seq<Utxo>, rest: seq<Utxo>, h: Draws) {
    used == UsedIn(h) && rest == LeftIn(h, pool0) && Turns(lib, pool0, ins0, from, userOuts, wanted, change, h)
  }

  /** What was drawn so far is in the inputs, so the deficit the loop computes is the turn's. */
  lemma TurnIs(lib: Library, pool0: seq<Utxo>, ins0: seq<TxInput>, ops0: seq<OutPoint>, from: string, userOuts: seq<TxOut>,
               wanted: int, change: Address, used: seq<Utxo>, pool: seq<Utxo>, ins: seq<TxInput>, ops: seq<OutPoint>,
               fund: int, more: seq<Utxo>, left: seq<Utxo>)
    requires Drawing(lib, pool0, ins0, ops0, from, used, pool, ins, ops)
    requires Surplus(lib, ins, userOuts, wanted, change) == Some(fund) && fund < 0 && Selects(pool, -fund, ValueOf, more, left)
    ensures Turn(lib, ins0, from, userOuts, wanted, change, used, pool, more, left)
  {
    assert AllWhole(used) && ins == ins0 + Spending(lib, used, from);
  }

  /** Turn by turn, when there is where to send change; else nothing is drawn. */
  ghost predicate DrawnInTurn(lib: Library, pool0: seq<Utxo>, ins0: seq<TxInput>, from: string, userOuts: seq<TxOut>, wanted: int,
                              changeAddr: string, used: seq<Utxo>, rest: seq<Utxo>) {
    var change := lib.decode(changeAddr);
    match change
    case None => used == [] && rest == pool0
    case Some(address) => exists h: Draws :: DrawnBy(lib, pool0, ins0, from, userOuts, wanted, address, used, rest, h)
  }

  lemma DrawnAdds(lib: Library, pool0: seq<Utxo>, ins0: seq<TxInput>, ops0: seq<OutPoint>, from: string, used: seq<Utxo>,
                  pool: seq<Utxo>, ins: seq<TxInput>, ops: seq<OutPoint>, missing: int, more: seq<Utxo>, left: seq<Utxo>)
    requires Drawing(lib, pool0, ins0, ops0, from, used, pool, ins, ops)
    requires Selects(pool, missing, ValueOf, more, left) && AllWhole(more) && lib.decode(from).Some?
    ensures Drawing(lib, pool0, ins0, ops0, from, used + more, left, ins + Spending(lib, more, from),
                    ops + PointsOf(Spending(lib, more, from)))
    ensures Total(ins + Spending(lib, more, from), InAmount) == Total(ins, InAmount) + Total(more, ValueOf)
  {
    AmountGrows(lib, ins, more, from);
    DrawingMore(lib, pool0, ins0, ops0, from, used, pool, ins, ops, more, left);
  }

  /** The coins selected, as drawn. */
  method AddDrawn(lib: Library, msgTx: MsgTx, inputs: TxInputs, ghost pool: seq<Utxo>, ghost missing: int, selected: seq<Utxo>,
                  ghost left: seq<Utxo>, fromAddr: string, inTotal: int,
                  ghost pool0: seq<Utxo>, ghost ins0: seq<TxInput>, ghost ops0: seq<OutPoint>, ghost used: seq<Utxo>)
    returns (err: Option<Error>, total: int)
    requires Drawing(lib, pool0, ins0, ops0, fromAddr, used, pool, inputs.list, msgTx.ins)
    requires Selects(pool, missing, ValueOf, selected, left) && AllWhole(selected) && selected != []
    requires inTotal == Total(inputs.list, InAmount)
    modifies msgTx`ins, inputs
    ensures err == if lib.decode(fromAddr).None? then Some(BadAddress) else None
    ensures err.Some? ==> inputs.list == old(inputs.list) && msgTx.ins == old(msgTx.ins)
    ensures err.None? ==> Drawing(lib, pool0, ins0, ops0, fromAddr, used + selected, left, inputs.list, msgTx.ins)
    ensures err.None? ==> total == Total(inputs.list, InAmount)
  {
    err, total := AddSelected(lib, msgTx, inputs, selected, fromAddr, inTotal);
    if err.None? {
      DrawnAdds(lib, pool0, ins0, ops0, fromAddr, used, pool, old(inputs.list), old(msgTx.ins), missing, selected, left);
    }
  }

  /** One turn of the loop: coins for the deficit, out of the pool and into the inputs. */
  method DrawOnce(lib: Library, msgTx: MsgTx, inputs: TxInputs, pool: seq<Utxo>, fund: int, fromAddr: string, inTotal: int,
                  ghost pool0: seq<Utxo>, ghost ins0: seq<TxInput>, ghost ops0: seq<OutPoint>, ghost used: seq<Utxo>,
                  ghost kind: Kind)
    returns (err: Option<Error>, total: int, selected: seq<Utxo>, left: seq<Utxo>)
    requires Drawing(lib, pool0, ins0, ops0, fromAddr, used, pool, inputs.list, msgTx.ins)
    requires inTotal == Total(inputs.list, InAmount) && fund < 0
    modifies msgTx`ins, inputs
    ensures err.Some? ==> inputs.list == old(inputs.list) && msgTx.ins == old(msgTx.ins)
    ensures err.Some? ==> LoopFails(lib, err.value, kind, fromAddr, Some(fund), pool)
    ensures err.None? ==>
              && Drawing(lib, pool0, ins0, ops0, fromAddr, used + selected, left, inputs.list, msgTx.ins)
              && |left| < |pool| && total == Total(inputs.list, InAmount)
              && Selects(pool, -fund, ValueOf, selected, left)
  {
    RestWhole(lib, pool0, ins0, ops0, fromAddr, used, pool, inputs.list, msgTx.ins);
    var ok;
    selected, left, ok := SelectMissing(pool, -fund);
    if !ok {
      return Some(Insufficient), inTotal, selected, left;
    }
    err, total := AddDrawn(lib, msgTx, inputs, pool, -fund, selected, left, fromAddr, inTotal, pool0, ins0, ops0, used);
  }

  /** The loop: coins until nothing is missing. */
  method FundLoop(lib: Library, msgTx: MsgTx, inputs: TxInputs, userOuts: seq<TxOut>, outTotal: int, change: Address,
                  utxoPool: seq<Utxo>, fromAddr: string)
    returns (err: Option<Error>, fund: int, ghost used: seq<Utxo>, ghost rest: seq<Utxo>, ghost h: Draws)
    requires AllWhole(utxoPool)
    modifies msgTx`ins, inputs
    ensures Drawing(lib, utxoPool, old(inputs.list), old(msgTx.ins), fromAddr, used, rest, inputs.list, msgTx.ins)
    ensures DrawnBy(lib, utxoPool, old(inputs.list), fromAddr, userOuts, outTotal, change, used, rest, h)
    ensures err.None? ==> fund >= 0 && Surplus(lib, inputs.list, userOuts, outTotal, change) == Some(fund)
    ensures Enough(Surplus(lib, old(inputs.list), userOuts, outTotal, change)) ==> err.None? && used == []
    ensures err.Some? ==>
              LoopFails(lib, err.value, change.kind, fromAddr, Surplus(lib, inputs.list, userOuts, outTotal, change), rest)
  {
    used, rest, h := [], utxoPool, NoDraws;
    NothingDrawn(lib, utxoPool, inputs.list, msgTx.ins, fromAddr);
    ghost var ins0, ops0 := inputs.list, msgTx.ins;
    var inTotal := inputs.AmountTotal();
    var left := Reckon(lib, inputs, userOuts, outTotal, change, inTotal);
    if left.None? {
      return Some(NoFundScript), 0, used, rest, h;
    }
    fund := left.value;
    var pool := utxoPool;
    ghost var enough := fund >= 0;
    while fund < 0
      invariant enough ==> fund >= 0 && used == []
      invariant Drawing(lib, utxoPool, ins0, ops0, fromAddr, used, pool, inputs.list, msgTx.ins)
      invariant DrawnBy(lib, utxoPool, ins0, fromAddr, userOuts, outTotal, change, used, pool, h)
      invariant inTotal == Total(inputs.list, InAmount)
      invariant Surplus(lib, inputs.list, userOuts, outTotal, change) == Some(fund)
      decreases |pool|
    {
      var selected, unselected;
      ghost var ins, ops := inputs.list, msgTx.ins;
      err, inTotal, selected, unselected := DrawOnce(lib, msgTx, inputs, pool, fund, fromAddr, inTotal,
                                                     utxoPool, ins0, ops0, used, change.kind);
      if err.Some? {
        return err, fund, used, pool, h;
      }
      TurnIs(lib, utxoPool, ins0, ops0, fromAddr, userOuts, outTotal, change, used, pool, ins, ops, fund, selected, unselected);
      h := Then(h, selected, unselected);
      used, pool := used + selected, unselected;
      left := Reckon(lib, inputs, userOuts, outTotal, change, inTotal);
      if left.None? {
        return Some(NoFundScript), fund, used, pool, h;
      }
      fund := left.value;
    }
    rest := pool;
    err := None;
  }

  /** What the loop's failure is, of the whole. */
  lemma LoopFailure(lib: Library, e: Error, changeAddr: string, change: Address, fromAddr: string, ins: seq<TxInput>,
                    userOuts: seq<TxOut>, wanted: int, rest: seq<Utxo>)
    requires lib.decode(changeAddr) == Some(change) && lib.script(change).Some?
    requires LoopFails(lib, e, change.kind, fromAddr, Surplus(lib, ins, userOuts, wanted, change), rest)
    ensures Fails(lib, e, changeAddr, fromAddr)
    ensures e == Insufficient ==> Short(lib, ins, userOuts, wanted, changeAddr, rest)
  {
  }

  lemma LoopSuccess(lib: Library, changeAddr: string, change: Address, script: Script, ins: seq<TxInput>,
                    userOuts: seq<TxOut>, wanted: int, fund: int)
    requires lib.decode(changeAddr) == Some(change) && lib.script(change) == Some(script)
    requires fund >= 0 && Surplus(lib, ins, userOuts, wanted, change) == Some(fund)
    ensures Funded(lib, ins, userOuts, if fund > 0 then userOuts + [TxOut(fund, script)] else userOuts, wanted, changeAddr)
  {
  }

  lemma CoversIs(lib: Library, changeAddr: string, change: Address, ins: seq<TxInput>, userOuts: seq<TxOut>, wanted: int)
    requires lib.decode(changeAddr) == Some(change)
    ensures Covers(lib, ins, userOuts, wanted, changeAddr) == Enough(Surplus(lib, ins, userOuts, wanted, change))
  {
  }

  lemma TurnsAre(lib: Library, pool: seq<Utxo>, ins: seq<TxInput>, from: string, userOuts: seq<TxOut>, wanted: int,
                 changeAddr: string, change: Address, used: seq<Utxo>, rest: seq<Utxo>, h: Draws)
    requires lib.decode(changeAddr) == Some(change)
    requires DrawnBy(lib, pool, ins, from, userOuts, wanted, change, used, rest, h)
    ensures DrawnInTurn(lib, pool, ins, from, userOuts, wanted, changeAddr, used, rest)
  {
  }

  lemma NoTurns(lib: Library, pool: seq<Utxo>, ins: seq<TxInput>, from: string, userOuts: seq<TxOut>, wanted: int, changeAddr: string)
    ensures DrawnInTurn(lib, pool, ins, from, userOuts, wanted, changeAddr, [], pool)
  {
    if lib.decode(changeAddr).Some? {
      assert DrawnBy(lib, pool, ins, from, userOuts, wanted, lib.decode(changeAddr).value, [], pool, NoDraws);
    }
  }

  /** With a change address that has a script: the loop, and then the change. */
  method FundWithChange(lib: Library, msgTx: MsgTx, inputs: TxInputs, outTotal: int, changeAddr: string, change: Address,
                        changeScript: Script, utxoPool: seq<Utxo>, fromAddr: string)
    returns (err: Option<Error>, ghost used: seq<Utxo>, ghost rest: seq<Utxo>)
    requires AllWhole(utxoPool) && lib.decode(changeAddr) == Some(change) && lib.script(change) == Some(changeScript)
    modifies msgTx, inputs
    ensures Drawing(lib, utxoPool, old(inputs.list), old(msgTx.ins), fromAddr, used, rest, inputs.list, msgTx.ins)
    ensures DrawnInTurn(lib, utxoPool, old(inputs.list), fromAddr, old(msgTx.outs), outTotal, changeAddr, used, rest)
    ensures err.None? ==> Funded(lib, inputs.list, old(msgTx.outs), msgTx.outs, outTotal, changeAddr)
    ensures err.Some? ==> msgTx.outs == old(msgTx.outs)
    ensures Covers(lib, old(inputs.list), old(msgTx.outs), outTotal, changeAddr) ==> used == []
    ensures err.Some? ==> Fails(lib, err.value, changeAddr, fromAddr)
    ensures err == Some(Insufficient) ==> Short(lib, inputs.list, old(msgTx.outs), outTotal, changeAddr, rest)
  {
    var userOuts := msgTx.outs;
    var fund;
    ghost var h;
    err, fund, used, rest, h := FundLoop(lib, msgTx, inputs, userOuts, outTotal, change, utxoPool, fromAddr);
    CoversIs(lib, changeAddr, change, old(inputs.list), userOuts, outTotal);
    TurnsAre(lib, utxoPool, old(inputs.list), fromAddr, userOuts, outTotal, changeAddr, change, used, rest, h);
    if err.Some? {
      LoopFailure(lib, err.value, changeAddr, change, fromAddr, inputs.list, userOuts, outTotal, rest);
      return;
    }
    LoopSuccess(lib, changeAddr, change, changeScript, inputs.list, userOuts, outTotal, fund);
    if fund > 0 {
      msgTx.AddTxOut(TxOut(fund, changeScript));
    }
  }

  method FundRawTransaction(lib: Library, msgTx: MsgTx, inputs: TxInputs, outputs: seq<TxOut>, changeAddr: string,
                            utxoPool: seq<Utxo>, fromAddr: string)
    returns (err: Option<Error>, ghost used: seq<Utxo>, ghost rest: seq<Utxo>)
    requires AllWhole(utxoPool)
    modifies msgTx, inputs
    ensures Drawing(lib, utxoPool, old(inputs.list), old(msgTx.ins), fromAddr, used, rest, inputs.list, msgTx.ins)
    ensures DrawnInTurn(lib, utxoPool, old(inputs.list), fromAddr, old(msgTx.outs), Total(outputs, OutAmount), changeAddr, used, rest)
    ensures err.None? ==> Funded(lib, inputs.list, old(msgTx.outs), msgTx.outs, Total(outputs, OutAmount), changeAddr)
    ensures err.Some? ==> msgTx.outs == old(msgTx.outs)
    ensures Covers(lib, old(inputs.list), old(msgTx.outs), Total(outputs, OutAmount), changeAddr) ==> used == []
    ensures err.Some? ==> Fails(lib, err.value, changeAddr, fromAddr)
    ensures err == Some(Insufficient) ==>
              Short(lib, inputs.list, old(msgTx.outs), Total(outputs, OutAmount), changeAddr, rest)
  {
    var changeBTC := lib.decode(changeAddr);
    if changeBTC.None? {
      NothingDrawn(lib, utxoPool, inputs.list, msgTx.ins, fromAddr);
      return Some(BadAddress), [], utxoPool;
    }
    var changeScript := lib.script(changeBTC.value);
    if changeScript.None? {
      NothingDrawn(lib, utxoPool, inputs.list, msgTx.ins, fromAddr);
      NoTurns(lib, utxoPool, inputs.list, fromAddr, msgTx.outs, Total(outputs, OutAmount), changeAddr);
      return Some(NoScript), [], utxoPool;
    }
    var outTotal := OutTotal(outputs);
    err, used, rest := FundWithChange(lib, msgTx, inputs, outTotal, changeAddr, changeBTC.value, changeScript.value,
                                      utxoPool, fromAddr);
  }

  /** A funded transaction pays exactly the fee estimated for its own inputs, change included. */
  lemma FundedPaysItsFee(lib: Library, ins: seq<TxInput>, userOuts: seq<TxOut>, outs: seq<TxOut>, changeAddr: string)
    requires Funded(lib, ins, userOuts, outs, Total(userOuts, OutAmount), changeAddr)
    ensures lib.decode(changeAddr).Some?
    ensures FeeOf(lib, ins, userOuts, lib.decode(changeAddr).value) == Some(Total(ins, InAmount) - Total(outs, OutAmount))
    ensures userOuts <= outs
  {
  }
}
