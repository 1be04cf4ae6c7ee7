/**
 Coins, freezing and the balance (crates/wallet-core/src/wallet.rs).

 BDK keeps the unspent coins and the locked outpoints; its builder is taken for what it
 chooses, honouring the locks.  A lock may outlive its coin.
 */
module Ledger {
  import opened Wrappers

  type Txid = string

  datatype OutPoint = OutPoint(txid: Txid, vout: nat)

  datatype Status = Confirmed | TrustedPending | UntrustedPending | Immature

  datatype Coin = Coin(op: OutPoint, value: nat, status: Status)

  datatype Balance = Balance(confirmed: nat, trusted: nat, untrusted: nat, immature: nat, frozen: nat) {
    function Total(): nat {
      confirmed + trusted + untrusted + immature + frozen
    }

    function Spendable(): nat {
      confirmed + trusted
    }
  }

  type Locks = set<OutPoint>

  predicate DistinctCoins(coins: seq<Coin>) {
    forall i, j :: 0 <= i < j < |coins| ==> coins[i].op != coins[j].op
  }

  function Sum(coins: seq<Coin>): nat {
    if coins == [] then 0 else coins[0].value + Sum(coins[1..])
  }

  function Find(coins: seq<Coin>, op: OutPoint): (i: nat)
    ensures i <= |coins|
    ensures i < |coins| ==> coins[i].op == op
    ensures forall k :: 0 <= k < i ==> coins[k].op != op
  {
    if coins == [] || coins[0].op == op then 0 else 1 + Find(coins[1..], op)
  }

  /** `get_utxo` finds it. */
  predicate Unspent(coins: seq<Coin>, op: OutPoint) {
    exists i :: 0 <= i < |coins| && coins[i].op == op
  }

  // ---------------------------------------------------------------- the balance

  /** One coin's value, in the part its state puts it in, or in `frozen` whatever its state. */
  function Part(c: Coin, locks: Locks): Balance {
    if c.op in locks then Balance(0, 0, 0, 0, c.value)
    else
      match c.status
      case Confirmed => Balance(c.value, 0, 0, 0, 0)
      case TrustedPending => Balance(0, c.value, 0, 0, 0)
      case UntrustedPending => Balance(0, 0, c.value, 0, 0)
      case Immature => Balance(0, 0, 0, c.value, 0)
  }

  function Plus(a: Balance, b: Balance): Balance {
    Balance(a.confirmed + b.confirmed, a.trusted + b.trusted, a.untrusted + b.untrusted, a.immature + b.immature, a.frozen + b.frozen)
  }

  function BalanceOf(coins: seq<Coin>, locks: Locks): Balance {
    if coins == [] then Balance(0, 0, 0, 0, 0) else Plus(Part(coins[0], locks), BalanceOf(coins[1..], locks))
  }

  lemma PlusTotal(a: Balance, b: Balance)
    ensures Plus(a, b).Total() == a.Total() + b.Total()
  {
  }

  lemma PartTotal(c: Coin, locks: Locks)
    ensures Part(c, locks).Total() == c.value
  {
  }

  lemma BalanceStep(coins: seq<Coin>, locks: Locks, part: Balance, rest: Balance)
    requires coins != [] && part == Part(coins[0], locks) && rest == BalanceOf(coins[1..], locks)
    ensures BalanceOf(coins, locks) == Plus(part, rest)
  {
  }

  lemma CountNext(coins: seq<Coin>, locks: Locks, i: nat, counted: Balance)
    requires i < |coins| && BalanceOf(coins, locks) == Plus(counted, BalanceOf(coins[i..], locks))
    ensures BalanceOf(coins, locks) == Plus(Plus(counted, Part(coins[i], locks)), BalanceOf(coins[i + 1..], locks))
  {
    assert coins[i..][0] == coins[i] && coins[i..][1..] == coins[i + 1..];
    BalanceStep(coins[i..], locks, Part(coins[i], locks), BalanceOf(coins[i + 1..], locks));
  }

  /** Every coin listed is in exactly one part. */
  lemma {:induction false} TotalIsListed(coins: seq<Coin>, locks: Locks)
    ensures BalanceOf(coins, locks).Total() == Sum(coins)
  {
    if coins != [] {
      var part, rest := Part(coins[0], locks), BalanceOf(coins[1..], locks);
      TotalIsListed(coins[1..], locks);
      BalanceStep(coins, locks, part, rest);
      PlusTotal(part, rest);
      PartTotal(coins[0], locks);
    }
  }

  /** What the coins of this state that are not frozen are worth. */
  function UnfrozenValue(coins: seq<Coin>, locks: Locks, status: Status): nat {
    if coins == [] then 0
    else (if coins[0].op !in locks && coins[0].status == status then coins[0].value else 0) + UnfrozenValue(coins[1..], locks, status)
  }

  function FrozenValue(coins: seq<Coin>, locks: Locks): nat {
    if coins == [] then 0 else (if coins[0].op in locks then coins[0].value else 0) + FrozenValue(coins[1..], locks)
  }

  /** What of a coin counts in the part of this state, were it alone and not frozen. */
  function ValueIf(c: Coin, status: Status): nat {
    if c.status == status then c.value else 0
  }

  function PartFor(b: Balance, status: Status): nat {
    match status
    case Confirmed => b.confirmed
    case TrustedPending => b.trusted
    case UntrustedPending => b.untrusted
    case Immature => b.immature
  }

  lemma PartForPlus(a: Balance, b: Balance, status: Status)
    ensures PartFor(Plus(a, b), status) == PartFor(a, status) + PartFor(b, status)
  {
  }

  lemma PartForOne(c: Coin, locks: Locks, status: Status)
    ensures PartFor(Part(c, locks), status) == if c.op in locks then 0 else ValueIf(c, status)
    ensures Part(c, locks).frozen == if c.op in locks then c.value else 0
  {
  }

  lemma {:induction false} PartIsSum(coins: seq<Coin>, locks: Locks, status: Status)
    ensures PartFor(BalanceOf(coins, locks), status) == UnfrozenValue(coins, locks, status)
  {
    if coins != [] {
      var part, rest := Part(coins[0], locks), BalanceOf(coins[1..], locks);
      PartIsSum(coins[1..], locks, status);
      BalanceStep(coins, locks, part, rest);
      PartForPlus(part, rest, status);
      PartForOne(coins[0], locks, status);
    }
  }

  lemma {:induction false} FrozenIsSum(coins: seq<Coin>, locks: Locks)
    ensures BalanceOf(coins, locks).frozen == FrozenValue(coins, locks)
  {
    if coins != [] {
      var part, rest := Part(coins[0], locks), BalanceOf(coins[1..], locks);
      FrozenIsSum(coins[1..], locks);
      BalanceStep(coins, locks, part, rest);
      PartForOne(coins[0], locks, Confirmed);
    }
  }

  /** Each part is what the unfrozen coins of its own state are worth, and the fifth what the frozen ones are. */
  lemma PartsAreSums(coins: seq<Coin>, locks: Locks)
    ensures var b := BalanceOf(coins, locks);
            && b.confirmed == UnfrozenValue(coins, locks, Confirmed)
            && b.trusted == UnfrozenValue(coins, locks, TrustedPending)
            && b.untrusted == UnfrozenValue(coins, locks, UntrustedPending)
            && b.immature == UnfrozenValue(coins, locks, Immature)
            && b.frozen == FrozenValue(coins, locks)
            && b.Spendable() == UnfrozenValue(coins, locks, Confirmed) + UnfrozenValue(coins, locks, TrustedPending)
  {
    PartIsSum(coins, locks, Confirmed);
    PartIsSum(coins, locks, TrustedPending);
    PartIsSum(coins, locks, UntrustedPending);
    PartIsSum(coins, locks, Immature);
    FrozenIsSum(coins, locks);
  }

  lemma {:induction false} OneSettles(coins: seq<Coin>, locks: Locks, i: nat, status: Status, part: Status)
    requires i < |coins|
    ensures var c := coins[i];
            var d := c.(status := status);
            var settled := coins[i := d];
            && FrozenValue(settled, locks) == FrozenValue(coins, locks)
            && (c.op in locks ==> UnfrozenValue(settled, locks, part) == UnfrozenValue(coins, locks, part))
            && (c.op !in locks ==>
                  UnfrozenValue(settled, locks, part) + ValueIf(c, part) == UnfrozenValue(coins, locks, part) + ValueIf(d, part))
  {
    var settled := coins[i := coins[i].(status := status)];
    if i > 0 {
      assert settled[1..] == coins[1..][i - 1 := coins[i].(status := status)];
      OneSettles(coins[1..], locks, i - 1, status, part);
    } else {
      assert settled[1..] == coins[1..];
    }
  }

  /** A coin that settles takes its value from the part of its old state to that of its new one, and nothing else moves. */
  lemma {:induction false} SettlingMovesOneCoin(s: State, i: nat, status: Status, part: Status)
    requires DistinctCoins(s.coins) && i < |s.coins|
    ensures var c := s.coins[i];
            var t := Step(s, Settle(c.op, status));
            && t.locks == s.locks && FrozenValue(t.coins, t.locks) == FrozenValue(s.coins, s.locks)
            && UnfrozenValue(t.coins, t.locks, part) + (if c.op in s.locks then 0 else ValueIf(c, part)) ==
               UnfrozenValue(s.coins, s.locks, part) + (if c.op in s.locks then 0 else ValueIf(c.(status := status), part))
  {
    OneSettles(s.coins, s.locks, i, status, part);
    assert Find(s.coins, s.coins[i].op) == i;
  }

  /** A lock counts only through the coin it is on, so one on a spent coin counts nowhere. */
  lemma {:induction false} OnlyHeldLocksCount(coins: seq<Coin>, locks: Locks, other: Locks)
    requires forall i :: 0 <= i < |coins| ==> (coins[i].op in locks <==> coins[i].op in other)
    ensures BalanceOf(coins, locks) == BalanceOf(coins, other)
  {
    if coins != [] {
      OnlyHeldLocksCount(coins[1..], locks, other);
    }
  }

  lemma {:induction false} PartsMove(coins: seq<Coin>, locks: Locks, i: nat)
    requires DistinctCoins(coins) && i < |coins| && coins[i].op !in locks
    ensures Plus(BalanceOf(coins, locks + {coins[i].op}), Part(coins[i], locks)) ==
            Plus(BalanceOf(coins, locks), Balance(0, 0, 0, 0, coins[i].value))
  {
    var frozen := locks + {coins[i].op};
    if i == 0 {
      OnlyHeldLocksCount(coins[1..], locks, frozen);
    } else {
      PartsMove(coins[1..], locks, i - 1);
      assert Part(coins[0], frozen) == Part(coins[0], locks);
    }
  }

  /** Freezing one coin moves its value, all of it, from its part to `frozen`, and nothing else. */
  lemma {:induction false} FreezeMovesOneCoin(coins: seq<Coin>, locks: Locks, i: nat)
    requires DistinctCoins(coins) && i < |coins| && coins[i].op !in locks
    ensures var c, before, after := coins[i], BalanceOf(coins, locks), BalanceOf(coins, locks + {coins[i].op});
            && Plus(after, Part(c, locks)) == Plus(before, Balance(0, 0, 0, 0, c.value))
            && after.Total() == before.Total()
  {
    var frozen := locks + {coins[i].op};
    TotalIsListed(coins, locks);
    TotalIsListed(coins, frozen);
    PartsMove(coins, locks, i);
  }

  /** The part of a shortfall the message puts down to freezing, and whether freezing is all there is to it. */
  function FrozenAmong(coins: seq<Coin>, locks: Locks, confirmedOnly: bool): nat {
    if coins == [] then 0
    else
      var counts := coins[0].op in locks && (!confirmedOnly || coins[0].status.Confirmed? || coins[0].status.Immature?);
      (if counts then coins[0].value else 0) + FrozenAmong(coins[1..], locks, confirmedOnly)
  }

  predicate AllFrozen(coins: seq<Coin>, locks: Locks) {
    coins != [] && forall i :: 0 <= i < |coins| ==> coins[i].op in locks
  }

  lemma {:induction false} ShortfallIsFrozenPart(coins: seq<Coin>, locks: Locks)
    ensures FrozenAmong(coins, locks, false) == BalanceOf(coins, locks).frozen
    ensures FrozenAmong(coins, locks, true) <= FrozenAmong(coins, locks, false)
    ensures AllFrozen(coins, locks) ==> BalanceOf(coins, locks) == Balance(0, 0, 0, 0, Sum(coins))
  {
    if coins != [] {
      ShortfallIsFrozenPart(coins[1..], locks);
      if AllFrozen(coins, locks) {
        assert coins[0].op in locks;
        assert coins[1..] != [] ==> AllFrozen(coins[1..], locks);
      }
    }
  }

  /** Freezing is all there is to it when there is a coin, and every coin there is is frozen. */
  lemma AllFrozenIs(coins: seq<Coin>, locks: Locks)
    ensures AllFrozen(coins, locks) <==> coins != [] && forall op :: Unspent(coins, op) ==> op in locks
  {
    forall i | 0 <= i < |coins|
      ensures Unspent(coins, coins[i].op)
    {
    }
  }

  /** With only confirmed coins to draw on, that is what the confirmed and immature parts would gain were nothing frozen. */
  lemma {:induction false} ConfirmedShortfall(coins: seq<Coin>, locks: Locks)
    ensures FrozenAmong(coins, locks, true) + UnfrozenValue(coins, locks, Confirmed) + UnfrozenValue(coins, locks, Immature) ==
            UnfrozenValue(coins, {}, Confirmed) + UnfrozenValue(coins, {}, Immature)
  {
    if coins != [] {
      ConfirmedShortfall(coins[1..], locks);
    }
  }

  // ---------------------------------------------------------------- what a build may spend

  datatype CoinError = InvalidTxid(index: nat) | UnknownCoin(op: OutPoint) | FrozenCoin(op: OutPoint)

  /** One chosen coin, None when its txid cannot be read. */
  type CoinId = Option<OutPoint>

  function Choice(coins: seq<Coin>, locks: Locks, ids: seq<CoinId>, i: nat): Result<OutPoint, CoinError>
    requires i < |ids|
  {
    if ids[i].None? then Err(InvalidTxid(i))
    else if !Unspent(coins, ids[i].value) then Err(UnknownCoin(ids[i].value))
    else if ids[i].value in locks then Err(FrozenCoin(ids[i].value))
    else Ok(ids[i].value)
  }

  /** What is wrong with a choice: a txid that cannot be read, a coin that is not ours unspent, or one that is frozen. */
  predicate RefusedFor(coins: seq<Coin>, locks: Locks, ids: seq<CoinId>, e: CoinError) {
    match e
    case InvalidTxid(i) => i < |ids| && ids[i].None?
    case UnknownCoin(op) => Some(op) in ids && forall i :: 0 <= i < |coins| ==> coins[i].op != op
    case FrozenCoin(op) => Some(op) in ids && Unspent(coins, op) && op in locks
  }

  /** The outpoints of a parent that a child spends, in order. */
  function OursOf(coins: seq<Coin>, locks: Locks, txid: Txid, vouts: nat): seq<OutPoint> {
    if vouts == 0 then []
    else
      var op := OutPoint(txid, vouts - 1);
      OursOf(coins, locks, txid, vouts - 1) + if Unspent(coins, op) && op !in locks then [op] else []
  }

  /** They are all the parent's coins of ours that are unspent and not frozen, and no others. */
  lemma {:induction false} OursOfIsAll(coins: seq<Coin>, locks: Locks, txid: Txid, vouts: nat, op: OutPoint)
    ensures op in OursOf(coins, locks, txid, vouts) <==>
            op.txid == txid && op.vout < vouts && Unspent(coins, op) && op !in locks
  {
    if vouts > 0 {
      OursOfIsAll(coins, locks, txid, vouts - 1, op);
      assert op.vout == vouts - 1 && op.txid == txid ==> op == OutPoint(txid, vouts - 1);
    }
  }

  // ---------------------------------------------------------------- runs

  /** A transaction built here: the coins it spends, what it pays to others, the outputs of ours, and the fee. */
  datatype Build = Build(inputs: seq<OutPoint>, toOthers: nat, ours: seq<Coin>, fee: nat)

  predicate Allowed(coins: seq<Coin>, locks: Locks, inputs: seq<OutPoint>) {
    && (forall i, j :: 0 <= i < j < |inputs| ==> inputs[i] != inputs[j])
    && (forall i :: 0 <= i < |inputs| ==> Unspent(coins, inputs[i]) && inputs[i] !in locks)
  }

  function Drop(coins: seq<Coin>, op: OutPoint): seq<Coin> {
    var i := Find(coins, op);
    if i == |coins| then coins else coins[..i] + coins[i + 1..]
  }

  function DropAll(coins: seq<Coin>, ops: seq<OutPoint>): seq<Coin> {
    if ops == [] then coins else DropAll(Drop(coins, ops[0]), ops[1..])
  }

  function Worth(coins: seq<Coin>, op: OutPoint): nat {
    var i := Find(coins, op);
    if i == |coins| then 0 else coins[i].value
  }

  function WorthAll(coins: seq<Coin>, ops: seq<OutPoint>): nat {
    if ops == [] then 0 else Worth(coins, ops[0]) + WorthAll(Drop(coins, ops[0]), ops[1..])
  }

  /** `sent` are the transactions built here that are out and might be replaced. */
  datatype State = State(coins: seq<Coin>, locks: Locks, sent: set<Build>)

  datatype Event =
    | Receive(coin: Coin)
    | Settle(op: OutPoint, status: Status)
    | SpentElsewhere(op: OutPoint)
    | SetFrozen(op: OutPoint, frozen: bool)
    | Broadcast(build: Build)
    | Replace(original: Build, build: Build)

  /** What broadcast needs of a build: its coins still there, its new outputs new, and its sums in balance. */
  predicate Balanced(coins: seq<Coin>, b: Build) {
    && (forall i :: 0 <= i < |b.inputs| ==> Unspent(coins, b.inputs[i]))
    && WorthAll(coins, b.inputs) == b.toOthers + Sum(b.ours) + b.fee
    && DistinctCoins(coins + b.ours)
  }

  function OpsOf(coins: seq<Coin>): (ops: seq<OutPoint>)
    ensures |ops| == |coins| && forall i :: 0 <= i < |coins| ==> ops[i] == coins[i].op
  {
    seq(|coins|, i requires 0 <= i < |coins| => coins[i].op)
  }

  /** The coins a replacement spends beside the original's own. */
  function Added(original: Build, b: Build): seq<OutPoint> {
    if original.inputs <= b.inputs then b.inputs[|original.inputs|..] else b.inputs
  }

  /** The coins listed now that replacing takes: what the original made for us, and what the replacement adds. */
  function Retaken(original: Build, b: Build): seq<OutPoint> {
    OpsOf(original.ours) + Added(original, b)
  }

  /**
   What a bump or a cancel needs: it spends all the original spends, what the original made for
   us is still there whole, any coins it adds are too, and its sums are in balance.
   */
  predicate Rebalanced(coins: seq<Coin>, original: Build, b: Build) {
    && original.inputs <= b.inputs
    && (forall op :: op in Retaken(original, b) ==> Unspent(coins, op))
    && WorthAll(coins, Retaken(original, b)) + original.toOthers + original.fee == b.toOthers + Sum(b.ours) + b.fee
    && DistinctCoins(coins + b.ours)
  }

  predicate Enabled(s: State, e: Event) {
    match e
    case Receive(coin) => !Unspent(s.coins, coin.op)
    case Settle(op, _) => Unspent(s.coins, op)
    case SpentElsewhere(op) => Unspent(s.coins, op)
    case SetFrozen(op, frozen) => frozen ==> Unspent(s.coins, op)
    case Broadcast(b) => Balanced(s.coins, b)
    case Replace(original, b) => original in s.sent && Rebalanced(s.coins, original, b)
  }

  function Step(s: State, e: Event): State {
    if !Enabled(s, e) then s else
    match e
    case Receive(coin) => s.(coins := s.coins + [coin])
    case Settle(op, status) =>
      var i := Find(s.coins, op);
      if i == |s.coins| then s else s.(coins := s.coins[i := s.coins[i].(status := status)])
    case SpentElsewhere(op) => s.(coins := Drop(s.coins, op))
    case SetFrozen(op, frozen) => s.(locks := if frozen then s.locks + {op} else s.locks - {op})
    case Broadcast(b) => s.(coins := DropAll(s.coins, b.inputs) + b.ours, sent := s.sent + {b})
    case Replace(original, b) =>
      s.(coins := DropAll(s.coins, Retaken(original, b)) + b.ours, sent := s.sent - {original} + {b})
  }

  function Run(s: State, es: seq<Event>): State {
    if es == [] then s else Step(Run(s, es[..|es| - 1]), es[|es| - 1])
  }

  /** What a step adds to the wallet, or takes from it. */
  function Flow(s: State, e: Event): int {
    if !Enabled(s, e) then 0 else
    match e
    case Receive(coin) => coin.value
    case SpentElsewhere(op) => -(Worth(s.coins, op) as int)
    case Broadcast(b) => -((b.fee + b.toOthers) as int)
    case Replace(original, b) => (original.fee + original.toOthers) as int - (b.fee + b.toOthers) as int
    case Settle(_, _) | SetFrozen(_, _) => 0
  }

  function FlowOf(s: State, es: seq<Event>): int {
    if es == [] then 0 else FlowOf(s, es[..|es| - 1]) + Flow(Run(s, es[..|es| - 1]), es[|es| - 1])
  }

  /** What is out and might be replaced: what was broadcast, but for what a replacement took the place of. */
  lemma SentExactly(s: State, e: Event, b: Build)
    ensures b in Step(s, e).sent <==>
            match e
            case Broadcast(sent) => b in s.sent || (Enabled(s, e) && b == sent)
            case Replace(original, replacement) =>
              if Enabled(s, e) then b == replacement || (b in s.sent && b != original) else b in s.sent
            case _ => b in s.sent
  {
  }

  lemma {:induction false} SumConcat(a: seq<Coin>, b: seq<Coin>)
    ensures Sum(a + b) == Sum(a) + Sum(b)
  {
    if a == [] {
      assert a + b == b;
    } else {
      assert (a + b)[1..] == a[1..] + b;
      SumConcat(a[1..], b);
    }
  }

  lemma DropTakesWorth(coins: seq<Coin>, op: OutPoint)
    ensures Sum(Drop(coins, op)) + Worth(coins, op) == Sum(coins)
  {
    var i := Find(coins, op);
    if i < |coins| {
      SumConcat(coins[..i], coins[i + 1..]);
      assert coins == coins[..i] + ([coins[i]] + coins[i + 1..]);
      SumConcat(coins[..i], [coins[i]] + coins[i + 1..]);
    }
  }

  lemma {:induction false} DropAllTakesWorth(coins: seq<Coin>, ops: seq<OutPoint>)
    ensures Sum(DropAll(coins, ops)) + WorthAll(coins, ops) == Sum(coins)
  {
    if ops != [] {
      DropTakesWorth(coins, ops[0]);
      DropAllTakesWorth(Drop(coins, ops[0]), ops[1..]);
    }
  }

  /** Broadcasting a build lowers what is listed by its fee and what it pays to others. */
  lemma BroadcastCosts(coins: seq<Coin>, b: Build)
    requires Balanced(coins, b)
    ensures Sum(DropAll(coins, b.inputs) + b.ours) + b.fee + b.toOthers == Sum(coins)
  {
    DropAllTakesWorth(coins, b.inputs);
    SumConcat(DropAll(coins, b.inputs), b.ours);
  }

  /** Replacing gives back what the original cost and paid away, and costs and pays away its own. */
  lemma ReplacingCosts(coins: seq<Coin>, original: Build, b: Build)
    requires Rebalanced(coins, original, b)
    ensures Sum(DropAll(coins, Retaken(original, b)) + b.ours) + b.fee + b.toOthers == Sum(coins) + original.fee + original.toOthers
  {
    DropAllTakesWorth(coins, Retaken(original, b));
    SumConcat(DropAll(coins, Retaken(original, b)), b.ours);
  }

  lemma SettleKeepsSum(coins: seq<Coin>, i: nat, status: Status)
    requires i < |coins|
    ensures Sum(coins[i := coins[i].(status := status)]) == Sum(coins)
  {
    var c := coins[i].(status := status);
    assert coins[i := c] == coins[..i] + ([c] + coins[i + 1..]);
    assert coins == coins[..i] + ([coins[i]] + coins[i + 1..]);
    SumConcat(coins[..i], [c] + coins[i + 1..]);
    SumConcat(coins[..i], [coins[i]] + coins[i + 1..]);
  }

  lemma StepFlows(s: State, e: Event)
    ensures Sum(Step(s, e).coins) == Sum(s.coins) + Flow(s, e)
  {
    if Enabled(s, e) {
      match e
      case Receive(coin) =>
        SumConcat(s.coins, [coin]);
        assert Sum([coin]) == coin.value + Sum([coin][1..]);
      case Settle(op, status) =>
        if Find(s.coins, op) < |s.coins| {
          SettleKeepsSum(s.coins, Find(s.coins, op), status);
        }
      case SpentElsewhere(op) => DropTakesWorth(s.coins, op);
      case SetFrozen(_, _) =>
      case Broadcast(b) => BroadcastCosts(s.coins, b);
      case Replace(original, b) => ReplacingCosts(s.coins, original, b);
    }
  }

  /** Over any run the balance is what was there and what came and went; freezing and confirming count for nothing. */
  lemma {:induction false} RunBalances(s: State, es: seq<Event>)
    ensures BalanceOf(Run(s, es).coins, Run(s, es).locks).Total() == BalanceOf(s.coins, s.locks).Total() + FlowOf(s, es)
  {
    var t := Run(s, es);
    TotalIsListed(s.coins, s.locks);
    TotalIsListed(t.coins, t.locks);
    if es != [] {
      var r := Run(s, es[..|es| - 1]);
      RunBalances(s, es[..|es| - 1]);
      TotalIsListed(r.coins, r.locks);
      StepFlows(r, es[|es| - 1]);
    }
  }

  // ---------------------------------------------------------------- what takes a coin

  lemma DropIs(coins: seq<Coin>, op: OutPoint, other: OutPoint)
    requires DistinctCoins(coins)
    ensures DistinctCoins(Drop(coins, op))
    ensures Unspent(Drop(coins, op), other) <==> Unspent(coins, other) && other != op
  {
    var i, rest := Find(coins, op), Drop(coins, op);
    if i < |coins| {
      assert forall j :: 0 <= j < |rest| ==> rest[j] == coins[if j < i then j else j + 1];
      if Unspent(coins, other) && other != op {
        var j :| 0 <= j < |coins| && coins[j].op == other;
        assert rest[if j < i then j else j - 1].op == other;
      }
    }
  }

  lemma {:induction false} DropAllIs(coins: seq<Coin>, ops: seq<OutPoint>, other: OutPoint)
    requires DistinctCoins(coins)
    ensures DistinctCoins(DropAll(coins, ops))
    ensures Unspent(DropAll(coins, ops), other) <==> Unspent(coins, other) && other !in ops
  {
    if ops != [] {
      DropIs(coins, ops[0], other);
      DropAllIs(Drop(coins, ops[0]), ops[1..], other);
    }
  }

  lemma ConcatUnspent(a: seq<Coin>, b: seq<Coin>, op: OutPoint)
    ensures Unspent(a + b, op) <==> Unspent(a, op) || Unspent(b, op)
  {
    if Unspent(a, op) {
      var i :| 0 <= i < |a| && a[i].op == op;
      assert (a + b)[i].op == op;
    }
    if Unspent(b, op) {
      var i :| 0 <= i < |b| && b[i].op == op;
      assert (a + b)[|a| + i].op == op;
    }
  }

  /** Coins taken and new ones added: still distinct, and a coin that was there is there exactly when it was not taken. */
  lemma {:induction false} TakenAndAdded(coins: seq<Coin>, ops: seq<OutPoint>, ours: seq<Coin>, op: OutPoint)
    requires DistinctCoins(coins + ours)
    ensures DistinctCoins(DropAll(coins, ops) + ours)
    ensures Unspent(coins, op) ==> (Unspent(DropAll(coins, ops) + ours, op) <==> op !in ops)
  {
    var all, kept := coins + ours, DropAll(coins, ops);
    assert forall i :: 0 <= i < |coins| ==> all[i] == coins[i];
    assert forall i :: 0 <= i < |ours| ==> all[|coins| + i] == ours[i];
    DropAllIs(coins, ops, op);
    ConcatUnspent(kept, ours, op);
    forall i, j | 0 <= i < |kept| && 0 <= j < |ours|
      ensures kept[i].op != ours[j].op
    {
      DropAllIs(coins, ops, kept[i].op);
      assert Unspent(kept, kept[i].op);
      var k :| 0 <= k < |coins| && coins[k].op == kept[i].op;
      assert all[k].op != all[|coins| + j].op;
    }
  }

  /** The events after which a coin is no longer there, by what a caller can see before them. */
  predicate Takes(s: State, e: Event, op: OutPoint) {
    match e
    case SpentElsewhere(other) => Enabled(s, e) && other == op
    case Broadcast(b) => Enabled(s, e) && op in b.inputs
    case Replace(original, b) => Enabled(s, e) && op in Retaken(original, b)
    case _ => false
  }

  lemma ReceivedDistinct(coins: seq<Coin>, coin: Coin, op: OutPoint)
    requires DistinctCoins(coins) && !Unspent(coins, coin.op)
    ensures DistinctCoins(coins + [coin])
    ensures Unspent(coins, op) ==> Unspent(coins + [coin], op)
  {
    ConcatUnspent(coins, [coin], op);
  }

  lemma SettledUnspent(coins: seq<Coin>, i: nat, status: Status, op: OutPoint)
    requires DistinctCoins(coins) && i < |coins|
    ensures var t := coins[i := coins[i].(status := status)]; DistinctCoins(t) && (Unspent(t, op) <==> Unspent(coins, op))
  {
    var t := coins[i := coins[i].(status := status)];
    assert forall j :: 0 <= j < |coins| ==> t[j].op == coins[j].op;
  }

  /** A coin that is there stays exactly when the event does not take it. */
  lemma StepKeepsIff(s: State, e: Event, op: OutPoint)
    requires DistinctCoins(s.coins)
    ensures DistinctCoins(Step(s, e).coins)
    ensures Unspent(s.coins, op) ==> (Unspent(Step(s, e).coins, op) <==> !Takes(s, e, op))
  {
    if Enabled(s, e) {
      match e
      case Receive(coin) => ReceivedDistinct(s.coins, coin, op);
      case Settle(other, status) =>
        if Find(s.coins, other) < |s.coins| {
          SettledUnspent(s.coins, Find(s.coins, other), status, op);
        }
      case SpentElsewhere(other) => DropIs(s.coins, other, op);
      case SetFrozen(_, _) =>
      case Broadcast(b) => TakenAndAdded(s.coins, b.inputs, b.ours, op);
      case Replace(original, b) => TakenAndAdded(s.coins, Retaken(original, b), b.ours, op);
    }
  }

  lemma {:induction false} RunKeepsDistinct(s: State, es: seq<Event>)
    requires DistinctCoins(s.coins)
    ensures DistinctCoins(Run(s, es).coins)
  {
    if es != [] {
      RunKeepsDistinct(s, es[..|es| - 1]);
      StepKeepsIff(Run(s, es[..|es| - 1]), es[|es| - 1], OutPoint("", 0));
    }
  }

  // ---------------------------------------------------------------- frozen coins over a run

  /** There and frozen, all along. */
  predicate StaysFrozen(s: State, es: seq<Event>, op: OutPoint) {
    forall k :: 0 <= k <= |es| ==> Unspent(Run(s, es[..k]).coins, op) && op in Run(s, es[..k]).locks
  }

  /** The event neither takes the coin nor unfreezes it. */
  predicate Spares(s: State, e: Event, op: OutPoint) {
    match e
    case SetFrozen(other, frozen) => other == op ==> frozen
    case _ => !Takes(s, e, op)
  }

  predicate AllSpare(s: State, es: seq<Event>, op: OutPoint) {
    forall k :: 0 <= k < |es| ==> Spares(Run(s, es[..k]), es[k], op)
  }

  /** What holds after every beginning of a run, one event longer. */
  lemma BeginningsSnoc(p: seq<Event> -> bool, es: seq<Event>, e: Event)
    ensures (forall k :: 0 <= k <= |es| + 1 ==> p((es + [e])[..k])) <==> (forall k :: 0 <= k <= |es| ==> p(es[..k])) && p(es + [e])
  {
    var fs := es + [e];
    assert fs[..|fs|] == fs;
    forall k | 0 <= k <= |es|
      ensures fs[..k] == es[..k]
    {
    }
  }

  lemma {:induction false} StaysFrozenSnoc(s: State, es: seq<Event>, e: Event, op: OutPoint)
    ensures StaysFrozen(s, es + [e], op) <==>
            StaysFrozen(s, es, op) && Unspent(Run(s, es + [e]).coins, op) && op in Run(s, es + [e]).locks
  {
    BeginningsSnoc(front => Unspent(Run(s, front).coins, op) && op in Run(s, front).locks, es, e);
  }

  lemma {:induction false} AllSpareSnoc(s: State, es: seq<Event>, e: Event, op: OutPoint)
    ensures AllSpare(s, es + [e], op) <==> AllSpare(s, es, op) && Spares(Run(s, es), e, op)
  {
    var fs := es + [e];
    forall k: nat | k <= |es|
      ensures fs[..k] == es[..k] && fs[k] == if k < |es| then es[k] else e
    {
    }
    assert es[..|es|] == es;
    if AllSpare(s, fs, op) {
      assert Spares(Run(s, fs[..|es|]), fs[|es|], op);
      forall k | 0 <= k < |es|
        ensures Spares(Run(s, es[..k]), es[k], op)
      {
        assert Spares(Run(s, fs[..k]), fs[k], op);
      }
    }
  }

  lemma FrozenStep(s: State, e: Event, op: OutPoint)
    requires DistinctCoins(s.coins) && Unspent(s.coins, op) && op in s.locks
    ensures Unspent(Step(s, e).coins, op) && op in Step(s, e).locks <==> Spares(s, e, op)
  {
    StepKeepsIff(s, e, op);
  }

  /** Staying frozen through one more event. */
  lemma {:induction false} StaysFrozenOneMore(s: State, es: seq<Event>, e: Event, op: OutPoint)
    requires DistinctCoins(s.coins)
    ensures StaysFrozen(s, es + [e], op) <==> StaysFrozen(s, es, op) && Spares(Run(s, es), e, op)
  {
    StaysFrozenSnoc(s, es, e, op);
    RunKeepsDistinct(s, es);
    assert (es + [e])[..|es|] == es;
    if StaysFrozen(s, es, op) {
      assert es[..|es|] == es;
      FrozenStep(Run(s, es), e, op);
    }
  }

  /**
   A frozen coin stays there and frozen exactly when it is not unfrozen, not spent elsewhere, and
   neither named by a build that is broadcast nor taken by a replacement.
   */
  lemma {:induction false} FrozenStaysIff(s: State, es: seq<Event>, op: OutPoint)
    requires DistinctCoins(s.coins) && Unspent(s.coins, op) && op in s.locks
    ensures StaysFrozen(s, es, op) <==> AllSpare(s, es, op)
  {
    if es == [] {
      assert forall k :: 0 <= k <= |es| ==> es[..k] == [];
    } else {
      var front, e := es[..|es| - 1], es[|es| - 1];
      assert front + [e] == es;
      FrozenStaysIff(s, front, op);
      AllSpareSnoc(s, front, e, op);
      StaysFrozenOneMore(s, front, e, op);
    }
  }

  /** These coins were free to spend at some moment of this run: a build of them could be made then. */
  predicate BuiltDuring(s: State, es: seq<Event>, ops: seq<OutPoint>) {
    exists m :: 0 <= m <= |es| && Allowed(Run(s, es[..m]).coins, Run(s, es[..m]).locks, ops)
  }

  /**
   The event after these leaves a coin alone: nobody else takes it nor unfreezes it, and what is
   broadcast was built, and what a replacement adds was chosen, since.
   */
  predicate LeavesAlone(s: State, es: seq<Event>, e: Event, op: OutPoint) {
    match e
    case SpentElsewhere(other) => other != op
    case SetFrozen(other, frozen) => other == op ==> frozen
    case Broadcast(b) => BuiltDuring(s, es, b.inputs)
    case Replace(original, b) => op !in OpsOf(original.ours) && BuiltDuring(s, es, Added(original, b))
    case _ => true
  }

  predicate AllLeaveAlone(s: State, es: seq<Event>, op: OutPoint) {
    forall k :: 0 <= k < |es| ==> LeavesAlone(s, es[..k], es[k], op)
  }

  lemma {:induction false} BuiltAvoids(s: State, es: seq<Event>, ops: seq<OutPoint>, op: OutPoint)
    requires StaysFrozen(s, es, op) && BuiltDuring(s, es, ops)
    ensures op !in ops
  {
    var m :| 0 <= m <= |es| && Allowed(Run(s, es[..m]).coins, Run(s, es[..m]).locks, ops);
  }

  lemma {:induction false} LeavingSpares(s: State, es: seq<Event>, e: Event, op: OutPoint)
    requires StaysFrozen(s, es, op) && LeavesAlone(s, es, e, op)
    ensures Spares(Run(s, es), e, op)
  {
    match e
    case Broadcast(b) => BuiltAvoids(s, es, b.inputs, op);
    case Replace(original, b) => BuiltAvoids(s, es, Added(original, b), op);
    case _ =>
  }

  lemma AllLeaveAloneSnoc(s: State, es: seq<Event>, e: Event, op: OutPoint)
    requires AllLeaveAlone(s, es + [e], op)
    ensures AllLeaveAlone(s, es, op) && LeavesAlone(s, es, e, op)
  {
    var fs := es + [e];
    forall k | 0 <= k <= |es|
      ensures LeavesAlone(s, es[..k], fs[k], op)
    {
      assert fs[..k] == es[..k];
      assert k < |fs|;
    }
    assert es[..|es|] == es;
  }

  /** So no build made while a coin is frozen ever spends it, however late it is broadcast. */
  lemma {:induction false} FrozenStays(s: State, es: seq<Event>, op: OutPoint)
    requires DistinctCoins(s.coins) && Unspent(s.coins, op) && op in s.locks && AllLeaveAlone(s, es, op)
    ensures StaysFrozen(s, es, op)
  {
    if es == [] {
      assert forall k :: 0 <= k <= |es| ==> es[..k] == [];
    } else {
      var front, e := es[..|es| - 1], es[|es| - 1];
      assert front + [e] == es;
      AllLeaveAloneSnoc(s, front, e, op);
      FrozenStays(s, front, op);
      LeavingSpares(s, front, e, op);
      StaysFrozenOneMore(s, front, e, op);
    }
  }

  /** A build made before the freezing is not recalled: broadcast after it, it spends the coin exactly when it names it. */
  lemma LateBroadcastSpendsIff(s: State, b: Build, op: OutPoint)
    requires DistinctCoins(s.coins) && Unspent(s.coins, op) && Balanced(s.coins, b)
    ensures var frozen := Step(s, SetFrozen(op, true));
            && op in frozen.locks && Unspent(frozen.coins, op)
            && (Unspent(Step(frozen, Broadcast(b)).coins, op) <==> op !in b.inputs)
  {
    StepKeepsIff(Step(s, SetFrozen(op, true)), Broadcast(b), op);
  }

  /** The outputs of its parent that a child spends make a build it may make. */
  lemma {:induction false} ChildIsAllowed(coins: seq<Coin>, locks: Locks, txid: Txid, vouts: nat)
    ensures Allowed(coins, locks, OursOf(coins, locks, txid, vouts))
  {
    if vouts > 0 {
      var before := OursOf(coins, locks, txid, vouts - 1);
      ChildIsAllowed(coins, locks, txid, vouts - 1);
      OursOfIsAll(coins, locks, txid, vouts - 1, OutPoint(txid, vouts - 1));
      assert OursOf(coins, locks, txid, vouts)[..|before|] == before;
    }
  }

  // ---------------------------------------------------------------- the code itself

  class Wallet {
    var coins: seq<Coin>
    var locks: Locks

    ghost var sent: set<Build>

    constructor (coins: seq<Coin>, locks: Locks)
      ensures Snapshot() == State(coins, locks, {})
    {
      this.coins, this.locks, sent := coins, locks, {};
    }

    ghost function Snapshot(): State
      reads this
    {
      State(coins, locks, sent)
    }

    method GetUtxo(op: OutPoint) returns (found: bool)
      ensures found <==> Unspent(coins, op)
    {
      found := false;
      for i := 0 to |coins|
        invariant !found && forall k :: 0 <= k < i ==> coins[k].op != op
      {
        if coins[i].op == op {
          return true;
        }
      }
    }

    /** `set_frozen`: only an unspent coin of ours can be frozen, and unfreezing is always accepted. */
    method SetFrozen(op: OutPoint, frozen: bool) returns (ok: bool)
      modifies this
      ensures ok <==> old(Enabled(Snapshot(), Event.SetFrozen(op, frozen)))
      ensures ok <==> !frozen || old(Unspent(coins, op))
      ensures coins == old(coins) && (ok ==> (op in locks <==> frozen)) && (!ok ==> locks == old(locks))
      ensures forall other :: other != op ==> (other in locks <==> other in old(locks))
      ensures Snapshot() == Step(old(Snapshot()), Event.SetFrozen(op, frozen))
    {
      if frozen {
        var found := GetUtxo(op);
        if !found {
          return false;
        }
        locks := locks + {op};
      } else {
        locks := locks - {op};
      }
      ok := true;
    }

    /** `balance`: the unfrozen coins by state, and the frozen ones in one sum. */
    method GetBalance() returns (b: Balance)
      ensures b == BalanceOf(coins, locks)
      ensures b.confirmed == UnfrozenValue(coins, locks, Confirmed) && b.trusted == UnfrozenValue(coins, locks, TrustedPending)
      ensures b.untrusted == UnfrozenValue(coins, locks, UntrustedPending) && b.immature == UnfrozenValue(coins, locks, Immature)
      ensures b.frozen == FrozenValue(coins, locks)
    {
      var confirmed: nat, trusted: nat, untrusted: nat, immature: nat, frozen: nat := 0, 0, 0, 0, 0;
      for i := 0 to |coins|
        invariant BalanceOf(coins, locks) ==
                  Plus(Balance(confirmed, trusted, untrusted, immature, frozen), BalanceOf(coins[i..], locks))
      {
        CountNext(coins, locks, i, Balance(confirmed, trusted, untrusted, immature, frozen));
        var c := coins[i];
        if c.op in locks {
          frozen := frozen + c.value;
        } else {
          match c.status
          case Confirmed => confirmed := confirmed + c.value;
          case TrustedPending => trusted := trusted + c.value;
          case UntrustedPending => untrusted := untrusted + c.value;
          case Immature => immature := immature + c.value;
        }
      }
      b := Balance(confirmed, trusted, untrusted, immature, frozen);
      PartsAreSums(coins, locks);
    }

    /** `chosen_outpoints`: all of them, each unspent and unfrozen, or what is wrong with the first that is not. */
    method ChosenOutpoints(ids: seq<CoinId>) returns (r: Result<seq<OutPoint>, CoinError>)
      ensures r.Ok? <==> forall i :: 0 <= i < |ids| ==> Choice(coins, locks, ids, i).Ok?
      ensures r.Ok? ==> |r.value| == |ids| && forall i :: 0 <= i < |ids| ==>
                ids[i] == Some(r.value[i]) && Unspent(coins, r.value[i]) && r.value[i] !in locks
      ensures r.Ok? && (forall i, j :: 0 <= i < j < |ids| ==> ids[i] != ids[j]) ==> Allowed(coins, locks, r.value)
      ensures r.Err? ==> exists i :: 0 <= i < |ids| && Choice(coins, locks, ids, i) == Err(r.error)
                                     && forall k :: 0 <= k < i ==> Choice(coins, locks, ids, k).Ok?
      ensures r.Err? ==> RefusedFor(coins, locks, ids, r.error)
    {
      var out := [];
      for i := 0 to |ids|
        invariant |out| == i
        invariant forall k :: 0 <= k < i ==> Choice(coins, locks, ids, k) == Ok(out[k])
      {
        ghost var choice := Choice(coins, locks, ids, i);
        if ids[i].None? {
          assert choice == Err(InvalidTxid(i));
          return Err(InvalidTxid(i));
        }
        var op := ids[i].value;
        var found := GetUtxo(op);
        if !found {
          assert choice == Err(UnknownCoin(op));
          return Err(UnknownCoin(op));
        }
        if op in locks {
          assert choice == Err(FrozenCoin(op));
          return Err(FrozenCoin(op));
        }
        out := out + [op];
      }
      r := Ok(out);
    }

    /** The outputs of `txid` a child spends. */
    method ChildInputs(txid: Txid, vouts: nat) returns (ours: seq<OutPoint>)
      ensures ours == OursOf(coins, locks, txid, vouts)
    {
      ours := [];
      for vout := 0 to vouts
        invariant ours == OursOf(coins, locks, txid, vout)
      {
        var op := OutPoint(txid, vout);
        var found := GetUtxo(op);
        if found && op !in locks {
          ours := ours + [op];
        }
      }
    }
  }
}
