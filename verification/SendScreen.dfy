/**
 The Send screen (packages/wallet-ui/src/screens/send.ts): the form, Max, Review and Confirm.

 Max and Review each build over an await while the form can be edited, and the first fee
 estimate lands when it likes.  An event is one user action or the code after one await;
 `Run` folds any sequence of them.  Users act only on controls that are enabled: the form's
 own while it is unlocked, but Max and Review even while it is locked, since `withBusy`
 enables them again when their work ends.
 */
module SendScreen {
  import opened Amounts
  import opened FeeTargets
  import opened Rates
  import opened Text
  import opened Wrappers

  /** What the screen calls and this model does not look into. */
  datatype Env = Env(
    round: nat -> nat,               // how a double holds a whole number
    number: string -> Option<real>,  // `Number`, None when not finite
    show: real -> string,            // `String` of a rate
    valid: string -> bool)           // `addressLooksValid` on the wallet's network

  datatype Row = Row(address: string, amount: string, unit: Unit)

  datatype Recipient = Recipient(address: string, sats: nat)

  type Coins = Option<seq<nat>>

  /** What the form held when Review was pressed. */
  datatype Asked = Asked(recipients: seq<Recipient>, rate: real, coins: Coins)

  /** What the core was asked to build. */
  datatype Order = Transfer(asked: Asked) | Drain(address: string, rate: real, coins: Coins)

  datatype Preview = Preview(id: nat, order: Order, totalOut: nat)

  /** What a preview pays, at which rate, from which coins. */
  function Terms(p: Preview): Asked {
    match p.order
    case Transfer(asked) => asked
    case Drain(address, rate, coins) => Asked([Recipient(address, p.totalOut)], rate, coins)
  }

  /** A Review card: the preview its Confirm sends, and what was asked for. */
  datatype Card = Card(preview: Preview, asked: Asked)

  /** Work over an await; a build carries its preview once the core has answered. */
  datatype Task =
    | MaxBuild(turn: nat, order: Order, built: Option<Preview>)
    | ReviewBuild(turn: nat, asked: Asked, built: Option<Preview>)
    | Confirming(signed: bool)
    | Editing
    | Ended

  datatype State = State(
    rows: seq<Row>,
    feeText: string,
    coins: Coins,
    rateTouched: bool,
    target: nat,
    estimate: Option<seq<Entry>>,
    locked: bool,
    onScreen: bool,
    drain: Option<Preview>,
    drainSeq: nat,
    preview: Option<Preview>,
    card: Option<Card>,
    tasks: seq<Task>,
    counter: nat,
    pending: set<nat>,
    signed: seq<Card>)

  /** What changes the form: the user's edits, and the first fee estimate when it lands. */
  datatype Change =
    | EditAddress(i: nat, text: string)
    | EditAmount(i: nat, text: string)
    | SwitchUnit(i: nat, unit: Unit)
    | EditRate(text: string)
    | PickTarget(target: nat)
    | AddRow
    | RemoveRow(i: nat)
    | LetChoose
    | EstimateLands(entries: seq<Entry>)

  datatype Event =
    | Form(change: Change)
    | PressMax
    | MaxBuilt(k: nat, totalOut: nat)
    | MaxReturns(k: nat)
    | PressReview
    | ReviewBuilt(k: nat)
    | ReviewReturns(k: nat)
    | BuildFails(k: nat)
    | PressConfirm
    | ConfirmSucceeds(k: nat)
    | ConfirmFails(k: nat)
    | PressEdit
    | EditReturns(k: nat)
    | WalletCloses
    | WalletReopens
    | Leave

  // ---------------------------------------------------------------- the screen's own functions

  function CurrentRate(env: Env, feeText: string): real {
    FieldRate(env.number(feeText))
  }

  /** What one row pays; None while its address or its amount is not good. */
  function RowPays(env: Env, row: Row): Option<Recipient> {
    var address := JsTrim(row.address);
    var sats := ParseAmount(env.round, row.amount, row.unit).sats;
    if address == "" || !env.valid(address) || sats.None? then None else Some(Recipient(address, sats.value))
  }

  function CollectRecipients(env: Env, rows: seq<Row>): Option<seq<Recipient>> {
    if rows == [] then Some([])
    else After(RowPays(env, rows[0]), CollectRecipients(env, rows[1..]))
  }

  function After(first: Option<Recipient>, rest: Option<seq<Recipient>>): Option<seq<Recipient>> {
    if first.None? || rest.None? then None else Some([first.value] + rest.value)
  }

  /** What a row says: its address without the space around it, good on this network, and its amount in sats. */
  predicate RowSays(env: Env, row: Row, r: Recipient) {
    && r.address == JsTrim(row.address) && r.address != "" && env.valid(r.address)
    && ParseAmount(env.round, row.amount, row.unit).sats == Some(r.sats)
  }

  /** Nothing to pay, or nobody, on this network. */
  predicate RowIsBad(env: Env, row: Row) {
    JsTrim(row.address) == "" || !env.valid(JsTrim(row.address)) || ParseAmount(env.round, row.amount, row.unit).sats.None?
  }

  lemma RowPaysSays(env: Env, row: Row)
    ensures RowPays(env, row).None? <==> RowIsBad(env, row)
    ensures RowPays(env, row).Some? ==> RowSays(env, row, RowPays(env, row).value)
  {
  }

  lemma CollectsFirst(env: Env, rows: seq<Row>)
    requires rows != []
    ensures CollectRecipients(env, rows).None? <==> RowPays(env, rows[0]).None? || CollectRecipients(env, rows[1..]).None?
    ensures CollectRecipients(env, rows).Some? ==>
              CollectRecipients(env, rows).value == [RowPays(env, rows[0]).value] + CollectRecipients(env, rows[1..]).value
  {
  }

  predicate AllSay(env: Env, rows: seq<Row>, rs: seq<Recipient>) {
    |rs| == |rows| && forall i :: 0 <= i < |rows| ==> RowSays(env, rows[i], rs[i])
  }

  predicate SomeRowIsBad(env: Env, rows: seq<Row>) {
    exists i :: 0 <= i < |rows| && RowIsBad(env, rows[i])
  }

  lemma AllSayMore(env: Env, rows: seq<Row>, r: Recipient, rs: seq<Recipient>)
    requires rows != [] && RowSays(env, rows[0], r) && AllSay(env, rows[1..], rs)
    ensures AllSay(env, rows, [r] + rs)
  {
    forall i | 0 <= i < |rows|
      ensures RowSays(env, rows[i], ([r] + rs)[i])
    {
      if i > 0 {
        assert RowSays(env, rows[1..][i - 1], rs[i - 1]);
      }
    }
  }

  lemma BadRowTail(env: Env, rows: seq<Row>)
    requires rows != []
    ensures SomeRowIsBad(env, rows) <==> RowIsBad(env, rows[0]) || SomeRowIsBad(env, rows[1..])
  {
    if SomeRowIsBad(env, rows[1..]) {
      var i :| 0 <= i < |rows[1..]| && RowIsBad(env, rows[1..][i]);
      assert rows[i + 1] == rows[1..][i];
    }
    if SomeRowIsBad(env, rows) && !RowIsBad(env, rows[0]) {
      var i :| 0 <= i < |rows| && RowIsBad(env, rows[i]);
      assert rows[1..][i - 1] == rows[i];
    }
  }

  /** The recipients collected are what the rows say, one by one; and there are none exactly when some row is bad. */
  lemma {:induction false} CollectedSays(env: Env, rows: seq<Row>)
    ensures CollectRecipients(env, rows).None? <==> SomeRowIsBad(env, rows)
    ensures CollectRecipients(env, rows).Some? ==> AllSay(env, rows, CollectRecipients(env, rows).value)
  {
    if rows != [] {
      CollectedSays(env, rows[1..]);
      CollectsFirst(env, rows);
      RowPaysSays(env, rows[0]);
      BadRowTail(env, rows);
      if CollectRecipients(env, rows).Some? {
        AllSayMore(env, rows, RowPays(env, rows[0]).value, CollectRecipients(env, rows[1..]).value);
      }
    }
  }

  lemma {:induction false} SumOfAll(rs: seq<Recipient>, r: Recipient)
    ensures SumOf([]) == 0 && SumOf(rs + [r]) == SumOf(rs) + r.sats
  {
    if rs == [] {
      assert rs + [r] == [r] && [r][1..] == [];
    } else {
      assert (rs + [r])[1..] == rs[1..] + [r];
      SumOfAll(rs[1..], r);
    }
  }

  function SumOf(rs: seq<Recipient>): nat {
    if rs == [] then 0 else rs[0].sats + SumOf(rs[1..])
  }

  function DrainLeft(s: State): State {
    var t := s.(drainSeq := s.drainSeq + 1);
    if s.drain.None? then t else t.(pending := s.pending - {s.drain.value.id}, drain := None)
  }

  function PendingDrainCancelled(s: State): State {
    if s.drain.None? then s.(drainSeq := s.drainSeq + 1) else s
  }

  function EstimateApplied(env: Env, s: State): State {
    var rate := if s.estimate.Some? then RateForTarget(s.estimate.value, s.target) else None;
    if rate.None? then s else
    var rounded := env.show(TypeableRate(rate.value));
    var t := if s.feeText != rounded then DrainLeft(s) else s;
    t.(feeText := rounded)
  }

  function PreviewShown(s: State, p: Preview, asked: Asked): State {
    s.(locked := true, preview := Some(p), card := Some(Card(p, asked)))
  }

  function Switched(env: Env, row: Row, unit: Unit): Row {
    row.(amount := ConvertField(env.round, row.amount, row.unit, unit), unit := unit)
  }

  function EndTask(s: State, k: nat): State
    requires k < |s.tasks|
  {
    s.(tasks := s.tasks[k := Ended])
  }

  /** `buildPreview` once the core has built: a new id joins the pending ones. */
  function Hold(s: State, k: nat, order: Order, totalOut: nat): State
    requires k < |s.tasks| && (s.tasks[k].MaxBuild? || s.tasks[k].ReviewBuild?)
  {
    s.(counter := s.counter + 1, pending := s.pending + {s.counter},
       tasks := s.tasks[k := s.tasks[k].(built := Some(Preview(s.counter, order, totalOut)))])
  }

  // ---------------------------------------------------------------- steps

  /** The changes a form in this state can see; any other does nothing. */
  predicate Possible(s: State, c: Change) {
    c.EstimateLands? ||
    (s.onScreen && !s.locked &&
     match c
     case EditAddress(i, _) => i < |s.rows|
     case EditAmount(i, _) => i < |s.rows|
     case SwitchUnit(i, unit) => i < |s.rows| && s.rows[i].unit != unit
     case AddRow => s.drain.None?
     case RemoveRow(i) => 1 < |s.rows| && i < |s.rows|
     case LetChoose => s.coins.Some?
     case _ => true)
  }

  function Changed(env: Env, s: State, c: Change): State {
    if !Possible(s, c) then s else
    match c
    case EditAddress(i, text) => DrainLeft(s).(rows := s.rows[i := s.rows[i].(address := text)])
    case EditAmount(i, text) => DrainLeft(s).(rows := s.rows[i := s.rows[i].(amount := text)])
    case SwitchUnit(i, unit) => s.(rows := s.rows[i := Switched(env, s.rows[i], unit)])
    case EditRate(text) => DrainLeft(s).(rateTouched := true, feeText := text)
    case PickTarget(target) => EstimateApplied(env, DrainLeft(s).(target := target, rateTouched := false))
    case AddRow => DrainLeft(s).(rows := s.rows + [Row("", "", Sat)])
    case RemoveRow(i) => DrainLeft(s).(rows := s.rows[..i] + s.rows[i + 1..])
    case LetChoose => DrainLeft(s).(coins := None)
    case EstimateLands(entries) =>
      var t := s.(estimate := Some(entries));
      if !s.onScreen || s.rateTouched then t else EstimateApplied(env, t)
  }

  /** Whether the screen would be at this point: an event that is not does nothing. */
  predicate Enabled(s: State, e: Event) {
    match e
    case Form(_) => true
    case PressMax => s.onScreen && |s.rows| == 1
    case MaxBuilt(k, totalOut) =>
      k < |s.tasks| && s.tasks[k].MaxBuild? && s.tasks[k].built.None? && 1 <= totalOut <= MAX_SAFE
    case MaxReturns(k) => k < |s.tasks| && s.tasks[k].MaxBuild? && s.tasks[k].built.Some? && s.rows != []
    case PressReview => s.onScreen
    case ReviewBuilt(k) => k < |s.tasks| && s.tasks[k].ReviewBuild? && s.tasks[k].built.None?
    case ReviewReturns(k) => k < |s.tasks| && s.tasks[k].ReviewBuild? && s.tasks[k].built.Some?
    case BuildFails(k) => k < |s.tasks| && (s.tasks[k].MaxBuild? || s.tasks[k].ReviewBuild?) && s.tasks[k].built.None?
    case PressConfirm => s.onScreen && s.card.Some?
    case ConfirmSucceeds(k) => k < |s.tasks| && s.tasks[k] == Confirming(true)
    case ConfirmFails(k) => k < |s.tasks| && s.tasks[k].Confirming?
    case PressEdit => s.onScreen && s.card.Some?
    case EditReturns(k) => k < |s.tasks| && s.tasks[k].Editing?
    case WalletCloses => true
    case WalletReopens => true
    case Leave => s.onScreen
  }

  function PressMaxStep(env: Env, s: State): State
    requires |s.rows| == 1
  {
    var address := JsTrim(s.rows[0].address);
    if address == "" || !env.valid(address) then s else
    var t := DrainLeft(s);
    t.(tasks := t.tasks + [MaxBuild(t.drainSeq, Drain(address, CurrentRate(env, t.feeText), t.coins), None)])
  }

  function MaxReturnsStep(s: State, k: nat): State
    requires k < |s.tasks| && s.tasks[k].MaxBuild? && s.tasks[k].built.Some? && s.rows != []
  {
    var p := s.tasks[k].built.value;
    if s.tasks[k].turn != s.drainSeq || !s.onScreen then
      EndTask(s, k).(pending := s.pending - {p.id})
    else
      EndTask(s, k).(drain := Some(p),
                     rows := s.rows[0 := s.rows[0].(amount := FormatAmount(p.totalOut, s.rows[0].unit))])
  }

  function PressReviewStep(env: Env, s: State): State {
    var recipients := CollectRecipients(env, s.rows);
    if recipients.None? || !Submits(env.number(s.feeText)) then s else
    var asked := Asked(recipients.value, CurrentRate(env, s.feeText), s.coins);
    var t := PendingDrainCancelled(s);
    if t.drain.Some? then PreviewShown(t, t.drain.value, asked)
    else t.(tasks := t.tasks + [ReviewBuild(t.drainSeq, asked, None)])
  }

  function ReviewReturnsStep(s: State, k: nat): State
    requires k < |s.tasks| && s.tasks[k].ReviewBuild? && s.tasks[k].built.Some?
  {
    var p := s.tasks[k].built.value;
    if s.tasks[k].turn != s.drainSeq || !s.onScreen then
      EndTask(s, k).(pending := if s.drain == Some(p) then s.pending else s.pending - {p.id})
    else
      PreviewShown(EndTask(s, k), p, s.tasks[k].asked)
  }

  /** `signAndBroadcast` up to the signing: it uses the PSBT up, or refuses one it no longer has. */
  function PressConfirmStep(s: State): State
    requires s.card.Some?
  {
    var p := s.card.value.preview;
    var held := p.id in s.pending;
    s.(pending := s.pending - {p.id},
       signed := if held then s.signed + [s.card.value] else s.signed,
       tasks := s.tasks + [Confirming(held)])
  }

  function ConfirmSucceedsStep(s: State, k: nat): State
    requires k < |s.tasks|
  {
    EndTask(s, k).(preview := None, drain := None)
  }

  function ConfirmFailsStep(s: State, k: nat): State
    requires k < |s.tasks|
  {
    var t := EndTask(s, k).(preview := None, drain := None);
    if s.onScreen then t.(card := None, locked := false) else t
  }

  function PressEditStep(s: State): State
    requires s.card.Some?
  {
    var p := s.card.value.preview;
    if s.drain == Some(p) then s.(preview := None, card := None, locked := false)
    else s.(pending := s.pending - {p.id}, tasks := s.tasks + [Editing])
  }

  /** `discardOnLeave`, and `screenGuard` from then on. */
  function LeaveStep(s: State): State {
    var t := if s.preview.Some? && s.preview != s.drain then s.(pending := s.pending - {s.preview.value.id}) else s;
    DrainLeft(t.(preview := None)).(onScreen := false)
  }

  function Step(env: Env, s: State, e: Event): State {
    if !Enabled(s, e) then s else
    match e
    case Form(change) => Changed(env, s, change)
    case PressMax => PressMaxStep(env, s)
    case MaxBuilt(k, totalOut) => Hold(s, k, s.tasks[k].order, totalOut)
    case MaxReturns(k) => MaxReturnsStep(s, k)
    case PressReview => PressReviewStep(env, s)
    case ReviewBuilt(k) => Hold(s, k, Transfer(s.tasks[k].asked), SumOf(s.tasks[k].asked.recipients))
    case ReviewReturns(k) => ReviewReturnsStep(s, k)
    case BuildFails(k) => EndTask(s, k)
    case PressConfirm => PressConfirmStep(s)
    case ConfirmSucceeds(k) => ConfirmSucceedsStep(s, k)
    case ConfirmFails(k) => ConfirmFailsStep(s, k)
    case PressEdit => PressEditStep(s)
    case EditReturns(k) => EndTask(s, k).(preview := None, card := None, locked := false)
    case WalletCloses => s.(pending := {}, onScreen := false)
    case WalletReopens => s.(pending := {})
    case Leave => LeaveStep(s)
  }

  function Run(env: Env, s: State, es: seq<Event>): State {
    if es == [] then s else Step(env, Run(env, s, es[..|es| - 1]), es[|es| - 1])
  }

  /** As `renderSend` leaves it: one empty row, 1 sat/vB, held to the coins Send selected handed over, if any. */
  predicate Fresh(s: State) {
    && s.rows == [Row("", "", Sat)] && s.feeText == "1" && s.estimate.None? && !s.rateTouched
    && !s.locked && s.onScreen && s.drain.None? && s.preview.None? && s.card.None?
    && s.tasks == [] && s.pending == {} && s.signed == []
  }

  // ---------------------------------------------------------------- Max is what the form says

  /** The drain was built from the form as it stands, and the amount field says what it pays. */
  predicate DrainMatches(env: Env, rows: seq<Row>, feeText: string, coins: Coins, p: Preview) {
    && OrderMatches(env, rows, feeText, coins, p.order)
    && ParseAmount(env.round, rows[0].amount, rows[0].unit).sats == Some(p.totalOut)
  }

  predicate OrderMatches(env: Env, rows: seq<Row>, feeText: string, coins: Coins, order: Order) {
    && |rows| == 1
    && order == Drain(JsTrim(rows[0].address), CurrentRate(env, feeText), coins)
    && JsTrim(rows[0].address) != "" && env.valid(JsTrim(rows[0].address))
  }

  predicate AskedMatches(env: Env, rows: seq<Row>, feeText: string, coins: Coins, asked: Asked) {
    CollectRecipients(env, rows) == Some(asked.recipients) && asked.rate == CurrentRate(env, feeText) && asked.coins == coins
  }

  /** A build that still counts was asked for by the form as it stands. */
  predicate TaskMatches(env: Env, rows: seq<Row>, feeText: string, coins: Coins, drainSeq: nat, task: Task) {
    match task
    case MaxBuild(n, order, built) =>
      && n <= drainSeq
      && (n == drainSeq ==> OrderMatches(env, rows, feeText, coins, order))
      && (built.Some? ==> built.value.order == order && 1 <= built.value.totalOut <= MAX_SAFE)
    case ReviewBuild(n, asked, built) =>
      && n <= drainSeq
      && (n == drainSeq ==> AskedMatches(env, rows, feeText, coins, asked))
      && (built.Some? ==> built.value.order == Transfer(asked))
    case _ => true
  }

  predicate IsBuild(task: Task) {
    task.MaxBuild? || task.ReviewBuild?
  }

  predicate FormInv(env: Env, s: State) {
    && s.rows != []
    && (s.drain.Some? ==> DrainMatches(env, s.rows, s.feeText, s.coins, s.drain.value))
    && (forall k :: 0 <= k < |s.tasks| ==> TaskMatches(env, s.rows, s.feeText, s.coins, s.drainSeq, s.tasks[k]))
    && (forall j, k :: 0 <= j < k < |s.tasks| && IsBuild(s.tasks[j]) && IsBuild(s.tasks[k]) ==> s.tasks[j].turn < s.tasks[k].turn)
    && (s.drain.Some? ==> forall k :: 0 <= k < |s.tasks| && IsBuild(s.tasks[k]) ==> s.tasks[k].turn < s.drainSeq)
  }

  /** Anything that moves the counter on makes every build so far too late to count. */
  lemma BumpKeepsForm(env: Env, s: State, t: State)
    requires FormInv(env, s)
    requires t.tasks == s.tasks && t.drainSeq > s.drainSeq && t.drain.None? && t.rows != []
    ensures FormInv(env, t)
  {
  }

  /** A new build, of what the form says, under a counter just moved on. */
  lemma StartKeepsForm(env: Env, s: State, task: Task)
    requires FormInv(env, s) && s.drain.None?
    requires IsBuild(task) && task.turn == s.drainSeq && task.built.None?
    requires TaskMatches(env, s.rows, s.feeText, s.coins, s.drainSeq, task)
    requires forall k :: 0 <= k < |s.tasks| && IsBuild(s.tasks[k]) ==> s.tasks[k].turn < s.drainSeq
    ensures FormInv(env, s.(tasks := s.tasks + [task]))
  {
  }

  lemma EndKeepsForm(env: Env, s: State, k: nat)
    requires FormInv(env, s) && k < |s.tasks|
    ensures FormInv(env, EndTask(s, k))
  {
  }

  lemma BuiltKeepsForm(env: Env, s: State, k: nat, order: Order, totalOut: nat)
    requires FormInv(env, s) && k < |s.tasks| && IsBuild(s.tasks[k])
    requires match s.tasks[k]
             case MaxBuild(_, o, _) => order == o && 1 <= totalOut <= MAX_SAFE
             case ReviewBuild(_, asked, _) => order == Transfer(asked)
             case _ => true
    ensures FormInv(env, Hold(s, k, order, totalOut))
  {
  }

  lemma {:induction false} SwitchKeepsRecipients(env: Env, rows: seq<Row>, i: nat, unit: Unit)
    requires Rounding(env.round) && i < |rows|
    ensures CollectRecipients(env, rows).Some? ==>
              CollectRecipients(env, rows[i := Switched(env, rows[i], unit)]) == CollectRecipients(env, rows)
  {
    var us := rows[i := Switched(env, rows[i], unit)];
    if i == 0 {
      SwitchKeepsSats(env.round, rows[0].amount, rows[0].unit, unit);
      assert us[1..] == rows[1..];
    } else {
      SwitchKeepsRecipients(env, rows[1..], i - 1, unit);
      assert us[1..] == rows[1..][i - 1 := Switched(env, rows[i], unit)];
    }
  }

  lemma SwitchKeepsForm(env: Env, s: State, i: nat, unit: Unit)
    requires Rounding(env.round) && FormInv(env, s) && i < |s.rows|
    ensures FormInv(env, s.(rows := s.rows[i := Switched(env, s.rows[i], unit)]))
  {
    var t := s.(rows := s.rows[i := Switched(env, s.rows[i], unit)]);
    SwitchKeepsSats(env.round, s.rows[i].amount, s.rows[i].unit, unit);
    SwitchKeepsRecipients(env, s.rows, i, unit);
    forall k | 0 <= k < |t.tasks|
      ensures TaskMatches(env, t.rows, t.feeText, t.coins, t.drainSeq, t.tasks[k])
    {
      assert TaskMatches(env, s.rows, s.feeText, s.coins, s.drainSeq, s.tasks[k]);
    }
  }

  lemma EstimateKeepsForm(env: Env, s: State)
    requires FormInv(env, s)
    ensures FormInv(env, EstimateApplied(env, s))
  {
    var t := EstimateApplied(env, s);
    if t.feeText != s.feeText {
      BumpKeepsForm(env, s, t);
    }
  }

  /** A Max build that still counts settles into a drain the form agrees with. */
  lemma MaxReturnsKeepsForm(env: Env, s: State, k: nat)
    requires Rounding(env.round) && FormInv(env, s) && Enabled(s, MaxReturns(k))
    ensures FormInv(env, MaxReturnsStep(s, k))
  {
    var t := MaxReturnsStep(s, k);
    EndKeepsForm(env, s, k);
    assert TaskMatches(env, s.rows, s.feeText, s.coins, s.drainSeq, s.tasks[k]);
    if s.tasks[k].turn == s.drainSeq && s.onScreen {
      var p := s.tasks[k].built.value;
      FormatParses(env.round, p.totalOut, s.rows[0].unit);
      forall j | 0 <= j < |t.tasks|
        ensures TaskMatches(env, t.rows, t.feeText, t.coins, t.drainSeq, t.tasks[j])
        ensures IsBuild(t.tasks[j]) ==> t.tasks[j].turn < t.drainSeq
      {
        assert TaskMatches(env, s.rows, s.feeText, s.coins, s.drainSeq, s.tasks[j]);
      }
    }
  }

  lemma PressMaxKeepsForm(env: Env, s: State)
    requires FormInv(env, s) && |s.rows| == 1
    ensures FormInv(env, PressMaxStep(env, s))
  {
    var address := JsTrim(s.rows[0].address);
    if address != "" && env.valid(address) {
      var t := DrainLeft(s);
      BumpKeepsForm(env, s, t);
      forall k | 0 <= k < |t.tasks| && IsBuild(t.tasks[k])
        ensures t.tasks[k].turn < t.drainSeq
      {
        assert TaskMatches(env, s.rows, s.feeText, s.coins, s.drainSeq, s.tasks[k]);
      }
      StartKeepsForm(env, t, MaxBuild(t.drainSeq, Drain(address, CurrentRate(env, t.feeText), t.coins), None));
    }
  }

  lemma PressReviewKeepsForm(env: Env, s: State)
    requires FormInv(env, s)
    ensures FormInv(env, PressReviewStep(env, s))
  {
    var recipients := CollectRecipients(env, s.rows);
    if recipients.Some? && Submits(env.number(s.feeText)) && s.drain.None? {
      var t := PendingDrainCancelled(s);
      BumpKeepsForm(env, s, t);
      forall k | 0 <= k < |t.tasks| && IsBuild(t.tasks[k])
        ensures t.tasks[k].turn < t.drainSeq
      {
        assert TaskMatches(env, s.rows, s.feeText, s.coins, s.drainSeq, s.tasks[k]);
      }
      StartKeepsForm(env, t, ReviewBuild(t.drainSeq, Asked(recipients.value, CurrentRate(env, s.feeText), s.coins), None));
    }
  }

  /** Dropping the drain from the screen, or adding work that is no build, changes nothing else. */
  lemma QuietKeepsForm(env: Env, s: State, t: State)
    requires FormInv(env, s)
    requires t.rows == s.rows && t.feeText == s.feeText && t.coins == s.coins && t.drainSeq == s.drainSeq
    requires t.drain == s.drain || t.drain.None?
    requires s.tasks <= t.tasks && forall k :: |s.tasks| <= k < |t.tasks| ==> !IsBuild(t.tasks[k])
    ensures FormInv(env, t)
  {
  }

  lemma {:induction false} ChangeKeepsForm(env: Env, s: State, c: Change)
    requires Rounding(env.round) && FormInv(env, s) && Possible(s, c)
    ensures FormInv(env, Changed(env, s, c))
  {
    match c
    case SwitchUnit(i, unit) => SwitchKeepsForm(env, s, i, unit);
    case PickTarget(target) =>
      var u := DrainLeft(s).(target := target, rateTouched := false);
      BumpKeepsForm(env, s, u);
      EstimateKeepsForm(env, u);
    case EstimateLands(entries) =>
      QuietKeepsForm(env, s, s.(estimate := Some(entries)));
      EstimateKeepsForm(env, s.(estimate := Some(entries)));
    case _ => BumpKeepsForm(env, s, Changed(env, s, c));
  }

  lemma TaskStepKeepsForm(env: Env, s: State, e: Event)
    requires FormInv(env, s) && Enabled(s, e)
    requires e.ReviewReturns? || e.BuildFails? || e.ConfirmSucceeds? || e.ConfirmFails? || e.EditReturns?
    ensures FormInv(env, Step(env, s, e))
  {
    EndKeepsForm(env, s, e.k);
    QuietKeepsForm(env, EndTask(s, e.k), Step(env, s, e));
  }

  lemma QuietStepKeepsForm(env: Env, s: State, e: Event)
    requires FormInv(env, s) && Enabled(s, e)
    requires e.PressConfirm? || e.PressEdit? || e.WalletCloses? || e.WalletReopens?
    ensures FormInv(env, Step(env, s, e))
  {
    QuietKeepsForm(env, s, Step(env, s, e));
  }

  lemma {:induction false} StepKeepsForm(env: Env, s: State, e: Event)
    requires Rounding(env.round) && FormInv(env, s)
    ensures FormInv(env, Step(env, s, e))
  {
    if !Enabled(s, e) {
      return;
    }
    match e
    case Form(change) =>
      if Possible(s, change) {
        ChangeKeepsForm(env, s, change);
      }
    case PressMax => PressMaxKeepsForm(env, s);
    case MaxBuilt(k, totalOut) => BuiltKeepsForm(env, s, k, s.tasks[k].order, totalOut);
    case MaxReturns(k) => MaxReturnsKeepsForm(env, s, k);
    case PressReview => PressReviewKeepsForm(env, s);
    case ReviewBuilt(k) => BuiltKeepsForm(env, s, k, Transfer(s.tasks[k].asked), SumOf(s.tasks[k].asked.recipients));
    case Leave => BumpKeepsForm(env, s, LeaveStep(s));
    case PressConfirm => QuietStepKeepsForm(env, s, e);
    case PressEdit => QuietStepKeepsForm(env, s, e);
    case WalletCloses => QuietStepKeepsForm(env, s, e);
    case WalletReopens => QuietStepKeepsForm(env, s, e);
    case _ => TaskStepKeepsForm(env, s, e);
  }

  predicate AtMostDrops(s: State, t: State) {
    && t.preview == s.preview && t.card == s.card && t.tasks == s.tasks && t.counter == s.counter
    && t.onScreen == s.onScreen && t.signed == s.signed && t.drainSeq >= s.drainSeq
    && ((t.drain == s.drain && t.pending == s.pending)
        || (s.drain.Some? && t.drain.None? && t.pending == s.pending - {s.drain.value.id}))
  }

  lemma EstimateAtMostDrops(env: Env, s: State)
    ensures AtMostDrops(s, EstimateApplied(env, s))
    ensures s.drain.None? ==> EstimateApplied(env, s).pending == s.pending
  {
  }

  /** A change to the form drops the drain, with its PSBT, or touches nothing but the form. */
  lemma FormAtMostDrops(env: Env, s: State, c: Change)
    ensures AtMostDrops(s, Changed(env, s, c))
  {
    if Possible(s, c) {
      match c
      case PickTarget(target) => EstimateAtMostDrops(env, DrainLeft(s).(target := target, rateTouched := false));
      case EstimateLands(entries) => EstimateAtMostDrops(env, s.(estimate := Some(entries)));
      case _ =>
    }
  }

  // ---------------------------------------------------------------- what is signed is what was reviewed

  predicate CardMatches(c: Card) {
    Terms(c.preview) == c.asked
  }

  predicate CardInv(s: State) {
    && (s.card.Some? ==> CardMatches(s.card.value))
    && (s.preview.Some? ==> s.card.Some? && s.card.value.preview == s.preview.value)
    && (forall j :: 0 <= j < |s.signed| ==> CardMatches(s.signed[j]))
  }

  /** Pending ids are old, and one that was signed is used up. */
  predicate SignedInv(counter: nat, pending: set<nat>, signed: seq<Card>) {
    && (forall id :: id in pending ==> id < counter)
    && (forall j :: 0 <= j < |signed| ==> signed[j].preview.id < counter && signed[j].preview.id !in pending)
    && (forall i, j :: 0 <= i < j < |signed| ==> signed[i].preview.id != signed[j].preview.id)
  }

  /** In Max mode the drain's own terms are what Review collects from the form. */
  lemma DrainIsAsked(env: Env, s: State)
    requires FormInv(env, s) && s.drain.Some?
    ensures AskedMatches(env, s.rows, s.feeText, s.coins, Terms(s.drain.value))
  {
    var rows := s.rows;
    assert rows[1..] == [];
    assert CollectRecipients(env, rows[1..]) == Some([]);
    assert [Recipient(JsTrim(rows[0].address), s.drain.value.totalOut)] + [] == [Recipient(JsTrim(rows[0].address), s.drain.value.totalOut)];
  }

  /** Only Review puts a card up. */
  lemma {:induction false} NoNewCard(env: Env, s: State, e: Event)
    requires !e.PressReview? && !e.ReviewReturns? && !e.PressConfirm?
    ensures var t := Step(env, s, e);
            && t.signed == s.signed
            && ((t.card == s.card && (t.preview == s.preview || t.preview.None?)) || (t.card.None? && t.preview.None?))
  {
    match e
    case Form(change) => FormAtMostDrops(env, s, change);
    case PressMax => MaxLeavesCard(env, s);
    case _ =>
  }

  lemma MaxLeavesCard(env: Env, s: State)
    ensures var t := Step(env, s, PressMax);
            && t.signed == s.signed && t.card == s.card && t.preview == s.preview && t.counter == s.counter
            && (t.drain == s.drain || t.drain.None?)
  {
  }

  lemma ReviewKeepsCard(env: Env, s: State)
    requires FormInv(env, s) && CardInv(s)
    ensures CardInv(PressReviewStep(env, s))
  {
    if s.drain.Some? {
      DrainIsAsked(env, s);
    }
  }

  lemma ReturnKeepsCard(env: Env, s: State, k: nat)
    requires FormInv(env, s) && CardInv(s) && Enabled(s, ReviewReturns(k))
    ensures CardInv(ReviewReturnsStep(s, k))
  {
  }

  lemma {:induction false} StepKeepsCard(env: Env, s: State, e: Event)
    requires FormInv(env, s) && CardInv(s)
    ensures CardInv(Step(env, s, e))
  {
    if Enabled(s, e) {
      match e
      case PressReview => ReviewKeepsCard(env, s);
      case ReviewReturns(k) => ReturnKeepsCard(env, s, k);
      case PressConfirm =>
      case _ => NoNewCard(env, s, e);
    }
  }

  predicate PendingShrinks(s: State, t: State) {
    t.pending <= s.pending && t.counter == s.counter && t.signed == s.signed
  }

  lemma ReturnsShrinkPending(s: State, k: nat)
    ensures Enabled(s, MaxReturns(k)) ==> PendingShrinks(s, MaxReturnsStep(s, k))
    ensures Enabled(s, ReviewReturns(k)) ==> PendingShrinks(s, ReviewReturnsStep(s, k))
    ensures PendingShrinks(s, LeaveStep(s))
  {
  }

  /** Only a build adds to the pending PSBTs, and only Confirm signs. */
  lemma {:induction false} PendingOnlyShrinks(env: Env, s: State, e: Event)
    requires !e.MaxBuilt? && !e.ReviewBuilt? && !e.PressConfirm?
    ensures PendingShrinks(s, Step(env, s, e))
  {
    match e
    case Form(change) => FormAtMostDrops(env, s, change);
    case MaxReturns(k) => ReturnsShrinkPending(s, k);
    case ReviewReturns(k) => ReturnsShrinkPending(s, k);
    case Leave => ReturnsShrinkPending(s, 0);
    case _ =>
  }

  lemma {:induction false} StepKeepsSigned(env: Env, s: State, e: Event)
    requires SignedInv(s.counter, s.pending, s.signed)
    ensures var t := Step(env, s, e); SignedInv(t.counter, t.pending, t.signed)
  {
    if Enabled(s, e) {
      match e
      case MaxBuilt(_, _) =>
      case ReviewBuilt(_) =>
      case PressConfirm =>
      case _ => PendingOnlyShrinks(env, s, e);
    }
  }

  lemma {:induction false} RunKeepsInv(env: Env, s0: State, es: seq<Event>)
    requires Rounding(env.round) && Fresh(s0)
    ensures var t := Run(env, s0, es); FormInv(env, t) && CardInv(t) && SignedInv(t.counter, t.pending, t.signed)
  {
    if es != [] {
      var s, e := Run(env, s0, es[..|es| - 1]), es[|es| - 1];
      RunKeepsInv(env, s0, es[..|es| - 1]);
      StepKeepsForm(env, s, e);
      StepKeepsCard(env, s, e);
      StepKeepsSigned(env, s, e);
    }
  }

  /**
   Max, over every interleaving of edits, unit switches, late estimates and late builds: a
   drain the form holds was built for its one address, at its rate, from its coins, and the
   amount field parses to exactly what the drain pays.
   */
  lemma {:induction false} MaxIsFaithful(env: Env, s0: State, es: seq<Event>)
    requires Rounding(env.round) && Fresh(s0) && Run(env, s0, es).drain.Some?
    ensures var t := Run(env, s0, es);
            && |t.rows| == 1
            && t.drain.value.order == Drain(JsTrim(t.rows[0].address), CurrentRate(env, t.feeText), t.coins)
            && ParseAmount(env.round, t.rows[0].amount, t.rows[0].unit).sats == Some(t.drain.value.totalOut)
  {
    RunKeepsInv(env, s0, es);
  }

  /**
   Review: whenever a card appears, its preview's terms are what the form held when Review was
   pressed, and still what it holds.
   */
  lemma {:induction false} ReviewIsFaithful(env: Env, s0: State, es: seq<Event>, e: Event)
    requires Rounding(env.round) && Fresh(s0)
    requires var s := Run(env, s0, es); var t := Step(env, s, e); t.card.Some? && t.card != s.card
    ensures var t := Step(env, Run(env, s0, es), e);
            Terms(t.card.value.preview) == t.card.value.asked && AskedMatches(env, t.rows, t.feeText, t.coins, t.card.value.asked)
  {
    var s := Run(env, s0, es);
    RunKeepsInv(env, s0, es);
    if e.ReviewReturns? {
      assert TaskMatches(env, s.rows, s.feeText, s.coins, s.drainSeq, s.tasks[e.k]);
    } else if e.PressReview? {
      DrainIsAsked(env, s);
    } else if !e.PressConfirm? {
      NoNewCard(env, s, e);
    }
  }

  /** Confirm: every PSBT signed was on a card saying what it pays, and none is signed twice. */
  lemma {:induction false} SignedAsReviewed(env: Env, s0: State, es: seq<Event>)
    requires Rounding(env.round) && Fresh(s0)
    ensures var t := Run(env, s0, es);
            && (forall j :: 0 <= j < |t.signed| ==> Terms(t.signed[j].preview) == t.signed[j].asked)
            && (forall i, j :: 0 <= i < j < |t.signed| ==> t.signed[i].preview.id != t.signed[j].preview.id)
  {
    RunKeepsInv(env, s0, es);
    var t := Run(env, s0, es);
    assert forall j :: 0 <= j < |t.signed| ==> CardMatches(t.signed[j]);
  }

  // ---------------------------------------------------------------- what stays pending

  function BuiltId(task: Task): Option<nat> {
    if IsBuild(task) && task.built.Some? then Some(task.built.value.id) else None
  }

  function IdOf(p: Option<Preview>): Option<nat> {
    if p.Some? then Some(p.value.id) else None
  }

  predicate KnownByTask(tasks: seq<Task>, id: nat) {
    exists k :: 0 <= k < |tasks| && BuiltId(tasks[k]) == Some(id)
  }

  /** Some variable of the screen, or a build about to return, still knows this PSBT. */
  predicate Known(s: State, id: nat) {
    || IdOf(s.drain) == Some(id)
    || IdOf(s.preview) == Some(id)
    || KnownByTask(s.tasks, id)
  }

  predicate NothingForgotten(s: State) {
    forall id :: id in s.pending ==> Known(s, id)
  }

  predicate StillPending(s: State, p: Option<Preview>) {
    p.Some? && p.value.id in s.pending
  }

  /**
   The steps that lose sight of a pending PSBT: a new card over one that was neither sent nor
   edited, and a Confirm or an Edit that ends after something else was built meanwhile.
   */
  predicate Forgets(env: Env, s: State, e: Event) {
    match e
    case ReviewReturns(k) =>
      Enabled(s, e) && s.tasks[k].turn == s.drainSeq && s.onScreen && s.preview != s.drain && StillPending(s, s.preview)
    case PressReview =>
      s.onScreen && s.drain.Some? && CollectRecipients(env, s.rows).Some? && Submits(env.number(s.feeText))
      && s.preview != s.drain && StillPending(s, s.preview)
    case ConfirmSucceeds(_) | ConfirmFails(_) => Enabled(s, e) && (StillPending(s, s.preview) || StillPending(s, s.drain))
    case EditReturns(_) => Enabled(s, e) && s.preview != s.drain && StillPending(s, s.preview)
    case _ => false
  }

  /** Each PSBT has one preview: the drain and the card may share it, a build about to return has its own. */
  predicate IdInv(drain: Option<Preview>, preview: Option<Preview>, tasks: seq<Task>, counter: nat) {
    && (drain.Some? ==> drain.value.id < counter)
    && (preview.Some? ==> preview.value.id < counter)
    && (drain.Some? && IdOf(drain) == IdOf(preview) ==> drain == preview)
    && (forall k :: 0 <= k < |tasks| && BuiltId(tasks[k]).Some? ==>
          BuiltId(tasks[k]).value < counter && BuiltId(tasks[k]) != IdOf(drain) && BuiltId(tasks[k]) != IdOf(preview))
    && (forall j, k :: 0 <= j < k < |tasks| && BuiltId(tasks[j]).Some? ==> BuiltId(tasks[j]) != BuiltId(tasks[k]))
  }

  /** Once off the screen, what its variables still name is no longer pending. */
  predicate AwayInv(s: State) {
    !s.onScreen ==> !StillPending(s, s.drain) && !StillPending(s, s.preview)
  }

  predicate Ids(s: State) {
    IdInv(s.drain, s.preview, s.tasks, s.counter)
  }

  lemma FewerKeepsIds(drain: Option<Preview>, preview: Option<Preview>, tasks: seq<Task>, counter: nat,
                      drain': Option<Preview>, preview': Option<Preview>, tasks': seq<Task>)
    requires IdInv(drain, preview, tasks, counter)
    requires (drain' == drain || drain'.None?) && (preview' == preview || preview'.None? || preview' == drain)
    requires NothingBuilt(tasks, tasks')
    ensures IdInv(drain', preview', tasks', counter)
  {
  }

  lemma HoldKeepsIds(s: State, k: nat, order: Order, totalOut: nat)
    requires Ids(s) && k < |s.tasks| && IsBuild(s.tasks[k])
    ensures Ids(Hold(s, k, order, totalOut))
  {
  }

  /** A build that ended is the only one of its id. */
  lemma EndedIdIsGone(drain: Option<Preview>, preview: Option<Preview>, tasks: seq<Task>, counter: nat, k: nat)
    requires IdInv(drain, preview, tasks, counter) && k < |tasks| && BuiltId(tasks[k]).Some?
    ensures IdInv(drain, None, tasks[k := Ended], counter)
    ensures var us := tasks[k := Ended]; forall j :: 0 <= j < |us| ==> BuiltId(us[j]) != BuiltId(tasks[k])
  {
  }

  lemma MaxReturnsKeepsIds(s: State, k: nat)
    requires Ids(s) && Enabled(s, MaxReturns(k)) && (s.drain.None? || s.tasks[k].turn != s.drainSeq)
    ensures Ids(MaxReturnsStep(s, k))
  {
    var t := MaxReturnsStep(s, k);
    assert BuiltId(s.tasks[k]) == Some(s.tasks[k].built.value.id);
    if t.drain == s.drain {
      FewerKeepsIds(s.drain, s.preview, s.tasks, s.counter, t.drain, t.preview, t.tasks);
    } else {
      EndedIdIsGone(s.drain, s.preview, s.tasks, s.counter, k);
    }
  }

  lemma ReviewReturnsKeepsIds(s: State, k: nat)
    requires Ids(s) && Enabled(s, ReviewReturns(k))
    ensures Ids(ReviewReturnsStep(s, k))
  {
    var p := s.tasks[k].built.value;
    assert BuiltId(s.tasks[k]) == Some(p.id);
    if s.tasks[k].turn != s.drainSeq || !s.onScreen {
      FewerKeepsIds(s.drain, s.preview, s.tasks, s.counter, s.drain, s.preview, s.tasks[k := Ended]);
    } else {
      EndedIdIsGone(s.drain, s.preview, s.tasks, s.counter, k);
      ShownKeepsIds(s.drain, s.tasks[k := Ended], s.counter, p);
    }
  }

  lemma ShownKeepsIds(drain: Option<Preview>, tasks: seq<Task>, counter: nat, p: Preview)
    requires IdInv(drain, None, tasks, counter) && p.id < counter && IdOf(drain) != Some(p.id)
    requires forall j :: 0 <= j < |tasks| ==> BuiltId(tasks[j]) != Some(p.id)
    ensures IdInv(drain, Some(p), tasks, counter)
  {
  }

  predicate NoBuildEvent(e: Event) {
    !e.MaxBuilt? && !e.ReviewBuilt? && !e.MaxReturns? && !e.ReviewReturns?
  }

  lemma {:induction false} NoNewPreview(env: Env, s: State, e: Event)
    requires NoBuildEvent(e) && CardInv(s)
    ensures var t := Step(env, s, e);
            && t.counter == s.counter
            && (t.drain == s.drain || t.drain.None?)
            && (t.preview == s.preview || t.preview.None? || t.preview == s.drain)
  {
    match e
    case Form(change) => FormAtMostDrops(env, s, change);
    case PressMax => MaxLeavesCard(env, s);
    case _ =>
  }

  predicate EndsTask(e: Event) {
    e.BuildFails? || e.ConfirmSucceeds? || e.ConfirmFails? || e.EditReturns?
  }

  predicate NothingBuilt(tasks: seq<Task>, tasks': seq<Task>) {
    && |tasks| <= |tasks'|
    && forall k :: 0 <= k < |tasks'| ==> BuiltId(tasks'[k]).None? || (k < |tasks| && tasks'[k] == tasks[k])
  }

  lemma EndBuildsNothing(env: Env, s: State, e: Event)
    requires EndsTask(e)
    ensures NothingBuilt(s.tasks, Step(env, s, e).tasks)
  {
  }

  predicate OneMoreAtMost(tasks: seq<Task>, tasks': seq<Task>) {
    tasks' == tasks || (|tasks'| == |tasks| + 1 && tasks <= tasks' && BuiltId(tasks'[|tasks|]).None?)
  }

  lemma MaxAddsTask(env: Env, s: State)
    requires |s.rows| == 1
    ensures OneMoreAtMost(s.tasks, PressMaxStep(env, s).tasks)
  {
  }

  lemma ReviewAddsTask(env: Env, s: State)
    ensures OneMoreAtMost(s.tasks, PressReviewStep(env, s).tasks)
  {
  }

  lemma PressAddsTask(env: Env, s: State, e: Event)
    requires NoBuildEvent(e) && !e.Form? && !EndsTask(e)
    ensures OneMoreAtMost(s.tasks, Step(env, s, e).tasks)
  {
    if Enabled(s, e) {
      match e
      case PressMax => MaxAddsTask(env, s);
      case PressReview => ReviewAddsTask(env, s);
      case _ =>
    }
  }

  lemma {:induction false} NoNewBuild(env: Env, s: State, e: Event)
    requires NoBuildEvent(e)
    ensures NothingBuilt(s.tasks, Step(env, s, e).tasks)
  {
    if e.Form? {
      FormAtMostDrops(env, s, e.change);
    } else if EndsTask(e) {
      EndBuildsNothing(env, s, e);
    } else {
      PressAddsTask(env, s, e);
    }
  }

  lemma {:induction false} StepKeepsIds(env: Env, s: State, e: Event)
    requires FormInv(env, s) && CardInv(s) && Ids(s)
    ensures Ids(Step(env, s, e))
  {
    if Enabled(s, e) {
      match e
      case MaxBuilt(k, totalOut) => HoldKeepsIds(s, k, s.tasks[k].order, totalOut);
      case ReviewBuilt(k) => HoldKeepsIds(s, k, Transfer(s.tasks[k].asked), SumOf(s.tasks[k].asked.recipients));
      case MaxReturns(k) => MaxReturnsKeepsIds(s, k);
      case ReviewReturns(k) => ReviewReturnsKeepsIds(s, k);
      case _ => OtherKeepsIds(env, s, e);
    }
  }

  lemma {:induction false} OtherKeepsIds(env: Env, s: State, e: Event)
    requires NoBuildEvent(e) && CardInv(s) && Ids(s)
    ensures Ids(Step(env, s, e))
  {
    var t := Step(env, s, e);
    NoNewPreview(env, s, e);
    NoNewBuild(env, s, e);
    FewerKeepsIds(s.drain, s.preview, s.tasks, s.counter, t.drain, t.preview, t.tasks);
  }

  lemma StepKeepsAway(env: Env, s: State, e: Event)
    requires Ids(s) && AwayInv(s)
    ensures AwayInv(Step(env, s, e))
  {
    if e.Form? {
      FormAtMostDrops(env, s, e.change);
    }
  }

  // each kind of step in turn

  lemma {:induction false} KnownAfterEnd(s: State, k: nat, id: nat)
    requires k < |s.tasks| && KnownByTask(s.tasks, id) && BuiltId(s.tasks[k]) != Some(id)
    ensures KnownByTask(EndTask(s, k).tasks, id)
  {
    var j :| 0 <= j < |s.tasks| && BuiltId(s.tasks[j]) == Some(id);
    assert EndTask(s, k).tasks[j] == s.tasks[j];
  }

  lemma KnownAfterMore(tasks: seq<Task>, more: seq<Task>, id: nat)
    requires KnownByTask(tasks, id) && tasks <= more
    ensures KnownByTask(more, id)
  {
  }

  lemma FormForgetsNothing(env: Env, s: State, c: Change)
    requires NothingForgotten(s)
    ensures NothingForgotten(Changed(env, s, c))
  {
    FormAtMostDrops(env, s, c);
  }

  /** A step that only starts tasks, and gives up the previews it takes out of the pending set. */
  lemma MoreForgetsNothing(s: State, t: State)
    requires NothingForgotten(s) && s.tasks <= t.tasks && t.pending <= s.pending
    requires forall id :: id in t.pending && IdOf(s.drain) == Some(id) ==> IdOf(t.drain) == Some(id)
    requires forall id :: id in t.pending && IdOf(s.preview) == Some(id) ==> IdOf(t.preview) == Some(id) || IdOf(t.drain) == Some(id)
    ensures NothingForgotten(t)
  {
    forall id | id in t.pending
      ensures Known(t, id)
    {
      if KnownByTask(s.tasks, id) {
        KnownAfterMore(s.tasks, t.tasks, id);
      }
    }
  }

  lemma PressMaxForgetsNothing(env: Env, s: State)
    requires |s.rows| == 1 && NothingForgotten(s)
    ensures NothingForgotten(PressMaxStep(env, s))
  {
    var t := PressMaxStep(env, s);
    assert s.tasks <= t.tasks;
    MoreForgetsNothing(s, t);
  }

  lemma PressForgetsNothing(env: Env, s: State, e: Event)
    requires e.PressMax? || e.PressConfirm? || e.PressEdit?
    requires CardInv(s) && NothingForgotten(s) && Enabled(s, e)
    ensures NothingForgotten(Step(env, s, e))
  {
    if e.PressMax? {
      PressMaxForgetsNothing(env, s);
    } else {
      MoreForgetsNothing(s, if e.PressConfirm? then PressConfirmStep(s) else PressEditStep(s));
    }
  }

  lemma HoldForgetsNothing(s: State, k: nat, order: Order, totalOut: nat)
    requires NothingForgotten(s) && k < |s.tasks| && IsBuild(s.tasks[k]) && s.tasks[k].built.None?
    ensures NothingForgotten(Hold(s, k, order, totalOut))
  {
    var t := Hold(s, k, order, totalOut);
    assert BuiltId(t.tasks[k]) == Some(s.counter);
    forall id | id in t.pending && id != s.counter
      ensures Known(t, id)
    {
      if KnownByTask(s.tasks, id) {
        var j :| 0 <= j < |s.tasks| && BuiltId(s.tasks[j]) == Some(id);
        assert t.tasks[j] == s.tasks[j];
      }
    }
  }

  lemma ReviewForgetsIff(env: Env, s: State)
    requires Ids(s) && NothingForgotten(s) && s.onScreen
    ensures NothingForgotten(PressReviewStep(env, s)) <==> !Forgets(env, s, PressReview)
  {
    var t := PressReviewStep(env, s);
    forall id | id in t.pending && KnownByTask(s.tasks, id)
      ensures Known(t, id)
    {
      KnownAfterMore(s.tasks, t.tasks, id);
    }
    if Forgets(env, s, PressReview) {
      assert !Known(t, s.preview.value.id);
    }
  }

  /** A build returns to be let go: it was the only one of its id. */
  lemma ReturnedIsGone(s: State, t: State, k: nat)
    requires Ids(s) && NothingForgotten(s) && k < |s.tasks| && BuiltId(s.tasks[k]).Some?
    requires t.tasks == s.tasks[k := Ended] && t.drain == s.drain && t.preview == s.preview
    requires t.pending == s.pending - {BuiltId(s.tasks[k]).value}
    ensures NothingForgotten(t)
  {
    forall id | id in t.pending
      ensures Known(t, id)
    {
      if KnownByTask(s.tasks, id) {
        KnownAfterEnd(s, k, id);
      }
    }
  }

  /** A build returns to be shown: what it takes the place of is forgotten, unless nothing there is pending or all of it stays. */
  lemma ReturnedTakesPlace(s: State, t: State, k: nat)
    requires Ids(s) && NothingForgotten(s) && k < |s.tasks| && BuiltId(s.tasks[k]).Some? && t.pending == s.pending
    requires t.tasks == s.tasks[k := Ended] && (t.drain == s.drain || (s.drain.None? && IdOf(t.drain) == BuiltId(s.tasks[k])))
    requires t.preview == s.preview || IdOf(t.preview) == BuiltId(s.tasks[k])
    requires IdOf(t.drain) == BuiltId(s.tasks[k]) || IdOf(t.preview) == BuiltId(s.tasks[k])
    ensures NothingForgotten(t) <==> t.preview == s.preview || !StillPending(s, s.preview) || t.drain == s.preview
  {
    forall id | id in t.pending && KnownByTask(s.tasks, id)
      ensures Known(t, id)
    {
      if Some(id) != BuiltId(s.tasks[k]) {
        KnownAfterEnd(s, k, id);
      }
    }
    if t.preview != s.preview && StillPending(s, s.preview) {
      OnlyOnScreen(s, k, s.preview);
    }
  }

  lemma MaxReturnForgetsNothing(s: State, k: nat)
    requires Enabled(s, MaxReturns(k)) && OnlyOneCounts(s, k) && Ids(s) && NothingForgotten(s)
    ensures NothingForgotten(MaxReturnsStep(s, k))
  {
    if s.tasks[k].turn != s.drainSeq || !s.onScreen {
      ReturnedIsGone(s, MaxReturnsStep(s, k), k);
    } else {
      ReturnedTakesPlace(s, MaxReturnsStep(s, k), k);
    }
  }

  lemma ReviewReturnForgetsIff(env: Env, s: State, k: nat)
    requires Enabled(s, ReviewReturns(k)) && Ids(s) && NothingForgotten(s)
    ensures NothingForgotten(ReviewReturnsStep(s, k)) <==> !Forgets(env, s, ReviewReturns(k))
  {
    assert BuiltId(s.tasks[k]) == Some(s.tasks[k].built.value.id);
    if s.tasks[k].turn != s.drainSeq || !s.onScreen {
      ReturnedIsGone(s, ReviewReturnsStep(s, k), k);
    } else {
      ReturnedTakesPlace(s, ReviewReturnsStep(s, k), k);
    }
  }

  /** A task ends that held no build of its own; the previews may be let go, or kept. */
  lemma EndedForgetsIff(s: State, t: State, k: nat)
    requires Ids(s) && NothingForgotten(s) && k < |s.tasks| && BuiltId(s.tasks[k]).None?
    requires t.tasks == s.tasks[k := Ended] && t.pending == s.pending
    requires (t.drain == s.drain || t.drain.None?) && (t.preview == s.preview || t.preview.None?)
    ensures NothingForgotten(t) <==>
            && (StillPending(s, s.drain) ==> IdOf(t.drain) == IdOf(s.drain) || IdOf(t.preview) == IdOf(s.drain))
            && (StillPending(s, s.preview) ==> IdOf(t.preview) == IdOf(s.preview) || IdOf(t.drain) == IdOf(s.preview))
  {
    forall id | id in t.pending && KnownByTask(s.tasks, id)
      ensures Known(t, id)
    {
      KnownAfterEnd(s, k, id);
    }
    forall p: Option<Preview> | (p == s.drain || p == s.preview) && StillPending(s, p)
      ensures Known(t, p.value.id) <==> IdOf(t.drain) == IdOf(p) || IdOf(t.preview) == IdOf(p)
    {
      OnlyOnScreen(s, k, p);
    }
  }

  lemma OnlyOnScreen(s: State, k: nat, p: Option<Preview>)
    requires Ids(s) && p.Some? && (p == s.drain || p == s.preview) && k < |s.tasks|
    ensures !KnownByTask(s.tasks[k := Ended], p.value.id)
  {
  }

  lemma EndForgetsIff(env: Env, s: State, e: Event)
    requires EndsTask(e)
    requires Ids(s) && NothingForgotten(s) && Enabled(s, e)
    ensures NothingForgotten(Step(env, s, e)) <==> !Forgets(env, s, e)
  {
    EndedForgetsIff(s, Step(env, s, e), e.k);
  }

  lemma LeaveForgetsNothing(s: State)
    requires NothingForgotten(s)
    ensures NothingForgotten(LeaveStep(s))
  {
  }

  /** Exactly the steps `Forgets` names lose sight of a pending PSBT. */
  lemma ForgottenIff(env: Env, s: State, e: Event)
    requires FormInv(env, s) && CardInv(s) && Ids(s) && NothingForgotten(s)
    ensures NothingForgotten(Step(env, s, e)) <==> !Forgets(env, s, e)
  {
    if !Enabled(s, e) {
      return;
    }
    match e
    case Form(change) => FormForgetsNothing(env, s, change);
    case PressMax => PressForgetsNothing(env, s, e);
    case PressConfirm => PressForgetsNothing(env, s, e);
    case PressEdit => PressForgetsNothing(env, s, e);
    case MaxBuilt(k, totalOut) => HoldForgetsNothing(s, k, s.tasks[k].order, totalOut);
    case ReviewBuilt(k) => HoldForgetsNothing(s, k, Transfer(s.tasks[k].asked), SumOf(s.tasks[k].asked.recipients));
    case PressReview => ReviewForgetsIff(env, s);
    case MaxReturns(k) => FormHasOnlyOne(env, s, k); MaxReturnForgetsNothing(s, k);
    case ReviewReturns(k) => ReviewReturnForgetsIff(env, s, k);
    case WalletCloses =>
    case WalletReopens =>
    case Leave => LeaveForgetsNothing(s);
    case _ => EndForgetsIff(env, s, e);
  }

  /** No step of the run forgets. */
  predicate Mindful(env: Env, s0: State, es: seq<Event>) {
    forall k :: 0 <= k < |es| ==> !Forgets(env, Run(env, s0, es[..k]), es[k])
  }

  lemma MindfulSnoc(env: Env, s0: State, es: seq<Event>, e: Event)
    ensures Mindful(env, s0, es + [e]) <==> Mindful(env, s0, es) && !Forgets(env, Run(env, s0, es), e)
  {
    var fs := es + [e];
    assert fs[..|es|] == es;
    assert forall k :: 0 <= k < |es| ==> fs[..k] == es[..k] && fs[k] == es[k];
    if Mindful(env, s0, fs) {
      forall k | 0 <= k < |es|
        ensures !Forgets(env, Run(env, s0, es[..k]), es[k])
      {
        assert !Forgets(env, Run(env, s0, fs[..k]), fs[k]);
      }
      assert !Forgets(env, Run(env, s0, fs[..|es|]), fs[|es|]);
    }
  }

  lemma {:induction false} MindfulForgetsNothing(env: Env, s0: State, es: seq<Event>)
    requires Rounding(env.round) && Fresh(s0) && Mindful(env, s0, es)
    ensures var t := Run(env, s0, es); NothingForgotten(t) && Ids(t) && AwayInv(t)
  {
    if es != [] {
      var front := es[..|es| - 1];
      var s, e := Run(env, s0, front), es[|es| - 1];
      assert front + [e] == es;
      MindfulSnoc(env, s0, front, e);
      MindfulForgetsNothing(env, s0, front);
      RunKeepsInv(env, s0, front);
      ForgottenIff(env, s, e);
      StepKeepsIds(env, s, e);
      StepKeepsAway(env, s, e);
    }
  }

  lemma AwayKnowsNothing(s: State, id: nat)
    requires AwayInv(s) && !s.onScreen && forall k :: 0 <= k < |s.tasks| && IsBuild(s.tasks[k]) ==> s.tasks[k].built.None?
    ensures id in s.pending ==> !Known(s, id)
  {
  }

  /** Short of those steps, once the screen is gone and its builds have returned nothing stays pending. */
  lemma {:induction false} NothingStranded(env: Env, s0: State, es: seq<Event>)
    requires Rounding(env.round) && Fresh(s0) && Mindful(env, s0, es)
    requires var t := Run(env, s0, es);
             !t.onScreen && forall k :: 0 <= k < |t.tasks| && IsBuild(t.tasks[k]) ==> t.tasks[k].built.None?
    ensures Run(env, s0, es).pending == {}
  {
    MindfulForgetsNothing(env, s0, es);
    forall id: nat {
      AwayKnowsNothing(Run(env, s0, es), id);
    }
  }

  /** Nothing pending is lost sight of at any moment of the run. */
  predicate NeverForgets(env: Env, s0: State, es: seq<Event>) {
    forall k :: 0 <= k <= |es| ==> NothingForgotten(Run(env, s0, es[..k]))
  }

  /** What holds after every beginning of a run, one event longer. */
  lemma BeginningsSnoc(p: seq<Event> -> bool, es: seq<Event>, e: Event)
    ensures (forall k :: 0 <= k <= |es| + 1 ==> p((es + [e])[..k])) <==> (forall k :: 0 <= k <= |es| ==> p(es[..k])) && p(es + [e])
  {
    var fs := es + [e];
    assert fs[..|fs|] == fs;
    forall k | 0 <= k <= |es|
      ensures fs[..k] == es[..k]
    {
    }
  }

  lemma NeverForgetsSnoc(env: Env, s0: State, es: seq<Event>, e: Event)
    ensures NeverForgets(env, s0, es + [e]) <==>
            NeverForgets(env, s0, es) && NothingForgotten(Run(env, s0, es + [e]))
  {
    BeginningsSnoc(front => NothingForgotten(Run(env, s0, front)), es, e);
  }

  /** A run never loses sight of a pending PSBT exactly when none of its steps is one of those. */
  lemma {:induction false} MindfulIff(env: Env, s0: State, es: seq<Event>)
    requires Rounding(env.round) && Fresh(s0)
    ensures NeverForgets(env, s0, es) <==> Mindful(env, s0, es)
  {
    if es == [] {
      assert forall k :: 0 <= k <= |es| ==> es[..k] == [];
    } else {
      var front, e := es[..|es| - 1], es[|es| - 1];
      assert front + [e] == es;
      MindfulIff(env, s0, front);
      MindfulSnoc(env, s0, front, e);
      NeverForgetsSnoc(env, s0, front, e);
      if Mindful(env, s0, front) {
        MindfulForgetsNothing(env, s0, front);
        RunKeepsInv(env, s0, front);
        ForgottenIff(env, Run(env, s0, front), e);
      }
    }
  }

  // ---------------------------------------------------------------- a habit that never forgets

  predicate IsBusy(task: Task) {
    task.Confirming? || task.Editing?
  }

  predicate NoneBusy(tasks: seq<Task>) {
    forall k :: 0 <= k < |tasks| ==> !IsBusy(tasks[k])
  }

  /** No Max or Review while a card is up, and no Confirm or Edit while an earlier one is under way. */
  predicate Careful(s: State, e: Event) {
    match e
    case PressMax => s.card.None?
    case PressReview => s.card.None?
    case PressConfirm => NoneBusy(s.tasks)
    case PressEdit => NoneBusy(s.tasks)
    case _ => true
  }

  predicate NoneCounts(tasks: seq<Task>, drainSeq: nat) {
    forall k :: 0 <= k < |tasks| && IsBuild(tasks[k]) ==> tasks[k].turn < drainSeq
  }

  predicate OneBusy(tasks: seq<Task>) {
    forall j, k :: 0 <= j < k < |tasks| ==> !IsBusy(tasks[j]) || !IsBusy(tasks[k])
  }

  /** Under a card no build still counts and no other preview is settled; while the card is sent or edited neither is pending. */
  predicate Tidy(s: State) {
    && (s.card.Some? ==> NoneCounts(s.tasks, s.drainSeq) && (s.drain.Some? ==> s.drain == Some(s.card.value.preview)))
    && (!NoneBusy(s.tasks) ==> s.card.Some? && !StillPending(s, s.preview) && !StillPending(s, s.drain))
    && OneBusy(s.tasks)
  }

  lemma CarefulForgetsNot(env: Env, s: State, e: Event)
    requires CardInv(s) && Tidy(s) && Careful(s, e)
    ensures !Forgets(env, s, e)
  {
  }

  lemma FormKeepsTidy(env: Env, s: State, c: Change)
    requires FormInv(env, s) && Tidy(s)
    ensures Tidy(Changed(env, s, c))
  {
    FormAtMostDrops(env, s, c);
  }

  lemma PressKeepsTidy(env: Env, s: State, e: Event)
    requires e.PressMax? || e.PressReview?
    requires FormInv(env, s) && CardInv(s) && Tidy(s) && Careful(s, e) && Enabled(s, e)
    ensures Tidy(Step(env, s, e))
  {
  }

  lemma SettleKeepsTidy(env: Env, s: State, e: Event)
    requires e.PressConfirm? || e.PressEdit?
    requires CardInv(s) && Tidy(s) && Careful(s, e) && Enabled(s, e)
    ensures Tidy(Step(env, s, e))
  {
  }

  lemma BuiltKeepsTidy(s: State, k: nat, order: Order, totalOut: nat)
    requires Ids(s) && Tidy(s) && k < |s.tasks| && IsBuild(s.tasks[k])
    ensures Tidy(Hold(s, k, order, totalOut))
  {
  }

  /** A build that counts is the only one, and nothing is settled. */
  predicate OnlyOneCounts(s: State, k: nat)
    requires k < |s.tasks| && IsBuild(s.tasks[k])
  {
    s.tasks[k].turn == s.drainSeq ==> s.drain.None? && NoneCounts(EndTask(s, k).tasks, s.drainSeq)
  }

  lemma FormHasOnlyOne(env: Env, s: State, k: nat)
    requires FormInv(env, s) && k < |s.tasks| && IsBuild(s.tasks[k])
    ensures OnlyOneCounts(s, k)
  {
    var t := EndTask(s, k);
    if s.tasks[k].turn == s.drainSeq {
      forall j | 0 <= j < |t.tasks| && IsBuild(t.tasks[j])
        ensures t.tasks[j].turn < s.drainSeq
      {
        assert j != k && TaskMatches(env, s.rows, s.feeText, s.coins, s.drainSeq, s.tasks[j]);
        assert s.tasks[j].turn != s.tasks[k].turn;
      }
    }
  }

  lemma EndTaskKeepsTidy(s: State, k: nat)
    requires Tidy(s) && k < |s.tasks| && IsBuild(s.tasks[k])
    ensures Tidy(EndTask(s, k))
    ensures NoneBusy(EndTask(s, k).tasks) <==> NoneBusy(s.tasks)
  {
    var t := EndTask(s, k);
    assert forall j :: 0 <= j < |s.tasks| ==> (IsBusy(t.tasks[j]) <==> IsBusy(s.tasks[j]));
    if NoneBusy(t.tasks) {
      assert forall j :: 0 <= j < |s.tasks| ==> !IsBusy(t.tasks[j]) && !IsBusy(s.tasks[j]);
    }
  }

  lemma MaxReturnKeepsTidy(s: State, k: nat)
    requires Enabled(s, MaxReturns(k)) && OnlyOneCounts(s, k) && Tidy(s)
    ensures Tidy(MaxReturnsStep(s, k))
  {
    EndTaskKeepsTidy(s, k);
  }

  lemma ReviewReturnKeepsTidy(s: State, k: nat)
    requires Enabled(s, ReviewReturns(k)) && OnlyOneCounts(s, k) && Tidy(s)
    ensures Tidy(ReviewReturnsStep(s, k))
  {
    EndTaskKeepsTidy(s, k);
  }

  lemma EndKeepsTidy(env: Env, s: State, e: Event)
    requires EndsTask(e)
    requires Tidy(s) && Enabled(s, e)
    ensures Tidy(Step(env, s, e))
  {
  }

  lemma LeaveKeepsTidy(s: State)
    requires Tidy(s)
    ensures Tidy(LeaveStep(s))
  {
  }

  lemma {:induction false} StepKeepsTidy(env: Env, s: State, e: Event)
    requires FormInv(env, s) && CardInv(s) && Ids(s) && Tidy(s) && Careful(s, e)
    ensures Tidy(Step(env, s, e))
  {
    if !Enabled(s, e) {
      return;
    }
    match e
    case Form(change) => FormKeepsTidy(env, s, change);
    case PressMax => PressKeepsTidy(env, s, e);
    case PressReview => PressKeepsTidy(env, s, e);
    case PressConfirm => SettleKeepsTidy(env, s, e);
    case PressEdit => SettleKeepsTidy(env, s, e);
    case MaxBuilt(k, totalOut) => BuiltKeepsTidy(s, k, s.tasks[k].order, totalOut);
    case ReviewBuilt(k) => BuiltKeepsTidy(s, k, Transfer(s.tasks[k].asked), SumOf(s.tasks[k].asked.recipients));
    case MaxReturns(k) => FormHasOnlyOne(env, s, k); MaxReturnKeepsTidy(s, k);
    case ReviewReturns(k) => FormHasOnlyOne(env, s, k); ReviewReturnKeepsTidy(s, k);
    case WalletCloses =>
    case WalletReopens =>
    case Leave => LeaveKeepsTidy(s);
    case _ => EndKeepsTidy(env, s, e);
  }

  predicate AllCareful(env: Env, s0: State, es: seq<Event>) {
    forall k :: 0 <= k < |es| ==> Careful(Run(env, s0, es[..k]), es[k])
  }

  lemma AllCarefulSnoc(env: Env, s0: State, es: seq<Event>, e: Event)
    requires AllCareful(env, s0, es + [e])
    ensures AllCareful(env, s0, es) && Careful(Run(env, s0, es), e)
  {
    var fs := es + [e];
    assert fs[..|es|] == es;
    forall k | 0 <= k < |es|
      ensures Careful(Run(env, s0, es[..k]), es[k])
    {
      assert fs[..k] == es[..k];
      assert Careful(Run(env, s0, fs[..k]), fs[k]);
    }
    assert Careful(Run(env, s0, fs[..|es|]), fs[|es|]);
  }

  /** Who presses no button under a card but its own, and those one at a time, never loses sight of a PSBT. */
  lemma {:induction false} CarefulIsMindful(env: Env, s0: State, es: seq<Event>)
    requires Rounding(env.round) && Fresh(s0) && AllCareful(env, s0, es)
    ensures Mindful(env, s0, es) && Tidy(Run(env, s0, es))
  {
    if es != [] {
      var front, e := es[..|es| - 1], es[|es| - 1];
      assert front + [e] == es;
      AllCarefulSnoc(env, s0, front, e);
      CarefulIsMindful(env, s0, front);
      MindfulForgetsNothing(env, s0, front);
      RunKeepsInv(env, s0, front);
      CarefulForgetsNot(env, Run(env, s0, front), e);
      MindfulSnoc(env, s0, front, e);
      StepKeepsTidy(env, Run(env, s0, front), e);
    }
  }

  // ---------------------------------------------------------------- and two runs that forget

  lemma RunSnoc(env: Env, s: State, es: seq<Event>, e: Event)
    ensures Run(env, s, es + [e]) == Step(env, Run(env, s, es), e)
  {
  }

  lemma CollectOne(env: Env, row: Row, sats: nat)
    requires JsTrim(row.address) == row.address && row.address != "" && env.valid(row.address)
    requires ParseAmount(env.round, row.amount, row.unit).sats == Some(sats)
    ensures CollectRecipients(env, [row]) == Some([Recipient(row.address, sats)])
  {
    assert [row][1..] == [];
    assert CollectRecipients(env, []) == Some([]);
    assert [Recipient(row.address, sats)] + [] == [Recipient(row.address, sats)];
  }

  /** The screen after a Review that nothing came between. */
  function Reviewed(s: State, asked: Asked): State {
    var p := Preview(s.counter, Transfer(asked), SumOf(asked.recipients));
    PreviewShown(s, p, asked).(drainSeq := s.drainSeq + 1, counter := s.counter + 1,
                              pending := s.pending + {s.counter}, tasks := s.tasks + [Ended])
  }

  function ReviewEvents(k: nat): seq<Event> {
    [PressReview, ReviewBuilt(k), ReviewReturns(k)]
  }

  function Asking(s: State, task: Task): State {
    s.(drainSeq := s.drainSeq + 1, tasks := s.tasks + [task])
  }

  lemma ReviewAsks(env: Env, s: State, asked: Asked)
    requires s.drain.None? && Submits(env.number(s.feeText))
    requires AskedMatches(env, s.rows, s.feeText, s.coins, asked)
    ensures PressReviewStep(env, s) == Asking(s, ReviewBuild(s.drainSeq + 1, asked, None))
  {
    assert asked == Asked(CollectRecipients(env, s.rows).value, CurrentRate(env, s.feeText), s.coins);
    assert PendingDrainCancelled(s) == s.(drainSeq := s.drainSeq + 1);
  }

  lemma ReviewPressed(env: Env, s: State, asked: Asked)
    requires s.onScreen && s.drain.None? && Submits(env.number(s.feeText))
    requires AskedMatches(env, s.rows, s.feeText, s.coins, asked)
    ensures Step(env, s, PressReview) == Asking(s, ReviewBuild(s.drainSeq + 1, asked, None))
  {
    ReviewAsks(env, s, asked);
  }

  lemma ReviewLanded(env: Env, s: State, asked: Asked)
    ensures var p := Preview(s.counter, Transfer(asked), SumOf(asked.recipients));
            Step(env, Asking(s, ReviewBuild(s.drainSeq + 1, asked, None)), ReviewBuilt(|s.tasks|)) ==
            Asking(s, ReviewBuild(s.drainSeq + 1, asked, Some(p))).(counter := s.counter + 1, pending := s.pending + {s.counter})
  {
  }

  lemma ReviewReturned(env: Env, s: State, asked: Asked)
    requires s.onScreen
    ensures var p := Preview(s.counter, Transfer(asked), SumOf(asked.recipients));
            var t := Asking(s, ReviewBuild(s.drainSeq + 1, asked, Some(p))).(counter := s.counter + 1, pending := s.pending + {s.counter});
            Step(env, t, ReviewReturns(|s.tasks|)) == Reviewed(s, asked)
  {
  }

  lemma {:induction false} ReviewRound(env: Env, s0: State, es: seq<Event>, asked: Asked)
    requires var s := Run(env, s0, es);
             && s.onScreen && s.drain.None? && Submits(env.number(s.feeText))
             && AskedMatches(env, s.rows, s.feeText, s.coins, asked)
    ensures var s := Run(env, s0, es); Run(env, s0, es + ReviewEvents(|s.tasks|)) == Reviewed(s, asked)
  {
    var s := Run(env, s0, es);
    var k := |s.tasks|;
    ReviewPressed(env, s, asked);
    RunSnoc(env, s0, es, PressReview);
    ReviewLanded(env, s, asked);
    RunSnoc(env, s0, es + [PressReview], ReviewBuilt(k));
    ReviewReturned(env, s, asked);
    RunSnoc(env, s0, es + [PressReview] + [ReviewBuilt(k)], ReviewReturns(k));
    assert es + ReviewEvents(k) == es + [PressReview] + [ReviewBuilt(k)] + [ReviewReturns(k)];
  }

  /** Review pressed again under the card it put up: the first preview outlives the screen, whatever was filled in. */
  lemma {:induction false} ReviewTwiceStrands(env: Env, s0: State, fill: seq<Event>, asked: Asked) returns (es: seq<Event>)
    requires Fresh(s0)
    requires var s := Run(env, s0, fill);
             && s.onScreen && s.drain.None? && s.preview.None? && Submits(env.number(s.feeText))
             && AskedMatches(env, s.rows, s.feeText, s.coins, asked)
    ensures var t := Run(env, s0, es); !t.onScreen && Run(env, s0, fill).counter in t.pending
    ensures |Run(env, s0, es).tasks| == |Run(env, s0, fill).tasks| + 2
    ensures forall k :: |Run(env, s0, fill).tasks| <= k < |Run(env, s0, es).tasks| ==> Run(env, s0, es).tasks[k].Ended?
  {
    var s := Run(env, s0, fill);
    ReviewRound(env, s0, fill, asked);
    var once := fill + ReviewEvents(|s.tasks|);
    ReviewRound(env, s0, once, asked);
    var twice := once + ReviewEvents(|s.tasks| + 1);
    assert Run(env, s0, twice) == Reviewed(Reviewed(s, asked), asked);
    RunSnoc(env, s0, twice, Leave);
    es := twice + [Leave];
  }

  function Filled(s: State, address: string, amount: string): State {
    s.(rows := [Row(address, amount, Sat)], drainSeq := s.drainSeq + 2)
  }

  lemma FillIn(env: Env, s: State, address: string, amount: string)
    requires Fresh(s)
    ensures Step(env, Step(env, s, Form(EditAddress(0, address))), Form(EditAmount(0, amount))) == Filled(s, address, amount)
  {
  }

  /** A form can be filled in so: the run above exists. */
  lemma {:induction false} FormCanBeFilled() returns (env: Env, s0: State, fill: seq<Event>, asked: Asked)
    ensures Rounding(env.round) && Fresh(s0)
    ensures var s := Run(env, s0, fill);
            && s.onScreen && s.drain.None? && s.preview.None? && Submits(env.number(s.feeText)) && s.tasks == []
            && AskedMatches(env, s.rows, s.feeText, s.coins, asked)
  {
    env := Env((n: nat) => n, (text: string) => Some(1.0), (rate: real) => "1", (address: string) => true);
    s0 := State([Row("", "", Sat)], "1", None, false, 6, None, false, true, None, 0, None, None, [], 0, {}, []);
    var amount := FormatAmount(5, Sat);
    FormatParses(env.round, 5, Sat);
    TrimOfTight(IsJsSpace, "a");
    CollectOne(env, Row("a", amount, Sat), 5);
    asked := Asked([Recipient("a", 5)], CurrentRate(env, "1"), None);
    fill := [] + [Form(EditAddress(0, "a"))] + [Form(EditAmount(0, amount))];
    RunSnoc(env, s0, [], Form(EditAddress(0, "a")));
    RunSnoc(env, s0, [] + [Form(EditAddress(0, "a"))], Form(EditAmount(0, amount)));
    FillIn(env, s0, "a", amount);
  }

  // ---------------------------------------------------------------- the screen itself

  /** The recipients collected so far, before those still to come. */
  predicate CollectedTo(env: Env, rows: seq<Row>, i: nat, out: seq<Recipient>)
    requires i <= |rows|
  {
    var rest := CollectRecipients(env, rows[i..]);
    CollectRecipients(env, rows) == if rest.None? then None else Some(out + rest.value)
  }

  lemma CollectStart(env: Env, rows: seq<Row>)
    ensures CollectedTo(env, rows, 0, [])
  {
    assert rows[0..] == rows;
    var all := CollectRecipients(env, rows);
    assert all.Some? ==> [] + all.value == all.value;
  }

  lemma {:induction false} CollectOneMore(env: Env, rows: seq<Row>, i: nat, out: seq<Recipient>)
    requires i < |rows| && CollectedTo(env, rows, i, out)
    ensures RowPays(env, rows[i]).None? ==> CollectRecipients(env, rows).None?
    ensures RowPays(env, rows[i]).Some? ==> CollectedTo(env, rows, i + 1, out + [RowPays(env, rows[i]).value])
  {
    assert rows[i..][0] == rows[i] && rows[i..][1..] == rows[i + 1..];
    var first, rest := RowPays(env, rows[i]), CollectRecipients(env, rows[i + 1..]);
    if first.Some? && rest.Some? {
      assert out + ([first.value] + rest.value) == (out + [first.value]) + rest.value;
    }
  }

  lemma NoneCollected(env: Env, rows: seq<Row>, i: nat, out: seq<Recipient>)
    requires i < |rows| && CollectedTo(env, rows, i, out) && RowPays(env, rows[i]).None?
    ensures CollectRecipients(env, rows).None?
  {
    CollectOneMore(env, rows, i, out);
  }

  lemma OneMoreCollected(env: Env, rows: seq<Row>, i: nat, out: seq<Recipient>, recipient: Recipient)
    requires i < |rows| && CollectedTo(env, rows, i, out) && RowPays(env, rows[i]) == Some(recipient)
    ensures CollectedTo(env, rows, i + 1, out + [recipient])
  {
    CollectOneMore(env, rows, i, out);
  }

  lemma CollectEnd(env: Env, rows: seq<Row>, out: seq<Recipient>)
    requires CollectedTo(env, rows, |rows|, out)
    ensures CollectRecipients(env, rows) == Some(out)
  {
    assert rows[|rows|..] == [];
    assert out + [] == out;
  }

  /** The variables `renderSend` closes over, its tasks in flight, and the screen's part of the pending PSBTs. */
  class SendForm {
    const env: Env
    var rows: seq<Row>
    var feeText: string
    var coins: Coins
    var rateTouched: bool
    var target: nat
    var estimate: Option<seq<Entry>>
    var locked: bool
    var onScreen: bool
    var drain: Option<Preview>
    var drainSeq: nat
    var preview: Option<Preview>
    var card: Option<Card>
    var tasks: seq<Task>
    var counter: nat
    var pending: set<nat>
    var signed: seq<Card>

    constructor (env: Env, coins: Coins)
      ensures this.env == env && Fresh(Snapshot()) && this.coins == coins
    {
      this.env, this.coins := env, coins;
      rows, feeText, rateTouched, target, estimate := [Row("", "", Sat)], "1", false, 6, None;
      locked, onScreen, drain, drainSeq, preview, card := false, true, None, 0, None, None;
      tasks, counter, pending, signed := [], 0, {}, [];
    }

    function Snapshot(): State
      reads this
    {
      State(rows, feeText, coins, rateTouched, target, estimate, locked, onScreen,
            drain, drainSeq, preview, card, tasks, counter, pending, signed)
    }

    /** `api.discardTx`. */
    method DiscardTx(id: nat)
      modifies this`pending
      ensures pending == old(pending) - {id}
    {
      pending := pending - {id};
    }

    method End(k: nat)
      requires k < |tasks|
      modifies this`tasks
      ensures tasks == old(tasks)[k := Ended]
    {
      tasks := tasks[k := Ended];
    }

    method LeaveDrain()
      modifies this
      ensures Snapshot() == DrainLeft(old(Snapshot()))
    {
      drainSeq := drainSeq + 1;
      if drain.None? {
        return;
      }
      DiscardTx(drain.value.id);
      drain := None;
    }

    method CancelPendingDrain()
      modifies this
      ensures Snapshot() == PendingDrainCancelled(old(Snapshot()))
    {
      if drain.None? {
        drainSeq := drainSeq + 1;
      }
    }

    method ApplyEstimate()
      modifies this
      ensures Snapshot() == EstimateApplied(env, old(Snapshot()))
    {
      if estimate.None? {
        return;
      }
      var rate := RateForTarget(estimate.value, target);
      if rate.None? {
        return;
      }
      var rounded := env.show(TypeableRate(rate.value));
      if feeText != rounded {
        LeaveDrain();
      }
      feeText := rounded;
    }

    // The handlers of the form's own controls.

    method AddressInput(i: nat, text: string)
      requires Possible(Snapshot(), EditAddress(i, text))
      modifies this
      ensures Snapshot() == Changed(env, old(Snapshot()), EditAddress(i, text))
    {
      LeaveDrain();
      rows := rows[i := rows[i].(address := text)];
    }

    method AmountInput(i: nat, text: string)
      requires Possible(Snapshot(), EditAmount(i, text))
      modifies this
      ensures Snapshot() == Changed(env, old(Snapshot()), EditAmount(i, text))
    {
      LeaveDrain();
      rows := rows[i := rows[i].(amount := text)];
    }

    method SetUnit(i: nat, unit: Unit)
      requires Possible(Snapshot(), SwitchUnit(i, unit))
      modifies this
      ensures Snapshot() == Changed(env, old(Snapshot()), SwitchUnit(i, unit))
    {
      var amount := ConvertField(env.round, rows[i].amount, rows[i].unit, unit);
      rows := rows[i := rows[i].(amount := amount, unit := unit)];
    }

    method RateInput(text: string)
      requires Possible(Snapshot(), EditRate(text))
      modifies this
      ensures Snapshot() == Changed(env, old(Snapshot()), EditRate(text))
    {
      feeText := text;
      rateTouched := true;
      LeaveDrain();
    }

    method TargetPicked(t: nat)
      requires Possible(Snapshot(), PickTarget(t))
      modifies this
      ensures Snapshot() == Changed(env, old(Snapshot()), PickTarget(t))
    {
      target := t;
      rateTouched := false;
      LeaveDrain();
      ApplyEstimate();
    }

    method AddRecipient()
      requires Possible(Snapshot(), AddRow)
      modifies this
      ensures Snapshot() == Changed(env, old(Snapshot()), AddRow)
    {
      LeaveDrain();
      rows := rows + [Row("", "", Sat)];
    }

    method RemoveRecipient(i: nat)
      requires Possible(Snapshot(), RemoveRow(i))
      modifies this
      ensures Snapshot() == Changed(env, old(Snapshot()), RemoveRow(i))
    {
      LeaveDrain();
      rows := rows[..i] + rows[i + 1..];
    }

    method LetWalletChoose()
      requires Possible(Snapshot(), LetChoose)
      modifies this
      ensures Snapshot() == Changed(env, old(Snapshot()), LetChoose)
    {
      coins := None;
      LeaveDrain();
    }

    /** `loadEstimate` once the estimate has answered. */
    method EstimateLoaded(entries: seq<Entry>)
      modifies this
      ensures Snapshot() == Changed(env, old(Snapshot()), EstimateLands(entries))
    {
      estimate := Some(entries);
      if !onScreen || rateTouched {
        return;
      }
      ApplyEstimate();
    }

    /** `fillMax` up to its await. */
    method FillMax()
      requires Enabled(Snapshot(), PressMax)
      modifies this
      ensures Snapshot() == PressMaxStep(env, old(Snapshot()))
    {
      var address := JsTrim(rows[0].address);
      if address == "" || !env.valid(address) {
        return;
      }
      LeaveDrain();
      var rate := CurrentRate(env, feeText);
      tasks := tasks + [MaxBuild(drainSeq, Drain(address, rate, coins), None)];
    }

    /** `buildPreview` once the core has built for task `k`, paying `totalOut`. */
    method CoreBuilt(k: nat, order: Order, totalOut: nat)
      requires k < |tasks| && IsBuild(tasks[k])
      modifies this
      ensures Snapshot() == Hold(old(Snapshot()), k, order, totalOut)
    {
      tasks := tasks[k := tasks[k].(built := Some(Preview(counter, order, totalOut)))];
      pending := pending + {counter};
      counter := counter + 1;
    }

    /** `fillMax` once its build has answered. */
    method MaxReturned(k: nat)
      requires Enabled(Snapshot(), MaxReturns(k))
      modifies this
      ensures Snapshot() == MaxReturnsStep(old(Snapshot()), k)
    {
      var n, p := tasks[k].turn, tasks[k].built.value;
      End(k);
      if n != drainSeq || !onScreen {
        DiscardTx(p.id);
        return;
      }
      drain := Some(p);
      rows := rows[0 := rows[0].(amount := FormatAmount(p.totalOut, rows[0].unit))];
    }

    method ShowPreview(p: Preview, asked: Asked)
      modifies this
      ensures Snapshot() == PreviewShown(old(Snapshot()), p, asked)
    {
      locked := true;
      preview := Some(p);
      card := Some(Card(p, asked));
    }

    /** One row's address and amount, checked. */
    method RecipientOf(row: Row) returns (recipient: Option<Recipient>)
      ensures recipient == RowPays(env, row)
    {
      var address := JsTrim(row.address);
      var sats := ParseAmount(env.round, row.amount, row.unit).sats;
      if address == "" || !env.valid(address) || sats.None? {
        return None;
      }
      recipient := Some(Recipient(address, sats.value));
    }

    /** `collectRecipients`: every row's address and sats, in order, or None at the first row without them. */
    method Collect() returns (recipients: Option<seq<Recipient>>)
      ensures recipients == CollectRecipients(env, rows)
    {
      var out, rs := [], rows;
      CollectStart(env, rs);
      for i := 0 to |rs|
        invariant CollectedTo(env, rs, i, out)
      {
        var recipient := RecipientOf(rs[i]);
        if recipient.None? {
          NoneCollected(env, rs, i, out);
          return None;
        }
        OneMoreCollected(env, rs, i, out, recipient.value);
        out := out + [recipient.value];
      }
      CollectEnd(env, rs, out);
      recipients := Some(out);
    }

    /** The Review button's handler up to its await, or to its end in Max mode. */
    method Review()
      requires onScreen
      modifies this
      ensures Snapshot() == PressReviewStep(env, old(Snapshot()))
    {
      var recipients := Collect();
      if recipients.None? || !Submits(env.number(feeText)) {
        return;
      }
      var asked := Asked(recipients.value, CurrentRate(env, feeText), coins);
      CancelPendingDrain();
      if drain.Some? {
        ShowPreview(drain.value, asked);
      } else {
        tasks := tasks + [ReviewBuild(drainSeq, asked, None)];
      }
    }

    /** The Review button's handler once its build has answered. */
    method ReviewReturned(k: nat)
      requires Enabled(Snapshot(), ReviewReturns(k))
      modifies this
      ensures Snapshot() == ReviewReturnsStep(old(Snapshot()), k)
    {
      var n, asked, p := tasks[k].turn, tasks[k].asked, tasks[k].built.value;
      End(k);
      if n != drainSeq || !onScreen {
        if drain != Some(p) {
          DiscardTx(p.id);
        }
        return;
      }
      ShowPreview(p, asked);
    }

    /** Confirm up to the signing. */
    method Confirm() returns (ok: bool)
      requires Enabled(Snapshot(), PressConfirm)
      modifies this
      ensures ok <==> old(card.value.preview.id in pending)
      ensures signed == if ok then old(signed) + [old(card.value)] else old(signed)
      ensures Snapshot() == PressConfirmStep(old(Snapshot()))
    {
      var p := card.value.preview;
      ok := p.id in pending;
      if ok {
        DiscardTx(p.id);
        signed := signed + [card.value];
      }
      tasks := tasks + [Confirming(ok)];
    }

    /** Confirm once the broadcast has answered. */
    method Confirmed(k: nat, ok: bool)
      requires Enabled(Snapshot(), if ok then ConfirmSucceeds(k) else ConfirmFails(k))
      modifies this
      ensures Snapshot() == if ok then ConfirmSucceedsStep(old(Snapshot()), k) else ConfirmFailsStep(old(Snapshot()), k)
    {
      End(k);
      preview := None;
      drain := None;
      if !ok && onScreen {
        card := None;
        locked := false;
      }
    }

    /** The card's Edit button. */
    method Edit()
      requires Enabled(Snapshot(), PressEdit)
      modifies this
      ensures Snapshot() == PressEditStep(old(Snapshot()))
    {
      var p := card.value.preview;
      if drain != Some(p) {
        DiscardTx(p.id);
        tasks := tasks + [Editing];
        return;
      }
      preview := None;
      card := None;
      locked := false;
    }

    /** `discardOnLeave`. */
    method DiscardOnLeave()
      requires onScreen
      modifies this
      ensures Snapshot() == LeaveStep(old(Snapshot()))
    {
      if preview.Some? && preview != drain {
        DiscardTx(preview.value.id);
      }
      preview := None;
      LeaveDrain();
      onScreen := false;
    }
  }
}
