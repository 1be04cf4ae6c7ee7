/**
 What the presses of the Send screen come to (packages/wallet-ui/src/screens/send.ts): each kind
 of work from its button to its end, with nothing between, and what an edit leaves in the form.
 */
module SendRounds {
  import opened Wrappers
  import opened Amounts
  import opened Text
  import opened Rates
  import opened FeeTargets
  import opened SendScreen

  // ---------------------------------------------------------------- what is signed

  /** Confirm pressed on a card whose PSBT is still pending. */
  predicate Signs(s: State, e: Event) {
    e.PressConfirm? && s.onScreen && s.card.Some? && s.card.value.preview.id in s.pending
  }

  /** Exactly that signs, and it signs the card on the screen and uses its PSBT up. */
  lemma SignsExactly(env: Env, s: State, e: Event)
    ensures var t := Step(env, s, e);
            if Signs(s, e) then t.signed == s.signed + [s.card.value] && t.pending == s.pending - {s.card.value.preview.id}
            else t.signed == s.signed
  {
    if e.Form? {
      FormAtMostDrops(env, s, e.change);
    } else if e.PressMax? {
      MaxLeavesCard(env, s);
    }
  }

  /** The cards on which Confirm was pressed while their PSBT was pending, in order. */
  function Confirmations(env: Env, s0: State, es: seq<Event>): seq<Card> {
    if es == [] then []
    else
      var front, e := es[..|es| - 1], es[|es| - 1];
      var s := Run(env, s0, front);
      Confirmations(env, s0, front) + if Signs(s, e) then [s.card.value] else []
  }

  /** In any run those, and no others, are what was signed. */
  lemma {:induction false} SignedAreConfirmed(env: Env, s0: State, es: seq<Event>)
    ensures Run(env, s0, es).signed == s0.signed + Confirmations(env, s0, es)
  {
    if es != [] {
      var front, e := es[..|es| - 1], es[|es| - 1];
      SignedAreConfirmed(env, s0, front);
      SignsExactly(env, Run(env, s0, front), e);
    }
  }

  // ---------------------------------------------------------------- whole rounds

  /** The form, as the user sees it. */
  predicate SameForm(s: State, t: State) {
    t.rows == s.rows && t.feeText == s.feeText && t.coins == s.coins && t.target == s.target && t.rateTouched == s.rateTouched
  }

  predicate CanReview(env: Env, s: State, asked: Asked) {
    && s.onScreen && s.drain.None? && Submits(env.number(s.feeText))
    && AskedMatches(env, s.rows, s.feeText, s.coins, asked)
  }

  /** Review, built and shown, and Confirm: what was asked for is what is signed, whichever way it ends. */
  lemma {:induction false} ReviewConfirmRound(env: Env, s0: State, es: seq<Event>, asked: Asked)
    requires CanReview(env, Run(env, s0, es), asked)
    ensures var s := Run(env, s0, es);
            var k := |s.tasks|;
            var p := Preview(s.counter, Transfer(asked), SumOf(asked.recipients));
            var t := Run(env, s0, es + ReviewEvents(k) + [PressConfirm]);
            && t.signed == s.signed + [Card(p, asked)] && p.id !in t.pending && SameForm(s, t)
  {
    var s := Run(env, s0, es);
    var k := |s.tasks|;
    ReviewRound(env, s0, es, asked);
    RunSnoc(env, s0, es + ReviewEvents(k), PressConfirm);
    SignsExactly(env, Reviewed(s, asked), PressConfirm);
    ConfirmLeavesForm(env, Reviewed(s, asked));
  }

  lemma ConfirmLeavesForm(env: Env, s: State)
    requires s.onScreen && s.card.Some?
    ensures var t := Step(env, s, PressConfirm);
            SameForm(s, t) && t.card == s.card && t.tasks == s.tasks + [Confirming(s.card.value.preview.id in s.pending)]
  {
  }

  /** Once sent nothing is kept to send again; and a failure gives the form back as it was, open to edits. */
  lemma ConfirmEnds(env: Env, s: State, k: nat)
    requires k < |s.tasks| && s.tasks[k] == Confirming(true) && s.onScreen
    ensures var t := Step(env, s, ConfirmSucceeds(k));
            && t.preview.None? && t.drain.None? && SameForm(s, t) && t.tasks[k].Ended?
            && t.card == s.card && t.locked == s.locked && t.pending == s.pending && t.signed == s.signed
    ensures var t := Step(env, s, ConfirmFails(k));
            t.preview.None? && t.drain.None? && t.card.None? && !t.locked && SameForm(s, t) && t.tasks[k].Ended?
  {
  }

  /** Edit lets the card go, with its PSBT, and gives the form back as it was. */
  lemma EditRound(env: Env, s: State)
    requires s.onScreen && s.card.Some? && s.drain != Some(s.card.value.preview)
    ensures var k := |s.tasks|;
            var t := Step(env, Step(env, s, PressEdit), EditReturns(k));
            && t.card.None? && t.preview.None? && !t.locked && SameForm(s, t)
            && t.pending == s.pending - {s.card.value.preview.id} && t.drain == s.drain && t.signed == s.signed
  {
  }

  /** On a Max card it keeps the Max preview, still pending, to be reviewed again. */
  lemma EditKeepsMax(env: Env, s: State)
    requires s.onScreen && s.card.Some? && s.drain == Some(s.card.value.preview)
    ensures var t := Step(env, s, PressEdit);
            && t.card.None? && t.preview.None? && !t.locked && SameForm(s, t) && t.pending == s.pending && t.drain == s.drain
            && t.tasks == s.tasks
  {
  }

  /** The form Max can be pressed on: one row, with a good address. */
  predicate CanMax(env: Env, s: State) {
    s.onScreen && |s.rows| == 1 && JsTrim(s.rows[0].address) != "" && env.valid(JsTrim(s.rows[0].address))
  }

  function MaxOrder(env: Env, s: State): Order
    requires |s.rows| == 1
  {
    Drain(JsTrim(s.rows[0].address), CurrentRate(env, s.feeText), s.coins)
  }

  lemma MaxPressed(env: Env, s: State)
    requires CanMax(env, s)
    ensures var t := Step(env, s, PressMax);
            && t.tasks == s.tasks + [MaxBuild(t.drainSeq, MaxOrder(env, s), None)] && t.drain.None? && SameForm(s, t)
            && t.counter == s.counter && t.onScreen && t.card == s.card && t.preview == s.preview && t.signed == s.signed
            && t.pending == (if s.drain.Some? then s.pending - {s.drain.value.id} else s.pending)
  {
  }

  lemma MaxLanded(env: Env, t: State, k: nat, order: Order, totalOut: nat)
    requires 1 <= totalOut <= MAX_SAFE && t.onScreen && |t.rows| == 1
    requires k < |t.tasks| && t.tasks[k] == MaxBuild(t.drainSeq, order, None)
    ensures var p := Preview(t.counter, order, totalOut);
            var u := Step(env, Step(env, t, MaxBuilt(k, totalOut)), MaxReturns(k));
            && u.drain == Some(p) && u.pending == t.pending + {t.counter} && u.counter == t.counter + 1
            && u.rows == [t.rows[0].(amount := FormatAmount(totalOut, t.rows[0].unit))]
            && u.feeText == t.feeText && u.coins == t.coins && u.card == t.card && u.preview == t.preview && u.signed == t.signed
  {
    var v := Step(env, t, MaxBuilt(k, totalOut));
    assert v.tasks[k] == MaxBuild(t.drainSeq, order, Some(Preview(t.counter, order, totalOut)));
  }

  /** Max, built and back: the preview drains to the form's address at its rate from its coins, and the amount says what arrives. */
  lemma {:induction false} MaxRound(env: Env, s: State, totalOut: nat)
    requires CanMax(env, s) && 1 <= totalOut <= MAX_SAFE
    ensures var k := |s.tasks|;
            var p := Preview(s.counter, MaxOrder(env, s), totalOut);
            var t := Step(env, Step(env, Step(env, s, PressMax), MaxBuilt(k, totalOut)), MaxReturns(k));
            && t.drain == Some(p) && p.id in t.pending && t.signed == s.signed && t.card == s.card
            && t.rows == [s.rows[0].(amount := FormatAmount(totalOut, s.rows[0].unit))] && t.feeText == s.feeText && t.coins == s.coins
  {
    MaxPressed(env, s);
    MaxLanded(env, Step(env, s, PressMax), |s.tasks|, MaxOrder(env, s), totalOut);
  }

  /** Review with a settled Max puts that very preview up, locks the form, and builds nothing. */
  lemma MaxReviewed(env: Env, s: State)
    requires s.onScreen && s.drain.Some? && Submits(env.number(s.feeText)) && CollectRecipients(env, s.rows).Some?
    ensures var t := Step(env, s, PressReview);
            && t.card == Some(Card(s.drain.value, Asked(CollectRecipients(env, s.rows).value, CurrentRate(env, s.feeText), s.coins)))
            && t.preview == s.drain && t.drain == s.drain && t.locked && t.tasks == s.tasks && t.pending == s.pending && SameForm(s, t)
  {
  }

  /** Without good rows or a rate it does nothing; nor does Max without a good address. */
  lemma RefusedDoesNothing(env: Env, s: State)
    ensures CollectRecipients(env, s.rows).None? || !Submits(env.number(s.feeText)) ==> Step(env, s, PressReview) == s
    ensures !CanMax(env, s) ==> Step(env, s, PressMax) == s
  {
  }

  /** A build that comes too late changes nothing but what is pending: its own PSBT is let go. */
  lemma LateChangesNothing(env: Env, s: State, e: Event)
    requires (e.MaxReturns? || e.ReviewReturns?) && Enabled(s, e)
    requires s.tasks[e.k].turn != s.drainSeq || !s.onScreen
    requires s.drain != s.tasks[e.k].built
    ensures Step(env, s, e) == s.(tasks := s.tasks[e.k := Ended], pending := s.pending - {s.tasks[e.k].built.value.id})
  {
  }

  /** Leaving lets go of the Max preview and of the card's, unless that is on its way out. */
  lemma LeavingLetsGo(env: Env, s: State)
    requires s.onScreen
    ensures var t := Step(env, s, Leave);
            && !t.onScreen && t.preview.None? && t.drain.None? && t.drainSeq > s.drainSeq
            && (forall id :: id in t.pending <==> id in s.pending && IdOf(s.drain) != Some(id) && IdOf(s.preview) != Some(id))
  {
  }

  /** A build may fail while it is out, and nothing comes of it. */
  lemma FailedBuildLeavesNothing(env: Env, s: State, k: nat)
    requires k < |s.tasks| && IsBuild(s.tasks[k]) && s.tasks[k].built.None?
    ensures Step(env, s, BuildFails(k)) == s.(tasks := s.tasks[k := Ended])
  {
  }

  /** A sending that did not hand a PSBT over can only fail. */
  lemma OnlySignedSucceeds(s: State, k: nat)
    ensures k < |s.tasks| && s.tasks[k] == Confirming(false) ==> !Enabled(s, ConfirmSucceeds(k)) && Enabled(s, ConfirmFails(k))
    ensures k < |s.tasks| && s.tasks[k] == Confirming(true) ==> Enabled(s, ConfirmSucceeds(k)) && Enabled(s, ConfirmFails(k))
  {
  }

  /** A wallet that closes takes the screen and every pending PSBT with it, and one opened again in place the PSBTs alone. */
  lemma WalletGoes(env: Env, s: State)
    ensures var t := Step(env, s, WalletCloses); t.pending == {} && !t.onScreen && t.signed == s.signed && SameForm(s, t)
    ensures Step(env, s, WalletReopens) == s.(pending := {})
  {
  }

  // ---------------------------------------------------------------- what an edit leaves

  /** While the card is up, and off the screen, nothing but a fee estimate reaches the form. */
  lemma LockedFormStays(env: Env, s: State, c: Change)
    requires (s.locked || !s.onScreen) && !c.EstimateLands?
    ensures Changed(env, s, c) == s
  {
  }

  /** On the screen and with no card up the form takes every edit it shows a control for, and only a switch to the other unit. */
  lemma FormAccepts(s: State, i: nat, text: string, unit: Unit)
    requires s.onScreen && !s.locked
    ensures Possible(s, EditAddress(i, text)) <==> i < |s.rows|
    ensures Possible(s, EditAmount(i, text)) <==> i < |s.rows|
    ensures Possible(s, SwitchUnit(i, unit)) <==> i < |s.rows| && unit == if s.rows[i].unit == Sat then Btc else Sat
    ensures Possible(s, EditRate(text))
  {
  }

  /** Each edit changes its own field and no other; any of them that Max was built from takes Max with it. */
  lemma EditsWhatItSays(env: Env, s: State, c: Change)
    requires Possible(s, c) && (c.EditAddress? || c.EditAmount? || c.SwitchUnit?)
    ensures var t := Changed(env, s, c);
            && |t.rows| == |s.rows| && t.feeText == s.feeText && t.coins == s.coins && t.target == s.target && t.estimate == s.estimate
            && (forall j :: 0 <= j < |s.rows| && j != c.i ==> t.rows[j] == s.rows[j])
            && t.rows[c.i].address == (if c.EditAddress? then c.text else s.rows[c.i].address)
            && (c.EditAmount? ==> t.rows[c.i].amount == c.text)
            && (c.EditAddress? ==> t.rows[c.i].amount == s.rows[c.i].amount)
            && t.rows[c.i].unit == (if c.SwitchUnit? then c.unit else s.rows[c.i].unit)
            && (if c.SwitchUnit? then t.drain == s.drain && t.drainSeq == s.drainSeq else t.drain.None? && t.drainSeq > s.drainSeq)
  {
  }

  /** A row more is an empty one, a row less is that one, and the wallet chooses the coins once it may. */
  lemma RowsAndCoins(env: Env, s: State, i: nat)
    requires s.onScreen && !s.locked
    ensures s.drain.None? ==> Changed(env, s, AddRow).rows == s.rows + [Row("", "", Sat)]
    ensures s.drain.Some? ==> Changed(env, s, AddRow) == s
    ensures i < |s.rows| && 1 < |s.rows| ==>
              var t := Changed(env, s, RemoveRow(i)); t.rows == s.rows[..i] + s.rows[i + 1..] && t.drain.None? && t.drainSeq > s.drainSeq
    ensures |s.rows| == 1 ==> Changed(env, s, RemoveRow(i)) == s
    ensures s.coins.Some? ==> var t := Changed(env, s, LetChoose); t.coins.None? && t.rows == s.rows && t.drain.None? && t.drainSeq > s.drainSeq
  {
  }

  // ---------------------------------------------------------------- the rate

  /** The text an estimate puts in the field for a target, if it has a rate for it. */
  function EstimateText(env: Env, entries: seq<Entry>, target: nat): Option<string> {
    match RateForTarget(entries, target)
    case None => None
    case Some(rate) => Some(env.show(TypeableRate(rate)))
  }

  lemma EstimatePuts(env: Env, s: State)
    ensures var t := EstimateApplied(env, s);
            var text := if s.estimate.Some? then EstimateText(env, s.estimate.value, s.target) else None;
            && t.feeText == (if text.Some? then text.value else s.feeText)
            && t.rows == s.rows && t.coins == s.coins && t.target == s.target && t.rateTouched == s.rateTouched && t.estimate == s.estimate
            && (t.feeText != s.feeText ==> t.drain.None? && t.drainSeq > s.drainSeq)
            && (t.feeText == s.feeText ==> t.drain == s.drain && t.drainSeq == s.drainSeq)
  {
  }

  /** An estimate that lands shows its rate for the picked target, unless a rate was typed; and is kept in any case. */
  lemma EstimateShows(env: Env, s: State, entries: seq<Entry>)
    ensures var t := Changed(env, s, EstimateLands(entries));
            && t.estimate == Some(entries) && t.rows == s.rows && t.target == s.target
            && t.feeText == (if s.onScreen && !s.rateTouched && EstimateText(env, entries, s.target).Some?
                             then EstimateText(env, entries, s.target).value else s.feeText)
  {
    EstimatePuts(env, s.(estimate := Some(entries)));
  }

  /** Picking a target goes back to the estimate, and shows its rate for that target. */
  lemma TargetShows(env: Env, s: State, target: nat)
    requires s.onScreen && !s.locked
    ensures var t := Changed(env, s, PickTarget(target));
            && t.target == target && !t.rateTouched && t.rows == s.rows && t.drain.None? && t.drainSeq > s.drainSeq
            && t.feeText == (if s.estimate.Some? && EstimateText(env, s.estimate.value, target).Some?
                             then EstimateText(env, s.estimate.value, target).value else s.feeText)
  {
    EstimatePuts(env, DrainLeft(s).(target := target, rateTouched := false));
  }

  predicate SetsRate(e: Event) {
    e.Form? && (e.change.EditRate? || e.change.PickTarget?)
  }

  lemma OnlyFormTouchesRate(env: Env, s: State, e: Event)
    requires s.rateTouched && !SetsRate(e)
    ensures var t := Step(env, s, e); t.feeText == s.feeText && t.rateTouched
  {
    if e.Form? && e.change.EstimateLands? {
      EstimatePuts(env, s.(estimate := Some(e.change.entries)));
    }
  }

  /** A typed rate stays through anything but another one and a picked target: no estimate, however late, takes its place. */
  lemma {:induction false} TypedRateStays(env: Env, s: State, text: string, es: seq<Event>)
    requires s.onScreen && !s.locked && forall k :: 0 <= k < |es| ==> !SetsRate(es[k])
    ensures var t := Run(env, Step(env, s, Form(EditRate(text))), es); t.feeText == text && t.rateTouched
  {
    if es != [] {
      var front, e := es[..|es| - 1], es[|es| - 1];
      TypedRateStays(env, s, text, front);
      OnlyFormTouchesRate(env, Run(env, Step(env, s, Form(EditRate(text))), front), e);
    }
  }
}
