# Verified model of the wallet

A model in Dafny of a Bitcoin wallet: the asynchronous protocols of its TypeScript user
interface, the transaction arithmetic and persistence of its Rust core, and the funding loop
and script integers of its Go reference. `dafny verify dfyconfig.toml` checks all of it.

The user-interface protocols are transition systems. JavaScript runs to completion, so one
event is the code between two awaits, or the landing of one write. `Step` says what an event
does to the state, `Run` folds any sequence of events, and the environment chooses the order,
so a lemma about `Run` is about every interleaving. Beside each such system stands a class
whose fields the methods update as the source does; each method's contract ties the new state
to `Step`, or to the function `Step` uses for that event.

| module | what it models |
|---|---|
| WalletOpens | opening wallets under an attempt counter, and remembering their keys through a queue |
| HeldPreviews | the preview a screen holds while it offers Speed up or Cancel, over the map of unsigned PSBTs |
| SendScreen, SendRounds | the Send form: Max, Review, Confirm, with builds and estimates landing at any time; what each press comes to |
| Autolock | closing the remembered wallet after an absence |
| Persistence | staged change sets, an aggregate that has already merged a failed write, the record's format |
| Psbts | filling in our coins, reviewing a PSBT from history, telling payment from change |
| Ledger | the balance, freezing, chosen coins, builds and broadcasts |
| FeeBumps, Rates, FeeTargets | the fees of a cancel and of a CPFP child, rates across the two languages, estimates by target |
| Amounts, Bip21, Urls, Text | amounts and payment URIs: what is accepted, what is printed, and back |
| Keys, Descriptors | key material to and from its stored form, and the change twin of a watch-only descriptor |
| UtxoSelector, Funding, TxBuilding, Transfers, Rebuilds | the Go coin selection, funding loop and builder |
| ScriptInts | the Go script integers |

Results that are not simply "it always holds" are stated with their exact condition:

- The record can be left without its key exactly when a superseded attempt re-opened the very
  wallet the record names (`RecordKeptIff`, with a run in `ReopenClobbersRecord`).
- The Send screen loses sight of a pending PSBT exactly at the steps `Forgets` names
  (`ForgottenIff`): Review pressed again under its own card, which `withBusy` allows since it
  enables the button when the work ends, and Confirm or Edit ending after a newer build
  settled; over a run, exactly when there is no such step (`MindfulIff`). Pressing under a card
  only its own buttons, one at a time, is enough (`CarefulIsMindful`). `ReviewTwiceStrands` is a
  run that forgets. What is signed is what was reviewed in any case.
- A held preview is signed by the wallet of the screen that offered it. That wallet also built it
  exactly when the screen's `hold` began with it open (`SignedOnceAsOffered`, `AtHomeIff`), which
  `hold` leaves to its callers; `SignedAway` is a run where it did not.
- The fee under PSBT review is history's exactly when every input is ours with its whole
  transaction known (`FeeIsHistoryIff`).
- Freezing does not recall a build made before it: broadcast late, it spends the coin exactly when
  it names it (`LateBroadcastSpendsIff`). Over a run a frozen coin stays exactly when no event
  takes or unfreezes it (`FrozenStaysIff`), and no build made meanwhile ever takes it
  (`FrozenStays`).
- The background lock waits for running work, but its check and its closing are two steps. It
  closes under running work exactly when work started between the two has not ended
  (`ClosesUnderWorkIff`, on `LockWaitsForWork`; a run in `ClosesUnderNewWork`). The comment at
  packages/wallet-ui/src/ui/autolock.ts:57-61 promises a little more.
- A payment URI round-trips exactly for the addresses `Carries` describes (`RoundTrip`).
- A change descriptor keeps a `/0/*` exactly when the source had one beside a `<0;1>` or in a
  bare key (`ChangeIsChange`).
- The Go selection is greedy and turns down coins that would do (`GreedyMisses`, for a family of
  amounts); success is exactly `Suffices`.
- The Go builder's first `Build` repeats no coin (`BuildRepeatsNothing`, `NoCoinTwice`). It leaves
  inputs and pool apart exactly when it drew nothing (`StaysApartIff`), and a second one repeats a
  coin exactly when it draws one the first drew (`TwiceRepeatsIff`). A caller can check
  `NeedsNothing` before either, and then the second is safe (`BuildPayBuild`); `BuildTwice` is a
  run where it is not.
- The Go script integers round-trip from -1 up, and below that only for -2^6, -2^14, ...,
  -2^62: they are written as sign and magnitude and read as two's complement
  (`ScriptRoundTrip`). The comment at reference/go/script/util.go:9-10 suggests all integers.
  What stands between the number and the closing opcodes is not looked at.

## Model

| member | source | states |
|---|---|---|
| WalletOpens.RunKeepsInv | packages/wallet-ui/src/api.ts:99-220 | Every interleaving of opens, failures, key-store writes and closes keeps the queue, handle, commit, newest-attempt, key-store and record invariants |
| WalletOpens.OneTurnAtATime | packages/wallet-ui/src/api.ts:107-122 | At most one remember turn runs at a time, in any run |
| WalletOpens.AtRestNothingLeft | packages/wallet-ui/src/api.ts:62-71 | At rest, in any order of landings: every handle opened was freed once or is the session's, unless its address could not be read; commits came in the order the attempts started; no superseded attempt's entry is left; a newest attempt that committed with remember is what the record names unless its key could not be saved |
| WalletOpens.AtRestNewestWins | packages/wallet-ui/src/api.ts:99-220 | The newest open wins, whatever order things landed and turns queued in: at rest it has committed exactly unless the core failed it, and last of all, so the session holds no other; and committed with remember it is what the record names, its key in the store, unless that write failed |
| WalletOpens.HeldUntilClosed | packages/wallet-ui/src/api.ts:143-173 | In a run with no close the session holds exactly the last open committed |
| WalletOpens.CloseEmpties | packages/wallet-ui/src/api.ts:62-71 | Closing leaves nothing open, frees what was, and touches neither the attempts, the queue, the keys nor the record |
| WalletOpens.HeldSince | packages/wallet-ui/src/api.ts:143-173 | From any moment of any run with no close since, the session holds the last open committed since, or else what it held |
| WalletOpens.RecordKeptIff | packages/wallet-ui/src/api.ts:202-208 | A step leaves the record naming a missing key exactly when it is a superseded attempt removing the entry the record names |
| WalletOpens.RunKeepsExact | packages/wallet-ui/src/api.ts:183-220 | With distinct new wallets the key store holds, at every moment, exactly the earlier entries and those of attempts that own one, and the record names one of them |
| WalletOpens.AtRestKeysExact | packages/wallet-ui/src/api.ts:183-220 | With distinct new wallets, at rest the key store holds exactly the earlier entries and those of attempts that finished remembering |
| WalletOpens.ReopenClobbersRecord | packages/wallet-ui/src/api.ts:202-208 | A run that shows why the wallets must be distinct: re-opening the recorded wallet and being superseded leaves the record without its key |
| WalletOpens.SomethingCanLand | packages/wallet-ui/src/api.ts:114-122 | Until all attempts have settled something can land: no turn waits for ever |
| WalletOpens.LandingMakesProgress | packages/wallet-ui/src/api.ts:137-220 | Each landing leaves strictly less to land, so with no new open every run comes to rest |
| WalletOpens.Session.ReleaseWallet | packages/wallet-ui/src/api.ts:62-71 | Frees the session's handle, if there is one, and forgets it: the `Close` step on the fields |
| WalletOpens.Session.Install | packages/wallet-ui/src/api.ts:143-147 | Starting an open takes the next ordinal: the `Start` step |
| WalletOpens.Session.CoreOpened | packages/wallet-ui/src/api.ts:147-148 | The core's open answering or failing: the matching step |
| WalletOpens.Session.AddressRead | packages/wallet-ui/src/api.ts:148-173 | Check and commit with no await between: a stale attempt frees its own handle, the newest frees the one before and takes its place |
| WalletOpens.Session.Remember | packages/wallet-ui/src/api.ts:191-193 | The remember turn joins the end of the queue, or the open is done |
| WalletOpens.Session.TurnStarts | packages/wallet-ui/src/api.ts:193-201 | The turn's first check: a stale attempt writes nothing |
| WalletOpens.Session.SecretSaved | packages/wallet-ui/src/api.ts:201 | The key-store write landing or failing: the matching step |
| WalletOpens.Session.SaveReturns | packages/wallet-ui/src/api.ts:202-216 | The turn's second check: a stale attempt goes to remove its entry, the newest to write the record |
| WalletOpens.Session.SecretForgotten | packages/wallet-ui/src/api.ts:207-208 | Removing the entry ends the turn as superseded |
| WalletOpens.Session.Recorded | packages/wallet-ui/src/api.ts:210-217 | Writing the record ends the turn |
| HeldPreviews.RunKeepsInv | packages/wallet-ui/src/ui/preview.ts:71-121 | Every interleaving of screens, builds, drops, sends and wallet swaps, holds begun on screens that are gone or for another wallet included, keeps the invariants of `held`, `gen` and the pending map |
| HeldPreviews.HeldIsNewest | packages/wallet-ui/src/ui/preview.ts:86-103 | A held preview is the one its screen's latest build gave, of its current generation, and for the wallet the screen is on when every `hold` began with that wallet open |
| HeldPreviews.SignedOnceAsOffered | packages/wallet-ui/src/api.ts:361-369 | In any run no PSBT is handed to signing twice, and none that was never offered; the signer is the wallet of the screen that offered it, and built it too exactly when that screen's `hold` began with its own wallet open |
| HeldPreviews.AtHomeIff | packages/wallet-ui/src/ui/preview.ts:86-103 | In any run every build is its screen's own wallet's exactly when every `hold` began with that wallet open, or none |
| HeldPreviews.SignedAway | packages/wallet-ui/src/ui/preview.ts:86-119 | A run that shows the condition matters: built while another wallet is open, signed after the screen's own is back |
| HeldPreviews.NothingStranded | packages/wallet-ui/src/ui/preview.ts:75-82 | Once a screen is gone and its builds have returned, none of its PSBTs is pending |
| HeldPreviews.HeldStaysSendable | packages/wallet-ui/src/ui/preview.ts:86-103 | Unless the wallet is swapped, what a screen holds stays pending, so it can be signed, until it is sent or dropped |
| HeldPreviews.SignsExactly | packages/wallet-ui/src/api.ts:361-369 | Exactly a Send with a pending preview held and a wallet open signs, it signs that preview with that wallet, and uses it up |
| HeldPreviews.HoldRound | packages/wallet-ui/src/ui/preview.ts:86-119 | A hold, built and back with its screen still up, ends with what was built held and pending; and a Send then signs it, by the screen's own wallet |
| HeldPreviews.DropDiscards | packages/wallet-ui/src/ui/preview.ts:75-79 | A Drop lets go of what the screen held and of nothing else |
| HeldPreviews.StaleIsLetGo | packages/wallet-ui/src/ui/preview.ts:88-103 | A build gone stale when it returns is not held, and its PSBT is let go |
| HeldPreviews.DroppedIsNeverHeld | packages/wallet-ui/src/ui/preview.ts:75-103 | In any run a build out when its screen is dropped is never held after, however late it returns |
| HeldPreviews.LeftForGood | packages/wallet-ui/src/ui/preview.ts:80-82 | In any run a screen once left holds nothing ever after, whatever returns to it, and a Send on it signs nothing |
| HeldPreviews.RenderedAndFailed | packages/wallet-ui/src/ui/preview.ts:71-99 | A screen holds nothing when it is rendered, and a build that failed never lands |
| HeldPreviews.Api.PreviewBuilt | packages/wallet-ui/src/api.ts:348-359 | A build's PSBT joins the pending map under a new id, and nothing else changes |
| HeldPreviews.Api.DiscardTx | packages/wallet-ui/src/api.ts:463-465 | Removes that id and no other |
| HeldPreviews.Api.SignAndBroadcast | packages/wallet-ui/src/api.ts:361-369 | Signs exactly when a wallet is open and the id is pending, and uses the PSBT up before signing |
| HeldPreviews.HeldPreview.Drop | packages/wallet-ui/src/ui/preview.ts:75-79 | A new generation, nothing held, and what was held discarded |
| HeldPreviews.HeldPreview.Leave | packages/wallet-ui/src/ui/preview.ts:80-82 | Dropped once and for all when the screen goes |
| HeldPreviews.HeldPreview.HoldStarts | packages/wallet-ui/src/ui/preview.ts:86-88 | Drops what was held and takes the new generation |
| HeldPreviews.HeldPreview.HoldReturns | packages/wallet-ui/src/ui/preview.ts:88-103 | Held exactly when the generation, the caller's condition and the screen still count; discarded otherwise |
| HeldPreviews.HeldPreview.Send | packages/wallet-ui/src/ui/preview.ts:104-119 | What was held is handed to signing once and is held no more, even when signing fails |
| SendScreen.RunKeepsInv | packages/wallet-ui/src/screens/send.ts:138-564 | Every interleaving of edits, estimates, builds, reviews and confirmations keeps the form, card and signing invariants |
| SendScreen.MaxIsFaithful | packages/wallet-ui/src/screens/send.ts:239-273 | In any run a settled Max preview was built from the one recipient's address, the rate and the coins now in the form, and the amount field reads as what it pays |
| SendScreen.ReviewIsFaithful | packages/wallet-ui/src/screens/send.ts:520-554 | Any step that puts up a new Review card puts up one whose preview pays exactly the recipients, at the rate, from the coins then in the form |
| SendScreen.SignedAsReviewed | packages/wallet-ui/src/screens/send.ts:457-483 | In any run every PSBT signed was on a card that said what it pays, and none is signed twice |
| SendScreen.ForgottenIff | packages/wallet-ui/src/screens/send.ts:453-564 | A step loses sight of a pending PSBT exactly when it is one of the steps `Forgets` names by their guards |
| SendScreen.MindfulForgetsNothing | packages/wallet-ui/src/screens/send.ts:138-564 | A run with none of those steps never loses sight of a pending PSBT |
| SendScreen.MindfulIff | packages/wallet-ui/src/screens/send.ts:138-564 | A run never loses sight of a pending PSBT, at any moment, exactly when none of its steps is one of those |
| SendScreen.CarefulIsMindful | packages/wallet-ui/src/screens/send.ts:453-564 | Who presses neither Max nor Review under a card, and neither Confirm nor Edit while an earlier one is under way, makes such a run |
| SendScreen.NothingStranded | packages/wallet-ui/src/screens/send.ts:556-564 | After such a run, once the screen is gone and its builds have returned, nothing is pending |
| SendScreen.ReviewRound | packages/wallet-ui/src/screens/send.ts:520-554 | Review pressed, built and returned, with nothing between, ends with exactly the card for what was asked |
| SendScreen.ReviewTwiceStrands | packages/wallet-ui/src/screens/send.ts:520-564 | A run in which Review is pressed again under its own card: the first preview is still pending after the screen is gone |
| SendScreen.FormCanBeFilled | packages/wallet-ui/src/screens/send.ts:332-345 | A run that fills the form in so that the one above exists |
| SendRounds.SignsExactly | packages/wallet-ui/src/screens/send.ts:460-466 | Exactly a Confirm on a card whose PSBT is pending signs, it signs that card's, and uses it up |
| SendRounds.SignedAreConfirmed | packages/wallet-ui/src/screens/send.ts:460-466 | In any run what was signed is, in order, the cards on which Confirm was pressed while their PSBT was pending |
| SendRounds.ReviewConfirmRound | packages/wallet-ui/src/screens/send.ts:460-554 | Review, built and shown, and Confirm, with nothing between: what was asked for is what is signed next, its PSBT is used up, and the form is as it was |
| SendRounds.ConfirmEnds | packages/wallet-ui/src/screens/send.ts:466-481 | Once sent nothing is kept to send again; a failure gives the form back as it was, open to edits |
| SendRounds.EditRound | packages/wallet-ui/src/screens/send.ts:484-494 | Edit lets the card go, with its PSBT, and gives the form back as it was |
| SendRounds.EditKeepsMax | packages/wallet-ui/src/screens/send.ts:484-494 | On a Max card it keeps the Max preview, still pending |
| SendRounds.MaxRound | packages/wallet-ui/src/screens/send.ts:239-273 | Max, built and back: the preview drains to the form's address at its rate from its coins, and the amount field says what arrives |
| SendRounds.MaxReviewed | packages/wallet-ui/src/screens/send.ts:520-554 | Review with a settled Max puts that very preview up and builds nothing |
| SendRounds.RefusedDoesNothing | packages/wallet-ui/src/screens/send.ts:239-252 | Without good rows or a rate Review does nothing, nor does Max without one good address |
| SendRounds.LateChangesNothing | packages/wallet-ui/src/screens/send.ts:252-273 | A build that comes too late changes nothing but that its own PSBT is let go |
| SendRounds.LeavingLetsGo | packages/wallet-ui/src/screens/send.ts:556-564 | Leaving lets go of exactly the Max preview and the card's |
| SendRounds.FailedBuildLeavesNothing | packages/wallet-ui/src/screens/send.ts:252-273 | Nothing comes of a build that fails |
| SendRounds.OnlySignedSucceeds | packages/wallet-ui/src/api.ts:361-369 | A sending that did not hand a PSBT over can only fail |
| SendRounds.WalletGoes | packages/wallet-ui/src/api.ts:62-71 | A wallet that closes takes the screen and every pending PSBT with it, and one opened again in place the PSBTs alone |
| SendRounds.LockedFormStays | packages/wallet-ui/src/screens/send.ts:447-451 | Under a card, and off the screen, nothing but an estimate reaches the form |
| SendRounds.FormAccepts | packages/wallet-ui/src/screens/send.ts:203-208 | On the screen and with no card up the form takes every edit it shows a control for, and only a switch to the other unit |
| SendRounds.EditsWhatItSays | packages/wallet-ui/src/screens/send.ts:203-237 | Each edit changes its own field and no other, and takes Max with it unless it only switches a unit |
| SendRounds.RowsAndCoins | packages/wallet-ui/src/screens/send.ts:275-285 | A row more is an empty one, a row less is that one, and the last row stays; the chosen coins are let go; each takes Max with it |
| SendRounds.EstimateShows | packages/wallet-ui/src/screens/send.ts:138-171 | An estimate that lands is kept, and shows its rate for the picked target unless one was typed |
| SendRounds.TargetShows | packages/wallet-ui/src/screens/send.ts:129-156 | A picked target shows the estimate's rate for it |
| SendRounds.TypedRateStays | packages/wallet-ui/src/screens/send.ts:114-171 | In any run a typed rate stays until another is typed or a target picked: no estimate, however late, takes its place |
| SendScreen.SendForm.LeaveDrain | packages/wallet-ui/src/screens/send.ts:231-237 | Every build under way becomes too late, and a settled Max is discarded |
| SendScreen.SendForm.CancelPendingDrain | packages/wallet-ui/src/screens/send.ts:220-229 | Builds under way become too late, unless a Max has settled |
| SendScreen.SendForm.ApplyEstimate | packages/wallet-ui/src/screens/send.ts:138-156 | The estimate's rate goes in the field, leaving Max first when that changes the text |
| SendScreen.SendForm.AddressInput | packages/wallet-ui/src/screens/send.ts:332-336 | An edit of an address: the matching step |
| SendScreen.SendForm.AmountInput | packages/wallet-ui/src/screens/send.ts:341-345 | An edit of an amount: the matching step |
| SendScreen.SendForm.SetUnit | packages/wallet-ui/src/screens/send.ts:203-208 | A unit switch converts the text and leaves Max alone |
| SendScreen.SendForm.RateInput | packages/wallet-ui/src/screens/send.ts:114-120 | A typed rate counts as chosen, and leaves Max |
| SendScreen.SendForm.TargetPicked | packages/wallet-ui/src/screens/send.ts:129-135 | A picked target leaves Max and goes back to the estimate |
| SendScreen.SendForm.AddRecipient | packages/wallet-ui/src/screens/send.ts:375-384 | A new row, out of Max |
| SendScreen.SendForm.RemoveRecipient | packages/wallet-ui/src/screens/send.ts:275-285 | A row less, out of Max |
| SendScreen.SendForm.LetWalletChoose | packages/wallet-ui/src/screens/send.ts:416-429 | The chosen coins let go, out of Max |
| SendScreen.SendForm.EstimateLoaded | packages/wallet-ui/src/screens/send.ts:158-171 | The first estimate landing: the matching step, late or not |
| SendScreen.SendForm.FillMax | packages/wallet-ui/src/screens/send.ts:239-252 | Max starts a build for the form as it stands, or refuses the address |
| SendScreen.SendForm.MaxReturned | packages/wallet-ui/src/screens/send.ts:252-273 | A Max build that still counts settles and fills the amount; a late one is discarded |
| SendScreen.SendForm.CoreBuilt | packages/wallet-ui/src/api.ts:348-359 | The core's answer to a Max or a Review: the build joins the pending set under the next id |
| SendScreen.CollectedSays | packages/wallet-ui/src/screens/send.ts:388-412 | The recipients collected are what the rows say, one by one: a trimmed good address and an amount; none exactly when some row is bad |
| SendScreen.SendForm.Collect | packages/wallet-ui/src/screens/send.ts:388-412 | All recipients in order, or none when any row's address or amount is not good |
| SendScreen.SendForm.Review | packages/wallet-ui/src/screens/send.ts:520-543 | Review uses a settled Max, else starts a build of the form as it stands |
| SendScreen.SendForm.ReviewReturned | packages/wallet-ui/src/screens/send.ts:542-548 | A review build that still counts puts its card up; a late one is discarded |
| SendScreen.SendForm.ShowPreview | packages/wallet-ui/src/screens/send.ts:457-459 | The card, and the form locked under it |
| SendScreen.SendForm.Confirm | packages/wallet-ui/src/screens/send.ts:460-466 | Signs the card's own PSBT when it is still pending, and nothing otherwise |
| SendScreen.SendForm.Confirmed | packages/wallet-ui/src/screens/send.ts:466-481 | The end of a confirmation, either way: the matching step |
| SendScreen.SendForm.Edit | packages/wallet-ui/src/screens/send.ts:484-494 | Back to the form, keeping a Max preview alive |
| SendScreen.SendForm.DiscardOnLeave | packages/wallet-ui/src/screens/send.ts:556-564 | Leaving discards what is shown and what is settled, and makes every build late |
| Autolock.ClosedOnce | packages/wallet-ui/src/ui/autolock.ts:62-70 | In any run the background lock closes no handle twice |
| Autolock.ClosedAfterAbsence | packages/wallet-ui/src/ui/autolock.ts:85-113 | Every handle the lock closes was the remembered wallet's when the page hid, and the page was not back before the limit then in force had passed, on the timers' clock when the timer fired or on the wall clock at the return |
| Autolock.LocksIffLate | packages/wallet-ui/src/ui/autolock.ts:85-113 | At the first return from an absence a lock has begun exactly when its timer had fired or the limit has passed on the clock, whatever else happened meanwhile, and its wallet is the one open when the page hid |
| Autolock.LockWaitsForWork | packages/wallet-ui/src/api.ts:74-97 | Each lock about to close made its last check at a moment when nothing was running, and what runs now is exactly what was started since and has not ended |
| Autolock.ClosesUnderWorkIff | packages/wallet-ui/src/ui/autolock.ts:57-70 | In any run a lock closes under running work exactly when it is ready, its handle is still the one to lock, and work started since its check has not ended |
| Autolock.ClosesUnderNewWork | packages/wallet-ui/src/ui/autolock.ts:62-70 | From any idle start a run that does so: there are such closings for every wallet and limit |
| Autolock.ClosesTheRemembered | packages/wallet-ui/src/ui/autolock.ts:51-70 | What a lock closes is the open handle, of the wallet the device remembers, on a device that keeps keys; the session is then empty and the record as it was |
| Autolock.LockableIsRemembered | packages/wallet-ui/src/ui/autolock.ts:51-55 | A handle is one to lock exactly when it is the open one, of the remembered wallet, on such a device |
| Autolock.LateReturnLocks | packages/wallet-ui/src/ui/autolock.ts:99-113 | Back after the limit the wallet is locked; back before it everything is as it was |
| Autolock.TimerLocks | packages/wallet-ui/src/ui/autolock.ts:90-97 | The timer locks it while the page is hidden, and does not fire before the limit |
| Autolock.WorkHoldsTheLock | packages/wallet-ui/src/api.ts:94-97 | A lock that finds work closes nothing, and does not check again, before it has ended |
| Autolock.NextCheck | packages/wallet-ui/src/api.ts:94-97 | Once that has ended, the next check waits for what is running then, or is the last |
| Autolock.OpensAndCloses | packages/wallet-ui/src/api.ts:62-71 | An open hands the session a handle never handed out before, a close leaves it empty, and neither touches the absence counted |
| Autolock.ResumesOnce | packages/wallet-ui/src/ui/autolock.ts:62-70 | In any run a lock that has resumed neither closes nor checks again |
| Autolock.WorkIsTold | packages/wallet-ui/src/api.ts:74-92 | In any run work that starts is told apart from all that is running, and counts until it ends |
| Autolock.ChoiceInForce | packages/wallet-ui/src/ui/autolock.ts:38-43 | In any run the limit in force is the last one chosen |
| Autolock.AutoLock.ChooseLockAfter | packages/wallet-ui/src/ui/autolock.ts:38-43 | A choice is in force at once and leaves an absence being counted alone |
| Autolock.AutoLock.Expire | packages/wallet-ui/src/ui/autolock.ts:90-97 | Ends the absence and starts one lock, for its handle |
| Autolock.AutoLock.OnVisibilityChange | packages/wallet-ui/src/ui/autolock.ts:99-113 | Hiding starts an absence only when none is counted, a wallet is lockable and a limit is in force; showing ends it, late or in time |
| Autolock.AutoLock.PollsAgain | packages/wallet-ui/src/api.ts:94-97 | A check that finds work running waits for what it found |
| Autolock.AutoLock.Resumes | packages/wallet-ui/src/ui/autolock.ts:62-70 | Closes exactly when the lockable handle is still the lock's own |
| Persistence.MergeAssociates | crates/wallet-wasm/src/lib.rs:118-123 | Merging change sets is associative, over parts of every kind: the newer, the union, the larger, the smaller |
| Persistence.MergeTwice | crates/wallet-wasm/src/lib.rs:118-123 | Merging a delta again, after it was merged into the aggregate, changes nothing |
| Persistence.LaterWins | crates/wallet-wasm/src/lib.rs:118-119 | The later change set has the last word on a block, an output, a lock, and a descriptor or network it names; the earlier on all others |
| Persistence.NothingIsLost | crates/wallet-wasm/src/lib.rs:118-119 | Transactions and anchors add up; a last sight and an index revealed are the greater of the two, a first sight the smaller |
| Persistence.SaysWhatItWasTold | crates/wallet-core/src/wallet.rs:623-636 | In any run, saves refused, lost and repeated among them, memory says of each block, output and lock what it was told last, and opened again what it was told last before the write that reached the store |
| Persistence.SavedAndReopened | crates/wallet-core/src/wallet.rs:623-636 | Saved and opened again, the wallet is as it was |
| Persistence.ReadsExactly | crates/wallet-core/src/persist.rs:46-86 | What reads, and as what: nothing as an empty wallet, an envelope of this format or a bare record as its change set, and no other |
| Persistence.RecordsReadBack | crates/wallet-core/src/persist.rs:34-86 | A saved record reads back as what was saved, and so does one from before the envelope |
| Persistence.FutureIsRefused | crates/wallet-core/src/persist.rs:71-83 | Exactly a record of a later format is refused as one |
| Persistence.RunKeepsInv | crates/wallet-core/src/wallet.rs:623-636 | Over any run of changes, refused, unacknowledged and successful writes, the aggregate merged with the stage is the wallet in memory |
| Persistence.SavedExactly | crates/wallet-core/src/wallet.rs:623-636 | After a successful save the store decodes to exactly the wallet in memory, and nothing is left to save |
| Persistence.ReopenRestores | crates/wallet-wasm/src/lib.rs:111-116 | Opening again gives the wallet as it was when the store was last written, never anything in between |
| Persistence.LostIsStaged | crates/wallet-core/src/wallet.rs:623-636 | So a crash loses at most the stage |
| Persistence.JsPersister.Initialize | crates/wallet-wasm/src/lib.rs:111-116 | Reads the record into the aggregate, or reports what is wrong with it |
| Persistence.JsPersister.Persist | crates/wallet-wasm/src/lib.rs:118-122 | The delta joins the aggregate before the write is tried, and stays when it fails |
| Persistence.Inner.Apply | crates/wallet-core/src/wallet.rs:794-804 | A change is in memory and on the stage |
| Persistence.Inner.Save | crates/wallet-core/src/wallet.rs:623-636 | Writes only when something is staged, and keeps the stage when the write fails |
| Psbts.FillOurs | crates/wallet-core/src/wallet.rs:133-161 | In place, every input of ours whose whole transaction is known gets its own coin and no other input changes |
| Psbts.FilledSays | crates/wallet-core/src/wallet.rs:133-161 | An input filled in carries the whole transaction, and its own output beside it exactly on a segwit script; any other is as it was |
| Psbts.ReviewSays | crates/wallet-core/src/wallet.rs:1454-1507 | An input is ours exactly when history has an output of ours there, at its value, and else has the value claimed; the review is final when every input is, and signable when a wallet with keys has one of ours that is not |
| Psbts.ClaimSays | crates/wallet-core/src/wallet.rs:1469-1475 | A PSBT's own word on an input is its output's value, else its previous transaction's at that index, and else nothing |
| Psbts.ReceivedIs | crates/wallet-core/src/wallet.rs:1485-1486 | What is received is what goes to scripts of ours, output by output, and what is paid the rest |
| Psbts.SpentIs | crates/wallet-core/src/wallet.rs:1457-1485 | What is spent is what the inputs that are ours are worth, input by input |
| Psbts.ReviewTrustsHistory | crates/wallet-core/src/wallet.rs:1454-1507 | With every input ours and whole, review's input values, fee and net are history's whatever the PSBT claimed, and net, fee and value to others sum to zero |
| Psbts.FeeIsHistoryIff | crates/wallet-core/src/wallet.rs:1454-1507 | The fee under review does not depend on what a PSBT claims exactly when every input is ours with its whole transaction known |
| Psbts.FeeCanBeClaimed | crates/wallet-core/src/wallet.rs:1454-1507 | For any other input the fee reviewed follows the claim: each claimed amount that covers the outputs shows a fee of its own, so one transaction is reviewed at as many |
| Psbts.SwapRemoveTakesOne | crates/wallet-core/src/wallet.rs:1333-1347 | Claiming an output removes that one from the list and no other |
| Psbts.Summarize | crates/wallet-core/src/wallet.rs:1323-1358 | The loop's totals are those of `Tally`, which claims from a multiset |
| Psbts.TallyIsAll | crates/wallet-core/src/wallet.rs:1323-1358 | Paid and change together are every output, none missed or counted twice |
| Psbts.TallyAnyOrder | crates/wallet-core/src/wallet.rs:1323-1358 | The totals depend on which outputs there are, not on their order |
| Psbts.PaymentIsExact | crates/wallet-core/src/wallet.rs:1323-1358 | For outputs that are the recipients and change of ours in any order, the totals are exactly the recipients' sum and the change's, even where both share a script and an amount, and with the fee they are the inputs |
| Psbts.RebuiltIsByOwner | crates/wallet-core/src/wallet.rs:1323-1358 | For a replacement or a child, what is ours is change and the rest is paid |
| Psbts.DrainPaysItsScript | crates/wallet-core/src/wallet.rs:1323-1358 | For Max, whatever the outputs: change is exactly what comes back to us at another script, and all else is paid, whoever owns the address drained to |
| Ledger.TotalIsListed | crates/wallet-core/src/wallet.rs:68-78 | The balance's total is the sum of the coins listed |
| Ledger.PartsAreSums | crates/wallet-core/src/wallet.rs:806-830 | Each part is what the unfrozen coins of its own state are worth, `frozen` what the frozen ones are, and the spendable amount the confirmed and trusted parts |
| Ledger.SettlingMovesOneCoin | crates/wallet-core/src/wallet.rs:806-830 | A coin that settles takes its value from the part of its old state to that of its new one, and nothing else moves |
| Ledger.OnlyHeldLocksCount | crates/wallet-core/src/wallet.rs:803-830 | A lock on a coin that is spent counts nowhere |
| Ledger.FreezeMovesOneCoin | crates/wallet-core/src/wallet.rs:854-873 | Freezing moves exactly one coin's value, from its part to `frozen`, and keeps the total |
| Ledger.ShortfallIsFrozenPart | crates/wallet-core/src/wallet.rs:875-905 | The frozen amount a short build is told of is the balance's frozen part, and no more when the coins were chosen |
| Ledger.ConfirmedShortfall | crates/wallet-core/src/wallet.rs:886-905 | With only confirmed coins to draw on it is what the confirmed and immature parts would gain were nothing frozen |
| Ledger.AllFrozenIs | crates/wallet-core/src/wallet.rs:901-903 | Freezing is all there is to it when there is a coin and every coin there is is frozen |
| Ledger.OursOfIsAll | crates/wallet-core/src/wallet.rs:1283-1291 | A child spends all the parent's unspent coins of ours that are not frozen, and no others |
| Ledger.BroadcastCosts | crates/wallet-core/src/wallet.rs:803-923 | Broadcasting a build lowers the total by its fee and what it pays to others |
| Ledger.ReplacingCosts | crates/wallet-core/src/wallet.rs:1175-1249 | Broadcasting a replacement gives back what the original cost and paid away, and costs and pays away its own |
| Ledger.SentExactly | crates/wallet-core/src/wallet.rs:1175-1249 | What may be replaced is what was broadcast, but for what a replacement took the place of |
| Ledger.RunBalances | crates/wallet-core/src/wallet.rs:803-923 | Over any run, replacements included, the total is what was there and what came and went; freezing and confirming count for nothing |
| Ledger.StepKeepsIff | crates/wallet-core/src/wallet.rs:803-923 | With distinct coins, a coin that is there stays exactly when the event does not take it: spent elsewhere, named by the build broadcast, or retaken by the replacement |
| Ledger.FrozenStaysIff | crates/wallet-core/src/wallet.rs:854-923 | Over any run a frozen coin stays unspent and frozen exactly when no event takes or unfreezes it |
| Ledger.FrozenStays | crates/wallet-core/src/wallet.rs:854-923 | No build made while a coin is frozen ever spends it, however late it is broadcast |
| Ledger.LateBroadcastSpendsIff | crates/wallet-core/src/wallet.rs:854-873 | Broadcast after the freezing, a build made before it spends the frozen coin exactly when it names it |
| Ledger.Wallet.SetFrozen | crates/wallet-core/src/wallet.rs:860-873 | Freezes only an unspent coin of ours; unfreezing is always accepted |
| Ledger.Wallet.GetBalance | crates/wallet-core/src/wallet.rs:806-830 | Each part the sum of the unfrozen coins of its state, and the frozen ones in one sum |
| Ledger.Wallet.ChosenOutpoints | crates/wallet-core/src/wallet.rs:907-923 | All the chosen coins, each unspent and unfrozen, so a build may spend them, or what is wrong with the first that is not |
| Ledger.ChildIsAllowed | crates/wallet-core/src/wallet.rs:1283-1291 | The outputs of the parent that a child spends are all coins a build may spend |
| Ledger.Wallet.ChildInputs | crates/wallet-core/src/wallet.rs:1283-1291 | The outputs of the parent a child spends, in order |
| FeeBumps.FeeAtIsLeast | crates/wallet-core/src/wallet.rs:507-511 | The fee at a rate is the least that pays it |
| FeeBumps.FeeAtNeverWraps | crates/wallet-core/src/wallet.rs:404-409 | In 64 bits it is that fee exactly when the product fits, which it does for every rate admitted and size below 2^64/10^7 |
| FeeBumps.CpfpFeeIsLeast | crates/wallet-core/src/wallet.rs:1296-1319 | A child fee brings the pair to the rate and the child to the relay minimum exactly from the one built on |
| FeeBumps.CpfpChildPaysAbove | crates/wallet-core/src/wallet.rs:1262-1319 | When the parent alone pays below the rate, the child alone pays above it |
| FeeBumps.CancelFeeIsLeast | crates/wallet-core/src/wallet.rs:1198-1249 | A cancel's fee pays the rate and outbids the original by the relay fee of its own size (BIP 125 rules 3 and 4) exactly from the one built on |
| FeeBumps.VbytesIsLeast | crates/wallet-core/src/wallet.rs:1370-1382 | Four weight units to the vbyte, and a part of one counts whole |
| FeeBumps.SignedVsizeBounds | crates/wallet-core/src/wallet.rs:1370-1382 | The size planned for is never under the size signed, and is it when every satisfaction is at its largest |
| FeeBumps.CpfpHoldsSigned | crates/wallet-core/src/wallet.rs:1262-1319 | The child's guarantees hold of the signed transaction: the pair at the rate, the relay minimum, and the child above the rate when the parent is below it |
| FeeBumps.CancelHoldsSigned | crates/wallet-core/src/wallet.rs:1198-1249 | The cancel's guarantees hold of the signed transaction |
| Rates.TenthIsWholeKwu | packages/wallet-ui/src/ui/format.ts:92-97 | A tenth of a sat/vB is 25 sat/kwu, so the core builds at exactly a rate in tenths, up to its maximum |
| Rates.TypeableIsLeastTenth | packages/wallet-ui/src/ui/format.ts:84-90 | A typeable rate is the least tenth not under the rate to six decimals |
| Rates.TypeableMonotone | packages/wallet-ui/src/ui/format.ts:84-90 | A higher rate never shows lower |
| Rates.TypeableNotUnder | packages/wallet-ui/src/ui/format.ts:84-90 | It is under the rate by half a millionth at most |
| Rates.MinimumConvertsBack | crates/wallet-core/src/wallet.rs:497-505 | A core minimum of k sat/kwu, shown and sent back, is at least k and less than a tenth over it, or refused exactly when k is over the maximum |
| Rates.TypedIsBuilt | packages/wallet-ui/src/ui/format.ts:98-100 | Every rate a screen submits is built at the least whole tenth that is not under it to six decimals, and 1 sat/vB at least |
| Rates.TypedTenthIsBuilt | packages/wallet-ui/src/ui/format.ts:98-100 | A typed number of tenths, from ten on, is built at exactly that, and a field with nothing positive at 1 sat/vB |
| Rates.SubmitsWhatIsTaken | crates/wallet-core/src/wallet.rs:497-505 | A screen submits exactly the positive rates the core takes, up to 10,000 sat/vB |
| Rates.FieldRateIsExact | packages/wallet-ui/src/ui/format.ts:98-100 | Every rate a screen submits is taken by the core and built at exactly the rate the field names |
| Rates.OutbidBeats | packages/wallet-ui/src/feebump.ts:101-108 | A suggestion over an original at k sat/kwu builds at 250 sat/kwu above it at least, or is refused as too high |
| Rates.OutbidIsLeast | packages/wallet-ui/src/feebump.ts:101-108 | For any market rate and any rate to beat, or none: a suggestion is built at the least multiple of 25 sat/kwu, and 250 at least, not under the market and 1 sat/vB over what it must beat, to six decimals, and is refused exactly when that is over the maximum |
| Rates.OutbidConvertsBack | packages/wallet-ui/src/feebump.ts:101-108 | Between rates in whole sat/kwu that is exact |
| FeeTargets.TargetsAgree | packages/wallet-ui/src/types.ts:237-248 | The screens' filter, sort and scan reads the same rate as the core's lookup, on every estimate in any order |
| FeeTargets.ForTargetIsNearest | crates/wallet-core/src/backend/mod.rs:36-45 | Both mean the exact target, else the nearest faster, else the nearest slower, and nothing only without estimates |
| FeeTargets.SortSorts | packages/wallet-ui/src/types.ts:238-241 | The sort orders the entries and keeps them |
| Amounts.BtcAcceptsExactly | packages/wallet-ui/src/amount.ts:40-50 | A BTC text is accepted as n sats exactly when it denotes n, with at most 8 decimals and 1 <= n <= 2^53 - 1, for any monotone rounding exact up to 2^53 |
| Amounts.SatAcceptsExactly | packages/wallet-ui/src/amount.ts:34-39 | A sat text is accepted as n exactly when it is digits that spell n, 1 <= n <= 2^53 - 1 |
| Amounts.BtcErrors | packages/wallet-ui/src/amount.ts:40-50 | Each BTC error exactly when: no numeral, over 8 decimals, too large or zero in sats; none for no text |
| Amounts.SatErrors | packages/wallet-ui/src/amount.ts:34-39 | Each sat error exactly when: no whole number, too large, zero; none for no text |
| Amounts.FormatParses | packages/wallet-ui/src/amount.ts:53-61 | Every safe positive amount, printed in either unit, parses back |
| Amounts.FormatSpells | packages/wallet-ui/src/amount.ts:56-60 | The BTC text printed denotes exactly the amount |
| Amounts.SwitchKeepsSats | packages/wallet-ui/src/ui/dom.ts:168-171 | Switching a field's unit keeps what it says |
| Amounts.SwitchKeepsText | packages/wallet-ui/src/ui/dom.ts:168-171 | A field that holds no amount keeps its text through a switch, and one that does prints it in the new unit |
| Text.TrimTakesWhite | packages/wallet-ui/src/amount.ts:32 | Trimming takes white from the two ends, and nothing else from anywhere |
| Text.JsSpaceIs | packages/wallet-ui/src/amount.ts:32 | What is white is the white space and line terminators of section 12 of ECMA-262 |
| Bip21.ParsePaymentUri | packages/wallet-ui/src/bip21.ts:20-72 | Agrees with `Parsed` on every input: bare address, URI, demands and malformed escapes |
| Bip21.BuildPaymentUri | packages/wallet-ui/src/bip21.ts:75-83 | Agrees with `Built`: parameters set only when there is something to say |
| Bip21.RoundTrip | packages/wallet-ui/src/bip21.ts:75-83 | For any safe amount or none and any label or none, the built URI parses to the same request exactly when the address is not empty, has no space around it, and holds neither `?` nor `%` |
| Bip21.ParsedIsTight | packages/wallet-ui/src/bip21.ts:20-72 | Whatever comes in, an address that comes out is not empty and has no space around it, and a label is not empty |
| Bip21.AmountIsExact | packages/wallet-ui/src/bip21.ts:58-66 | An amount is taken exactly when its text as it stands denotes a safe positive number of sats |
| Bip21.RefusedExactly | packages/wallet-ui/src/bip21.ts:20-55 | What is refused: with the scheme, in any case, a broken escape, no address, or any `req-` parameter; without it, anything but 14 to 90 letters and digits |
| Bip21.SplitsAtQuestion | packages/wallet-ui/src/bip21.ts:32-33 | The address ends at the first `?` and the query at the next |
| Bip21.LabelIs | packages/wallet-ui/src/bip21.ts:68-69 | The label is the first `label`, else the first `message`, and an empty one is none |
| Bip21.GetsFirst | packages/wallet-ui/src/bip21.ts:58-68 | A parameter given twice counts as given first |
| Bip21.ParamsMean | packages/wallet-ui/src/bip21.ts:76-80 | The parameters built read back as the amount and the label |
| Bip21.ParamsExactly | packages/wallet-ui/src/bip21.ts:76-80 | An amount goes in exactly when there is one above zero, a label exactly when there is one with something in it, and nothing else |
| Bip21.SetParamIs | packages/wallet-ui/src/bip21.ts:78-80 | A parameter set reads as that, once, and every other as before |
| Urls.FormRoundTrip | packages/wallet-ui/src/bip21.ts:80-81 | Any label comes back from its form-urlencoding |
| Urls.ParamsRoundTrip | packages/wallet-ui/src/bip21.ts:76-82 | Any list of parameters comes back from its query text, in order |
| Urls.FormCharIs | packages/wallet-ui/src/bip21.ts:80-81 | What is written for a character: letters, digits and four marks as they are, a space as `+`, and else its bytes escaped (section 5.2 of the WHATWG URL Standard) |
| Urls.FormReads | packages/wallet-ui/src/bip21.ts:44-55 | Read back, a `+` is a space, an escape its byte, and any other character itself (section 5.1 of the WHATWG URL Standard) |
| Urls.EscapeReads | packages/wallet-ui/src/bip21.ts:34-41 | An escape is a percent sign and two hex digits, the high one first, and nothing else is one |
| Urls.HexIs | packages/wallet-ui/src/bip21.ts:34-41 | A hex digit reads the same in either case |
| Urls.PercentIs | packages/wallet-ui/src/bip21.ts:80-81 | A byte is escaped as `%` and its two hex digits in upper case |
| Urls.Utf8CharIs | packages/wallet-ui/src/bip21.ts:34-41 | The bytes of a character: one for ASCII, else a lead byte that says how many and six bits in each that follows (section 8.1 of the WHATWG Encoding Standard) |
| Urls.DecodeComponent | packages/wallet-ui/src/bip21.ts:34-41 | `decodeURIComponent`: refuses broken escapes, leaves text without escapes as it is, and shortens any other |
| Urls.EscapedDecodes | packages/wallet-ui/src/bip21.ts:38 | Any text with every byte escaped decodes to itself |
| Keys.KeyRoundTrip | crates/wallet-core/src/keys.rs:163-217 | Stored as `secret()` and `passphrase()` and parsed again, key material is the same, for every input and passphrase accepted |
| Keys.ParseSecret | crates/wallet-core/src/keys.rs:133-150 | Parsing what was parsed gives the same kind and text |
| Keys.ParsedAs | crates/wallet-core/src/keys.rs:133-150 | Which of the four a text is taken for, exactly: two words or more, a descriptor or extended public key, 64 hex digits, or the rest; kept as given but for a phrase |
| Keys.NormalizeAgain | crates/wallet-core/src/keys.rs:354-360 | A normalized phrase is its words in lower case, and normalizing it again changes nothing |
| Keys.WordsOfJoin | crates/wallet-core/src/keys.rs:354-360 | Words joined by single spaces split back into themselves |
| Keys.PassphraseIsKept | crates/wallet-core/src/keys.rs:163-183 | A passphrase is refused, each way exactly when, or kept, never dropped; an empty one is none |
| Descriptors.ChangeIsChange | crates/wallet-core/src/keys.rs:521-567 | What a watch-only descriptor text gives: a change descriptor never the receive one, with `/0/*` in it exactly when the source has one beside a `<0;1>` or in a bare key |
| Descriptors.TwinsDifferThere | crates/wallet-core/src/keys.rs:550-566 | The change twin differs from the receive descriptor exactly at the replaced digit of every key; the sides of a branch only by 0 and 1 |
| Descriptors.TwinIsTurned | crates/wallet-core/src/keys.rs:562 | Replacing turns the keychain digit at every `/0/*` and leaves every other place |
| Descriptors.TwinReceivesNothing | crates/wallet-core/src/keys.rs:556-566 | Nothing so turned has a `/0/*` left |
| Descriptors.SideReceives | crates/wallet-core/src/keys.rs:550-555 | Choosing a side of `<0;1>` neither makes nor unmakes a `/0/*` |
| Descriptors.WrappedReceives | crates/wallet-core/src/keys.rs:531-547 | Nor does wrapping a bare key |
| Descriptors.AccountKeychains | crates/wallet-core/src/keys.rs:531-547 | A bare account key: receive on branch 0 and change on branch 1, in the script of the address type chosen |
| Descriptors.RefusedExactly | crates/wallet-core/src/keys.rs:521-567 | Each refusal exactly when: keys to spend with, a bare key for a type without accounts, no descriptor, or bare scripts |
| Descriptors.SecretsAre | crates/wallet-core/src/keys.rs:495-510 | Keys to spend with are what the parser finds, or any of six prefixes anywhere in the text |
| Descriptors.BareIs | crates/wallet-core/src/keys.rs:522 | The text without the space around it, up to a checksum |
| Descriptors.MixedSource | crates/wallet-core/src/keys.rs:521-567 | A source with a branch in one key and a `/0/*` in another, for any texts of the two keys: wherever its public descriptor parses it goes through, and its change descriptor keeps the receive path |
| UtxoSelector.SelectUtxo | reference/go/utils/utxoselector.go:8-67 | Succeeds exactly when `Suffices`; then selected and left are the items, the selection is not empty, comes to the target at least and exactly when it is several, and its amounts are just those the greedy pass takes, in order, or the largest alone when that is enough; else everything is handed back |
| UtxoSelector.SufficesExactly | reference/go/utils/utxoselector.go:8-67 | With no amount negative, a selection is made exactly when the largest is enough alone, or it and the `k` smallest come to the target to the unit; and it is that one or those |
| UtxoSelector.Greedy | reference/go/utils/utxoselector.go:38-66 | The pass over the sorted items lands exactly when the pass over their amounts does, having taken just the amounts that takes, and hands back the rest |
| UtxoSelector.Largest | reference/go/utils/utxoselector.go:13-20 | An item of the largest amount that is not negative, if there is one |
| UtxoSelector.MarksPartition | reference/go/utils/utxoselector.go:56-61 | Marked and unmarked items are all the items |
| UtxoSelector.PickedSplits | reference/go/utils/utxoselector.go:46-62 | At every moment of the pass the selection and the unmarked are the items |
| UtxoSelector.LandedIsSound | reference/go/utils/utxoselector.go:46-64 | A pass that lands meets what a selection promises |
| UtxoSelector.SortSorts | reference/go/utils/utxoselector.go:33-36 | Sorting keeps the items and orders them |
| UtxoSelector.GreedyMisses | reference/go/utils/utxoselector.go:46-66 | Of any three different amounts, in any order, the sum of the two smaller is made exactly when the largest is enough alone: coins that make the target exactly are turned down |
| Funding.FundRawTransaction | reference/go/transaction/fee.go:18-93 | Terminates; coins drawn and coins left are the pool; each coin drawn is appended to the inputs and to the message at the same place; coins are drawn turn by turn, each time while something is missing and by the greedy selection for just that; nothing is drawn when the inputs already cover; on success the surplus over the fee of the final inputs is not negative and is the change; each failure has its cause, a shortage being one no selection from what is left covers |
| Funding.FundLoop | reference/go/transaction/fee.go:50-83 | The loop: the pool shrinks each turn, and it ends funded or with its reason |
| Funding.DrawOnce | reference/go/transaction/fee.go:58-82 | One turn: a selection for the deficit, moved from the pool to the inputs |
| Funding.FundedPaysItsFee | reference/go/transaction/fee.go:78-90 | A funded transaction's inputs less all its outputs are exactly the fee estimated for those inputs, and the payments stand first |
| Funding.SurplusIs | reference/go/transaction/fee.go:78-90 | The surplus can be told exactly of a change address with a standard script, and with the outputs and the fee is what goes in |
| Funding.EstimateTxFee | reference/go/transaction/fee.go:95-127 | The fee depends on how many inputs there are of each kind, counted in one pass |
| Funding.FundScriptIsThatLong | reference/go/transaction/fee.go:129-147 | The size reckoned for a change script is the length of the standard script of its kind |
| Funding.OneKindFee | reference/go/transaction/fee.go:105-127 | A sender's inputs are reckoned as that many of its kind and none of another, with the change script's size |
| Funding.Shrinks | reference/go/transaction/fee.go:58-76 | What is left after a selection is shorter: the loop's measure |
| Funding.TxInputs.AddInput | reference/go/transaction/inout.go:31-54 | Appends one input with its coin's own transaction and output, or fails on the address and appends nothing |
| Funding.TxInputs.AmountTotal | reference/go/transaction/inout.go:56-62 | The sum of the inputs' amounts |
| Funding.TxInputs.ToWire | reference/go/transaction/inout.go:64-77 | One outpoint for each input, in order |
| TxBuilding.DecorateTxInputs | reference/go/transaction/inout.go:123-185 | In place: on success every input carries its output when it is P2WPKH or P2TR, the whole transaction when it is P2PK, P2PKH or P2WPKH, and ALL exactly on P2WPKH; an unsupported kind fails; a mismatch only on different lengths |
| TxBuilding.FinishedCarries | reference/go/transaction/builder.go:159-180 | Every input of a finished packet carries that of the very output its place in the message names |
| TxBuilding.FinishedPays | reference/go/transaction/builder.go:140-168 | A finished packet pays the outputs asked for first, and after them at most one change output, to the change address, and none when there is no such address |
| TxBuilding.DrawnFromCoins | reference/go/transaction/fee.go:67-75 | After drawing, inputs still say of each coin what its own transaction says, and the message matches them place by place |
| TxBuilding.TxBuilder.From | reference/go/transaction/builder.go:59-64 | Sets the sender, and nothing after an error |
| TxBuilding.TxBuilder.Change | reference/go/transaction/builder.go:66-71 | Sets the change address, and nothing after an error |
| TxBuilding.TxBuilder.To | reference/go/transaction/builder.go:80-85 | Adds one output or one error, and nothing after an error |
| TxBuilding.OutputPays | reference/go/transaction/builder.go:80-97 | An output pays the amount asked to the script of the address given, and there is none for a bad address or one without a script |
| TxBuilding.TxBuilder.SelectUtxo | reference/go/transaction/builder.go:99-122 | Nothing after an error; one error on a shortage; else the selection becomes inputs, the rest the pool, and the sender takes the change when nobody else does |
| TxBuilding.TxBuilder.Build | reference/go/transaction/builder.go:128-182 | Nothing after an error; else a packet whose message and inputs match place by place, each carrying what signing it needs of the output named there, funded to exactly its fee when there is a change address, with coins drawn exactly unless `NeedsNothing` and then turn by turn for what is missing, or one error, never a mismatch, and the packet as it was |
| Transfers.NewTransferTx | reference/go/transaction/transaction.go:54-73 | Up to signing: with good payments, a sufficient selection and a good sender, every coin is taken by a greedy selection, for the payments first and then for just what is missing, and what comes is a packet that spends them, pays every payment and loses exactly the fee of those inputs, or the one reason those inputs give why not; without them, an error |
| Transfers.TransferDone | reference/go/transaction/transaction.go:64-71 | What was selected and what the build drew after it are together the transfer |
| Transfers.TransferCarries | reference/go/transaction/transaction.go:64-71 | Every input of a transfer carries its own coin: the output, the whole transaction, or both, as the sender's kind needs |
| Transfers.NoCoinTwice | reference/go/transaction/transaction.go:64-71 | From coins that are all different, the inputs of a transfer are all different |
| Rebuilds.StaysApartIff | reference/go/transaction/builder.go:153-168 | Inputs and pool that share no coin still share none after a build exactly when it drew nothing: the pool is not reduced |
| Rebuilds.BuildRepeatsNothing | reference/go/transaction/builder.go:128-182 | A build from a pool that shares no coin with the inputs repeats no coin |
| Rebuilds.TwiceRepeatsIff | reference/go/transaction/builder.go:153-168 | After a second build the inputs are all different exactly when it draws no coin the first drew |
| Rebuilds.BuildPayBuild | reference/go/transaction/builder.go:80-182 | A build, a payment and a second build repeat a coin exactly when the second draws one the first drew, and never when either needs nothing, which its caller can check before it |
| Rebuilds.BuildTwice | reference/go/transaction/builder.go:153-168 | Such a run: a builder built, given one more payment and built again, whose packet spends one coin twice |
| ScriptInts.ScriptRoundTrip | reference/go/script/miniscript.go:123-144 | Written and read back, whatever stands before the closing opcodes: a number comes back exactly when it is -1 or more or minus a quarter of its bytes' range |
| ScriptInts.PushedIs | reference/go/script/miniscript.go:140-144 | -1 to 16 are single opcodes, and any other number is its bytes behind their length |
| ScriptInts.ScriptNumIsMinimal | reference/go/script/miniscript.go:140-144 | The bytes written mean the number in little-endian sign and magnitude, and no fewer bytes can |
| ScriptInts.QuarterOnly | reference/go/script/util.go:55-74 | Below -1 the decoder, which reads two's complement, gives back only such quarters |
| ScriptInts.DecodeScriptNum | reference/go/script/util.go:55-74 | The 64-bit shifts and the subtraction compute the bytes' value less their range when the top bit is set, for up to 8 bytes, and refuse more |
| ScriptInts.DecodeInt64 | reference/go/script/util.go:11-53 | Small-number opcodes, then data behind its length, then errors; the rest of the script is handed back |
| ScriptInts.DecodeReads | reference/go/script/util.go:11-53 | What each first opcode reads as, and that no other reads: small numbers, or as many bytes as it says, eight at most |
| ScriptInts.ReadsTwosComplement | reference/go/script/util.go:55-74 | Bytes read as the number within half their range, either way, that they are up to that range |
| ScriptInts.AfterNode.FromScript | reference/go/script/miniscript.go:123-138 | Reads the time before its own two closing opcodes, or leaves it and fails |
| ScriptInts.AfterNode.ToScript | reference/go/script/miniscript.go:140-144 | Appends the number and its own two closing opcodes |
| ScriptInts.OlderNode.FromScript | reference/go/script/miniscript.go:180-195 | Reads the time before its own two closing opcodes, or leaves it and fails |
| ScriptInts.OlderNode.ToScript | reference/go/script/miniscript.go:197-201 | Appends the number and its own two closing opcodes |

## Left out

- BDK, secp256k1, BIP 32 and BIP 39 derivation, the descriptor parser, address checks, serde and WebCrypto: their results are parameters, or values any caller may supply. BDK's builder is taken for the inputs it chose, the outputs and the fee.
- Esplora, the network layers, Tauri commands, the OS keystore, IndexedDB and the Go HTTP client.
- Screens other than Send's state machine, QR drawing and `qrPayload`, the CLI, error texts and code tables, network and URL tables, and `guardRoute`, whose states are few enough to list.
- Go signing, sighash, inscriptions and chain parameters.
- WalletOpens.AtRestKeysExact: assumes that forgetting and recording succeed and that no `forgetWallet` overlaps a turn; what a failed `forgetSecret` or `setRemembered` leaves behind is not modelled.
- WalletOpens.AtRestNothingLeft: an open whose address read fails is the one handle nobody frees, which the statement says.
- SendScreen.MaxIsFaithful: rates are exact rationals and the text of a rate is a function of it; a late first estimate that changes the rate drops a settled Max, also one a Review card shows, whose Confirm is then refused.
- HeldPreviews.HeldIsNewest: what a caller's `counts` adds to the screen being up is a truth value the environment chooses.
- Autolock.ClosedAfterAbsence: the timers' clock and the wall clock are two, either may stand still or jump past the other, and a timer may fire any time after it is due. Saving the choice and stopping the watch are not modelled.
- Persistence.SavedExactly: a change set has ten of BDK's parts, which between them merge in every way its parts do; that the encoding reads back is assumed, and JSON text is not modelled below its values. `MemoryPersister` is the same aggregate without a store.
- Psbts.ReviewTrustsHistory: sums above 64 bits are an error only in the fee, as in the library; sizes, txids and the finality texts shown are not modelled.
- Ledger.BroadcastCosts: what a build spends, pays and costs is given, and balances; the order of `list_utxos` and chain positions are not modelled.
- Ledger.ReplacingCosts: a replacement is of a build sent in the run whose outputs of ours are still unspent, and spends the original's inputs first; one that evicts a child as well is not modelled.
- FeeBumps.CancelFeeIsLeast: the size is the planned transaction's; which inputs the builder adds for a higher fee is the builder's.
- FeeBumps.SignedVsizeBounds: each input's satisfaction within the descriptor's maximum is assumed.
- Rates.MinimumConvertsBack: in exact rationals, without the rounding of doubles.
- Amounts.BtcAcceptsExactly: doubles are any monotone rounding exact up to 2^53, and the division in `formatAmount` is exact on safe integers.
- Bip21.RoundTrip: a string is a sequence of Unicode scalar values, so lone surrogates are not in it.
- Keys.KeyRoundTrip: lowercasing a word gives a word and is idempotent, by assumption; private-key decoding is the library's.
- Descriptors.ChangeIsChange: says of texts, not of the scripts they derive.
- UtxoSelector.SelectUtxo: amounts and sums are unbounded integers; the library's sort is an insertion sort, which leaves equal amounts in an order of its own.
- Funding.FundRawTransaction: amounts are unbounded integers; a coin without its transaction, or with an index past its outputs, panics in Go and is excluded. The size estimate's formula, and the rate cut to whole sat/vB before it, are in the library's fee.
- Transfers.NewTransferTx: the order of a Go map's payments is the caller's, and signing is left out. Which of several coins of one amount a selection takes is left open.
- ScriptInts.ScriptRoundTrip: the least 64-bit integer, which the library cannot write, is excluded, and so is reading a script of just the two closing opcodes, on which the Go code panics.
