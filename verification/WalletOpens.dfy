/**
 Opening wallets and remembering them (packages/wallet-ui/src/api.ts).

 Opens race: each runs over several awaits, and the environment chooses the order in which
 those land and which of them fail.  An event below is the code between two awaits, or the
 landing of one key-store write; `Step` says what it does to the module's state and `Run`
 folds any sequence of events, so a lemma about `Run` is about every interleaving.
 The class `Session` is the same module in its own form, its fields updated in place.
 */
module WalletOpens {
  import opened Wrappers

  type WalletId = string

  /** Where one attempt stands: what it awaits next, or how it ended. */
  datatype Phase =
    | Opening        // awaits the core's open
    | Reading        // holds its own handle, awaits the address
    | Installed      // committed to the session; `openWallet` has not resumed
    | Queued         // its remember turn is queued
    | Saving         // turn running: `rememberSecret` issued
    | Saved          // the key-store write landed; the turn has not resumed
    | Conceding      // turn running: `forgetSecret` issued
    | Recording      // turn running: `setRemembered` issued
    | Done
    | Superseded
    | OpenFailed
    | AddressFailed
    | SaveFailed

  /** The turn that holds the remember queue has started and not settled. */
  predicate TurnRunning(p: Phase) {
    p.Saving? || p.Saved? || p.Conceding? || p.Recording?
  }

  predicate InQueue(p: Phase) {
    p.Queued? || TurnRunning(p)
  }

  predicate Settled(p: Phase) {
    p.Done? || p.Superseded? || p.OpenFailed? || p.AddressFailed? || p.SaveFailed?
  }

  /** The core handed this attempt a handle, and its address read succeeded. */
  predicate PastRead(p: Phase) {
    !p.Opening? && !p.OpenFailed? && !p.Reading? && !p.AddressFailed?
  }

  datatype Attempt = Attempt(id: WalletId, remember: bool, phase: Phase)

  /**
   `attempts` holds every attempt started, so its length is the `openAttempt` counter and
   an attempt's ordinal is its index plus one; an attempt opens at most one handle, so its
   index also names the handle.  `freed` and `commits` log the calls of `free` and the
   writes of `session.handle`, in order.
   */
  datatype State = State(
    attempts: seq<Attempt>,
    handle: Option<nat>,
    queue: seq<nat>,
    keys: set<WalletId>,
    record: Option<WalletId>,
    freed: seq<nat>,
    commits: seq<nat>)

  datatype Event =
    | Start(id: WalletId, remember: bool)
    | OpenLands(a: nat)
    | OpenFails(a: nat)
    | AddressLands(a: nat)
    | AddressFails(a: nat)
    | OpenReturns(a: nat)
    | TurnStarts(a: nat)
    | SaveLands(a: nat)
    | SaveFails(a: nat)
    | SaveReturns(a: nat)
    | ForgetLands(a: nat)
    | RecordLands(a: nat)
    | Close

  predicate At(ts: seq<Attempt>, a: nat, p: Phase) {
    a < |ts| && ts[a].phase == p
  }

  predicate StillCurrent(ts: seq<Attempt>, a: nat) {
    a + 1 == |ts|
  }

  function Move(ts: seq<Attempt>, a: nat, p: Phase): seq<Attempt>
    requires a < |ts|
  {
    ts[a := ts[a].(phase := p)]
  }

  function FreedWith(freed: seq<nat>, handle: Option<nat>): seq<nat> {
    if handle.Some? then freed + [handle.value] else freed
  }

  /** Whether the source would be at this point: an event that is not does nothing. */
  predicate Enabled(s: State, e: Event) {
    match e
    case Start(_, _) | Close => true
    case OpenLands(a) => At(s.attempts, a, Opening)
    case OpenFails(a) => At(s.attempts, a, Opening)
    case AddressLands(a) => At(s.attempts, a, Reading)
    case AddressFails(a) => At(s.attempts, a, Reading)
    case OpenReturns(a) => At(s.attempts, a, Installed)
    case TurnStarts(a) => s.queue != [] && s.queue[0] == a && At(s.attempts, a, Queued)
    case SaveLands(a) => At(s.attempts, a, Saving)
    case SaveFails(a) => s.queue != [] && At(s.attempts, a, Saving)
    case SaveReturns(a) => At(s.attempts, a, Saved)
    case ForgetLands(a) => s.queue != [] && At(s.attempts, a, Conceding)
    case RecordLands(a) => s.queue != [] && At(s.attempts, a, Recording)
  }

  function Step(s: State, e: Event): State {
    if !Enabled(s, e) then s else
    match e
    case Start(id, remember) => s.(attempts := s.attempts + [Attempt(id, remember, Opening)])
    case OpenLands(a) => s.(attempts := Move(s.attempts, a, Reading))
    case OpenFails(a) => s.(attempts := Move(s.attempts, a, OpenFailed))
    case AddressLands(a) =>
      if StillCurrent(s.attempts, a) then
        s.(attempts := Move(s.attempts, a, Installed), handle := Some(a),
           freed := FreedWith(s.freed, s.handle), commits := s.commits + [a])
      else
        s.(attempts := Move(s.attempts, a, Superseded), freed := s.freed + [a])
    case AddressFails(a) => s.(attempts := Move(s.attempts, a, AddressFailed))
    case OpenReturns(a) =>
      if s.attempts[a].remember then
        s.(attempts := Move(s.attempts, a, Queued), queue := s.queue + [a])
      else
        s.(attempts := Move(s.attempts, a, Done))
    case TurnStarts(a) =>
      if StillCurrent(s.attempts, a) then
        s.(attempts := Move(s.attempts, a, Saving))
      else
        s.(attempts := Move(s.attempts, a, Superseded), queue := s.queue[1..])
    case SaveLands(a) => s.(attempts := Move(s.attempts, a, Saved), keys := s.keys + {s.attempts[a].id})
    case SaveFails(a) => s.(attempts := Move(s.attempts, a, SaveFailed), queue := s.queue[1..])
    case SaveReturns(a) =>
      s.(attempts := Move(s.attempts, a, if StillCurrent(s.attempts, a) then Recording else Conceding))
    case ForgetLands(a) =>
      s.(attempts := Move(s.attempts, a, Superseded), queue := s.queue[1..], keys := s.keys - {s.attempts[a].id})
    case RecordLands(a) =>
      s.(attempts := Move(s.attempts, a, Done), queue := s.queue[1..], record := Some(s.attempts[a].id))
    case Close => s.(handle := None, freed := FreedWith(s.freed, s.handle))
  }

  function Run(s: State, es: seq<Event>): State {
    if es == [] then s else Step(Run(s, es[..|es| - 1]), es[|es| - 1])
  }

  /** The module as loaded, on a device whose key store and record hold what earlier runs left. */
  predicate Fresh(s: State) {
    s.attempts == [] && s.handle.None? && s.queue == [] && s.freed == [] && s.commits == []
  }

  // ---------------------------------------------------------------- the remember queue

  predicate Distinct(xs: seq<nat>) {
    forall i, j :: 0 <= i < j < |xs| ==> xs[i] != xs[j]
  }

  /** Every attempt in the queue once, and only the head's turn running. */
  predicate QueueInv(ts: seq<Attempt>, queue: seq<nat>) {
    && Distinct(queue)
    && (forall i :: 0 <= i < |queue| ==>
          queue[i] < |ts| && ts[queue[i]].remember &&
          (ts[queue[i]].phase.Queued? || (i == 0 && TurnRunning(ts[queue[i]].phase))))
    && (forall a :: 0 <= a < |ts| && InQueue(ts[a].phase) ==> a in queue)
  }

  lemma RunningIsHead(ts: seq<Attempt>, queue: seq<nat>, a: nat)
    requires QueueInv(ts, queue)
    requires a < |ts| && TurnRunning(ts[a].phase)
    ensures queue != [] && queue[0] == a
  {
  }

  lemma MoveKeepsQueue(ts: seq<Attempt>, queue: seq<nat>, a: nat, p: Phase)
    requires QueueInv(ts, queue)
    requires a < |ts| && (InQueue(ts[a].phase) <==> InQueue(p))
    requires TurnRunning(p) ==> queue != [] && queue[0] == a
    requires p.Queued? ==> ts[a].phase.Queued?
    ensures QueueInv(Move(ts, a, p), queue)
  {
  }

  lemma SettleKeepsQueue(ts: seq<Attempt>, queue: seq<nat>, a: nat, p: Phase)
    requires QueueInv(ts, queue)
    requires a < |ts| && queue != [] && queue[0] == a && !InQueue(p)
    ensures QueueInv(Move(ts, a, p), queue[1..])
  {
  }

  lemma EnqueueKeepsQueue(ts: seq<Attempt>, queue: seq<nat>, a: nat)
    requires QueueInv(ts, queue)
    requires At(ts, a, Installed) && ts[a].remember
    ensures QueueInv(Move(ts, a, Queued), queue + [a])
  {
  }

  lemma TurnKeepsQueue(s: State, e: Event)
    requires QueueInv(s.attempts, s.queue) && Enabled(s, e)
    requires e.TurnStarts? || e.SaveLands? || e.SaveFails? || e.SaveReturns? || e.ForgetLands? || e.RecordLands?
    ensures var t := Step(s, e); QueueInv(t.attempts, t.queue)
  {
    var ts, q, p := s.attempts, s.queue, Step(s, e).attempts[e.a].phase;
    if !e.TurnStarts? {
      RunningIsHead(ts, q, e.a);
    }
    if InQueue(p) {
      MoveKeepsQueue(ts, q, e.a, p);
    } else {
      SettleKeepsQueue(ts, q, e.a, p);
    }
  }

  lemma {:induction false} StepKeepsQueue(s: State, e: Event)
    requires QueueInv(s.attempts, s.queue)
    ensures var t := Step(s, e); QueueInv(t.attempts, t.queue)
  {
    var ts, q := s.attempts, s.queue;
    if Enabled(s, e) {
      match e
      case Start(id, remember) =>
      case Close =>
      case OpenLands(a) => MoveKeepsQueue(ts, q, a, Reading);
      case OpenFails(a) => MoveKeepsQueue(ts, q, a, OpenFailed);
      case AddressLands(a) => MoveKeepsQueue(ts, q, a, if StillCurrent(ts, a) then Installed else Superseded);
      case AddressFails(a) => MoveKeepsQueue(ts, q, a, AddressFailed);
      case OpenReturns(a) =>
        if ts[a].remember {
          EnqueueKeepsQueue(ts, q, a);
        } else {
          MoveKeepsQueue(ts, q, a, Done);
        }
      case _ => TurnKeepsQueue(s, e);
    }
  }

  // ---------------------------------------------------------------- handles

  /** Every handle past its address read is freed, once, unless it is the session's. */
  predicate HandleInv(ts: seq<Attempt>, handle: Option<nat>, freed: seq<nat>) {
    && Distinct(freed)
    && (forall a :: a in freed ==> a < |ts|)
    && (forall a :: 0 <= a < |ts| ==> (a in freed <==> PastRead(ts[a].phase) && handle != Some(a)))
    && (handle.Some? ==> handle.value < |ts| && PastRead(ts[handle.value].phase))
  }

  /** Commits come in the order the attempts started. */
  predicate CommitInv(ts: seq<Attempt>, commits: seq<nat>) {
    && (forall i, j :: 0 <= i < j < |commits| ==> commits[i] < commits[j])
    && (forall i :: 0 <= i < |commits| ==> commits[i] < |ts| && PastRead(ts[commits[i]].phase))
  }

  lemma MoveKeepsHandles(ts: seq<Attempt>, handle: Option<nat>, freed: seq<nat>, commits: seq<nat>, a: nat, p: Phase)
    requires HandleInv(ts, handle, freed) && CommitInv(ts, commits)
    requires a < |ts| && (PastRead(ts[a].phase) <==> PastRead(p))
    ensures HandleInv(Move(ts, a, p), handle, freed) && CommitInv(Move(ts, a, p), commits)
  {
  }

  /** Releasing frees the session's handle, which nothing had freed. */
  lemma ReleaseFreesOnce(ts: seq<Attempt>, handle: Option<nat>, freed: seq<nat>)
    requires HandleInv(ts, handle, freed)
    ensures HandleInv(ts, None, FreedWith(freed, handle))
  {
  }

  lemma CommitTakesOver(ts: seq<Attempt>, handle: Option<nat>, freed: seq<nat>, commits: seq<nat>, a: nat)
    requires HandleInv(ts, handle, freed) && CommitInv(ts, commits)
    requires At(ts, a, Reading) && StillCurrent(ts, a)
    ensures HandleInv(Move(ts, a, Installed), Some(a), FreedWith(freed, handle))
    ensures CommitInv(Move(ts, a, Installed), commits + [a])
  {
  }

  lemma SupersededFreesOnce(ts: seq<Attempt>, handle: Option<nat>, freed: seq<nat>, commits: seq<nat>, a: nat)
    requires HandleInv(ts, handle, freed) && CommitInv(ts, commits) && At(ts, a, Reading)
    ensures HandleInv(Move(ts, a, Superseded), handle, freed + [a]) && CommitInv(Move(ts, a, Superseded), commits)
  {
  }

  lemma {:induction false} StepKeepsHandles(s: State, e: Event)
    requires HandleInv(s.attempts, s.handle, s.freed) && CommitInv(s.attempts, s.commits)
    ensures var t := Step(s, e); HandleInv(t.attempts, t.handle, t.freed) && CommitInv(t.attempts, t.commits)
  {
    var ts, h, f, c := s.attempts, s.handle, s.freed, s.commits;
    if Enabled(s, e) {
      match e
      case Start(_, _) =>
      case Close => ReleaseFreesOnce(ts, h, f);
      case AddressLands(a) =>
        if StillCurrent(ts, a) {
          CommitTakesOver(ts, h, f, c, a);
        } else {
          SupersededFreesOnce(ts, h, f, c, a);
        }
      case OpenLands(a) => MoveKeepsHandles(ts, h, f, c, a, Reading);
      case OpenFails(a) => MoveKeepsHandles(ts, h, f, c, a, OpenFailed);
      case AddressFails(a) => MoveKeepsHandles(ts, h, f, c, a, AddressFailed);
      case OpenReturns(a) => MoveKeepsHandles(ts, h, f, c, a, if ts[a].remember then Queued else Done);
      case TurnStarts(a) => MoveKeepsHandles(ts, h, f, c, a, if StillCurrent(ts, a) then Saving else Superseded);
      case SaveLands(a) => MoveKeepsHandles(ts, h, f, c, a, Saved);
      case SaveFails(a) => MoveKeepsHandles(ts, h, f, c, a, SaveFailed);
      case SaveReturns(a) => MoveKeepsHandles(ts, h, f, c, a, if StillCurrent(ts, a) then Recording else Conceding);
      case ForgetLands(a) => MoveKeepsHandles(ts, h, f, c, a, Superseded);
      case RecordLands(a) => MoveKeepsHandles(ts, h, f, c, a, Done);
    }
  }

  // ---------------------------------------------------------------- the newest open wins

  function LastOf(commits: seq<nat>): Option<nat> {
    if commits == [] then None else Some(commits[|commits| - 1])
  }

  /** The newest attempt is never superseded: past its address read it has committed, and last of all. */
  predicate NewestStays(ts: seq<Attempt>, commits: seq<nat>) {
    ts != [] ==>
      var p := ts[|ts| - 1].phase;
      && !p.Superseded? && !p.Conceding?
      && (PastRead(p) ==> LastOf(commits) == Some(|ts| - 1))
  }

  /** What the session holds is what was committed last. */
  predicate LastCommitHeld(handle: Option<nat>, commits: seq<nat>) {
    handle.Some? ==> handle == LastOf(commits)
  }

  predicate NewestWins(ts: seq<Attempt>, handle: Option<nat>, commits: seq<nat>) {
    NewestStays(ts, commits) && LastCommitHeld(handle, commits)
  }

  lemma StepKeepsWinner(s: State, e: Event)
    requires NewestWins(s.attempts, s.handle, s.commits)
    ensures var t := Step(s, e); NewestWins(t.attempts, t.handle, t.commits)
  {
  }

  /** And the session keeps it until it is closed. */
  lemma {:induction false} HeldUntilClosed(s0: State, es: seq<Event>)
    requires Fresh(s0) && forall k :: 0 <= k < |es| ==> !es[k].Close?
    ensures var t := Run(s0, es);
            t.handle == LastOf(t.commits)
  {
    if es != [] {
      HeldUntilClosed(s0, es[..|es| - 1]);
    }
  }

  /** Closing leaves nothing open, frees what was, and touches nothing else. */
  lemma CloseEmpties(s: State)
    ensures var t := Step(s, Close);
            && t.handle.None? && t.freed == (if s.handle.Some? then s.freed + [s.handle.value] else s.freed)
            && t.attempts == s.attempts && t.queue == s.queue && t.keys == s.keys && t.record == s.record && t.commits == s.commits
  {
  }

  /** From any moment with no close since, the session holds the last open committed since, or else what it held. */
  lemma {:induction false} HeldSince(s0: State, es: seq<Event>, k: nat)
    requires k <= |es| && forall i :: k <= i < |es| ==> !es[i].Close?
    ensures var s, t := Run(s0, es[..k]), Run(s0, es);
            s.commits <= t.commits && t.handle == if t.commits == s.commits then s.handle else LastOf(t.commits)
  {
    if |es| == k {
      assert es[..k] == es;
    } else {
      var front := es[..|es| - 1];
      assert front[..k] == es[..k];
      HeldSince(s0, front, k);
      CommitsGrow(Run(s0, front), es[|es| - 1]);
    }
  }

  lemma CommitsGrow(s: State, e: Event)
    requires !e.Close?
    ensures var t := Step(s, e);
            || (t.commits == s.commits && t.handle == s.handle)
            || (t.commits == s.commits + [e.a] && t.handle == Some(e.a))
  {
  }

  // ---------------------------------------------------------------- the key store

  /** This attempt's entry is in the key store, or was left there for good. */
  predicate Owns(t: Attempt) {
    t.phase.Saved? || t.phase.Conceding? || t.phase.Recording? || (t.phase.Done? && t.remember)
  }

  predicate Owned(ts: seq<Attempt>, id: WalletId) {
    exists a :: 0 <= a < |ts| && ts[a].id == id && Owns(ts[a])
  }

  /** `keys0` is what the key store held when the module was loaded. */
  predicate KeyInv(ts: seq<Attempt>, keys: set<WalletId>, keys0: set<WalletId>) {
    && (forall id :: id in keys ==> id in keys0 || Owned(ts, id))
    && (forall a :: 0 <= a < |ts| && TurnRunning(ts[a].phase) && !ts[a].phase.Saving? ==> ts[a].id in keys)
  }

  lemma OwnedAfterMove(ts: seq<Attempt>, a: nat, p: Phase, id: WalletId)
    requires a < |ts| && (Owns(ts[a]) ==> Owns(ts[a].(phase := p)) || id != ts[a].id)
    requires Owned(ts, id)
    ensures Owned(Move(ts, a, p), id)
  {
    var b :| 0 <= b < |ts| && ts[b].id == id && Owns(ts[b]);
    assert Owns(Move(ts, a, p)[b]);
  }

  lemma StepKeepsKeys(s: State, e: Event, keys0: set<WalletId>)
    requires QueueInv(s.attempts, s.queue) && KeyInv(s.attempts, s.keys, keys0)
    ensures var t := Step(s, e); KeyInv(t.attempts, t.keys, keys0)
  {
    var t := Step(s, e);
    forall id | id in t.keys && id !in keys0
      ensures Owned(t.attempts, id)
    {
      if e.Start? {
        if id in s.keys {
          var b :| 0 <= b < |s.attempts| && s.attempts[b].id == id && Owns(s.attempts[b]);
          assert t.attempts[b] == s.attempts[b];
        }
      } else if !e.Close? && Enabled(s, e) {
        if e.SaveLands? && id == s.attempts[e.a].id {
          assert Owns(t.attempts[e.a]);
        } else {
          OwnedAfterMove(s.attempts, e.a, t.attempts[e.a].phase, id);
        }
      }
    }
    if e.ForgetLands? && Enabled(s, e) {
      RunningIsHead(s.attempts, s.queue, e.a);
      forall b | 0 <= b < |t.attempts| && TurnRunning(t.attempts[b].phase)
        ensures false
      {
        RunningIsHead(s.attempts, s.queue, b);
      }
    }
  }

  // ---------------------------------------------------------------- the record

  /** Once the newest attempt has been remembered, the record is its id, its key is there, and no turn runs. */
  predicate NewestInv(ts: seq<Attempt>, keys: set<WalletId>, record: Option<WalletId>) {
    ts != [] && ts[|ts| - 1].phase.Done? && ts[|ts| - 1].remember ==>
      && record == Some(ts[|ts| - 1].id)
      && ts[|ts| - 1].id in keys
      && forall a :: 0 <= a < |ts| ==> !TurnRunning(ts[a].phase)
  }

  lemma StepKeepsNewest(s: State, e: Event, keys0: set<WalletId>)
    requires QueueInv(s.attempts, s.queue) && KeyInv(s.attempts, s.keys, keys0) && NewestInv(s.attempts, s.keys, s.record)
    ensures var t := Step(s, e); NewestInv(t.attempts, t.keys, t.record)
  {
  }

  /** The record is the one found on the device, or that of an attempt remembered since. */
  predicate RecordOrigin(ts: seq<Attempt>, record: Option<WalletId>, record0: Option<WalletId>) {
    record == record0 ||
    exists a :: 0 <= a < |ts| && ts[a].phase.Done? && ts[a].remember && record == Some(ts[a].id)
  }

  lemma StepKeepsOrigin(s: State, e: Event, record0: Option<WalletId>)
    requires QueueInv(s.attempts, s.queue) && RecordOrigin(s.attempts, s.record, record0)
    ensures var t := Step(s, e); RecordOrigin(t.attempts, t.record, record0)
  {
    var t := Step(s, e);
    if e.RecordLands? && Enabled(s, e) {
      RunningIsHead(s.attempts, s.queue, e.a);
      assert t.attempts[e.a].phase.Done? && t.attempts[e.a].remember;
    } else if s.record != record0 {
      var a :| 0 <= a < |s.attempts| && s.attempts[a].phase.Done? && s.attempts[a].remember && s.record == Some(s.attempts[a].id);
      assert t.attempts[a] == s.attempts[a];
    }
  }

  predicate RecordNamed(s: State) {
    s.record.Some? ==> s.record.value in s.keys
  }

  /** A superseded re-open of the very wallet the record names gives up its entry. */
  predicate Clobbers(s: State, e: Event) {
    e.ForgetLands? && Enabled(s, e) && s.record == Some(s.attempts[e.a].id)
  }

  predicate Inv(s: State, s0: State) {
    && QueueInv(s.attempts, s.queue)
    && HandleInv(s.attempts, s.handle, s.freed)
    && CommitInv(s.attempts, s.commits)
    && KeyInv(s.attempts, s.keys, s0.keys)
    && NewestWins(s.attempts, s.handle, s.commits)
    && NewestInv(s.attempts, s.keys, s.record)
    && RecordOrigin(s.attempts, s.record, s0.record)
  }

  /** Every interleaving keeps the invariants. */
  lemma {:induction false} RunKeepsInv(s0: State, es: seq<Event>)
    requires Fresh(s0)
    ensures Inv(Run(s0, es), s0)
  {
    if es != [] {
      var s, e := Run(s0, es[..|es| - 1]), es[|es| - 1];
      RunKeepsInv(s0, es[..|es| - 1]);
      StepKeepsQueue(s, e);
      StepKeepsHandles(s, e);
      StepKeepsKeys(s, e, s0.keys);
      StepKeepsWinner(s, e);
      StepKeepsNewest(s, e, s0.keys);
      StepKeepsOrigin(s, e, s0.record);
    }
  }

  /** At most one remember turn runs at a time, and it is the head of the queue. */
  lemma OneTurnAtATime(s0: State, es: seq<Event>, a: nat, b: nat)
    requires Fresh(s0)
    requires var t := Run(s0, es);
             a < |t.attempts| && b < |t.attempts| && TurnRunning(t.attempts[a].phase) && TurnRunning(t.attempts[b].phase)
    ensures a == b
  {
    var t := Run(s0, es);
    RunKeepsInv(s0, es);
    RunningIsHead(t.attempts, t.queue, a);
    RunningIsHead(t.attempts, t.queue, b);
  }

  /**
   Which step can leave the record naming a key the store no longer holds: exactly the
   removal, by a superseded attempt, of the entry the record names.
   */
  lemma RecordKeptIff(s0: State, es: seq<Event>, e: Event)
    requires Fresh(s0) && RecordNamed(Run(s0, es))
    ensures RecordNamed(Step(Run(s0, es), e)) <==> !Clobbers(Run(s0, es), e)
  {
    RunKeepsInv(s0, es);
  }

  // ---------------------------------------------------------------- distinct wallets

  /** The wallets to be remembered are pairwise distinct, and none was in the store before. */
  predicate FreshIds(ts: seq<Attempt>, keys0: set<WalletId>) {
    && (forall a, b :: 0 <= a < b < |ts| && ts[a].remember && ts[b].remember ==> ts[a].id != ts[b].id)
    && (forall a :: 0 <= a < |ts| && ts[a].remember ==> ts[a].id !in keys0)
  }

  lemma FreshIdsBefore(s: State, e: Event, keys0: set<WalletId>)
    requires FreshIds(Step(s, e).attempts, keys0)
    ensures FreshIds(s.attempts, keys0)
  {
    var t := Step(s, e);
    assert forall a :: 0 <= a < |s.attempts| ==>
      t.attempts[a].id == s.attempts[a].id && t.attempts[a].remember == s.attempts[a].remember;
  }

  ghost predicate KeysExact(ts: seq<Attempt>, keys: set<WalletId>, keys0: set<WalletId>) {
    forall id :: id in keys <==> id in keys0 || Owned(ts, id)
  }

  lemma StepKeepsExact(s: State, e: Event, keys0: set<WalletId>)
    requires QueueInv(s.attempts, s.queue) && KeyInv(Step(s, e).attempts, Step(s, e).keys, keys0)
    requires FreshIds(Step(s, e).attempts, keys0) && KeysExact(s.attempts, s.keys, keys0)
    ensures var t := Step(s, e); KeysExact(t.attempts, t.keys, keys0)
  {
    var t := Step(s, e);
    forall id | Owned(t.attempts, id) && Enabled(s, e)
      ensures id in t.keys
    {
      var b :| 0 <= b < |t.attempts| && t.attempts[b].id == id && Owns(t.attempts[b]);
      assert b < |s.attempts|;
      if !Owns(s.attempts[b]) {
        assert !e.Start? && !e.Close? && b == e.a;
        assert e.SaveLands?;
      } else {
        assert Owned(s.attempts, id);
        if e.ForgetLands? {
          RunningIsHead(s.attempts, s.queue, e.a);
          assert b != e.a && t.attempts[e.a].remember && t.attempts[b].remember;
        }
      }
    }
    if e.ForgetLands? && Enabled(s, e) {
      RunningIsHead(s.attempts, s.queue, e.a);
      assert t.attempts[e.a].remember;
    }
  }

  lemma {:induction false} RunKeepsExact(s0: State, es: seq<Event>)
    requires Fresh(s0) && RecordNamed(s0) && FreshIds(Run(s0, es).attempts, s0.keys)
    ensures KeysExact(Run(s0, es).attempts, Run(s0, es).keys, s0.keys)
    ensures RecordNamed(Run(s0, es))
  {
    if es != [] {
      var s, e := Run(s0, es[..|es| - 1]), es[|es| - 1];
      FreshIdsBefore(s, e, s0.keys);
      RunKeepsExact(s0, es[..|es| - 1]);
      RunKeepsInv(s0, es[..|es| - 1]);
      RunKeepsInv(s0, es);
      StepKeepsExact(s, e, s0.keys);
      RecordKeptIff(s0, es[..|es| - 1], e);
    }
  }

  // ---------------------------------------------------------------- at rest

  predicate AtRest(s: State) {
    forall a :: 0 <= a < |s.attempts| ==> Settled(s.attempts[a].phase)
  }

  lemma HeadIsUnsettled(ts: seq<Attempt>, queue: seq<nat>)
    requires QueueInv(ts, queue)
    ensures queue != [] ==> queue[0] < |ts| && !Settled(ts[queue[0]].phase)
  {
  }

  lemma NewestCommitsIff(ts: seq<Attempt>, commits: seq<nat>)
    requires ts != [] && NewestStays(ts, commits) && CommitInv(ts, commits)
    ensures |ts| - 1 in commits <==> PastRead(ts[|ts| - 1].phase)
    ensures |ts| - 1 in commits ==> LastOf(commits) == Some(|ts| - 1)
  {
  }

  lemma NewestIsDone(ts: seq<Attempt>, commits: seq<nat>, n: nat)
    requires n == |ts| - 1 && NewestStays(ts, commits) && Settled(ts[n].phase)
    ensures PastRead(ts[n].phase) && !ts[n].phase.SaveFailed? ==> ts[n].phase.Done?
    ensures PastRead(ts[n].phase) <==> !ts[n].phase.OpenFailed? && !ts[n].phase.AddressFailed?
  {
  }

  /**
   The newest open wins, whatever order things landed and turns queued in: at rest it has
   committed unless the core failed it, and last of all, so that the session holds no other;
   and with "remember" it is what the record names, its key in the store, unless that write failed.
   */
  lemma AtRestNewestWins(s0: State, es: seq<Event>)
    requires Fresh(s0) && AtRest(Run(s0, es)) && Run(s0, es).attempts != []
    ensures var t := Run(s0, es);
            var n := |t.attempts| - 1;
            var newest := t.attempts[n];
            && (n in t.commits <==> !newest.phase.OpenFailed? && !newest.phase.AddressFailed?)
            && (n in t.commits ==> LastOf(t.commits) == Some(n) && (t.handle.Some? ==> t.handle == Some(n)))
            && (n in t.commits && newest.remember && !newest.phase.SaveFailed? ==>
                  t.record == Some(newest.id) && newest.id in t.keys)
  {
    var t := Run(s0, es);
    RunKeepsInv(s0, es);
    NewestCommitsIff(t.attempts, t.commits);
    NewestIsDone(t.attempts, t.commits, |t.attempts| - 1);
  }

  /**
   Whatever the order things landed in: at rest every handle opened is freed, once, but the
   session's, and exactly but one whose address could not be read; commits came in the
   order of the attempts; the queue is empty; and an entry still in the key store was there
   before or belongs to an attempt that finished; and a newest attempt that committed with
   "remember" is what the record names, unless its key could not be saved.
   */
  lemma AtRestNothingLeft(s0: State, es: seq<Event>)
    requires Fresh(s0) && AtRest(Run(s0, es))
    ensures var t := Run(s0, es);
            && t.queue == []
            && Distinct(t.freed)
            && (forall i, j :: 0 <= i < j < |t.commits| ==> t.commits[i] < t.commits[j])
            && (forall a :: 0 <= a < |t.attempts| && !t.attempts[a].phase.OpenFailed? ==>
                  (a in t.freed || t.handle == Some(a) <==> !t.attempts[a].phase.AddressFailed?))
            && (t.handle.Some? ==> t.handle.value !in t.freed)
            && (forall id :: id in t.keys && id !in s0.keys ==>
                  exists a :: 0 <= a < |t.attempts| && t.attempts[a] == Attempt(id, true, Done))
            && (|t.attempts| - 1 in t.commits ==>
                  var newest := t.attempts[|t.attempts| - 1];
                  newest.remember && !newest.phase.SaveFailed? ==> t.record == Some(newest.id))
  {
    var t := Run(s0, es);
    RunKeepsInv(s0, es);
    if t.attempts != [] {
      AtRestNewestWins(s0, es);
    }
    HeadIsUnsettled(t.attempts, t.queue);
    forall id | id in t.keys && id !in s0.keys
      ensures exists a :: 0 <= a < |t.attempts| && t.attempts[a] == Attempt(id, true, Done)
    {
      var a :| 0 <= a < |t.attempts| && t.attempts[a].id == id && Owns(t.attempts[a]);
      assert t.attempts[a] == Attempt(id, true, Done);
    }
  }

  /**
   With distinct wallets the key store ends up holding exactly what it held before and the
   attempts that finished remembering, and the record names an entry that is there.
   */
  lemma AtRestKeysExact(s0: State, es: seq<Event>)
    requires Fresh(s0) && RecordNamed(s0) && AtRest(Run(s0, es)) && FreshIds(Run(s0, es).attempts, s0.keys)
    ensures var t := Run(s0, es);
            && RecordNamed(t)
            && (forall id :: id in t.keys <==>
                  id in s0.keys || exists a :: 0 <= a < |t.attempts| && t.attempts[a] == Attempt(id, true, Done))
  {
    var t := Run(s0, es);
    RunKeepsExact(s0, es);
    forall a, id | 0 <= a < |t.attempts| && t.attempts[a] == Attempt(id, true, Done)
      ensures Owned(t.attempts, id)
    {
      assert Owns(t.attempts[a]);
    }
    forall id | Owned(t.attempts, id)
      ensures exists a :: 0 <= a < |t.attempts| && t.attempts[a] == Attempt(id, true, Done)
    {
      var a :| 0 <= a < |t.attempts| && t.attempts[a].id == id && Owns(t.attempts[a]);
      assert t.attempts[a] == Attempt(id, true, Done);
    }
  }

  lemma RunSnoc(s: State, es: seq<Event>, e: Event)
    ensures Run(s, es + [e]) == Step(Run(s, es), e)
  {
  }

  /** A wallet remembered and opened again, up to where its key-store write has landed. */
  lemma SavedAgain(s0: State) returns (es: seq<Event>)
    requires s0 == State([], None, [], {"w"}, Some("w"), [], [])
    ensures Run(s0, es) == State([Attempt("w", true, Saved)], Some(0), [0], {"w"}, Some("w"), [], [0])
  {
    es := [];
    RunSnoc(s0, es, Start("w", true));
    es := es + [Start("w", true)];
    RunSnoc(s0, es, OpenLands(0));
    es := es + [OpenLands(0)];
    RunSnoc(s0, es, AddressLands(0));
    es := es + [AddressLands(0)];
    RunSnoc(s0, es, OpenReturns(0));
    es := es + [OpenReturns(0)];
    RunSnoc(s0, es, TurnStarts(0));
    es := es + [TurnStarts(0)];
    RunSnoc(s0, es, SaveLands(0));
    es := es + [SaveLands(0)];
  }

  /** Superseded there by another open, it goes to remove its entry. */
  lemma ConcededAgain(s0: State, saved: seq<Event>) returns (es: seq<Event>)
    requires Run(s0, saved) == State([Attempt("w", true, Saved)], Some(0), [0], {"w"}, Some("w"), [], [0])
    ensures Run(s0, es) == State([Attempt("w", true, Conceding), Attempt("v", false, Opening)], Some(0), [0], {"w"}, Some("w"), [], [0])
  {
    es := saved;
    RunSnoc(s0, es, Start("v", false));
    es := es + [Start("v", false)];
    RunSnoc(s0, es, SaveReturns(0));
    es := es + [SaveReturns(0)];
  }

  /** Distinctness matters: re-opening the remembered wallet, then being superseded, loses its key. */
  lemma ReopenClobbersRecord() returns (s0: State, es: seq<Event>)
    ensures Fresh(s0) && RecordNamed(s0) && AtRest(Run(s0, es)) && !RecordNamed(Run(s0, es))
  {
    s0 := State([], None, [], {"w"}, Some("w"), [], []);
    es := SavedAgain(s0);
    es := ConcededAgain(s0, es);
    RunSnoc(s0, es, ForgetLands(0));
    es := es + [ForgetLands(0)];
    RunSnoc(s0, es, OpenFails(1));
    es := es + [OpenFails(1)];
    assert Run(s0, es) == State([Attempt("w", true, Superseded), Attempt("v", false, OpenFailed)], Some(0), [], {}, Some("w"), [], [0]);
  }

  // ---------------------------------------------------------------- everything settles

  function Steps(p: Phase): nat {
    match p
    case Opening => 8
    case Reading => 7
    case Installed => 6
    case Queued => 5
    case Saving => 4
    case Saved => 3
    case Conceding | Recording => 2
    case Done | Superseded | OpenFailed | AddressFailed | SaveFailed => 0
  }

  function Work(ts: seq<Attempt>): nat {
    if ts == [] then 0 else Steps(ts[0].phase) + Work(ts[1..])
  }

  lemma {:induction false} WorkAfterMove(ts: seq<Attempt>, a: nat, p: Phase)
    requires a < |ts|
    ensures Work(Move(ts, a, p)) == Work(ts) - Steps(ts[a].phase) + Steps(p)
  {
    var us := Move(ts, a, p);
    if a == 0 {
      assert us[1..] == ts[1..];
    } else {
      assert us[1..] == Move(ts[1..], a - 1, p);
      WorkAfterMove(ts[1..], a - 1, p);
    }
  }

  predicate Landing(e: Event) {
    !e.Start? && !e.Close?
  }

  /** No attempt and no turn is ever stuck: until all have settled something can land ... */
  lemma SomethingCanLand(s0: State, es: seq<Event>) returns (e: Event)
    requires Fresh(s0) && !AtRest(Run(s0, es))
    ensures Landing(e) && Enabled(Run(s0, es), e)
  {
    var t := Run(s0, es);
    RunKeepsInv(s0, es);
    var a :| 0 <= a < |t.attempts| && !Settled(t.attempts[a].phase);
    if InQueue(t.attempts[a].phase) {
      a := t.queue[0];
    }
    match t.attempts[a].phase
    case Opening => e := OpenLands(a);
    case Reading => e := AddressLands(a);
    case Installed => e := OpenReturns(a);
    case Queued => e := TurnStarts(a);
    case Saving => e := SaveLands(a);
    case Saved => e := SaveReturns(a);
    case Conceding => e := ForgetLands(a);
    case Recording => e := RecordLands(a);
  }

  /** ... and each landing leaves strictly less to land, so with no new open all is at rest in the end. */
  lemma LandingMakesProgress(s: State, e: Event)
    requires Landing(e) && Enabled(s, e)
    ensures Work(Step(s, e).attempts) < Work(s.attempts)
  {
    LandingMoves(s, e);
    WorkAfterMove(s.attempts, e.a, Step(s, e).attempts[e.a].phase);
  }

  lemma LandingMoves(s: State, e: Event)
    requires Landing(e) && Enabled(s, e)
    ensures e.a < |s.attempts| == |Step(s, e).attempts|
    ensures var p := Step(s, e).attempts[e.a].phase;
            Step(s, e).attempts == Move(s.attempts, e.a, p) && Steps(p) < Steps(s.attempts[e.a].phase)
  {
  }

  // ---------------------------------------------------------------- the module itself

  /** `session`, `openAttempt` and `rememberQueue`, with the device's key store and record. */
  class Session {
    var attempts: seq<Attempt>
    var handle: Option<nat>
    var rememberQueue: seq<nat>
    var keys: set<WalletId>
    var record: Option<WalletId>
    var freed: seq<nat>
    var commits: seq<nat>

    function Snapshot(): State
      reads this
    {
      State(attempts, handle, rememberQueue, keys, record, freed, commits)
    }

    constructor (keys: set<WalletId>, record: Option<WalletId>)
      ensures Fresh(Snapshot()) && this.keys == keys && this.record == record
    {
      attempts, handle, rememberQueue := [], None, [];
      this.keys, this.record := keys, record;
      freed, commits := [], [];
    }

    method Free(a: nat)
      modifies this`freed
      ensures freed == old(freed) + [a]
    {
      freed := freed + [a];
    }

    /** `releaseWallet`. */
    method ReleaseWallet()
      modifies this
      ensures Snapshot() == Step(old(Snapshot()), Close)
    {
      var wallet := handle;
      handle := None;
      if wallet.Some? {
        Free(wallet.value);
      }
    }

    /** `install`, up to its first await. */
    method Install(id: WalletId, remember: bool) returns (a: nat)
      modifies this
      ensures a == old(|attempts|)
      ensures Snapshot() == Step(old(Snapshot()), Start(id, remember))
    {
      a := |attempts|;
      attempts := attempts + [Attempt(id, remember, Opening)];
    }

    /** `install`, once the core's open has answered. */
    method CoreOpened(a: nat, ok: bool)
      requires At(attempts, a, Opening)
      modifies this
      ensures Snapshot() == Step(old(Snapshot()), if ok then OpenLands(a) else OpenFails(a))
    {
      attempts := Move(attempts, a, if ok then Reading else OpenFailed);
    }

    /** `install`, from the address to its end: the check and the commit with nothing between. */
    method AddressRead(a: nat, ok: bool)
      requires At(attempts, a, Reading)
      modifies this
      ensures Snapshot() == Step(old(Snapshot()), if ok then AddressLands(a) else AddressFails(a))
    {
      if !ok {
        attempts := Move(attempts, a, AddressFailed);
        return;
      }
      if !StillCurrent(attempts, a) {
        Free(a);
        attempts := Move(attempts, a, Superseded);
        return;
      }
      ReleaseWallet();
      handle := Some(a);
      commits := commits + [a];
      attempts := Move(attempts, a, Installed);
    }

    /** `openWallet` after `install`: `serializeRemember` puts its turn last. */
    method Remember(a: nat)
      requires At(attempts, a, Installed)
      modifies this
      ensures Snapshot() == Step(old(Snapshot()), OpenReturns(a))
    {
      if attempts[a].remember {
        rememberQueue := rememberQueue + [a];
        attempts := Move(attempts, a, Queued);
      } else {
        attempts := Move(attempts, a, Done);
      }
    }

    method SettleTurn(a: nat, p: Phase)
      requires a < |attempts| && rememberQueue != []
      modifies this`attempts, this`rememberQueue
      ensures attempts == Move(old(attempts), a, p) && rememberQueue == old(rememberQueue)[1..]
    {
      attempts := Move(attempts, a, p);
      rememberQueue := rememberQueue[1..];
    }

    /** The turn's first check, and the key-store write it issues. */
    method TurnStarts(a: nat)
      requires rememberQueue != [] && rememberQueue[0] == a && At(attempts, a, Queued)
      modifies this
      ensures Snapshot() == Step(old(Snapshot()), Event.TurnStarts(a))
    {
      if !StillCurrent(attempts, a) {
        SettleTurn(a, Superseded);
        return;
      }
      attempts := Move(attempts, a, Saving);
    }

    /** `rememberSecret` settles in the key store. */
    method SecretSaved(a: nat, ok: bool)
      requires rememberQueue != [] && At(attempts, a, Saving)
      modifies this
      ensures Snapshot() == Step(old(Snapshot()), if ok then SaveLands(a) else SaveFails(a))
    {
      if !ok {
        SettleTurn(a, SaveFailed);
        return;
      }
      keys := keys + {attempts[a].id};
      attempts := Move(attempts, a, Saved);
    }

    /** The turn's second check. */
    method SaveReturns(a: nat)
      requires At(attempts, a, Saved)
      modifies this
      ensures Snapshot() == Step(old(Snapshot()), Event.SaveReturns(a))
    {
      if !StillCurrent(attempts, a) {
        attempts := Move(attempts, a, Conceding);
        return;
      }
      attempts := Move(attempts, a, Recording);
    }

    /** `forgetSecret` lands, and the turn ends as superseded. */
    method SecretForgotten(a: nat)
      requires rememberQueue != [] && At(attempts, a, Conceding)
      modifies this
      ensures Snapshot() == Step(old(Snapshot()), ForgetLands(a))
    {
      keys := keys - {attempts[a].id};
      SettleTurn(a, Superseded);
    }

    /** `setRemembered` lands, and the turn ends. */
    method Recorded(a: nat)
      requires rememberQueue != [] && At(attempts, a, Recording)
      modifies this
      ensures Snapshot() == Step(old(Snapshot()), RecordLands(a))
    {
      record := Some(attempts[a].id);
      SettleTurn(a, Done);
    }
  }
}
