/**
 Locking in the background (packages/wallet-ui/src/ui/autolock.ts, packages/wallet-ui/src/api.ts:74-97).

 The page hides and shows, timers fire, wallets open and close and work starts and ends in any
 order.  The page's timers run on a clock of their own, which a suspended page stops; a timer is
 armed exactly while an absence is counted.  A lock checks that nothing is running in one step
 and closes in a later one, since an await lies between.
 */
module Autolock {
  import opened Wrappers

  type Handle = nat
  type WalletId = string
  type Work = nat

  datatype Session = Session(handle: Option<Handle>, wallet: Option<WalletId>, remembered: Option<WalletId>, keepsKeys: bool)

  /** An absence: the handle to lock, the deadline on the wall clock, and when its timer is due on the timers' own. */
  datatype Away = Away(wallet: Handle, deadline: int, due: int)

  datatype Phase = Waiting(seen: set<Work>) | Ready | Done

  /** A `lock` under way. */
  datatype Lock = Lock(wallet: Handle, phase: Phase)

  /** The choice in force, in minutes or never; the absence being counted; and the locks it led to. */
  datatype Watch = Watch(limit: Option<nat>, away: Option<Away>, locks: seq<Lock>)

  datatype State = State(
    watch: Watch,
    session: Session,
    handles: nat,
    unfinished: set<Work>,
    started: nat,
    ran: nat,
    closed: seq<Handle>)

  datatype Event =
    | Hide(now: int)
    | Show(now: int)
    | Passes(ms: nat)
    | TimerFires
    | Choose(limit: Option<nat>)
    | Opens(id: WalletId)
    | Closed
    | Remembers(record: Option<WalletId>)
    | WorkStarts
    | WorkEnds(w: Work)
    | LockPolls(k: nat)
    | LockResumes(k: nat)

  // ---------------------------------------------------------------- the handlers

  /** `lockable`. */
  function Lockable(s: Session): Option<Handle> {
    if s.keepsKeys && s.wallet.Some? && s.remembered == s.wallet then s.handle else None
  }

  /** Where `whenIdle` stands after its check. */
  function Checked(unfinished: set<Work>): Phase {
    if unfinished == {} then Ready else Waiting(unfinished)
  }

  /** `expire`: the absence is over, and its lock begins. */
  function Expired(w: Watch, unfinished: set<Work>): Watch {
    match w.away
    case None => w
    case Some(away) => w.(away := None, locks := w.locks + [Lock(away.wallet, Checked(unfinished))])
  }

  function Hidden(w: Watch, lockable: Option<Handle>, now: int, ran: nat): Watch {
    if w.away.Some? || lockable.None? || w.limit.None? then w
    else w.(away := Some(Counted(lockable.value, w.limit.value, now, ran)))
  }

  /** The absence of this handle, from now on: `limit` minutes on either clock. */
  function Counted(h: Handle, limit: nat, now: int, ran: nat): Away {
    Away(h, now + limit * 60_000, ran + limit * 60_000)
  }

  function Shown(w: Watch, now: int, unfinished: set<Work>): Watch {
    if w.away.Some? && now >= w.away.value.deadline then Expired(w, unfinished) else w.(away := None)
  }

  function Polled(w: Watch, k: nat, unfinished: set<Work>): Watch
    requires k < |w.locks|
  {
    w.(locks := w.locks[k := w.locks[k].(phase := Checked(unfinished))])
  }

  function Resumed(w: Watch, k: nat): Watch
    requires k < |w.locks|
  {
    w.(locks := w.locks[k := w.locks[k].(phase := Done)])
  }

  // ---------------------------------------------------------------- the steps

  predicate Enabled(s: State, e: Event) {
    match e
    case TimerFires => s.watch.away.Some? && s.ran >= s.watch.away.value.due
    case WorkEnds(w) => w in s.unfinished
    case LockPolls(k) =>
      k < |s.watch.locks| && s.watch.locks[k].phase.Waiting? && s.watch.locks[k].phase.seen !! s.unfinished
    case LockResumes(k) => k < |s.watch.locks| && s.watch.locks[k].phase.Ready?
    case _ => true
  }

  /** `releaseWallet`, as far as this module can see. */
  function Released(s: Session): Session {
    s.(handle := None, wallet := None)
  }

  function ResumeStep(s: State, k: nat): State
    requires k < |s.watch.locks|
  {
    var h := s.watch.locks[k].wallet;
    var t := s.(watch := Resumed(s.watch, k));
    if Lockable(s.session) != Some(h) then t else t.(session := Released(s.session), closed := s.closed + [h])
  }

  function Step(s: State, e: Event): State {
    if !Enabled(s, e) then s else
    match e
    case Hide(now) => s.(watch := Hidden(s.watch, Lockable(s.session), now, s.ran))
    case Show(now) => s.(watch := Shown(s.watch, now, s.unfinished))
    case Passes(ms) => s.(ran := s.ran + ms)
    case TimerFires => s.(watch := Expired(s.watch, s.unfinished))
    case Choose(limit) => s.(watch := s.watch.(limit := limit))
    case Opens(id) => s.(session := s.session.(handle := Some(s.handles), wallet := Some(id)), handles := s.handles + 1)
    case Closed => s.(session := Released(s.session))
    case Remembers(record) => s.(session := s.session.(remembered := record))
    case WorkStarts => s.(unfinished := s.unfinished + {s.started}, started := s.started + 1)
    case WorkEnds(w) => s.(unfinished := s.unfinished - {w})
    case LockPolls(k) => s.(watch := Polled(s.watch, k, s.unfinished))
    case LockResumes(k) => ResumeStep(s, k)
  }

  function Run(s: State, es: seq<Event>): State {
    if es == [] then s else Step(Run(s, es[..|es| - 1]), es[|es| - 1])
  }

  /** Nothing hidden, locking or locked yet. */
  predicate Fresh(s: State) {
    s.watch.away == None && s.watch.locks == [] && s.closed == [] && s.session.handle == None
  }

  lemma RunPrefix(s: State, es: seq<Event>, e: Event, m: nat)
    requires m <= |es|
    ensures (es + [e])[..m] == es[..m] && (es + [e])[..|es|] == es
    ensures Run(s, es + [e]) == Step(Run(s, es), e)
  {
  }

  // ---------------------------------------------------------------- which wallet, and after how long

  /** Only the open handle of the very wallet this device remembers, and keeps keys for, is one to lock. */
  lemma LockableIsRemembered(s: Session, h: Handle)
    ensures Lockable(s) == Some(h) <==>
            s.keepsKeys && s.handle == Some(h) && s.wallet.Some? && s.remembered.Some? && s.remembered.value == s.wallet.value
  {
  }

  /** A step that closes closes that one, and leaves the session empty and the record as it was. */
  lemma ClosesTheRemembered(s: State, e: Event)
    requires Step(s, e).closed != s.closed
    ensures var t := Step(s, e);
            && s.session.handle.Some? && t.closed == s.closed + [s.session.handle.value]
            && s.session.keepsKeys && s.session.wallet.Some? && s.session.remembered == s.session.wallet
            && t.session.handle.None? && t.session.wallet.None? && t.session.remembered == s.session.remembered
            && t.unfinished == s.unfinished
  {
  }

  /** Ready to lock: a wallet to lock, a limit of `m` minutes, no absence counted and nothing running. */
  predicate CanLock(s: State, h: Handle, m: nat) {
    Lockable(s.session) == Some(h) && s.watch.limit == Some(m) && s.watch.away.None? && s.unfinished == {}
  }

  /** Back after the limit, the wallet is locked; back before it, everything is as it was. */
  lemma LateReturnLocks(s: State, h: Handle, m: nat, hid: int, back: int)
    requires CanLock(s, h, m)
    ensures var k := |s.watch.locks|;
            var t := Step(Step(Step(s, Hide(hid)), Show(back)), LockResumes(k));
            back >= hid + m * 60_000 ==> t.closed == s.closed + [h] && t.session.handle.None? && t.watch.away.None?
    ensures back < hid + m * 60_000 ==> Step(Step(s, Hide(hid)), Show(back)) == s
  {
  }

  /** And so when the timer fires while the page is hidden, which it does not do before the limit. */
  lemma TimerLocks(s: State, h: Handle, m: nat, hid: int, ms: nat)
    requires CanLock(s, h, m)
    ensures var k := |s.watch.locks|;
            var away := Step(Step(s, Hide(hid)), Passes(ms));
            && (Enabled(away, TimerFires) <==> ms >= m * 60_000)
            && (ms >= m * 60_000 ==>
                  var t := Step(Step(away, TimerFires), LockResumes(k));
                  t.closed == s.closed + [h] && t.session.handle.None? && t.watch.away.None?)
  {
  }

  /** A lock that finds work waits for just that work, and closes nothing before it has ended. */
  lemma WorkHoldsTheLock(s: State)
    requires s.watch.away.Some? && s.unfinished != {}
    ensures var k := |s.watch.locks|;
            var t := Step(s, Show(s.watch.away.value.deadline));
            && t.watch.locks == s.watch.locks + [Lock(s.watch.away.value.wallet, Waiting(s.unfinished))] && t.watch.away.None?
            && !Enabled(t, LockPolls(k)) && !Enabled(t, LockResumes(k))
  {
  }

  /** Once it has, the next check finds what is running then. */
  lemma NextCheck(s: State, k: nat, h: Handle, seen: set<Work>)
    requires k < |s.watch.locks| && s.watch.locks[k] == Lock(h, Waiting(seen)) && seen !! s.unfinished
    ensures var t := Step(s, LockPolls(k));
            t.watch.locks[k] == Lock(h, if s.unfinished == {} then Ready else Waiting(s.unfinished)) && t.closed == s.closed
  {
  }

  /** An open hands the session a handle never handed out before, a close leaves it empty, and neither touches the absence counted. */
  lemma OpensAndCloses(s: State, id: WalletId)
    ensures var t := Step(s, Opens(id));
            t.session.handle == Some(s.handles) && t.session.wallet == Some(id) && t.handles > s.handles && t.watch == s.watch
    ensures var t := Step(s, Closed);
            t.session.handle.None? && t.session.wallet.None? && t.session.remembered == s.session.remembered && t.watch == s.watch
            && t.closed == s.closed && t.handles == s.handles
  {
  }

  predicate WorkNumbered(s: State) {
    forall w :: w in s.unfinished ==> w < s.started
  }

  /** In any run work that starts is told apart from all that is running, and runs until it ends. */
  lemma {:induction false} WorkIsTold(s0: State, es: seq<Event>)
    requires WorkNumbered(s0)
    ensures var s := Run(s0, es);
            WorkNumbered(s) && s.started !in s.unfinished && Step(s, WorkStarts).unfinished == s.unfinished + {s.started}
    ensures var s := Run(s0, es); forall w :: w in s.unfinished ==> Step(s, WorkEnds(w)).unfinished == s.unfinished - {w}
  {
    if es != [] {
      WorkIsTold(s0, es[..|es| - 1]);
      WorkStaysNumbered(Run(s0, es[..|es| - 1]), es[|es| - 1]);
    }
  }

  lemma WorkStaysNumbered(s: State, e: Event)
    requires WorkNumbered(s)
    ensures WorkNumbered(Step(s, e))
  {
  }

  /** A lock that has resumed is over: it neither closes nor checks again, in any run. */
  lemma {:induction false} ResumesOnce(s: State, k: nat, es: seq<Event>)
    requires k < |s.watch.locks| && s.watch.locks[k].phase.Ready?
    ensures var t := Run(Step(s, LockResumes(k)), es);
            k < |t.watch.locks| && t.watch.locks[k].phase.Done? && !Enabled(t, LockResumes(k)) && !Enabled(t, LockPolls(k))
  {
    if es != [] {
      ResumesOnce(s, k, es[..|es| - 1]);
      DoneStays(Run(Step(s, LockResumes(k)), es[..|es| - 1]), es[|es| - 1], k);
    }
  }

  lemma DoneStays(s: State, e: Event, k: nat)
    requires k < |s.watch.locks| && s.watch.locks[k].phase.Done?
    ensures k < |Step(s, e).watch.locks| && Step(s, e).watch.locks[k].phase.Done?
  {
  }

  /** The choice in force is the last one made. */
  lemma {:induction false} ChoiceInForce(s: State, limit: Option<nat>, es: seq<Event>)
    requires forall k :: 0 <= k < |es| ==> !es[k].Choose?
    ensures Run(Step(s, Choose(limit)), es).watch.limit == limit
  {
    if es != [] {
      ChoiceInForce(s, limit, es[..|es| - 1]);
    }
  }

  // ---------------------------------------------------------------- each handle once

  predicate NoneTwice(hs: seq<Handle>) {
    forall i, j :: 0 <= i < j < |hs| ==> hs[i] != hs[j]
  }

  /** Closed handles are old ones, and not the open one. */
  predicate ClosedInv(closed: seq<Handle>, handle: Option<Handle>, handles: nat) {
    && NoneTwice(closed)
    && (forall i :: 0 <= i < |closed| ==> closed[i] < handles && handle != Some(closed[i]))
    && (handle.Some? ==> handle.value < handles)
  }

  lemma StepKeepsClosed(s: State, e: Event)
    requires ClosedInv(s.closed, s.session.handle, s.handles)
    ensures var t := Step(s, e); ClosedInv(t.closed, t.session.handle, t.handles)
  {
  }

  /** The background lock closes no handle twice. */
  lemma {:induction false} ClosedOnce(s0: State, es: seq<Event>)
    requires Fresh(s0)
    ensures var s := Run(s0, es); ClosedInv(s.closed, s.session.handle, s.handles) && NoneTwice(s.closed)
  {
    if es != [] {
      ClosedOnce(s0, es[..|es| - 1]);
      StepKeepsClosed(Run(s0, es[..|es| - 1]), es[|es| - 1]);
    }
  }

  // ---------------------------------------------------------------- only after an absence

  /** Event `i` began this absence: the page hid with its handle lockable, and the limit in force set its deadlines. */
  predicate Begins(s0: State, es: seq<Event>, i: nat, a: Away) {
    && i < |es| && es[i].Hide?
    && var s := Run(s0, es[..i]);
       Lockable(s.session) == Some(a.wallet) && s.watch.limit.Some?
       && a == Counted(a.wallet, s.watch.limit.value, es[i].now, s.ran)
  }

  predicate NoShow(es: seq<Event>, i: nat, j: nat) {
    forall k :: i < k < j && k < |es| ==> !es[k].Show?
  }

  /** Event `j` ended it late: the timer fired when it was due, or the page came back with the deadline passed. */
  predicate EndsLate(s0: State, es: seq<Event>, j: nat, a: Away) {
    j < |es| && ((es[j].TimerFires? && Run(s0, es[..j]).ran >= a.due) || (es[j].Show? && es[j].now >= a.deadline))
  }

  ghost predicate Missed(s0: State, es: seq<Event>, h: Handle) {
    exists i: nat, j: nat, a: Away :: a.wallet == h && MissedBetween(s0, es, i, j, a)
  }

  predicate MissedBetween(s0: State, es: seq<Event>, i: nat, j: nat, a: Away) {
    i < j && Begins(s0, es, i, a) && NoShow(es, i, j) && EndsLate(s0, es, j, a)
  }

  /** The absence being counted began, and the page has not shown since. */
  ghost predicate Counting(s0: State, es: seq<Event>, away: Option<Away>) {
    match away
    case None => true
    case Some(a) => exists i: nat :: CountingFrom(s0, es, a, i)
  }

  predicate CountingFrom(s0: State, es: seq<Event>, a: Away, i: nat) {
    Begins(s0, es, i, a) && NoShow(es, i, |es|)
  }

  ghost predicate LocksMissed(s0: State, es: seq<Event>, locks: seq<Lock>) {
    forall k :: 0 <= k < |locks| ==> Missed(s0, es, locks[k].wallet)
  }

  ghost predicate ClosedMissed(s0: State, es: seq<Event>, closed: seq<Handle>) {
    forall k :: 0 <= k < |closed| ==> Missed(s0, es, closed[k])
  }

  lemma {:induction false} BeginsKept(s0: State, es: seq<Event>, e: Event, i: nat, a: Away)
    requires Begins(s0, es, i, a)
    ensures Begins(s0, es + [e], i, a)
  {
    RunPrefix(s0, es, e, i);
  }

  lemma {:induction false} MissedKept(s0: State, es: seq<Event>, e: Event, h: Handle)
    requires Missed(s0, es, h)
    ensures Missed(s0, es + [e], h)
  {
    var i: nat, j: nat, a: Away :| a.wallet == h && MissedBetween(s0, es, i, j, a);
    BeginsKept(s0, es, e, i, a);
    RunPrefix(s0, es, e, j);
    assert MissedBetween(s0, es + [e], i, j, a);
  }

  /** An absence counted after a step was counted before it, or begins with it. */
  lemma AwayAfter(s: State, e: Event)
    requires Step(s, e).watch.away.Some?
    ensures var a := Step(s, e).watch.away.value;
            (s.watch.away == Some(a) && !e.Show?)
            || (e.Hide? && Lockable(s.session) == Some(a.wallet) && s.watch.limit.Some?
                && a == Counted(a.wallet, s.watch.limit.value, e.now, s.ran))
  {
  }

  lemma {:induction false} CountingKept(s0: State, es: seq<Event>, e: Event, a: Away)
    requires Counting(s0, es, Some(a)) && !e.Show?
    ensures Counting(s0, es + [e], Some(a))
  {
    var i: nat :| CountingFrom(s0, es, a, i);
    BeginsKept(s0, es, e, i, a);
    assert CountingFrom(s0, es + [e], a, i);
  }

  lemma {:induction false} CountingBegins(s0: State, es: seq<Event>, e: Event, a: Away)
    requires var s := Run(s0, es);
             e.Hide? && Lockable(s.session) == Some(a.wallet) && s.watch.limit.Some?
             && a == Counted(a.wallet, s.watch.limit.value, e.now, s.ran)
    ensures Counting(s0, es + [e], Some(a))
  {
    RunPrefix(s0, es, e, |es|);
    assert (es + [e])[|es|] == e;
    assert CountingFrom(s0, es + [e], a, |es|);
  }

  /** What happens to the absence being counted. */
  lemma {:induction false} StepCounts(s0: State, es: seq<Event>, e: Event)
    requires Counting(s0, es, Run(s0, es).watch.away)
    ensures Counting(s0, es + [e], Step(Run(s0, es), e).watch.away)
  {
    var s := Run(s0, es);
    var away := Step(s, e).watch.away;
    if away.Some? {
      AwayAfter(s, e);
      if s.watch.away == away && !e.Show? {
        CountingKept(s0, es, e, away.value);
      } else {
        CountingBegins(s0, es, e, away.value);
      }
    }
  }

  /** A lock that begins ends an absence late. */
  lemma {:induction false} ExpiryIsMissed(s0: State, es: seq<Event>, e: Event, a: Away)
    requires Run(s0, es).watch.away == Some(a) && Counting(s0, es, Some(a))
    requires (e.TimerFires? && Run(s0, es).ran >= a.due) || (e.Show? && e.now >= a.deadline)
    ensures Missed(s0, es + [e], a.wallet)
  {
    var i: nat :| CountingFrom(s0, es, a, i);
    BeginsKept(s0, es, e, i, a);
    RunPrefix(s0, es, e, |es|);
    assert MissedBetween(s0, es + [e], i, |es|, a);
  }

  lemma {:induction false} StepLocksMissed(s0: State, es: seq<Event>, e: Event)
    requires var w := Run(s0, es).watch; Counting(s0, es, w.away) && LocksMissed(s0, es, w.locks)
    ensures LocksMissed(s0, es + [e], Step(Run(s0, es), e).watch.locks)
  {
    var s := Run(s0, es);
    var t := Step(s, e);
    forall k | 0 <= k < |t.watch.locks|
      ensures Missed(s0, es + [e], t.watch.locks[k].wallet)
    {
      if k < |s.watch.locks| {
        MissedKept(s0, es, e, s.watch.locks[k].wallet);
      } else {
        ExpiryIsMissed(s0, es, e, s.watch.away.value);
      }
    }
  }

  lemma {:induction false} StepClosedMissed(s0: State, es: seq<Event>, e: Event)
    requires var s := Run(s0, es); LocksMissed(s0, es, s.watch.locks) && ClosedMissed(s0, es, s.closed)
    ensures ClosedMissed(s0, es + [e], Step(Run(s0, es), e).closed)
  {
    var s := Run(s0, es);
    var t := Step(s, e);
    forall k | 0 <= k < |t.closed|
      ensures Missed(s0, es + [e], t.closed[k])
    {
      if k < |s.closed| {
        MissedKept(s0, es, e, s.closed[k]);
      } else {
        MissedKept(s0, es, e, s.watch.locks[e.k].wallet);
      }
    }
  }

  /**
   Every handle the background lock closes was the remembered wallet's when the page hid, and
   the page was not back before the limit then in force had passed: on the timers' clock when
   the timer fired, or on the wall clock when the page came back.
   */
  lemma {:induction false} ClosedAfterAbsence(s0: State, es: seq<Event>)
    requires Fresh(s0)
    ensures var s := Run(s0, es);
            Counting(s0, es, s.watch.away) && LocksMissed(s0, es, s.watch.locks) && ClosedMissed(s0, es, s.closed)
  {
    if es != [] {
      var before, e := es[..|es| - 1], es[|es| - 1];
      ClosedAfterAbsence(s0, before);
      assert before + [e] == es;
      RunPrefix(s0, before, e, |before|);
      StepCounts(s0, before, e);
      StepLocksMissed(s0, before, e);
      StepClosedMissed(s0, before, e);
    }
  }

  // ---------------------------------------------------------------- what is running

  predicate ReadyAt(s: State, k: nat) {
    k < |s.watch.locks| && s.watch.locks[k].phase.Ready?
  }

  /** After `m` events, and not before, lock `k` had made its last check. */
  predicate BecameReady(s0: State, es: seq<Event>, k: nat, m: nat) {
    0 < m <= |es| && ReadyAt(Run(s0, es[..m]), k) && !ReadyAt(Run(s0, es[..m - 1]), k)
  }

  /** Event `j` started work that nothing after it has ended. */
  predicate StillRuns(s0: State, es: seq<Event>, j: nat) {
    && j < |es| && es[j].WorkStarts?
    && forall i :: j < i < |es| ==> es[i] != WorkEnds(Run(s0, es[..j]).started)
  }

  ghost predicate RunsSince(s0: State, es: seq<Event>, m: nat, w: Work) {
    exists j: nat :: m <= j && StillRuns(s0, es, j) && Run(s0, es[..j]).started == w
  }

  /** A lock is ready only by a check that found nothing running. */
  lemma StepReadiesIdle(s: State, e: Event, k: nat)
    requires ReadyAt(Step(s, e), k) && !ReadyAt(s, k)
    ensures Step(s, e).unfinished == {}
  {
  }

  lemma {:induction false} ReadyMeansIdle(s0: State, es: seq<Event>, k: nat, m: nat)
    requires BecameReady(s0, es, k, m)
    ensures Run(s0, es[..m]).unfinished == {}
  {
    assert es[..m][..m - 1] == es[..m - 1] && es[..m][m - 1] == es[m - 1];
    StepReadiesIdle(Run(s0, es[..m - 1]), es[m - 1], k);
  }

  /** A ready lock became so at some event. */
  lemma {:induction false} ReadySometime(s0: State, es: seq<Event>, k: nat) returns (m: nat)
    requires Fresh(s0) && ReadyAt(Run(s0, es), k)
    ensures BecameReady(s0, es, k, m)
  {
    var before := es[..|es| - 1];
    assert es[..|es|] == es;
    if ReadyAt(Run(s0, before), k) {
      m := ReadySometime(s0, before, k);
      assert before[..m] == es[..m] && before[..m - 1] == es[..m - 1];
    } else {
      m := |es|;
    }
  }

  lemma {:induction false} StillRunsSnoc(s0: State, es: seq<Event>, e: Event, j: nat)
    requires j < |es|
    ensures StillRuns(s0, es + [e], j) <==> StillRuns(s0, es, j) && e != WorkEnds(Run(s0, es[..j]).started)
  {
    RunPrefix(s0, es, e, j);
    var fs := es + [e];
    assert fs[j] == es[j] && fs[|es|] == e;
    assert forall i :: j < i < |es| ==> fs[i] == es[i];
  }

  /** One more event: what runs is what ran, less what it ends, and what it starts. */
  lemma {:induction false} RunsSinceSnoc(s0: State, es: seq<Event>, e: Event, m: nat, w: Work)
    requires m <= |es|
    ensures RunsSince(s0, es + [e], m, w) <==>
            (RunsSince(s0, es, m, w) && e != WorkEnds(w)) || (e.WorkStarts? && Run(s0, es).started == w)
  {
    var fs := es + [e];
    assert fs[|es|] == e;
    RunPrefix(s0, es, e, |es|);
    if RunsSince(s0, es, m, w) && e != WorkEnds(w) {
      var j: nat :| m <= j && StillRuns(s0, es, j) && Run(s0, es[..j]).started == w;
      StillRunsSnoc(s0, es, e, j);
      RunPrefix(s0, es, e, j);
    }
    if e.WorkStarts? && Run(s0, es).started == w {
      assert StillRuns(s0, fs, |es|);
    }
    if RunsSince(s0, fs, m, w) {
      var j: nat :| m <= j && StillRuns(s0, fs, j) && Run(s0, fs[..j]).started == w;
      RunPrefix(s0, es, e, j);
      if j < |es| {
        StillRunsSnoc(s0, es, e, j);
      }
    }
  }

  lemma StepRuns(s: State, e: Event, w: Work)
    ensures w in Step(s, e).unfinished <==> (w in s.unfinished && e != WorkEnds(w)) || (e.WorkStarts? && s.started == w)
  {
  }

  /** From a moment with nothing running on, what runs is exactly what was started since and has not ended. */
  lemma {:induction false} RunningIsSince(s0: State, es: seq<Event>, m: nat, w: Work)
    requires m <= |es| && Run(s0, es[..m]).unfinished == {}
    ensures w in Run(s0, es).unfinished <==> RunsSince(s0, es, m, w)
  {
    if |es| == m {
      assert es[..m] == es;
    } else {
      var before, e := es[..|es| - 1], es[|es| - 1];
      assert before + [e] == es && before[..m] == es[..m];
      RunningIsSince(s0, before, m, w);
      StepRuns(Run(s0, before), e, w);
      RunsSinceSnoc(s0, before, e, m, w);
    }
  }

  /**
   A lock about to close made its last check at one moment; nothing was running then, and what
   runs now is exactly what was started since and has not ended.
   */
  lemma {:induction false} LockWaitsForWork(s0: State, es: seq<Event>, k: nat) returns (m: nat)
    requires Fresh(s0) && ReadyAt(Run(s0, es), k)
    ensures BecameReady(s0, es, k, m) && Run(s0, es[..m]).unfinished == {}
    ensures forall w :: w in Run(s0, es).unfinished <==> RunsSince(s0, es, m, w)
  {
    m := ReadySometime(s0, es, k);
    ReadyMeansIdle(s0, es, k, m);
    forall w
      ensures w in Run(s0, es).unfinished <==> RunsSince(s0, es, m, w)
    {
      RunningIsSince(s0, es, m, w);
    }
  }

  /** Lock `k`'s resuming closes a handle. */
  predicate Closes(s: State, k: nat) {
    Step(s, LockResumes(k)).closed != s.closed
  }

  ghost predicate WorkSinceReady(s0: State, es: seq<Event>, k: nat) {
    exists m: nat, j: nat :: BecameReady(s0, es, k, m) && m <= j && StillRuns(s0, es, j)
  }

  /** A lock closes exactly when it has made its check and its handle is still the one to lock. */
  lemma ClosesIff(s: State, k: nat)
    ensures Closes(s, k) <==> ReadyAt(s, k) && Lockable(s.session) == Some(s.watch.locks[k].wallet)
  {
    if ReadyAt(s, k) && Lockable(s.session) == Some(s.watch.locks[k].wallet) {
      assert |Step(s, LockResumes(k)).closed| == |s.closed| + 1;
    }
  }

  /**
   So a lock closes under running work exactly when work started between its check and its
   closing has not ended; the await between the two leaves room for that.
   */
  lemma {:induction false} ClosesUnderWorkIff(s0: State, es: seq<Event>, k: nat)
    requires Fresh(s0)
    ensures var s := Run(s0, es);
            Closes(s, k) && s.unfinished != {} <==>
            ReadyAt(s, k) && Lockable(s.session) == Some(s.watch.locks[k].wallet) && WorkSinceReady(s0, es, k)
  {
    ClosesIff(Run(s0, es), k);
    if Closes(Run(s0, es), k) {
      if Run(s0, es).unfinished != {} {
        var m := LockWaitsForWork(s0, es, k);
        var w :| w in Run(s0, es).unfinished;
        assert RunsSince(s0, es, m, w);
      }
      if WorkSinceReady(s0, es, k) {
        var m: nat, j: nat :| BecameReady(s0, es, k, m) && m <= j && StillRuns(s0, es, j);
        ReadyMeansIdle(s0, es, k, m);
        RunningIsSince(s0, es, m, Run(s0, es[..j]).started);
      }
    }
  }

  /** There are such closings: a wallet opened and remembered, an absence, the timer, and work before the lock resumes. */
  lemma ClosesUnderNewWork(s0: State, id: WalletId, now: int) returns (es: seq<Event>)
    requires Fresh(s0) && s0.session.keepsKeys && s0.watch.limit.Some? && s0.unfinished == {}
    ensures Closes(Run(s0, es), 0) && Run(s0, es).unfinished != {}
  {
    es := [];
    RunPrefix(s0, es, Opens(id), 0);
    es := es + [Opens(id)];
    RunPrefix(s0, es, Remembers(Some(id)), 0);
    es := es + [Remembers(Some(id))];
    RunPrefix(s0, es, Hide(now), 0);
    es := es + [Hide(now)];
    RunPrefix(s0, es, Passes(s0.watch.limit.value * 60_000), 0);
    es := es + [Passes(s0.watch.limit.value * 60_000)];
    RunPrefix(s0, es, TimerFires, 0);
    es := es + [TimerFires];
    RunPrefix(s0, es, WorkStarts, 0);
    es := es + [WorkStarts];
    assert s0.started in Run(s0, es).unfinished;
    ClosesIff(Run(s0, es), 0);
  }

  // ---------------------------------------------------------------- an absence that is long enough

  /** The timer of the absence counted fired in this run. */
  predicate Fired(s: State, es: seq<Event>) {
    exists k :: 0 <= k < |es| && es[k].TimerFires? && Enabled(Run(s, es[..k]), es[k])
  }

  lemma {:induction false} FiredSnoc(s: State, es: seq<Event>, e: Event)
    ensures Fired(s, es + [e]) <==> Fired(s, es) || (e.TimerFires? && Enabled(Run(s, es), e))
  {
    var fs := es + [e];
    forall k: nat | k <= |es|
      ensures fs[..k] == es[..k] && fs[k] == if k < |es| then es[k] else e
    {
    }
    assert es[..|es|] == es;
    if e.TimerFires? && Enabled(Run(s, es), e) {
      assert fs[|es|].TimerFires? && Enabled(Run(s, fs[..|es|]), fs[|es|]);
    }
    if Fired(s, es) {
      var k :| 0 <= k < |es| && es[k].TimerFires? && Enabled(Run(s, es[..k]), es[k]);
      assert fs[k].TimerFires? && Enabled(Run(s, fs[..k]), fs[k]);
    }
  }

  /** An absence of `a` begun over `n` locks: still counted with no lock since, or ended by a lock of its own. */
  predicate Tracks(w: Watch, n: nat, a: Away, fired: bool) {
    if fired then |w.locks| > n && w.locks[n].wallet == a.wallet else w.away == Some(a) && |w.locks| == n
  }

  predicate NeverShows(es: seq<Event>) {
    forall k :: 0 <= k < |es| ==> !es[k].Show?
  }

  lemma {:induction false} TrackedWhileAway(s: State, es: seq<Event>, n: nat, a: Away)
    requires Tracks(s.watch, n, a, false) && NeverShows(es)
    ensures Tracks(Run(s, es).watch, n, a, Fired(s, es))
  {
    if es != [] {
      var before, e := es[..|es| - 1], es[|es| - 1];
      assert before + [e] == es;
      TrackedWhileAway(s, before, n, a);
      FiredSnoc(s, before, e);
      TrackedStep(Run(s, before), e, n, a, Fired(s, before));
    }
  }

  lemma TrackedStep(s: State, e: Event, n: nat, a: Away, fired: bool)
    requires Tracks(s.watch, n, a, fired) && !e.Show?
    ensures Tracks(Step(s, e).watch, n, a, fired || (e.TimerFires? && Enabled(s, e)))
  {
  }

  /**
   Hidden with a wallet to lock and a limit in force, by the time the page is back a lock has
   begun exactly when the timer fired meanwhile or the limit has passed on the wall clock, and
   the first such lock is that wallet's, whatever else happened: hiding again, another choice
   of limit, work, wallets opened or closed, locks under way.
   */
  lemma {:induction false} LocksIffLate(s: State, hid: int, es: seq<Event>, back: int)
    requires s.watch.away == None && Lockable(s.session).Some? && s.watch.limit.Some?
    requires NeverShows(es)
    ensures var away := Step(s, Hide(hid));
            var t := Step(Run(away, es), Show(back));
            var n := |s.watch.locks|;
            && t.watch.away == None
            && (|t.watch.locks| > n <==> Fired(away, es) || back >= hid + s.watch.limit.value * 60_000)
            && (|t.watch.locks| > n ==> t.watch.locks[n].wallet == Lockable(s.session).value)
  {
    var a := Counted(Lockable(s.session).value, s.watch.limit.value, hid, s.ran);
    TrackedWhileAway(Step(s, Hide(hid)), es, |s.watch.locks|, a);
  }

  // ---------------------------------------------------------------- the module itself

  class AutoLock {
    var limit: Option<nat>
    var away: Option<Away>
    var timer: Option<int>
    var locks: seq<Lock>

    ghost predicate Valid()
      reads this
    {
      timer == if away.Some? then Some(away.value.due) else None
    }

    ghost function View(): Watch
      reads this
    {
      Watch(limit, away, locks)
    }

    constructor (limit: Option<nat>)
      ensures Valid() && View() == Watch(limit, None, [])
    {
      this.limit, away, timer, locks := limit, None, None, [];
    }

    method ChooseLockAfter(choice: Option<nat>)
      requires Valid()
      modifies `limit
      ensures Valid() && View() == old(View()).(limit := choice)
    {
      limit := choice;
    }

    method Expire(unfinished: set<Work>)
      requires Valid()
      modifies `away, `timer, `locks
      ensures Valid() && View() == Expired(old(View()), unfinished)
    {
      timer := None;
      var wallet := away;
      away := None;
      if wallet.Some? {
        StartLock(wallet.value.wallet, unfinished);
      }
    }

    /** `lock` up to its first await. */
    method StartLock(wallet: Handle, unfinished: set<Work>)
      modifies `locks
      ensures locks == old(locks) + [Lock(wallet, Checked(unfinished))]
    {
      locks := locks + [Lock(wallet, if unfinished == {} then Ready else Waiting(unfinished))];
    }

    method OnVisibilityChange(hidden: bool, lockable: Option<Handle>, now: int, ran: nat, unfinished: set<Work>)
      requires Valid()
      modifies `away, `timer, `locks
      ensures Valid()
      ensures View() == if hidden then Hidden(old(View()), lockable, now, ran) else Shown(old(View()), now, unfinished)
    {
      if hidden {
        if away.Some? || lockable.None? || limit.None? {
          return;
        }
        var ms := limit.value * 60_000;
        away, timer := Some(Away(lockable.value, now + ms, ran + ms)), Some(ran + ms);
      } else if away.Some? && now >= away.value.deadline {
        Expire(unfinished);
      } else {
        timer, away := None, None;
      }
    }

    /** A turn of the loop in `whenIdle`, when the work it waited for has settled. */
    method PollsAgain(k: nat, unfinished: set<Work>)
      requires Valid() && k < |locks|
      modifies `locks
      ensures Valid() && View() == Polled(old(View()), k, unfinished)
    {
      locks := locks[k := locks[k].(phase := if unfinished == {} then Ready else Waiting(unfinished))];
    }

    /** The rest of `lock`: whether it closes the wallet. */
    method Resumes(k: nat, lockable: Option<Handle>) returns (closes: bool)
      requires Valid() && k < |locks|
      modifies `locks
      ensures Valid() && View() == Resumed(old(View()), k)
      ensures closes <==> lockable == Some(old(locks)[k].wallet)
    {
      closes := lockable == Some(locks[k].wallet);
      locks := locks[k := locks[k].(phase := Done)];
    }
  }
}
