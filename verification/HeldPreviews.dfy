/**
 The preview a screen holds while it offers Speed up or Cancel, and the map of unsigned
 PSBTs behind it (packages/wallet-ui/src/ui/preview.ts, packages/wallet-ui/src/api.ts).

 Screens come and go, each with its own held preview and generation, over one shared pool
 of PSBTs.  Builds run over an await each, so they land and return in any order the
 environment likes, after the screen moved on, after it went away, or after the wallet was
 swapped.  `Run` folds any sequence of such steps.
 */
module HeldPreviews {
  import opened Wrappers

  type WalletId = string

  /** A PSBT handed to the open wallet to be signed. */
  datatype Signing = Signing(id: nat, builtBy: WalletId, signer: WalletId)

  /** The open wallet, the pending PSBTs by id (each with the wallet that built it) and the signings so far. */
  datatype Pool = Pool(wallet: Option<WalletId>, counter: nat, pending: map<nat, WalletId>, signed: seq<Signing>)

  /** One rendered screen: the wallet it was rendered for, and its `held` and `gen`. */
  datatype Screen = Screen(wallet: WalletId, gen: nat, held: Option<nat>, left: bool)

  datatype Phase = Running | Landed | Shown | Dropped | Failed

  /** A build `hold` started on `screen`, with the wallet open then, when its generation was `mine`; `psbt` once it landed. */
  datatype Build = Build(screen: nat, mine: nat, wallet: WalletId, psbt: Option<nat>, phase: Phase)

  datatype State = State(pool: Pool, screens: seq<Screen>, builds: seq<Build>)

  datatype Event =
    | Render
    | SwapWallet(wallet: Option<WalletId>)
    | Drop(i: nat)
    | Hold(i: nat)
    | BuildLands(b: nat)
    | BuildFails(b: nat)
    | HoldReturns(b: nat, counts: bool)
    | Send(i: nat)
    | Leave(i: nat)

  // ---------------------------------------------------------------- what the functions do

  function Discard(p: Pool, id: nat): Pool {
    p.(pending := p.pending - {id})
  }

  /** `buildPreview` once the core has built. */
  function Built(p: Pool, builder: WalletId): Pool {
    p.(pending := p.pending[p.counter := builder], counter := p.counter + 1)
  }

  /** `signAndBroadcast` up to the signing. */
  function Signed(p: Pool, id: nat): Pool {
    if p.wallet.Some? && id in p.pending then
      p.(pending := p.pending - {id}, signed := p.signed + [Signing(id, p.pending[id], p.wallet.value)])
    else p
  }

  function DropHeld(sc: Screen): Screen {
    sc.(gen := sc.gen + 1, held := None)
  }

  function PoolAfterDrop(p: Pool, sc: Screen): Pool {
    if sc.held.Some? then Discard(p, sc.held.value) else p
  }

  /** `screenGuard`: the screen is up, for the wallet it was rendered for. */
  predicate OnScreen(p: Pool, sc: Screen) {
    !sc.left && p.wallet == Some(sc.wallet)
  }

  /** `current` in `hold`; `counts` is what the caller's condition adds to `screenGuard`. */
  predicate Current(p: Pool, sc: Screen, mine: nat, counts: bool) {
    mine == sc.gen && counts && OnScreen(p, sc)
  }

  predicate Enabled(s: State, e: Event) {
    match e
    case Render => s.pool.wallet.Some?
    case SwapWallet(_) => true
    case Drop(i) => i < |s.screens|
    case Hold(i) => i < |s.screens|
    case BuildLands(b) => b < |s.builds| && s.builds[b].phase.Running?
    case BuildFails(b) => b < |s.builds| && s.builds[b].phase.Running?
    case HoldReturns(b, _) =>
      b < |s.builds| && s.builds[b].phase.Landed? && s.builds[b].psbt.Some? && s.builds[b].screen < |s.screens|
    case Send(i) => i < |s.screens|
    case Leave(i) => i < |s.screens| && !s.screens[i].left
  }

  function Step(s: State, e: Event): State {
    if !Enabled(s, e) then s else
    match e
    case Render => s.(screens := s.screens + [Screen(s.pool.wallet.value, 0, None, false)])
    case SwapWallet(w) => s.(pool := s.pool.(wallet := w, pending := map[]))
    case Drop(i) =>
      s.(pool := PoolAfterDrop(s.pool, s.screens[i]), screens := s.screens[i := DropHeld(s.screens[i])])
    case Hold(i) =>
      var sc := DropHeld(s.screens[i]);
      State(PoolAfterDrop(s.pool, s.screens[i]), s.screens[i := sc],
            if s.pool.wallet.None? then s.builds
            else s.builds + [Build(i, sc.gen, s.pool.wallet.value, None, Running)])
    case BuildLands(b) =>
      var build := s.builds[b];
      s.(pool := Built(s.pool, build.wallet),
         builds := s.builds[b := build.(psbt := Some(s.pool.counter), phase := Landed)])
    case BuildFails(b) => s.(builds := s.builds[b := s.builds[b].(phase := Failed)])
    case HoldReturns(b, counts) =>
      var build := s.builds[b];
      var sc := s.screens[build.screen];
      if Current(s.pool, sc, build.mine, counts) then
        s.(screens := s.screens[build.screen := sc.(held := build.psbt)],
           builds := s.builds[b := build.(phase := Shown)])
      else
        s.(pool := Discard(s.pool, build.psbt.value), builds := s.builds[b := build.(phase := Dropped)])
    case Send(i) =>
      var sc := s.screens[i];
      s.(pool := if sc.held.Some? then Signed(s.pool, sc.held.value) else s.pool,
         screens := s.screens[i := sc.(held := None)])
    case Leave(i) =>
      s.(pool := PoolAfterDrop(s.pool, s.screens[i]),
         screens := s.screens[i := DropHeld(s.screens[i]).(left := true)])
  }

  function Run(s: State, es: seq<Event>): State {
    if es == [] then s else Step(Run(s, es[..|es| - 1]), es[|es| - 1])
  }

  predicate Fresh(s: State) {
    s.pool.pending == map[] && s.pool.signed == [] && s.screens == [] && s.builds == []
  }

  // ---------------------------------------------------------------- invariants

  /** Builds belong to screens, and a screen's builds have increasing generations. */
  predicate BuildInv(screens: seq<Screen>, builds: seq<Build>) {
    && (forall b :: 0 <= b < |builds| ==>
          && builds[b].screen < |screens|
          && builds[b].mine <= screens[builds[b].screen].gen)
    && (forall b, c :: 0 <= b < c < |builds| && builds[b].screen == builds[c].screen ==> builds[b].mine < builds[c].mine)
  }

  /** A landed build has an id of its own. */
  predicate IdInv(counter: nat, builds: seq<Build>) {
    && (forall b :: 0 <= b < |builds| ==> (builds[b].psbt.None? <==> builds[b].phase.Running? || builds[b].phase.Failed?))
    && (forall b :: 0 <= b < |builds| && builds[b].psbt.Some? ==> builds[b].psbt.value < counter)
    && (forall b, c :: 0 <= b < c < |builds| && builds[b].psbt.Some? ==> builds[b].psbt != builds[c].psbt)
  }

  predicate HolderIs(screens: seq<Screen>, builds: seq<Build>, i: nat, b: nat)
    requires i < |screens| && b < |builds|
  {
    builds[b].screen == i && builds[b].mine == screens[i].gen && builds[b].phase.Shown? && builds[b].psbt == screens[i].held
  }

  predicate HasHolder(screens: seq<Screen>, builds: seq<Build>, i: nat)
    requires i < |screens|
  {
    exists b :: 0 <= b < |builds| && HolderIs(screens, builds, i, b)
  }

  /** What a screen holds is the build of its current generation, and a screen that is gone holds nothing. */
  predicate HeldInv(screens: seq<Screen>, builds: seq<Build>) {
    && (forall i :: 0 <= i < |screens| && screens[i].held.Some? ==> HasHolder(screens, builds, i))
    && (forall i :: 0 <= i < |screens| && screens[i].left ==> screens[i].held.None?)
  }

  /** A build is live while it has landed and not returned, or while its screen holds it. */
  predicate Live(screens: seq<Screen>, build: Build) {
    build.psbt.Some? && build.screen < |screens| &&
    (build.phase.Landed? || screens[build.screen].held == build.psbt)
  }

  predicate HasLive(screens: seq<Screen>, builds: seq<Build>, id: nat) {
    exists b :: 0 <= b < |builds| && builds[b].psbt == Some(id) && Live(screens, builds[b])
  }

  /** Every pending PSBT is some live build's, recorded with the wallet that built it. */
  predicate PendingInv(pending: map<nat, WalletId>, screens: seq<Screen>, builds: seq<Build>) {
    && (forall id :: id in pending ==> HasLive(screens, builds, id))
    && (forall b :: 0 <= b < |builds| && builds[b].psbt.Some? && builds[b].psbt.value in pending ==>
          pending[builds[b].psbt.value] == builds[b].wallet)
  }

  /** What is held and still pending was built by the wallet now open. */
  predicate WalletInv(pool: Pool, screens: seq<Screen>) {
    forall i :: 0 <= i < |screens| && screens[i].held.Some? && screens[i].held.value in pool.pending ==>
      pool.wallet == Some(screens[i].wallet)
  }

  /** Each PSBT is signed once, and is used up by that. */
  predicate SignedInv(pool: Pool) {
    && (forall j, k :: 0 <= j < k < |pool.signed| ==> pool.signed[j].id != pool.signed[k].id)
    && (forall k :: 0 <= k < |pool.signed| ==>
          && pool.signed[k].id < pool.counter
          && pool.signed[k].id !in pool.pending)
  }

  /** A PSBT is signed by the wallet of the screen it was shown on, having been built by the wallet open at its `hold`. */
  predicate SignedFrom(screens: seq<Screen>, b: Build, signing: Signing) {
    && b.psbt == Some(signing.id) && b.phase.Shown? && b.wallet == signing.builtBy
    && b.screen < |screens| && screens[b.screen].wallet == signing.signer
  }

  predicate WasShown(screens: seq<Screen>, builds: seq<Build>, signing: Signing) {
    exists b :: 0 <= b < |builds| && SignedFrom(screens, builds[b], signing)
  }

  /** Only a PSBT some screen held is ever signed. */
  predicate ShownInv(signed: seq<Signing>, screens: seq<Screen>, builds: seq<Build>) {
    forall k :: 0 <= k < |signed| ==> WasShown(screens, builds, signed[k])
  }

  predicate Inv(s: State) {
    && BuildInv(s.screens, s.builds)
    && IdInv(s.pool.counter, s.builds)
    && HeldInv(s.screens, s.builds)
    && PendingInv(s.pool.pending, s.screens, s.builds)
    && WalletInv(s.pool, s.screens)
    && SignedInv(s.pool)
    && ShownInv(s.pool.signed, s.screens, s.builds)
  }

  /** Generations only grow, and a build's origin never changes. */
  lemma BuildsKept(screens: seq<Screen>, builds: seq<Build>, screens': seq<Screen>, builds': seq<Build>)
    requires BuildInv(screens, builds)
    requires |screens| <= |screens'| && |builds'| == |builds|
    requires forall i :: 0 <= i < |screens| ==> screens[i].gen <= screens'[i].gen
    requires forall b :: 0 <= b < |builds| ==> builds[b].screen == builds'[b].screen && builds[b].mine == builds'[b].mine
    ensures BuildInv(screens', builds')
  {
  }

  /** A build `hold` starts is of a newer generation than any its screen started before. */
  lemma HoldKeepsBuilds(screens: seq<Screen>, builds: seq<Build>, i: nat, wallet: WalletId)
    requires BuildInv(screens, builds) && i < |screens|
    ensures var sc := DropHeld(screens[i]);
            BuildInv(screens[i := sc], builds + [Build(i, sc.gen, wallet, None, Running)])
  {
  }

  lemma StepKeepsBuilds(s: State, e: Event)
    requires BuildInv(s.screens, s.builds)
    ensures var t := Step(s, e); BuildInv(t.screens, t.builds)
  {
    if e.Hold? && Enabled(s, e) && s.pool.wallet.Some? {
      HoldKeepsBuilds(s.screens, s.builds, e.i, s.pool.wallet.value);
    } else {
      BuildsKept(s.screens, s.builds, Step(s, e).screens, Step(s, e).builds);
    }
  }

  lemma StepKeepsIds(s: State, e: Event)
    requires IdInv(s.pool.counter, s.builds)
    ensures var t := Step(s, e); IdInv(t.pool.counter, t.builds)
  {
  }

  /** A holder stays one: builds once shown do not change, and the screen is as it was. */
  lemma HolderKept(s: State, t: State, i: nat)
    requires i < |s.screens| && i < |t.screens| && t.screens[i] == s.screens[i] && HasHolder(s.screens, s.builds, i)
    requires |s.builds| <= |t.builds|
    requires forall b :: 0 <= b < |s.builds| && s.builds[b].phase.Shown? ==> t.builds[b] == s.builds[b]
    ensures HasHolder(t.screens, t.builds, i)
  {
    var b :| 0 <= b < |s.builds| && HolderIs(s.screens, s.builds, i, b);
    assert HolderIs(t.screens, t.builds, i, b);
  }

  lemma StepKeepsHeld(s: State, e: Event)
    requires BuildInv(s.screens, s.builds) && HeldInv(s.screens, s.builds)
    ensures var t := Step(s, e); HeldInv(t.screens, t.builds)
  {
    var t := Step(s, e);
    forall i | 0 <= i < |t.screens| && t.screens[i].held.Some?
      ensures HasHolder(t.screens, t.builds, i)
    {
      if i < |s.screens| && t.screens[i] == s.screens[i] {
        HolderKept(s, t, i);
      } else {
        assert e.HoldReturns?;
        assert HolderIs(t.screens, t.builds, i, e.b);
      }
    }
  }

  /** Nothing pending is touched: builds that landed stay as they were, and so does what is held. */
  lemma LiveKept(s: State, screens: seq<Screen>, builds: seq<Build>)
    requires PendingInv(s.pool.pending, s.screens, s.builds)
    requires |s.screens| <= |screens| && |s.builds| <= |builds|
    requires forall i :: 0 <= i < |s.screens| ==> screens[i].held == s.screens[i].held
    requires forall b :: 0 <= b < |s.builds| && s.builds[b].psbt.Some? ==> builds[b] == s.builds[b]
    requires forall b :: 0 <= b < |builds| && builds[b].psbt.Some? ==> b < |s.builds| && s.builds[b].psbt.Some?
    ensures PendingInv(s.pool.pending, screens, builds)
  {
  }

  /** Dropping what a screen holds leaves every other live build live. */
  lemma DropKeepsPending(s: State, i: nat, sc: Screen)
    requires HeldInv(s.screens, s.builds) && IdInv(s.pool.counter, s.builds) && PendingInv(s.pool.pending, s.screens, s.builds)
    requires i < |s.screens| && sc.held.None?
    ensures PendingInv(PoolAfterDrop(s.pool, s.screens[i]).pending, s.screens[i := sc], s.builds)
  {
  }

  lemma SendKeepsPending(s: State, i: nat)
    requires Inv(s) && i < |s.screens|
    ensures var t := Step(s, Send(i)); PendingInv(t.pool.pending, t.screens, t.builds)
  {
  }

  lemma LandingKeepsPending(s: State, b: nat)
    requires Inv(s) && Enabled(s, BuildLands(b))
    ensures var t := Step(s, BuildLands(b)); PendingInv(t.pool.pending, t.screens, t.builds)
  {
    var t := Step(s, BuildLands(b));
    forall id | id in t.pool.pending
      ensures HasLive(t.screens, t.builds, id)
    {
      if id == s.pool.counter {
        assert Live(t.screens, t.builds[b]);
      } else {
        var c :| 0 <= c < |s.builds| && s.builds[c].psbt == Some(id) && Live(s.screens, s.builds[c]);
        assert t.builds[c] == s.builds[c];
      }
    }
  }

  lemma ReturnKeepsPending(s: State, b: nat, counts: bool)
    requires PendingInv(s.pool.pending, s.screens, s.builds) && Enabled(s, HoldReturns(b, counts))
    requires s.screens[s.builds[b].screen].held.None? || s.builds[b].mine != s.screens[s.builds[b].screen].gen
    ensures var t := Step(s, HoldReturns(b, counts)); PendingInv(t.pool.pending, t.screens, t.builds)
  {
    var t := Step(s, HoldReturns(b, counts));
    forall id | id in t.pool.pending
      ensures HasLive(t.screens, t.builds, id)
    {
      var c :| 0 <= c < |s.builds| && s.builds[c].psbt == Some(id) && Live(s.screens, s.builds[c]);
      assert Live(t.screens, t.builds[c]);
    }
  }

  /** While a build of the current generation is out, its screen holds nothing. */
  lemma NothingHeldMeanwhile(s: State, b: nat)
    requires BuildInv(s.screens, s.builds) && HeldInv(s.screens, s.builds)
    requires b < |s.builds| && !s.builds[b].phase.Shown?
    ensures s.screens[s.builds[b].screen].held.None? || s.builds[b].mine != s.screens[s.builds[b].screen].gen
  {
  }

  lemma {:induction false} StepKeepsPending(s: State, e: Event)
    requires Inv(s)
    ensures var t := Step(s, e); PendingInv(t.pool.pending, t.screens, t.builds)
  {
    if Enabled(s, e) {
      match e
      case Render => LiveKept(s, Step(s, e).screens, s.builds);
      case SwapWallet(_) =>
      case Drop(i) => DropKeepsPending(s, i, DropHeld(s.screens[i]));
      case Hold(i) =>
        DropKeepsPending(s, i, DropHeld(s.screens[i]));
        var t := Step(s, e);
        LiveKept(State(t.pool, t.screens, s.builds), t.screens, t.builds);
      case BuildLands(b) => LandingKeepsPending(s, b);
      case BuildFails(b) => LiveKept(s, s.screens, Step(s, e).builds);
      case HoldReturns(b, counts) => NothingHeldMeanwhile(s, b); ReturnKeepsPending(s, b, counts);
      case Send(i) => SendKeepsPending(s, i);
      case Leave(i) => DropKeepsPending(s, i, DropHeld(s.screens[i]).(left := true));
    }
  }

  /** What is held was built, so it is not the id that comes next. */
  lemma HeldIsOld(s: State, i: nat)
    requires HeldInv(s.screens, s.builds) && IdInv(s.pool.counter, s.builds) && i < |s.screens|
    ensures s.screens[i].held.Some? ==> s.screens[i].held.value < s.pool.counter
  {
    if s.screens[i].held.Some? {
      var b :| 0 <= b < |s.builds| && HolderIs(s.screens, s.builds, i, b);
    }
  }

  lemma LandingKeepsWallet(s: State, b: nat)
    requires HeldInv(s.screens, s.builds) && IdInv(s.pool.counter, s.builds) && WalletInv(s.pool, s.screens)
    requires Enabled(s, BuildLands(b))
    ensures var t := Step(s, BuildLands(b)); WalletInv(t.pool, t.screens)
  {
    forall i | 0 <= i < |s.screens|
      ensures s.screens[i].held != Some(s.pool.counter)
    {
      HeldIsOld(s, i);
    }
  }

  lemma StepKeepsWallet(s: State, e: Event)
    requires HeldInv(s.screens, s.builds) && IdInv(s.pool.counter, s.builds) && WalletInv(s.pool, s.screens)
    ensures var t := Step(s, e); WalletInv(t.pool, t.screens)
  {
    if e.BuildLands? && Enabled(s, e) {
      LandingKeepsWallet(s, e.b);
    }
  }

  lemma PendingIsOld(s: State)
    requires IdInv(s.pool.counter, s.builds) && PendingInv(s.pool.pending, s.screens, s.builds)
    ensures forall id :: id in s.pool.pending ==> id < s.pool.counter
  {
    forall id | id in s.pool.pending
      ensures id < s.pool.counter
    {
      var b :| 0 <= b < |s.builds| && s.builds[b].psbt == Some(id) && Live(s.screens, s.builds[b]);
    }
  }

  lemma StepKeepsSigned(s: State, e: Event)
    requires HeldInv(s.screens, s.builds) && IdInv(s.pool.counter, s.builds) && SignedInv(s.pool)
    requires forall id :: id in s.pool.pending ==> id < s.pool.counter
    ensures SignedInv(Step(s, e).pool)
  {
  }

  /** A build once shown does not change, and neither does the wallet a screen is for. */
  lemma ShownStays(s: State, t: State, signing: Signing)
    requires WasShown(s.screens, s.builds, signing) && |s.builds| <= |t.builds| && |s.screens| <= |t.screens|
    requires forall b :: 0 <= b < |s.builds| && s.builds[b].phase.Shown? ==> t.builds[b] == s.builds[b]
    requires forall i :: 0 <= i < |s.screens| ==> t.screens[i].wallet == s.screens[i].wallet
    ensures WasShown(t.screens, t.builds, signing)
  {
    var b :| 0 <= b < |s.builds| && SignedFrom(s.screens, s.builds[b], signing);
    assert SignedFrom(t.screens, t.builds[b], signing);
  }

  lemma StepKeepsOrigins(s: State, e: Event)
    ensures var t := Step(s, e);
            && |s.builds| <= |t.builds| && |s.screens| <= |t.screens|
            && (forall b :: 0 <= b < |s.builds| && s.builds[b].phase.Shown? ==> t.builds[b] == s.builds[b])
            && (forall b :: 0 <= b < |s.builds| ==> t.builds[b].screen == s.builds[b].screen && t.builds[b].wallet == s.builds[b].wallet)
            && (forall i :: 0 <= i < |s.screens| ==> t.screens[i].wallet == s.screens[i].wallet)
  {
  }

  lemma SendSignsShown(s: State, i: nat)
    requires HeldInv(s.screens, s.builds) && PendingInv(s.pool.pending, s.screens, s.builds) && WalletInv(s.pool, s.screens)
    requires i < |s.screens| && s.screens[i].held.Some? && s.pool.wallet.Some? && s.screens[i].held.value in s.pool.pending
    ensures var id := s.screens[i].held.value;
            WasShown(s.screens, s.builds, Signing(id, s.pool.pending[id], s.pool.wallet.value))
  {
    var id := s.screens[i].held.value;
    var b :| 0 <= b < |s.builds| && HolderIs(s.screens, s.builds, i, b);
    assert SignedFrom(s.screens, s.builds[b], Signing(id, s.pool.pending[id], s.pool.wallet.value));
  }

  lemma StepKeepsShown(s: State, e: Event)
    requires HeldInv(s.screens, s.builds) && PendingInv(s.pool.pending, s.screens, s.builds) && WalletInv(s.pool, s.screens)
    requires ShownInv(s.pool.signed, s.screens, s.builds)
    ensures var t := Step(s, e); ShownInv(t.pool.signed, t.screens, t.builds)
  {
    var t := Step(s, e);
    StepKeepsOrigins(s, e);
    forall k | 0 <= k < |t.pool.signed|
      ensures WasShown(t.screens, t.builds, t.pool.signed[k])
    {
      if k < |s.pool.signed| {
        assert t.pool.signed[k] == s.pool.signed[k];
      } else {
        SendSignsShown(s, e.i);
      }
      ShownStays(s, t, t.pool.signed[k]);
    }
  }

  // ---------------------------------------------------------------- every interleaving

  /** Built by the wallet the screen is for. */
  predicate Home(screens: seq<Screen>, b: Build) {
    b.screen < |screens| && b.wallet == screens[b.screen].wallet
  }

  predicate BuildsAtHome(t: State) {
    forall b :: 0 <= b < |t.builds| ==> Home(t.screens, t.builds[b])
  }

  /** What every caller sees to before it calls `hold`: no wallet but the screen's own is open. */
  predicate AtHome(s: State, e: Event) {
    match e
    case Hold(i) => i < |s.screens| && s.pool.wallet.Some? ==> s.pool.wallet == Some(s.screens[i].wallet)
    case _ => true
  }

  predicate AllAtHome(s0: State, es: seq<Event>) {
    forall k :: 0 <= k < |es| ==> AtHome(Run(s0, es[..k]), es[k])
  }

  lemma StepAtHomeIff(s: State, e: Event)
    requires BuildInv(s.screens, s.builds)
    ensures BuildsAtHome(Step(s, e)) <==> BuildsAtHome(s) && AtHome(s, e)
  {
    var t := Step(s, e);
    StepKeepsOrigins(s, e);
    if BuildsAtHome(t) {
      forall b | 0 <= b < |s.builds|
        ensures Home(s.screens, s.builds[b])
      {
        assert Home(t.screens, t.builds[b]);
      }
      if e.Hold? && Enabled(s, e) && s.pool.wallet.Some? {
        assert Home(t.screens, t.builds[|s.builds|]);
      }
    }
  }

  lemma {:induction false} AtHomeOneMore(s0: State, es: seq<Event>, e: Event)
    requires Fresh(s0)
    ensures BuildsAtHome(Run(s0, es + [e])) <==> BuildsAtHome(Run(s0, es)) && AtHome(Run(s0, es), e)
  {
    RunKeepsInv(s0, es);
    StepAtHomeIff(Run(s0, es), e);
    RunSnoc(s0, es, e);
  }

  /** Every build is the screen's own wallet's exactly when every `hold` began with that wallet open, or none. */
  lemma {:induction false} AtHomeIff(s0: State, es: seq<Event>)
    requires Fresh(s0)
    ensures BuildsAtHome(Run(s0, es)) <==> AllAtHome(s0, es)
  {
    if es != [] {
      var front, e := es[..|es| - 1], es[|es| - 1];
      assert front + [e] == es;
      AtHomeIff(s0, front);
      AtHomeOneMore(s0, front, e);
      AllAtHomeSnoc(s0, front, e);
    }
  }

  lemma AllAtHomeSnoc(s0: State, es: seq<Event>, e: Event)
    ensures AllAtHome(s0, es + [e]) <==> AllAtHome(s0, es) && AtHome(Run(s0, es), e)
  {
    var fs := es + [e];
    assert fs[..|es|] == es;
    assert forall k :: 0 <= k < |es| ==> fs[..k] == es[..k] && fs[k] == es[k];
    if AllAtHome(s0, fs) {
      forall k | 0 <= k < |es|
        ensures AtHome(Run(s0, es[..k]), es[k])
      {
        assert AtHome(Run(s0, fs[..k]), fs[k]);
      }
      assert AtHome(Run(s0, fs[..|es|]), fs[|es|]);
    }
  }

  lemma {:induction false} RunKeepsInv(s0: State, es: seq<Event>)
    requires Fresh(s0)
    ensures Inv(Run(s0, es))
  {
    if es != [] {
      var s, e := Run(s0, es[..|es| - 1]), es[|es| - 1];
      RunKeepsInv(s0, es[..|es| - 1]);
      StepKeepsBuilds(s, e);
      StepKeepsIds(s, e);
      StepKeepsHeld(s, e);
      StepKeepsPending(s, e);
      StepKeepsWallet(s, e);
      PendingIsOld(s);
      StepKeepsSigned(s, e);
      StepKeepsShown(s, e);
    }
  }

  /** A held preview is the one its screen's latest build of all gave, of the screen's current generation. */
  lemma HeldIsNewest(s0: State, es: seq<Event>, i: nat)
    requires Fresh(s0) && i < |Run(s0, es).screens| && Run(s0, es).screens[i].held.Some?
    ensures var t := Run(s0, es);
            exists b :: 0 <= b < |t.builds| && t.builds[b].screen == i && t.builds[b].psbt == t.screens[i].held
                        && t.builds[b].mine == t.screens[i].gen
                        && (AllAtHome(s0, es) ==> t.builds[b].wallet == t.screens[i].wallet)
                        && (forall c :: b < c < |t.builds| ==> t.builds[c].screen != i)
  {
    var t := Run(s0, es);
    RunKeepsInv(s0, es);
    AtHomeIff(s0, es);
    var b :| 0 <= b < |t.builds| && HolderIs(t.screens, t.builds, i, b);
    assert t.builds[b].psbt == t.screens[i].held && Home(t.screens, t.builds[b]) == (t.builds[b].wallet == t.screens[i].wallet);
  }

  /**
   No PSBT is signed twice, and none that was not offered; the signer is the wallet of the
   screen that offered it, and so the wallet that built it exactly when that build was made at home.
   */
  lemma SignedOnceAsOffered(s0: State, es: seq<Event>)
    requires Fresh(s0)
    ensures var t := Run(s0, es);
            && (forall j, k :: 0 <= j < k < |t.pool.signed| ==> t.pool.signed[j].id != t.pool.signed[k].id)
            && (forall k :: 0 <= k < |t.pool.signed| ==> SignedAsShown(t, t.pool.signed[k]))
            && (AllAtHome(s0, es) ==>
                  forall k :: 0 <= k < |t.pool.signed| ==> t.pool.signed[k].signer == t.pool.signed[k].builtBy)
  {
    var t := Run(s0, es);
    RunKeepsInv(s0, es);
    AtHomeIff(s0, es);
    forall k | 0 <= k < |t.pool.signed|
      ensures SignedAsShown(t, t.pool.signed[k])
    {
      var b :| 0 <= b < |t.builds| && SignedFrom(t.screens, t.builds[b], t.pool.signed[k]);
    }
  }

  predicate SignedAsShown(t: State, signing: Signing) {
    exists b :: 0 <= b < |t.builds| && SignedFrom(t.screens, t.builds[b], signing)
                && (signing.signer == signing.builtBy <==> Home(t.screens, t.builds[b]))
  }

  /** Once a screen is gone and its builds have all returned, none of its PSBTs is left pending. */
  lemma NothingStranded(s0: State, es: seq<Event>, i: nat)
    requires Fresh(s0) && i < |Run(s0, es).screens| && Run(s0, es).screens[i].left
    requires var t := Run(s0, es);
             forall b :: 0 <= b < |t.builds| && t.builds[b].screen == i ==> !t.builds[b].phase.Landed?
    ensures var t := Run(s0, es);
            forall b :: 0 <= b < |t.builds| && t.builds[b].screen == i && t.builds[b].psbt.Some? ==>
              t.builds[b].psbt.value !in t.pool.pending
  {
    RunKeepsInv(s0, es);
  }

  lemma RunSnoc(s: State, es: seq<Event>, e: Event)
    ensures Run(s, es + [e]) == Step(Run(s, es), e)
  {
  }

  /** A `hold` away from home matters: built while another wallet is open, its PSBT is signed by the screen's own. */
  lemma SignedAway(s0: State, a: WalletId, b: WalletId) returns (es: seq<Event>)
    requires Fresh(s0) && a != b && s0.pool.wallet == Some(a) && s0.pool.counter == 0
    ensures Run(s0, es).pool.signed == [Signing(0, b, a)]
  {
    var home := Screen(a, 0, None, false);
    es := [];
    RunSnoc(s0, es, Render);
    es := es + [Render];
    assert Run(s0, es) == State(s0.pool, [home], []);
    RunSnoc(s0, es, SwapWallet(Some(b)));
    es := es + [SwapWallet(Some(b))];
    RunSnoc(s0, es, Hold(0));
    es := es + [Hold(0)];
    RunSnoc(s0, es, SwapWallet(Some(a)));
    es := es + [SwapWallet(Some(a))];
    assert Run(s0, es) == State(Pool(Some(a), 0, map[], []), [home.(gen := 1)], [Build(0, 1, b, None, Running)]);
    RunSnoc(s0, es, BuildLands(0));
    es := es + [BuildLands(0)];
    RunSnoc(s0, es, HoldReturns(0, true));
    es := es + [HoldReturns(0, true)];
    RunSnoc(s0, es, Send(0));
    es := es + [Send(0)];
  }

  // ---------------------------------------------------------------- nothing is lost

  /** The other way round: what a screen holds, and what is about to be, can be sent. */
  predicate SendableInv(pending: map<nat, WalletId>, screens: seq<Screen>, builds: seq<Build>) {
    forall b :: 0 <= b < |builds| && Live(screens, builds[b]) ==> builds[b].psbt.value in pending
  }

  /** A drop takes from the pool only what its own screen held. */
  lemma DropKeepsSendable(s: State, i: nat, sc: Screen, b: nat)
    requires HeldInv(s.screens, s.builds) && IdInv(s.pool.counter, s.builds)
    requires SendableInv(s.pool.pending, s.screens, s.builds)
    requires i < |s.screens| && sc.held.None? && b < |s.builds| && Live(s.screens[i := sc], s.builds[b])
    ensures s.builds[b].psbt.value in PoolAfterDrop(s.pool, s.screens[i]).pending
  {
  }

  lemma {:induction false} StepKeepsSendable(s: State, e: Event, b: nat)
    requires BuildInv(s.screens, s.builds) && IdInv(s.pool.counter, s.builds) && HeldInv(s.screens, s.builds)
    requires !e.SwapWallet? && SendableInv(s.pool.pending, s.screens, s.builds)
    requires b < |Step(s, e).builds| && Live(Step(s, e).screens, Step(s, e).builds[b])
    ensures Step(s, e).builds[b].psbt.value in Step(s, e).pool.pending
  {
    var t := Step(s, e);
    if !Enabled(s, e) {
      return;
    }
    match e
    case Render => assert Live(s.screens, s.builds[b]);
    case Drop(i) => DropKeepsSendable(s, i, t.screens[i], b);
    case Hold(i) =>
      assert b < |s.builds|;
      DropKeepsSendable(s, i, t.screens[i], b);
    case Leave(i) => DropKeepsSendable(s, i, t.screens[i], b);
    case Send(i) => DropKeepsSendable(s, i, t.screens[i], b);
    case BuildLands(c) => assert b == c || Live(s.screens, s.builds[b]);
    case BuildFails(c) => assert b != c; assert Live(s.screens, s.builds[b]);
    case HoldReturns(c, counts) => NothingHeldMeanwhile(s, c); assert Live(s.screens, s.builds[b]);
  }

  /** Unless the wallet is swapped, a held preview stays signable until it is sent or dropped. */
  lemma {:induction false} HeldStaysSendable(s0: State, es: seq<Event>)
    requires Fresh(s0) && forall k :: 0 <= k < |es| ==> !es[k].SwapWallet?
    ensures var t := Run(s0, es); SendableInv(t.pool.pending, t.screens, t.builds)
  {
    if es != [] {
      HeldStaysSendable(s0, es[..|es| - 1]);
      RunKeepsInv(s0, es[..|es| - 1]);
      var s, e := Run(s0, es[..|es| - 1]), es[|es| - 1];
      forall b | 0 <= b < |Step(s, e).builds| && Live(Step(s, e).screens, Step(s, e).builds[b])
        ensures Step(s, e).builds[b].psbt.value in Step(s, e).pool.pending
      {
        StepKeepsSendable(s, e, b);
      }
    }
  }

  // ---------------------------------------------------------------- what is signed, and what is dropped

  /** Send with a preview held that is still pending, and a wallet open. */
  predicate Signs(s: State, e: Event) {
    match e
    case Send(i) => i < |s.screens| && s.pool.wallet.Some? && s.screens[i].held.Some? && s.screens[i].held.value in s.pool.pending
    case _ => false
  }

  function SigningBy(s: State, e: Event): Signing
    requires Signs(s, e)
  {
    var id := s.screens[e.i].held.value;
    Signing(id, s.pool.pending[id], s.pool.wallet.value)
  }

  /** Exactly that signs: what the screen held, by the wallet open, once. */
  lemma SignsExactly(s: State, e: Event)
    ensures var t := Step(s, e);
            if Signs(s, e) then
              t.pool.signed == s.pool.signed + [SigningBy(s, e)] && t.pool.pending == s.pool.pending - {SigningBy(s, e).id}
            else t.pool.signed == s.pool.signed
  {
  }

  /** Hold, built and back with the screen still up and nothing between: what was built is held, and a Send signs it. */
  lemma HoldRound(s: State, i: nat)
    requires i < |s.screens| && OnScreen(s.pool, s.screens[i])
    ensures var b := |s.builds|;
            var t := Step(Step(Step(s, Hold(i)), BuildLands(b)), HoldReturns(b, true));
            && t.screens[i].held == Some(s.pool.counter) && s.pool.counter in t.pool.pending
            && t.pool.pending[s.pool.counter] == s.screens[i].wallet
            && (forall id :: id in t.pool.pending && id != s.pool.counter ==> id in s.pool.pending && s.screens[i].held != Some(id))
    ensures var b := |s.builds|;
            var t := Step(Step(Step(Step(s, Hold(i)), BuildLands(b)), HoldReturns(b, true)), Send(i));
            && t.pool.signed == s.pool.signed + [Signing(s.pool.counter, s.screens[i].wallet, s.screens[i].wallet)]
            && t.screens[i].held.None? && s.pool.counter !in t.pool.pending
  {
    var b := |s.builds|;
    HoldStarts(s, i);
    var u := Step(s, Hold(i));
    BuildReturns(u, b);
  }

  lemma HoldStarts(s: State, i: nat)
    requires i < |s.screens| && OnScreen(s.pool, s.screens[i])
    ensures var t := Step(s, Hold(i));
            && t.builds == s.builds + [Build(i, s.screens[i].gen + 1, s.screens[i].wallet, None, Running)]
            && t.screens == s.screens[i := s.screens[i].(gen := s.screens[i].gen + 1, held := None)]
            && t.pool == (if s.screens[i].held.Some? then Discard(s.pool, s.screens[i].held.value) else s.pool)
  {
  }

  lemma BuildReturns(s: State, b: nat)
    requires b < |s.builds| && s.builds[b].phase.Running? && s.builds[b].screen < |s.screens|
    requires var sc := s.screens[s.builds[b].screen]; OnScreen(s.pool, sc) && s.builds[b].mine == sc.gen
    ensures var t := Step(Step(s, BuildLands(b)), HoldReturns(b, true));
            && t.screens == s.screens[s.builds[b].screen := s.screens[s.builds[b].screen].(held := Some(s.pool.counter))]
            && t.pool == Built(s.pool, s.builds[b].wallet)
  {
  }

  /** What a screen held is gone with a Drop, and nothing else is. */
  lemma DropDiscards(s: State, i: nat)
    requires i < |s.screens|
    ensures var t := Step(s, Drop(i));
            && t.screens[i].held.None? && t.screens[i].gen > s.screens[i].gen
            && forall id :: id in t.pool.pending <==> id in s.pool.pending && s.screens[i].held != Some(id)
  {
  }

  /** A build gone stale when it returns is not held, and its PSBT is let go. */
  lemma StaleIsLetGo(s: State, b: nat, counts: bool)
    requires Enabled(s, HoldReturns(b, counts))
    requires var sc := s.screens[s.builds[b].screen]; !OnScreen(s.pool, sc) || s.builds[b].mine != sc.gen || !counts
    ensures var t := Step(s, HoldReturns(b, counts));
            t.screens == s.screens && s.builds[b].psbt.value !in t.pool.pending && t.pool.signed == s.pool.signed
  {
  }

  /** A screen that is left is left for good: it holds nothing, whatever returns to it, and Send on it signs nothing. */
  lemma {:induction false} LeftForGood(s0: State, es: seq<Event>, i: nat, fs: seq<Event>)
    requires Fresh(s0) && i < |Run(s0, es).screens|
    ensures var t := Run(s0, es + [Leave(i)] + fs);
            i < |t.screens| && t.screens[i].left && t.screens[i].held.None? && !Signs(t, Send(i))
  {
    var all := es + [Leave(i)] + fs;
    RunKeepsInv(s0, all);
    if fs == [] {
      assert all == es + [Leave(i)];
      RunSnoc(s0, es, Leave(i));
    } else {
      var front, e := fs[..|fs| - 1], fs[|fs| - 1];
      assert all == (es + [Leave(i)] + front) + [e];
      LeftForGood(s0, es, i, front);
      RunSnoc(s0, es + [Leave(i)] + front, e);
      LeftStays(Run(s0, es + [Leave(i)] + front), e, i);
    }
  }

  lemma LeftStays(s: State, e: Event, i: nat)
    requires i < |s.screens| && s.screens[i].left
    ensures i < |Step(s, e).screens| && Step(s, e).screens[i].left
  {
  }

  /** A screen is new when it is rendered, for the wallet open then, and a build that failed never lands. */
  lemma RenderedAndFailed(s: State, b: nat)
    ensures s.pool.wallet.Some? ==>
              Step(s, Render).screens == s.screens + [Screen(s.pool.wallet.value, 0, None, false)] && Step(s, Render).pool == s.pool
    ensures Enabled(s, BuildFails(b)) ==>
              var t := Step(s, BuildFails(b));
              !Enabled(t, BuildLands(b)) && !Enabled(t, BuildFails(b)) && !Enabled(t, HoldReturns(b, true)) && t.pool == s.pool
  {
  }

  lemma GenerationGrows(s: State, e: Event, i: nat)
    requires i < |s.screens|
    ensures i < |Step(s, e).screens| && Step(s, e).screens[i].gen >= s.screens[i].gen
  {
  }

  /** So a build out when its screen is dropped is never held after, however late it returns. */
  lemma {:induction false} DroppedIsNeverHeld(s0: State, es: seq<Event>, i: nat, fs: seq<Event>, b: nat)
    requires Fresh(s0) && i < |Run(s0, es).screens| && b < |Run(s0, es).builds| && Run(s0, es).builds[b].screen == i
    ensures var t := Run(s0, es + [Drop(i)] + fs);
            i < |t.screens| && b < |t.builds| && t.builds[b].mine < t.screens[i].gen && t.builds[b].screen == i
            && (t.builds[b].psbt.Some? ==> t.screens[i].held != t.builds[b].psbt)
  {
    StaysDropped(s0, es, i, fs, b);
    var t := Run(s0, es + [Drop(i)] + fs);
    RunKeepsInv(s0, es + [Drop(i)] + fs);
    OthersNotHeld(t, i, b);
  }

  lemma OthersNotHeld(t: State, i: nat, b: nat)
    requires IdInv(t.pool.counter, t.builds) && HeldInv(t.screens, t.builds)
    requires i < |t.screens| && b < |t.builds| && t.builds[b].mine != t.screens[i].gen
    ensures t.builds[b].psbt.Some? ==> t.screens[i].held != t.builds[b].psbt
  {
    if t.screens[i].held.Some? {
      var c :| 0 <= c < |t.builds| && HolderIs(t.screens, t.builds, i, c);
    }
  }

  lemma OriginsStay(s: State, e: Event, b: nat)
    requires b < |s.builds|
    ensures b < |Step(s, e).builds| && Step(s, e).builds[b].screen == s.builds[b].screen && Step(s, e).builds[b].mine == s.builds[b].mine
  {
  }

  lemma {:induction false} StaysDropped(s0: State, es: seq<Event>, i: nat, fs: seq<Event>, b: nat)
    requires Fresh(s0) && i < |Run(s0, es).screens| && b < |Run(s0, es).builds| && Run(s0, es).builds[b].screen == i
    ensures var t := Run(s0, es + [Drop(i)] + fs);
            i < |t.screens| && b < |t.builds| && t.builds[b].mine < t.screens[i].gen && t.builds[b].screen == i
  {
    var all := es + [Drop(i)] + fs;
    if fs == [] {
      assert all == es + [Drop(i)];
      RunSnoc(s0, es, Drop(i));
      RunKeepsInv(s0, es);
      OriginsStay(Run(s0, es), Drop(i), b);
      DropDiscards(Run(s0, es), i);
    } else {
      var front, e := fs[..|fs| - 1], fs[|fs| - 1];
      assert all == (es + [Drop(i)] + front) + [e];
      StaysDropped(s0, es, i, front, b);
      RunSnoc(s0, es + [Drop(i)] + front, e);
      OriginsStay(Run(s0, es + [Drop(i)] + front), e, b);
      GenerationGrows(Run(s0, es + [Drop(i)] + front), e, i);
    }
  }

  // ---------------------------------------------------------------- the modules themselves

  /** `api.ts` as far as previews go: `pending`, `psbtCounter` and the session's wallet. */
  class Api {
    var wallet: Option<WalletId>
    var psbtCounter: nat
    var pending: map<nat, WalletId>
    var signed: seq<Signing>

    constructor ()
      ensures View() == Pool(None, 0, map[], [])
    {
      wallet, psbtCounter, pending, signed := None, 0, map[], [];
    }

    function View(): Pool
      reads this
    {
      Pool(wallet, psbtCounter, pending, signed)
    }

    /** `buildPreview` once the core has built with `builder`'s wallet. */
    method PreviewBuilt(builder: WalletId) returns (psbtId: nat)
      modifies this
      ensures psbtId == old(psbtCounter) && View() == Built(old(View()), builder)
    {
      psbtId := psbtCounter;
      psbtCounter := psbtCounter + 1;
      pending := pending[psbtId := builder];
    }

    method DiscardTx(psbtId: nat)
      modifies this
      ensures View() == Discard(old(View()), psbtId)
    {
      pending := pending - {psbtId};
    }

    /** `signAndBroadcast` up to the signing; `false` for its two refusals. */
    method SignAndBroadcast(psbtId: nat) returns (ok: bool)
      modifies this
      ensures ok <==> old(wallet.Some? && psbtId in pending)
      ensures View() == Signed(old(View()), psbtId)
    {
      if wallet.None? || psbtId !in pending {
        return false;
      }
      var builtBy := pending[psbtId];
      pending := pending - {psbtId};
      signed := signed + [Signing(psbtId, builtBy, wallet.value)];
      ok := true;
    }
  }

  /** The closure `heldPreview` returns, for a screen rendered on `wallet`. */
  class HeldPreview {
    const api: Api
    const wallet: WalletId
    var held: Option<nat>
    var gen: nat
    var left: bool

    constructor (api: Api, wallet: WalletId)
      ensures this.api == api && View() == Screen(wallet, 0, None, false)
    {
      this.api, this.wallet := api, wallet;
      held, gen, left := None, 0, false;
    }

    function View(): Screen
      reads this
    {
      Screen(wallet, gen, held, left)
    }

    method Drop()
      modifies this, api
      ensures api.View() == PoolAfterDrop(old(api.View()), old(View())) && View() == DropHeld(old(View()))
    {
      gen := gen + 1;
      if held.Some? {
        api.DiscardTx(held.value);
      }
      held := None;
    }

    /** The `hashchange` listener, which runs once. */
    method Leave()
      requires !left
      modifies this, api
      ensures api.View() == PoolAfterDrop(old(api.View()), old(View()))
      ensures View() == DropHeld(old(View())).(left := true)
    {
      Drop();
      left := true;
    }

    /** `hold` up to its await. */
    method HoldStarts() returns (mine: nat)
      modifies this, api
      ensures api.View() == PoolAfterDrop(old(api.View()), old(View())) && View() == DropHeld(old(View()))
      ensures mine == gen
    {
      Drop();
      mine := gen;
    }

    /** `hold` once its build has answered with `psbtId`. */
    method HoldReturns(mine: nat, psbtId: nat, counts: bool) returns (shown: bool)
      modifies this, api
      ensures shown <==> Current(old(api.View()), old(View()), mine, counts)
      ensures shown ==> View() == old(View()).(held := Some(psbtId)) && api.View() == old(api.View())
      ensures !shown ==> View() == old(View()) && api.View() == Discard(old(api.View()), psbtId)
    {
      var onScreen := !left && api.wallet == Some(wallet);
      if !(mine == gen && counts && onScreen) {
        api.DiscardTx(psbtId);
        return false;
      }
      held := Some(psbtId);
      shown := true;
    }

    /** `send` up to the signing: `again` runs at once when nothing is held, and after a failure. */
    method Send() returns (ok: bool)
      modifies this, api
      ensures View() == old(View()).(held := None)
      ensures api.View() == if old(held).Some? then Signed(old(api.View()), old(held).value) else old(api.View())
      ensures ok <==> old(held.Some? && api.wallet.Some? && held.value in api.pending)
    {
      var preview := held;
      held := None;
      if preview.None? {
        return false;
      }
      ok := api.SignAndBroadcast(preview.value);
    }
  }
}
