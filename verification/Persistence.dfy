/**
 Saving the wallet's public state (crates/wallet-core/src/wallet.rs,
 crates/wallet-core/src/persist.rs, crates/wallet-wasm/src/lib.rs).

 The wallet stages what changes; a failed write keeps the stage, though the persister has
 already merged it into the aggregate it writes.  The next write merges it again.
 */
module Persistence {
  import opened Wrappers

  type OutPoint = string

  /** BDK's change set, by the ways its parts merge: the newer value, the union, the larger number, the smaller. */
  datatype ChangeSet = ChangeSet(
    descriptor: Option<string>,
    network: Option<string>,
    blocks: map<nat, Option<string>>,
    txs: set<string>,
    txouts: map<OutPoint, nat>,
    anchors: set<(string, nat)>,
    firstSeen: map<string, nat>,
    lastSeen: map<string, nat>,
    lastRevealed: map<string, nat>,
    locked: map<OutPoint, bool>)

  const EMPTY: ChangeSet := ChangeSet(None, None, map[], {}, map[], {}, map[], map[], map[], map[])

  function Newer<T>(a: Option<T>, b: Option<T>): Option<T> {
    if b.Some? then b else a
  }

  function Larger(m: map<string, nat>, n: map<string, nat>): map<string, nat> {
    map k | k in m.Keys + n.Keys :: if k !in n then m[k] else if k !in m || m[k] < n[k] then n[k] else m[k]
  }

  function Smaller(m: map<string, nat>, n: map<string, nat>): map<string, nat> {
    map k | k in m.Keys + n.Keys :: if k !in n then m[k] else if k !in m || n[k] < m[k] then n[k] else m[k]
  }

  function Merge(a: ChangeSet, b: ChangeSet): ChangeSet {
    ChangeSet(Newer(a.descriptor, b.descriptor), Newer(a.network, b.network), a.blocks + b.blocks, a.txs + b.txs,
              a.txouts + b.txouts, a.anchors + b.anchors, Smaller(a.firstSeen, b.firstSeen), Larger(a.lastSeen, b.lastSeen),
              Larger(a.lastRevealed, b.lastRevealed), a.locked + b.locked)
  }

  lemma LargerLaws(m: map<string, nat>, n: map<string, nat>, o: map<string, nat>)
    ensures Larger(Larger(m, n), o) == Larger(m, Larger(n, o))
    ensures Larger(m, m) == m
  {
  }

  lemma SmallerLaws(m: map<string, nat>, n: map<string, nat>, o: map<string, nat>)
    ensures Smaller(Smaller(m, n), o) == Smaller(m, Smaller(n, o))
    ensures Smaller(m, m) == m
  {
  }

  lemma MapLaws<K, V>(m: map<K, V>, n: map<K, V>, o: map<K, V>)
    ensures (m + n) + o == m + (n + o)
    ensures m + m == m
  {
  }

  lemma {:induction false} MergeAssociates(a: ChangeSet, b: ChangeSet, c: ChangeSet)
    ensures Merge(Merge(a, b), c) == Merge(a, Merge(b, c))
  {
    SmallerLaws(a.firstSeen, b.firstSeen, c.firstSeen);
    LargerLaws(a.lastSeen, b.lastSeen, c.lastSeen);
    LargerLaws(a.lastRevealed, b.lastRevealed, c.lastRevealed);
    MapLaws(a.blocks, b.blocks, c.blocks);
    MapLaws(a.txouts, b.txouts, c.txouts);
    MapLaws(a.locked, b.locked, c.locked);
    assert (a.txs + b.txs) + c.txs == a.txs + (b.txs + c.txs);
    assert (a.anchors + b.anchors) + c.anchors == a.anchors + (b.anchors + c.anchors);
  }

  /** Merging a delta twice is merging it once, even after something else was merged under it. */
  lemma MergeTwice(a: ChangeSet, d: ChangeSet)
    ensures Merge(Merge(a, d), d) == Merge(a, d)
  {
    MergeAssociates(a, d, d);
    MergeItself(d);
  }

  lemma MergeItself(d: ChangeSet)
    ensures Merge(d, d) == d
  {
    SmallerLaws(d.firstSeen, map[], map[]);
    LargerLaws(d.lastSeen, map[], map[]);
    LargerLaws(d.lastRevealed, map[], map[]);
    assert d.blocks + d.blocks == d.blocks;
    assert d.txouts + d.txouts == d.txouts;
    assert d.locked + d.locked == d.locked;
    assert d.txs + d.txs == d.txs && d.anchors + d.anchors == d.anchors;
  }

  // ---------------------------------------------------------------- what a merge says

  function Lookup<K, V>(m: map<K, V>, k: K): Option<V> {
    if k in m then Some(m[k]) else None
  }

  /** One number of two, where both are there. */
  predicate OneOf(n: Option<nat>, a: Option<nat>, b: Option<nat>) {
    (n.Some? <==> a.Some? || b.Some?) && (n.Some? ==> n == a || n == b)
  }

  predicate AtLeast(n: Option<nat>, a: Option<nat>) {
    a.Some? ==> n.Some? && n.value >= a.value
  }

  predicate AtMost(n: Option<nat>, a: Option<nat>) {
    a.Some? ==> n.Some? && n.value <= a.value
  }

  /** The later change set has the last word on a block, an output, a lock, and a descriptor or network it names. */
  lemma LaterWins(a: ChangeSet, b: ChangeSet, height: nat, op: OutPoint)
    ensures var t := Merge(a, b);
            && Lookup(t.blocks, height) == (if height in b.blocks then Some(b.blocks[height]) else Lookup(a.blocks, height))
            && Lookup(t.txouts, op) == (if op in b.txouts then Some(b.txouts[op]) else Lookup(a.txouts, op))
            && Lookup(t.locked, op) == (if op in b.locked then Some(b.locked[op]) else Lookup(a.locked, op))
            && t.descriptor == (if b.descriptor.Some? then b.descriptor else a.descriptor)
            && t.network == (if b.network.Some? then b.network else a.network)
  {
  }

  /** Transactions and anchors add up; a last sight and an index revealed are the greater, a first sight the smaller. */
  lemma NothingIsLost(a: ChangeSet, b: ChangeSet, txid: string, anchor: (string, nat))
    ensures var t := Merge(a, b);
            && (txid in t.txs <==> txid in a.txs || txid in b.txs)
            && (anchor in t.anchors <==> anchor in a.anchors || anchor in b.anchors)
    ensures var (n, m, o) := (Lookup(Merge(a, b).lastSeen, txid), Lookup(a.lastSeen, txid), Lookup(b.lastSeen, txid));
            OneOf(n, m, o) && AtLeast(n, m) && AtLeast(n, o)
    ensures var (n, m, o) := (Lookup(Merge(a, b).lastRevealed, txid), Lookup(a.lastRevealed, txid), Lookup(b.lastRevealed, txid));
            OneOf(n, m, o) && AtLeast(n, m) && AtLeast(n, o)
    ensures var (n, m, o) := (Lookup(Merge(a, b).firstSeen, txid), Lookup(a.firstSeen, txid), Lookup(b.firstSeen, txid));
            OneOf(n, m, o) && AtMost(n, m) && AtMost(n, o)
  {
    GreaterStays(a.lastSeen, b.lastSeen, txid);
    GreaterStays(a.lastRevealed, b.lastRevealed, txid);
    SmallerStays(a.firstSeen, b.firstSeen, txid);
  }

  lemma GreaterStays(m: map<string, nat>, n: map<string, nat>, k: string)
    ensures var t := Lookup(Larger(m, n), k);
            OneOf(t, Lookup(m, k), Lookup(n, k)) && AtLeast(t, Lookup(m, k)) && AtLeast(t, Lookup(n, k))
  {
  }

  lemma SmallerStays(m: map<string, nat>, n: map<string, nat>, k: string)
    ensures var t := Lookup(Smaller(m, n), k);
            OneOf(t, Lookup(m, k), Lookup(n, k)) && AtMost(t, Lookup(m, k)) && AtMost(t, Lookup(n, k))
  {
  }

  lemma LargerEmpty(m: map<string, nat>)
    ensures Larger(m, map[]) == m
    ensures Larger(map[], m) == m
  {
  }

  lemma SmallerEmpty(m: map<string, nat>)
    ensures Smaller(m, map[]) == m
    ensures Smaller(map[], m) == m
  {
  }

  lemma MapEmpty<K, V>(m: map<K, V>)
    ensures m + map[] == m && map[] + m == m
  {
  }

  lemma {:induction false} MergeEmpty(a: ChangeSet)
    ensures Merge(a, EMPTY) == a && Merge(EMPTY, a) == a
  {
    SmallerEmpty(a.firstSeen);
    LargerEmpty(a.lastSeen);
    LargerEmpty(a.lastRevealed);
    MapEmpty(a.blocks);
    MapEmpty(a.txouts);
    MapEmpty(a.locked);
  }

  lemma NothingMerged<K, V>(m: map<K, V>, n: map<K, V>)
    ensures m + n == map[] <==> m == map[] && n == map[]
  {
    assert (m + n).Keys == m.Keys + n.Keys;
    if m + n == map[] {
      assert m.Keys <= {} && n.Keys <= {};
    }
  }

  lemma NothingCompared(m: map<string, nat>, n: map<string, nat>)
    ensures Larger(m, n) == map[] <==> m == map[] && n == map[]
    ensures Smaller(m, n) == map[] <==> m == map[] && n == map[]
  {
    assert Larger(m, n).Keys == m.Keys + n.Keys && Smaller(m, n).Keys == m.Keys + n.Keys;
    if m.Keys + n.Keys == {} {
      assert m.Keys <= {} && n.Keys <= {};
    }
  }

  lemma NothingJoined<T>(a: set<T>, b: set<T>)
    ensures a + b == {} <==> a == {} && b == {}
  {
    assert a <= a + b && b <= a + b;
  }

  lemma {:induction false} MergeIsEmpty(a: ChangeSet, b: ChangeSet)
    ensures Merge(a, b) == EMPTY <==> a == EMPTY && b == EMPTY
  {
    NothingMerged(a.blocks, b.blocks);
    NothingMerged(a.txouts, b.txouts);
    NothingMerged(a.locked, b.locked);
    NothingCompared(a.firstSeen, b.firstSeen);
    NothingCompared(a.lastSeen, b.lastSeen);
    NothingCompared(a.lastRevealed, b.lastRevealed);
    NothingJoined(a.txs, b.txs);
    NothingJoined(a.anchors, b.anchors);
  }

  // ---------------------------------------------------------------- the record

  datatype Json =
    | Null
    | Boolean(b: bool)
    | Unsigned(n: nat)
    | OtherNumber(text: string)
    | Text(s: string)
    | Array(items: seq<Json>)
    | Object(fields: map<string, Json>)

  /** What the store holds: nothing, blank text, text that is no JSON, or JSON. */
  datatype Record = Absent | Blank | Unparsable | Parsed(json: Json)

  datatype StateError = Malformed | FutureVersion(found: nat, supported: nat)

  const STATE_FORMAT: nat := 1

  /** How serde writes a change set and reads one back. */
  datatype Codec = Codec(enc: ChangeSet -> Json, dec: Json -> Option<ChangeSet>)

  ghost predicate Lawful(c: Codec) {
    forall cs :: c.dec(c.enc(cs)) == Some(cs)
  }

  function ToJson(c: Codec, cs: ChangeSet): Record {
    Parsed(Object(map["v" := Unsigned(STATE_FORMAT), "changeset" := c.enc(cs)]))
  }

  function Decoded(c: Codec, json: Json): Result<ChangeSet, StateError> {
    var cs := c.dec(json);
    if cs.Some? then Ok(cs.value) else Err(Malformed)
  }

  predicate Has(json: Json, key: string) {
    json.Object? && key in json.fields
  }

  function FromJson(c: Codec, r: Record): Result<ChangeSet, StateError> {
    match r
    case Absent | Blank => Ok(EMPTY)
    case Unparsable => Err(Malformed)
    case Parsed(json) =>
      if !Has(json, "v") then Decoded(c, json)
      else if !json.fields["v"].Unsigned? then Err(Malformed)
      else if json.fields["v"].n > STATE_FORMAT then Err(FutureVersion(json.fields["v"].n, STATE_FORMAT))
      else if !Has(json, "changeset") then Err(Malformed)
      else Decoded(c, json.fields["changeset"])
  }

  /** A saved record reads back as what was saved, and so does one from before the envelope. */
  lemma RecordsReadBack(c: Codec, cs: ChangeSet)
    requires Lawful(c)
    ensures FromJson(c, ToJson(c, cs)) == Ok(cs)
    ensures !Has(c.enc(cs), "v") ==> FromJson(c, Parsed(c.enc(cs))) == Ok(cs)
  {
  }

  /** Exactly a record of a later format is refused as such, and never read as anything else. */
  lemma FutureIsRefused(c: Codec, r: Record, found: nat)
    ensures FromJson(c, r) == Err(FutureVersion(found, STATE_FORMAT)) <==>
            r.Parsed? && Has(r.json, "v") && r.json.fields["v"] == Unsigned(found) && found > STATE_FORMAT
  {
  }

  /** What reads, and as what: nothing as an empty wallet, an envelope of this format or an older bare record as its change set. */
  lemma ReadsExactly(c: Codec, r: Record, cs: ChangeSet)
    ensures FromJson(c, r) == Ok(cs) <==>
            match r
            case Absent => cs == EMPTY
            case Blank => cs == EMPTY
            case Unparsable => false
            case Parsed(json) =>
              if Has(json, "v") then
                && json.fields["v"].Unsigned? && json.fields["v"].n <= 1
                && Has(json, "changeset") && c.dec(json.fields["changeset"]) == Some(cs)
              else c.dec(json) == Some(cs)
  {
  }

  // ---------------------------------------------------------------- runs

  /** How one write ends: acknowledged, or refused with the store untouched, or refused though it landed. */
  datatype Write = Stored | Refused | Unacknowledged

  /**
   `memory` is the open wallet's state, `stage` what it has not saved, `full` the persister's
   aggregate, `store` the record; `saved` logs what `memory` was when the store was last written.
   */
  datatype State = State(memory: ChangeSet, stage: ChangeSet, full: ChangeSet, store: Record, saved: ChangeSet)

  datatype Event = Mutate(delta: ChangeSet) | Persist(write: Write) | Reopen

  function PersistStep(c: Codec, s: State, write: Write): State {
    if s.stage == EMPTY then s else
    var full := Merge(s.full, s.stage);
    var t := s.(full := full);
    match write
    case Stored => t.(stage := EMPTY, store := ToJson(c, full), saved := s.memory)
    case Refused => t
    case Unacknowledged => t.(store := ToJson(c, full), saved := s.memory)
  }

  function Step(c: Codec, s: State, e: Event): State {
    match e
    case Mutate(delta) => s.(memory := Merge(s.memory, delta), stage := Merge(s.stage, delta))
    case Persist(write) => PersistStep(c, s, write)
    case Reopen =>
      var read := FromJson(c, s.store);
      if read.Err? then s else s.(memory := read.value, stage := EMPTY, full := read.value)
  }

  function Run(c: Codec, s: State, es: seq<Event>): State {
    if es == [] then s else Step(c, Run(c, s, es[..|es| - 1]), es[|es| - 1])
  }

  /** A wallet just opened on a readable record. */
  predicate Opened(c: Codec, s: State) {
    FromJson(c, s.store) == Ok(s.memory) && s.full == s.memory && s.saved == s.memory && s.stage == EMPTY
  }

  predicate Inv(c: Codec, s: State) {
    && Merge(s.full, s.stage) == s.memory
    && FromJson(c, s.store) == Ok(s.saved)
    && (s.stage == EMPTY ==> s.saved == s.memory)
  }

  lemma {:induction false} StepKeepsInv(c: Codec, s: State, e: Event)
    requires Lawful(c) && Inv(c, s)
    ensures Inv(c, Step(c, s, e))
  {
    MergeEmpty(s.full);
    match e
    case Mutate(delta) =>
      MergeAssociates(s.full, s.stage, delta);
      MergeIsEmpty(s.stage, delta);
      MergeEmpty(s.memory);
    case Persist(write) =>
      MergeTwice(s.full, s.stage);
      MergeEmpty(s.memory);
      RecordsReadBack(c, s.memory);
    case Reopen =>
      MergeEmpty(s.saved);
  }

  /** Whatever was refused meanwhile, the aggregate with the stage is the wallet in memory. */
  lemma {:induction false} RunKeepsInv(c: Codec, s0: State, es: seq<Event>)
    requires Lawful(c) && Opened(c, s0)
    ensures Inv(c, Run(c, s0, es))
  {
    if es == [] {
      MergeEmpty(s0.full);
    } else {
      RunKeepsInv(c, s0, es[..|es| - 1]);
      StepKeepsInv(c, Run(c, s0, es[..|es| - 1]), es[|es| - 1]);
    }
  }

  /** After a save that succeeds the store decodes to exactly the wallet in memory, with nothing left to save. */
  lemma SavedExactly(c: Codec, s0: State, es: seq<Event>)
    requires Lawful(c) && Opened(c, s0)
    ensures var t := Step(c, Run(c, s0, es), Persist(Stored));
            FromJson(c, t.store) == Ok(Run(c, s0, es).memory) && t.memory == Run(c, s0, es).memory && t.full == t.memory
            && t.stage == EMPTY
  {
    var s := Run(c, s0, es);
    RunKeepsInv(c, s0, es);
    StepKeepsInv(c, s, Persist(Stored));
    MergeEmpty(s.full);
  }

  /** Opening again gives the wallet as it was when the store was last written, never anything in between. */
  lemma ReopenRestores(c: Codec, s0: State, es: seq<Event>)
    requires Lawful(c) && Opened(c, s0)
    ensures var t := Step(c, Run(c, s0, es), Reopen);
            t.memory == Run(c, s0, es).saved && Opened(c, t)
  {
    RunKeepsInv(c, s0, es);
  }

  /** So a crash can lose the stage, but nothing else. */
  lemma {:induction false} LostIsStaged(c: Codec, s0: State, es: seq<Event>)
    requires Lawful(c) && Opened(c, s0)
    ensures var s := Run(c, s0, es); s.memory == Merge(s.saved, s.stage)
  {
    var s := Run(c, s0, es);
    if es == [] {
      MergeEmpty(s0.memory);
    } else {
      var r, e := Run(c, s0, es[..|es| - 1]), es[|es| - 1];
      LostIsStaged(c, s0, es[..|es| - 1]);
      RunKeepsInv(c, s0, es[..|es| - 1]);
      RunKeepsInv(c, s0, es);
      MergeEmpty(s.saved);
      match e
      case Mutate(delta) => MergeAssociates(r.saved, r.stage, delta);
      case Persist(write) => MergeTwice(r.saved, r.stage);
      case Reopen =>
    }
  }

  /** And a save that succeeds loses nothing: opened again, the wallet is as it was. */
  lemma SavedAndReopened(c: Codec, s0: State, es: seq<Event>)
    requires Lawful(c) && Opened(c, s0)
    ensures Step(c, Step(c, Run(c, s0, es), Persist(Stored)), Reopen).memory == Run(c, s0, es).memory
  {
    SavedExactly(c, s0, es);
  }

  // ---------------------------------------------------------------- what the wallet says, by what it was told

  /** The change sets behind the wallet in memory, and those behind the last write. */
  datatype Told = Told(now: seq<ChangeSet>, kept: seq<ChangeSet>)

  /** A change is told; a write that reaches the store keeps what was; opening again is back to what was kept. */
  function ToldNext(s: State, told: Told, e: Event): Told {
    match e
    case Mutate(delta) => told.(now := told.now + [delta])
    case Persist(write) => if s.stage == EMPTY || write.Refused? then told else told.(kept := told.now)
    case Reopen => told.(now := told.kept)
  }

  function ToldBy(c: Codec, s0: State, es: seq<Event>): Told {
    if es == [] then Told([], [])
    else ToldNext(Run(c, s0, es[..|es| - 1]), ToldBy(c, s0, es[..|es| - 1]), es[|es| - 1])
  }

  function Folded(base: ChangeSet, log: seq<ChangeSet>): ChangeSet {
    if log == [] then base else Merge(Folded(base, log[..|log| - 1]), log[|log| - 1])
  }

  predicate Folds(base: ChangeSet, s: State, told: Told) {
    s.memory == Folded(base, told.now) && s.saved == Folded(base, told.kept)
  }

  lemma FoldedSnoc(base: ChangeSet, log: seq<ChangeSet>, delta: ChangeSet)
    ensures Folded(base, log + [delta]) == Merge(Folded(base, log), delta)
  {
    assert (log + [delta])[..|log|] == log;
  }

  lemma {:induction false} StepFolds(c: Codec, base: ChangeSet, s: State, told: Told, e: Event)
    requires Inv(c, s) && Folds(base, s, told)
    ensures Folds(base, Step(c, s, e), ToldNext(s, told, e))
  {
    match e
    case Mutate(delta) => FoldedSnoc(base, told.now, delta);
    case Persist(write) =>
    case Reopen =>
  }

  lemma {:induction false} MemoryIsFolded(c: Codec, s0: State, es: seq<Event>)
    requires Lawful(c) && Opened(c, s0)
    ensures Folds(s0.memory, Run(c, s0, es), ToldBy(c, s0, es))
  {
    if es != [] {
      var front := es[..|es| - 1];
      MemoryIsFolded(c, s0, front);
      RunKeepsInv(c, s0, front);
      StepFolds(c, s0.memory, Run(c, s0, front), ToldBy(c, s0, front), es[|es| - 1]);
    }
  }

  /** What the last of these change sets that says anything of the key says. */
  function Latest<K, V>(log: seq<ChangeSet>, part: ChangeSet -> map<K, V>, k: K, base: Option<V>): Option<V> {
    if log == [] then base
    else if k in part(log[|log| - 1]) then Some(part(log[|log| - 1])[k])
    else Latest(log[..|log| - 1], part, k, base)
  }

  lemma {:induction false} FoldedSaysLatest<K, V>(base: ChangeSet, log: seq<ChangeSet>, part: ChangeSet -> map<K, V>, k: K)
    requires forall a, b :: Lookup(part(Merge(a, b)), k) == if k in part(b) then Some(part(b)[k]) else Lookup(part(a), k)
    ensures Lookup(part(Folded(base, log)), k) == Latest(log, part, k, Lookup(part(base), k))
  {
    if log != [] {
      FoldedSaysLatest(base, log[..|log| - 1], part, k);
    }
  }

  /**
   In any run, saves refused, lost and repeated among them, the wallet says of a block, an
   output and a lock what it was told last, and opened again what it was told last before the
   write that reached the store.
   */
  lemma SaysWhatItWasTold(c: Codec, s0: State, es: seq<Event>, height: nat, op: OutPoint)
    requires Lawful(c) && Opened(c, s0)
    ensures var s, told := Run(c, s0, es), ToldBy(c, s0, es);
            && Lookup(s.memory.blocks, height) == Latest(told.now, Blocks, height, Lookup(s0.memory.blocks, height))
            && Lookup(s.memory.txouts, op) == Latest(told.now, TxOuts, op, Lookup(s0.memory.txouts, op))
            && Lookup(s.memory.locked, op) == Latest(told.now, Locked, op, Lookup(s0.memory.locked, op))
            && Lookup(Step(c, s, Reopen).memory.locked, op) == Latest(told.kept, Locked, op, Lookup(s0.memory.locked, op))
  {
    var told := ToldBy(c, s0, es);
    MemoryIsFolded(c, s0, es);
    ReopenRestores(c, s0, es);
    forall a, b {
      LaterWins(a, b, height, op);
    }
    FoldedSaysLatest(s0.memory, told.now, Blocks, height);
    FoldedSaysLatest(s0.memory, told.now, TxOuts, op);
    FoldedSaysLatest(s0.memory, told.now, Locked, op);
    FoldedSaysLatest(s0.memory, told.kept, Locked, op);
  }

  function Blocks(cs: ChangeSet): map<nat, Option<string>> {
    cs.blocks
  }

  function TxOuts(cs: ChangeSet): map<OutPoint, nat> {
    cs.txouts
  }

  function Locked(cs: ChangeSet): map<OutPoint, bool> {
    cs.locked
  }

  // ---------------------------------------------------------------- the code itself

  /** The store behind the JS object: one record. */
  class JsPersister {
    const codec: Codec
    var target: Record
    var full: ChangeSet

    constructor (codec: Codec, target: Record)
      ensures this.codec == codec && this.target == target && full == EMPTY
    {
      this.codec, this.target, full := codec, target, EMPTY;
    }

    method Initialize() returns (read: Result<ChangeSet, StateError>)
      modifies this`full
      ensures read == FromJson(codec, target)
      ensures full == if read.Ok? then read.value else old(full)
    {
      read := FromJson(codec, target);
      if read.Ok? {
        full := read.value;
      }
    }

    /** The delta joins the aggregate before the write is tried. */
    method Persist(delta: ChangeSet, write: Write) returns (ok: bool)
      modifies this
      ensures full == Merge(old(full), delta)
      ensures ok <==> write.Stored?
      ensures target == if write.Refused? then old(target) else ToJson(codec, full)
    {
      full := Merge(full, delta);
      var json := ToJson(codec, full);
      if write.Refused? {
        return false;
      }
      target := json;
      ok := write.Stored?;
    }
  }

  /** The open wallet: BDK's state, its stage, and the persister. */
  class Inner {
    const persister: JsPersister
    var memory: ChangeSet
    var stage: ChangeSet
    ghost var saved: ChangeSet

    ghost function Snapshot(): State
      reads this, persister
    {
      State(memory, stage, persister.full, persister.target, saved)
    }

    /** `open_with`, on a record that can be read. */
    constructor (persister: JsPersister, stored: ChangeSet)
      requires FromJson(persister.codec, persister.target) == Ok(stored) && persister.full == stored
      ensures this.persister == persister && Opened(persister.codec, Snapshot()) && memory == stored
    {
      this.persister := persister;
      memory, stage, saved := stored, EMPTY, stored;
    }

    method Apply(delta: ChangeSet)
      modifies this
      ensures Snapshot() == Step(persister.codec, old(Snapshot()), Mutate(delta))
    {
      memory := Merge(memory, delta);
      stage := Merge(stage, delta);
    }

    method Save(write: Write) returns (ok: bool)
      modifies this, persister
      ensures ok <==> old(stage) == EMPTY || write.Stored?
      ensures Snapshot() == Step(persister.codec, old(Snapshot()), Event.Persist(write))
    {
      ok := true;
      if stage != EMPTY {
        ok := persister.Persist(stage, write);
        if !write.Refused? {
          saved := memory;
        }
        if ok {
          stage := EMPTY;
        }
      }
    }
  }
}
