/**
 The rate for a confirmation target, twice: the range lookup over an ordered map
 (crates/wallet-core/src/backend/mod.rs) and the sort and scan over an object's entries
 (packages/wallet-ui/src/types.ts).
 */
module FeeTargets {
  import opened Wrappers

  /** Targets are 16-bit in the core. */
  const TARGETS: nat := 0x1_0000

  type Entry = (nat, real)

  // ---------------------------------------------------------------- the core

  /** `range(..t).next_back()`. */
  function LastBefore(m: map<nat, real>, t: nat): Option<real> {
    if t == 0 then None
    else if t - 1 in m then Some(m[t - 1])
    else LastBefore(m, t - 1)
  }

  /** `range(t..).next()`. */
  function FirstFrom(m: map<nat, real>, t: nat): Option<real>
    decreases TARGETS - t
  {
    if t >= TARGETS then None
    else if t in m then Some(m[t])
    else FirstFrom(m, t + 1)
  }

  function ForTarget(m: map<nat, real>, t: nat): Option<real> {
    if t in m then Some(m[t])
    else if LastBefore(m, t).Some? then LastBefore(m, t)
    else FirstFrom(m, t)
  }

  // ---------------------------------------------------------------- the screens

  function Insert(e: Entry, sorted: seq<Entry>): seq<Entry> {
    if sorted == [] || e.0 < sorted[0].0 then [e] + sorted else [sorted[0]] + Insert(e, sorted[1..])
  }

  function Sort(entries: seq<Entry>): seq<Entry> {
    if entries == [] then [] else Insert(entries[0], Sort(entries[1..]))
  }

  /** `entries.find(([k]) => k === t)`. */
  function FindExact(entries: seq<Entry>, t: nat): Option<real> {
    if entries == [] then None
    else if entries[0].0 == t then Some(entries[0].1)
    else FindExact(entries[1..], t)
  }

  /** `entries.filter(([k]) => k < t).at(-1)`. */
  function LastFaster(entries: seq<Entry>, t: nat): Option<real> {
    if entries == [] then None
    else
      var rest := LastFaster(entries[1..], t);
      if rest.Some? then rest else if entries[0].0 < t then Some(entries[0].1) else None
  }

  /** `entries.find(([k]) => k > t)`. */
  function FirstSlower(entries: seq<Entry>, t: nat): Option<real> {
    if entries == [] then None
    else if entries[0].0 > t then Some(entries[0].1)
    else FirstSlower(entries[1..], t)
  }

  function RateForTarget(entries: seq<Entry>, t: nat): Option<real> {
    var sorted := Sort(entries);
    if FindExact(sorted, t).Some? then FindExact(sorted, t)
    else if LastFaster(sorted, t).Some? then LastFaster(sorted, t)
    else FirstSlower(sorted, t)
  }

  // ---------------------------------------------------------------- they agree

  predicate Ascending(entries: seq<Entry>) {
    forall i, j :: 0 <= i < j < |entries| ==> entries[i].0 < entries[j].0
  }

  /** `entries` lists the map, each target once, in any order. */
  predicate Lists(entries: seq<Entry>, m: map<nat, real>) {
    && (forall i :: 0 <= i < |entries| ==> entries[i].0 in m && m[entries[i].0] == entries[i].1)
    && (forall k :: k in m ==> exists i :: 0 <= i < |entries| && entries[i].0 == k)
    && (forall i, j :: 0 <= i < j < |entries| ==> entries[i].0 != entries[j].0)
  }

  lemma {:induction false} InsertKeeps(e: Entry, sorted: seq<Entry>)
    requires Ascending(sorted) && forall x :: x in sorted ==> x.0 != e.0
    ensures Ascending(Insert(e, sorted))
    ensures forall x :: x in Insert(e, sorted) <==> x == e || x in sorted
  {
    if sorted != [] && e.0 > sorted[0].0 {
      var rest := Insert(e, sorted[1..]);
      InsertKeeps(e, sorted[1..]);
      forall i | 0 <= i < |rest|
        ensures sorted[0].0 < rest[i].0
      {
        assert rest[i] in rest;
        if rest[i] != e {
          var j :| 0 < j < |sorted| && sorted[j] == rest[i];
        }
      }
    }
  }

  lemma {:induction false} SortSorts(entries: seq<Entry>)
    requires forall i, j :: 0 <= i < j < |entries| ==> entries[i].0 != entries[j].0
    ensures Ascending(Sort(entries))
    ensures forall x :: x in Sort(entries) <==> x in entries
  {
    if entries != [] {
      SortSorts(entries[1..]);
      InsertKeeps(entries[0], Sort(entries[1..]));
    }
  }

  /** An ascending listing of the map restricted to targets from `lo` on. */
  predicate ListsFrom(entries: seq<Entry>, m: map<nat, real>, lo: nat) {
    && Ascending(entries)
    && (forall i :: 0 <= i < |entries| ==> lo <= entries[i].0 && entries[i].0 in m && m[entries[i].0] == entries[i].1)
    && (forall k :: k in m && lo <= k ==> exists i :: 0 <= i < |entries| && entries[i].0 == k)
  }

  lemma ListsFromTail(entries: seq<Entry>, m: map<nat, real>, lo: nat)
    requires ListsFrom(entries, m, lo) && entries != []
    ensures ListsFrom(entries[1..], m, entries[0].0 + 1)
    ensures forall k :: lo <= k < entries[0].0 ==> k !in m
  {
  }

  lemma {:induction false} ExactAgrees(entries: seq<Entry>, m: map<nat, real>, lo: nat, t: nat)
    requires ListsFrom(entries, m, lo)
    ensures FindExact(entries, t) == if lo <= t && t in m then Some(m[t]) else None
  {
    if entries != [] {
      ListsFromTail(entries, m, lo);
      ExactAgrees(entries[1..], m, entries[0].0 + 1, t);
    }
  }

  lemma {:induction false} NoneFaster(entries: seq<Entry>, t: nat)
    requires forall i :: 0 <= i < |entries| ==> entries[i].0 >= t
    ensures LastFaster(entries, t).None?
  {
    if entries != [] {
      NoneFaster(entries[1..], t);
    }
  }

  lemma {:induction false} FasterNext(entries: seq<Entry>, t: nat)
    requires Ascending(entries)
    ensures LastFaster(entries, t + 1) == if FindExact(entries, t).Some? then FindExact(entries, t) else LastFaster(entries, t)
  {
    if entries != [] {
      if entries[0].0 == t {
        NoneFaster(entries[1..], t + 1);
      } else {
        FasterNext(entries[1..], t);
      }
    }
  }

  lemma {:induction false} FasterAgrees(entries: seq<Entry>, m: map<nat, real>, t: nat)
    requires Ascending(entries)
    requires forall k :: FindExact(entries, k) == if k in m then Some(m[k]) else None
    ensures LastFaster(entries, t) == LastBefore(m, t)
  {
    if t == 0 {
      NoneFaster(entries, 0);
    } else {
      FasterAgrees(entries, m, t - 1);
      FasterNext(entries, t - 1);
    }
  }

  lemma {:induction false} SkipAhead(m: map<nat, real>, lo: nat, t: nat)
    requires lo <= t && forall k :: lo <= k < t ==> k !in m
    requires forall k :: k in m ==> k < TARGETS
    ensures FirstFrom(m, lo) == FirstFrom(m, t)
    decreases t - lo
  {
    if lo < t {
      SkipAhead(m, lo + 1, t);
    }
  }

  lemma {:induction false} SlowerAgrees(entries: seq<Entry>, m: map<nat, real>, lo: nat, t: nat)
    requires ListsFrom(entries, m, lo) && t !in m
    requires forall k :: k in m ==> k < TARGETS
    ensures FirstFrom(m, if lo <= t then t else lo) == FirstSlower(entries, t)
  {
    var from := if lo <= t then t else lo;
    if entries == [] {
      SkipAhead(m, from, if from <= TARGETS then TARGETS else from);
    } else {
      ListsFromTail(entries, m, lo);
      if entries[0].0 > t {
        SkipAhead(m, from, entries[0].0);
      } else {
        SlowerAgrees(entries[1..], m, entries[0].0 + 1, t);
      }
    }
  }

  /** Whatever order the entries come in, the screens read the same rate as the core. */
  lemma TargetsAgree(entries: seq<Entry>, m: map<nat, real>, t: nat)
    requires Lists(entries, m) && forall k :: k in m ==> k < TARGETS
    ensures RateForTarget(entries, t) == ForTarget(m, t)
  {
    var sorted := Sort(entries);
    SortSorts(entries);
    forall i | 0 <= i < |sorted|
      ensures sorted[i].0 in m && m[sorted[i].0] == sorted[i].1
    {
      assert sorted[i] in entries;
    }
    forall k | k in m
      ensures exists i :: 0 <= i < |sorted| && sorted[i].0 == k
    {
      var i :| 0 <= i < |entries| && entries[i].0 == k;
      assert entries[i] in sorted;
    }
    forall k
      ensures FindExact(sorted, k) == if k in m then Some(m[k]) else None
    {
      ExactAgrees(sorted, m, 0, k);
    }
    FasterAgrees(sorted, m, t);
    if t !in m {
      SlowerAgrees(sorted, m, 0, t);
    }
  }

  ghost predicate Nearest(m: map<nat, real>, t: nat, k: nat) {
    || k == t
    || (t !in m && k < t && forall j :: k < j < t ==> j !in m)
    || (t !in m && k > t && forall j :: 0 <= j < k ==> j !in m)
  }

  /** What both mean: the exact target, else the nearest faster one, else the nearest slower one, else nothing. */
  lemma ForTargetIsNearest(m: map<nat, real>, t: nat)
    requires forall k :: k in m ==> k < TARGETS
    ensures ForTarget(m, t).None? <==> m == map[]
    ensures ForTarget(m, t).Some? ==> exists k :: k in m && ForTarget(m, t) == Some(m[k]) && Nearest(m, t, k)
  {
    NearestFaster(m, t);
    NearestSlower(m, t);
    if m != map[] {
      var k :| k in m;
    }
  }

  lemma {:induction false} NearestFaster(m: map<nat, real>, t: nat)
    ensures LastBefore(m, t).None? <==> forall j :: 0 <= j < t ==> j !in m
    ensures LastBefore(m, t).Some? ==> exists k :: k < t && k in m && LastBefore(m, t) == Some(m[k]) && forall j :: k < j < t ==> j !in m
  {
    if t > 0 && t - 1 !in m {
      NearestFaster(m, t - 1);
    }
  }

  lemma {:induction false} NearestSlower(m: map<nat, real>, t: nat)
    requires forall k :: k in m ==> k < TARGETS
    ensures FirstFrom(m, t).None? <==> forall j :: t <= j ==> j !in m
    ensures FirstFrom(m, t).Some? ==> exists k :: t <= k && k in m && FirstFrom(m, t) == Some(m[k]) && forall j :: t <= j < k ==> j !in m
    decreases TARGETS - t
  {
    if t < TARGETS && t !in m {
      NearestSlower(m, t + 1);
    }
  }
}
