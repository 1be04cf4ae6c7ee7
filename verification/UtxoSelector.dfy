/**
 Choosing coins for an amount (reference/go/utils/utxoselector.go): the single largest when it
 is enough, else the largest and then, from the smallest up, whatever still fits, and only an
 exact hit succeeds.
 */
module UtxoSelector {

  function Total<T>(items: seq<T>, amount: T -> int): int {
    if items == [] then 0 else Total(items[..|items| - 1], amount) + amount(items[|items| - 1])
  }

  function Amounts<T>(items: seq<T>, amount: T -> int): (xs: seq<int>)
    ensures |xs| == |items| && forall i :: 0 <= i < |items| ==> xs[i] == amount(items[i])
  {
    seq(|items|, i requires 0 <= i < |items| => amount(items[i]))
  }

  predicate AscendingBy<T(!new)>(items: seq<T>, amount: T -> int) {
    forall i, j :: 0 <= i < j < |items| ==> amount(items[i]) <= amount(items[j])
  }

  // ---------------------------------------------------------------- the library's sort

  function Insert<T>(x: T, items: seq<T>, amount: T -> int): seq<T> {
    if items == [] || amount(x) <= amount(items[0]) then [x] + items else [items[0]] + Insert(x, items[1..], amount)
  }

  function SortBy<T>(items: seq<T>, amount: T -> int): seq<T> {
    if items == [] then [] else Insert(items[0], SortBy(items[1..], amount), amount)
  }

  lemma {:induction false} InsertInserts<T(!new)>(x: T, items: seq<T>, amount: T -> int)
    ensures multiset(Insert(x, items, amount)) == multiset(items) + multiset{x}
    ensures forall y :: y in Insert(x, items, amount) <==> y == x || y in items
  {
    if items != [] && amount(x) > amount(items[0]) {
      InsertInserts(x, items[1..], amount);
      assert items == [items[0]] + items[1..];
    }
  }

  lemma {:induction false} InsertAscends<T(!new)>(x: T, items: seq<T>, amount: T -> int)
    requires AscendingBy(items, amount)
    ensures AscendingBy(Insert(x, items, amount), amount)
  {
    if items != [] && amount(x) > amount(items[0]) {
      var rest := Insert(x, items[1..], amount);
      InsertAscends(x, items[1..], amount);
      InsertInserts(x, items[1..], amount);
      forall i | 0 <= i < |rest|
        ensures amount(items[0]) <= amount(rest[i])
      {
        assert rest[i] in rest;
        if rest[i] != x {
          var j :| 0 < j < |items| && items[j] == rest[i];
        }
      }
    }
  }

  lemma {:induction false} SortSorts<T(!new)>(items: seq<T>, amount: T -> int)
    ensures multiset(SortBy(items, amount)) == multiset(items)
    ensures AscendingBy(SortBy(items, amount), amount)
  {
    if items != [] {
      SortSorts(items[1..], amount);
      InsertInserts(items[0], SortBy(items[1..], amount), amount);
      InsertAscends(items[0], SortBy(items[1..], amount), amount);
      assert items == [items[0]] + items[1..];
    }
  }

  function Itself(x: int): int {
    x
  }

  /** Numbers in ascending order. */
  function Sorted(xs: seq<int>): seq<int> {
    SortBy(xs, Itself)
  }

  lemma {:induction false} InsertAmounts<T>(x: T, items: seq<T>, amount: T -> int)
    ensures Amounts(Insert(x, items, amount), amount) == Insert(amount(x), Amounts(items, amount), Itself)
  {
    var xs := Amounts(items, amount);
    if items != [] && amount(x) > amount(items[0]) {
      var rest := Insert(x, items[1..], amount);
      InsertAmounts(x, items[1..], amount);
      assert xs[1..] == Amounts(items[1..], amount);
      assert Amounts([items[0]] + rest, amount) == [xs[0]] + Amounts(rest, amount);
    } else {
      assert Amounts([x] + items, amount) == [amount(x)] + xs;
    }
  }

  lemma {:induction false} SortAmounts<T>(items: seq<T>, amount: T -> int)
    ensures Amounts(SortBy(items, amount), amount) == Sorted(Amounts(items, amount))
  {
    var xs := Amounts(items, amount);
    if items != [] {
      SortAmounts(items[1..], amount);
      assert xs[1..] == Amounts(items[1..], amount);
      InsertAmounts(items[0], SortBy(items[1..], amount), amount);
    }
  }

  /** `sort.Slice` by amount: in order, whichever of equal amounts comes first. */
  method SortByAmount<T(!new)>(items: seq<T>, amount: T -> int) returns (sorted: seq<T>)
    ensures multiset(sorted) == multiset(items) && AscendingBy(sorted, amount)
    ensures Amounts(sorted, amount) == Sorted(Amounts(items, amount))
  {
    SortSorts(items, amount);
    SortAmounts(items, amount);
    sorted := SortBy(items, amount);
  }

  // ---------------------------------------------------------------- sums and partitions

  lemma {:induction false} TotalConcat<T>(a: seq<T>, b: seq<T>, amount: T -> int)
    ensures Total(a + b, amount) == Total(a, amount) + Total(b, amount)
  {
    if b == [] {
      assert a + b == a;
    } else {
      assert (a + b)[..|a + b| - 1] == a + b[..|b| - 1];
      TotalConcat(a, b[..|b| - 1], amount);
    }
  }

  /** Of the first `k` items, those whose mark is `mark`, in order. */
  function Marked<T>(items: seq<T>, marks: seq<bool>, k: nat, mark: bool): seq<T>
    requires k <= |items| == |marks|
  {
    if k == 0 then []
    else if marks[k - 1] == mark then Marked(items, marks, k - 1, mark) + [items[k - 1]]
    else Marked(items, marks, k - 1, mark)
  }

  /** `a` and `b` hold between them what `c` does. */
  ghost predicate Splits<T>(a: seq<T>, b: seq<T>, c: seq<T>) {
    multiset(a) + multiset(b) == multiset(c)
  }

  lemma SplitsSwap<T>(a: seq<T>, b: seq<T>, c: seq<T>)
    requires Splits(a, b, c)
    ensures Splits(b, a, c)
  {
  }

  lemma SplitsMore<T>(a: seq<T>, b: seq<T>, c: seq<T>, x: T)
    requires Splits(a, b, c)
    ensures Splits(a + [x], b, c + [x])
  {
  }

  lemma {:induction false} MarksPartition<T>(items: seq<T>, marks: seq<bool>, k: nat)
    requires k <= |items| == |marks|
    ensures Splits(Marked(items, marks, k, true), Marked(items, marks, k, false), items[..k])
    decreases k
  {
    if k == 0 {
      assert items[..0] == [];
    } else {
      MarksPartition(items, marks, k - 1);
      MarksPartitionStep(items, marks, k);
    }
  }

  lemma MarksPartitionStep<T>(items: seq<T>, marks: seq<bool>, k: nat)
    requires 0 < k <= |items| == |marks|
    requires Splits(Marked(items, marks, k - 1, true), Marked(items, marks, k - 1, false), items[..k - 1])
    ensures Splits(Marked(items, marks, k, true), Marked(items, marks, k, false), items[..k])
  {
    var x, yes, no, before := items[k - 1], Marked(items, marks, k - 1, true), Marked(items, marks, k - 1, false), items[..k - 1];
    assert items[..k] == before + [x];
    if marks[k - 1] {
      SplitsMore(yes, no, before, x);
    } else {
      SplitsSwap(yes, no, before);
      SplitsMore(no, yes, before, x);
      SplitsSwap(no + [x], yes, before + [x]);
    }
  }

  lemma {:induction false} NoneMarked<T>(items: seq<T>, marks: seq<bool>, k: nat, mark: bool)
    requires k <= |items| == |marks| && forall i :: 0 <= i < |marks| ==> marks[i] != mark
    ensures Marked(items, marks, k, mark) == []
  {
    if k > 0 {
      NoneMarked(items, marks, k - 1, mark);
    }
  }

  lemma {:induction false} MarkedSame<T>(items: seq<T>, marks: seq<bool>, others: seq<bool>, k: nat, mark: bool)
    requires k <= |items| == |marks| == |others| && marks[..k] == others[..k]
    ensures Marked(items, marks, k, mark) == Marked(items, others, k, mark)
    decreases k
  {
    if k > 0 {
      assert marks[..k][k - 1] == others[..k][k - 1];
      assert marks[..k - 1] == marks[..k][..k - 1] && others[..k - 1] == others[..k][..k - 1];
      MarkedSame(items, marks, others, k - 1, mark);
    }
  }

  /** Nothing marked from `k` to `end` adds nothing. */
  lemma {:induction false} MarkedToEnd<T>(items: seq<T>, marks: seq<bool>, k: nat, end: nat)
    requires k <= end <= |items| == |marks| && forall j :: k <= j < end ==> !marks[j]
    ensures Marked(items, marks, end, true) == Marked(items, marks, k, true)
    decreases end
  {
    if k < end {
      MarkedToEnd(items, marks, k, end - 1);
    }
  }

  // ---------------------------------------------------------------- when it succeeds

  /** The greedy pass from index `i`, holding `total`: whether it lands on the target. */
  predicate Hits(amounts: seq<int>, i: nat, total: int, target: int)
    decreases |amounts| - i
  {
    i + 1 < |amounts| &&
    (if total + amounts[i] > target then Hits(amounts, i + 1, total, target)
     else total + amounts[i] == target || Hits(amounts, i + 1, total + amounts[i], target))
  }

  /** One item that is enough, and not negative. */
  predicate OneIsEnough(amounts: seq<int>, target: int) {
    exists i :: 0 <= i < |amounts| && amounts[i] >= target && amounts[i] >= 0
  }

  predicate Suffices(amounts: seq<int>, target: int) {
    var asc := Sorted(amounts);
    amounts != [] && (OneIsEnough(amounts, target) || Hits(asc, 0, asc[|asc| - 1], target))
  }

  /** The amounts a pass that lands takes from index `i` on, holding `total`. */
  function Taken(amounts: seq<int>, i: nat, total: int, target: int): seq<int>
    decreases |amounts| - i
  {
    if i + 1 >= |amounts| then []
    else if total + amounts[i] > target then Taken(amounts, i + 1, total, target)
    else if total + amounts[i] == target then [amounts[i]]
    else [amounts[i]] + Taken(amounts, i + 1, total + amounts[i], target)
  }

  /** The amounts of a selection, in order: the largest, and what the pass takes unless that is enough alone. */
  function Selection(amounts: seq<int>, target: int): seq<int>
    requires amounts != []
  {
    var asc := Sorted(amounts);
    var largest := asc[|asc| - 1];
    if OneIsEnough(amounts, target) then [largest] else [largest] + Taken(asc, 0, largest, target)
  }

  /** What these numbers come to. */
  function Sum(xs: seq<int>): int {
    if xs == [] then 0 else xs[0] + Sum(xs[1..])
  }

  /** The next `k - i` numbers make up what `total` is short of the target. */
  predicate MakesUp(asc: seq<int>, i: nat, k: nat, total: int, target: int) {
    i < k < |asc| && total + Sum(asc[i..k]) == target
  }

  predicate Ascends(asc: seq<int>) {
    forall i, j :: 0 <= i < j < |asc| ==> asc[i] <= asc[j]
  }

  lemma {:induction false} NothingFits(asc: seq<int>, i: nat, total: int, target: int)
    requires Ascends(asc) && (i < |asc| ==> total + asc[i] > target)
    ensures !Hits(asc, i, total, target)
    decreases |asc| - i
  {
    if i + 1 < |asc| {
      NothingFits(asc, i + 1, total, target);
    }
  }

  lemma {:induction false} SumAtLeast(xs: seq<int>, least: int)
    requires xs != [] && 0 <= least && forall i :: 0 <= i < |xs| ==> xs[i] >= least
    ensures Sum(xs) >= least
  {
    if |xs| > 1 {
      SumAtLeast(xs[1..], least);
    }
  }

  lemma SumNext(asc: seq<int>, i: nat, k: nat)
    requires i < k <= |asc|
    ensures Sum(asc[i..k]) == asc[i] + Sum(asc[i + 1..k])
  {
    assert asc[i..k][1..] == asc[i + 1..k];
  }

  /** Over amounts in order, none negative, the pass lands exactly when some next ones in a row make up what is missing, and takes those. */
  lemma {:induction false} PassTakesNext(asc: seq<int>, i: nat, total: int, target: int)
    requires Ascends(asc) && i < |asc| && 0 <= asc[i] && total < target
    ensures Hits(asc, i, total, target) <==> exists k: nat :: MakesUp(asc, i, k, total, target)
    ensures Hits(asc, i, total, target) ==>
              exists k: nat :: MakesUp(asc, i, k, total, target) && Taken(asc, i, total, target) == asc[i..k]
    decreases |asc| - i
  {
    if i + 1 < |asc| {
      var next := total + asc[i];
      if next > target {
        NothingFits(asc, i, total, target);
        forall k: nat | i < k < |asc|
          ensures !MakesUp(asc, i, k, total, target)
        {
          SumAtLeast(asc[i..k], asc[i]);
        }
      } else if next == target {
        SumNext(asc, i, i + 1);
        assert MakesUp(asc, i, i + 1, total, target) && asc[i..i + 1] == [asc[i]];
      } else {
        PassTakesMore(asc, i, total, target);
      }
    }
  }

  lemma {:induction false} PassTakesMore(asc: seq<int>, i: nat, total: int, target: int)
    requires Ascends(asc) && i + 1 < |asc| && 0 <= asc[i] && total + asc[i] < target
    ensures Hits(asc, i, total, target) <==> exists k: nat :: MakesUp(asc, i, k, total, target)
    ensures Hits(asc, i, total, target) ==>
              exists k: nat :: MakesUp(asc, i, k, total, target) && Taken(asc, i, total, target) == asc[i..k]
    decreases |asc| - i, 0
  {
    var next := total + asc[i];
    PassTakesNext(asc, i + 1, next, target);
    if Hits(asc, i, total, target) {
      var k: nat :| MakesUp(asc, i + 1, k, next, target) && Taken(asc, i + 1, next, target) == asc[i + 1..k];
      SumNext(asc, i, k);
      assert MakesUp(asc, i, k, total, target) && asc[i..k] == [asc[i]] + asc[i + 1..k];
    }
    forall k: nat | MakesUp(asc, i, k, total, target)
      ensures MakesUp(asc, i + 1, k, next, target)
    {
      SumNext(asc, i, k);
    }
  }

  /**
   So with no amount negative a selection is made exactly when the largest is enough alone, or it
   and the `k` smallest come to the target to the unit; and it is that one or those.
   */
  lemma {:induction false} SufficesExactly(amounts: seq<int>, target: int)
    requires amounts != [] && forall i :: 0 <= i < |amounts| ==> amounts[i] >= 0
    ensures var asc := Sorted(amounts);
            var largest := asc[|asc| - 1];
            && (Suffices(amounts, target) <==> largest >= target || exists k: nat :: MakesUp(asc, 0, k, largest, target))
            && (largest >= target ==> Selection(amounts, target) == [largest])
            && (largest < target && Suffices(amounts, target) ==>
                  exists k: nat :: MakesUp(asc, 0, k, largest, target) && Selection(amounts, target) == [largest] + asc[..k])
  {
    var asc := Sorted(amounts);
    SortedIs(amounts);
    var largest := asc[|asc| - 1];
    assert OneIsEnough(amounts, target) <==> largest >= target by {
      LastIsLargest(amounts, target);
    }
    if largest < target {
      PassTakesNext(asc, 0, largest, target);
      assert forall k: nat :: k <= |asc| ==> asc[0..k] == asc[..k];
    }
  }

  lemma SortedIs(amounts: seq<int>)
    requires amounts != [] && forall i :: 0 <= i < |amounts| ==> amounts[i] >= 0
    ensures Ascends(Sorted(amounts)) && |Sorted(amounts)| == |amounts| && Sorted(amounts)[0] >= 0
  {
    var asc := Sorted(amounts);
    SortSorts(amounts, Itself);
    SameLength(asc, amounts);
    forall i, j | 0 <= i < j < |asc|
      ensures asc[i] <= asc[j]
    {
      assert Itself(asc[i]) <= Itself(asc[j]);
    }
    assert asc[0] in multiset(amounts);
  }

  lemma LastIsLargest(amounts: seq<int>, target: int)
    requires amounts != [] && forall i :: 0 <= i < |amounts| ==> amounts[i] >= 0
    ensures var asc := Sorted(amounts); asc != [] && (OneIsEnough(amounts, target) <==> asc[|asc| - 1] >= target)
  {
    var asc := Sorted(amounts);
    SortedIs(amounts);
    SortSorts(amounts, Itself);
    assert asc[|asc| - 1] in multiset(amounts);
    forall i | 0 <= i < |amounts|
      ensures amounts[i] <= asc[|asc| - 1]
    {
      assert amounts[i] in multiset(asc);
    }
  }

  // ---------------------------------------------------------------- the selection

  /** What a successful selection promises: a partition, not empty, enough, and exact when it takes several. */
  ghost predicate Sound<T>(items: seq<T>, target: int, amount: T -> int, selected: seq<T>, unselected: seq<T>) {
    && Splits(selected, unselected, items)
    && selected != []
    && Total(selected, amount) >= target
    && (|selected| > 1 ==> Total(selected, amount) == target)
  }

  /** A selection made: sound, and of just the amounts the greedy pass takes. */
  ghost predicate Selects<T>(items: seq<T>, target: int, amount: T -> int, selected: seq<T>, unselected: seq<T>) {
    && items != [] && Sound(items, target, amount, selected, unselected)
    && Amounts(selected, amount) == Selection(Amounts(items, amount), target)
  }

  /** The first item of the largest amount that is not negative. */
  method Largest<T>(items: seq<T>, amount: T -> int) returns (bestIdx: int, bestAmt: int)
    ensures bestIdx == -1 ==> bestAmt == -1 && forall i :: 0 <= i < |items| ==> amount(items[i]) < 0
    ensures bestIdx != -1 ==> 0 <= bestIdx < |items| && 0 <= bestAmt == amount(items[bestIdx])
                              && forall i :: 0 <= i < |items| ==> amount(items[i]) <= bestAmt
  {
    bestIdx, bestAmt := -1, -1;
    for i := 0 to |items|
      invariant bestIdx == -1 ==> bestAmt == -1 && forall k :: 0 <= k < i ==> amount(items[k]) < 0
      invariant bestIdx != -1 ==> 0 <= bestIdx < i && 0 <= bestAmt == amount(items[bestIdx])
                                  && forall k :: 0 <= k < i ==> amount(items[k]) <= bestAmt
    {
      var amt := amount(items[i]);
      if amt > bestAmt {
        bestAmt, bestIdx := amt, i;
      }
    }
  }

  /** Everything but item `skip`, in order. */
  method AllBut<T>(items: seq<T>, skip: nat) returns (rest: seq<T>)
    requires skip < |items|
    ensures rest == items[..skip] + items[skip + 1..]
  {
    rest := [];
    for i := 0 to |items|
      invariant rest == if i <= skip then items[..i] else items[..skip] + items[skip + 1..i]
    {
      if i != skip {
        rest := rest + [items[i]];
      }
    }
    assert items[skip + 1..|items|] == items[skip + 1..];
  }

  /** The items not chosen, in order. */
  method Unchosen<T>(asc: seq<T>, chosen: array<bool>) returns (unselected: seq<T>)
    requires chosen.Length == |asc|
    ensures unselected == Marked(asc, chosen[..], |asc|, false)
  {
    unselected := [];
    for k := 0 to |asc|
      invariant unselected == Marked(asc, chosen[..], k, false)
    {
      if !chosen[k] {
        unselected := unselected + [asc[k]];
      }
    }
  }

  /** The selection before item `i`: the largest, then what was marked since, in order; and what it comes to. */
  ghost predicate Picked<T>(asc: seq<T>, chosen: seq<bool>, selected: seq<T>, total: int, amount: T -> int, i: nat) {
    && i < |asc| == |chosen|
    && chosen[|asc| - 1] && (forall k :: i <= k < |asc| - 1 ==> !chosen[k])
    && selected == [asc[|asc| - 1]] + Marked(asc, chosen, i, true)
    && total == Total(selected, amount)
  }

  lemma PickFirst<T>(asc: seq<T>, none: seq<bool>, amount: T -> int)
    requires asc != [] && |none| == |asc| && forall k :: 0 <= k < |none| ==> !none[k]
    ensures Picked(asc, none[|asc| - 1 := true], [asc[|asc| - 1]], amount(asc[|asc| - 1]), amount, 0)
  {
    assert Total([asc[|asc| - 1]], amount) == Total([], amount) + amount(asc[|asc| - 1]);
  }

  lemma PickNext<T>(asc: seq<T>, chosen: seq<bool>, selected: seq<T>, total: int, amount: T -> int, i: nat)
    requires Picked(asc, chosen, selected, total, amount, i) && i + 1 < |asc|
    ensures Picked(asc, chosen[i := true], selected + [asc[i]], total + amount(asc[i]), amount, i + 1)
    ensures Picked(asc, chosen, selected, total, amount, i + 1)
  {
    MarkedSame(asc, chosen, chosen[i := true], i, true);
    assert (selected + [asc[i]])[..|selected|] == selected;
  }

  lemma SameItems<T>(x: T, items: seq<T>)
    ensures multiset([x] + items) == multiset(items + [x])
  {
  }

  lemma PickedSplits<T>(asc: seq<T>, chosen: seq<bool>, selected: seq<T>, total: int, amount: T -> int, i: nat)
    requires Picked(asc, chosen, selected, total, amount, i)
    ensures Splits(selected, Marked(asc, chosen, |asc|, false), asc)
  {
    MarkedToEnd(asc, chosen, i, |asc| - 1);
    MarksPartition(asc, chosen, |asc|);
    assert asc[..|asc|] == asc;
    SameItems(asc[|asc| - 1], Marked(asc, chosen, i, true));
  }

  /** How a pass lands: at some item `i`, taken besides the largest, with everything unmarked handed back. */
  ghost predicate Landed<T>(asc: seq<T>, target: int, amount: T -> int, selected: seq<T>, unselected: seq<T>) {
    exists marks: seq<bool>, i: nat :: LandedAt(asc, marks, i, target, amount, selected, unselected)
  }

  ghost predicate LandedAt<T>(asc: seq<T>, marks: seq<bool>, i: nat, target: int, amount: T -> int, selected: seq<T>,
                              unselected: seq<T>) {
    Picked(asc, marks, selected, target, amount, i + 1) && marks[i] && unselected == Marked(asc, marks, |asc|, false)
  }

  lemma LandedIsSound<T>(asc: seq<T>, target: int, amount: T -> int, selected: seq<T>, unselected: seq<T>)
    requires Landed(asc, target, amount, selected, unselected)
    ensures Sound(asc, target, amount, selected, unselected)
  {
    var marks: seq<bool>, i: nat :| LandedAt(asc, marks, i, target, amount, selected, unselected);
    PickedSplits(asc, marks, selected, target, amount, i + 1);
  }

  /** One more mark. */
  method Mark(chosen: array<bool>, i: nat)
    requires i < chosen.Length
    modifies chosen
    ensures chosen[..] == old(chosen[..])[i := true]
  {
    chosen[i] := true;
  }

  lemma HitsNext(amounts: seq<int>, i: nat, total: int, target: int)
    requires i + 1 < |amounts|
    ensures var next := total + amounts[i];
            Hits(amounts, i, total, target) ==
            if next > target then Hits(amounts, i + 1, total, target) else next == target || Hits(amounts, i + 1, next, target)
  {
  }

  /** What is selected so far, with what is still to be taken, is what the pass takes in all. */
  predicate OnCourse<T>(course: seq<int>, selected: seq<T>, amount: T -> int, xs: seq<int>, i: nat, total: int, target: int) {
    course == Amounts(selected, amount) + Taken(xs, i, total, target)
  }

  lemma AmountsSnoc<T>(items: seq<T>, x: T, amount: T -> int)
    ensures Amounts(items + [x], amount) == Amounts(items, amount) + [amount(x)]
  {
  }

  lemma CourseNext<T>(course: seq<int>, selected: seq<T>, amount: T -> int, xs: seq<int>, i: nat, total: int, target: int, x: T)
    requires OnCourse(course, selected, amount, xs, i, total, target) && i + 1 < |xs| && xs[i] == amount(x)
    ensures total + xs[i] > target ==> OnCourse(course, selected, amount, xs, i + 1, total, target)
    ensures total + xs[i] < target ==> OnCourse(course, selected + [x], amount, xs, i + 1, total + xs[i], target)
    ensures total + xs[i] == target ==> course == Amounts(selected + [x], amount)
  {
    AmountsSnoc(selected, x, amount);
    var chosen, later := Amounts(selected, amount), Taken(xs, i + 1, total + xs[i], target);
    assert chosen + ([xs[i]] + later) == (chosen + [xs[i]]) + later;
  }

  /** The whole pass, before it starts: whether it lands, and what it takes. */
  datatype Pass = Pass(lands: bool, course: seq<int>)

  function PassOver(xs: seq<int>, target: int): Pass
    requires xs != []
  {
    var largest := xs[|xs| - 1];
    Pass(Hits(xs, 0, largest, target), [largest] + Taken(xs, 0, largest, target))
  }

  /** The pass before item `i`: what it has picked, and that what is still to come is as the whole was. */
  ghost predicate Passing<T>(asc: seq<T>, amount: T -> int, target: int, marks: seq<bool>, selected: seq<T>, total: int, i: nat,
                             pass: Pass) {
    match pass
    case Pass(lands, course) =>
      var xs := Amounts(asc, amount);
      && Picked(asc, marks, selected, total, amount, i)
      && lands == Hits(xs, i, total, target)
      && OnCourse(course, selected, amount, xs, i, total, target)
  }

  lemma PassStarts<T>(asc: seq<T>, none: seq<bool>, amount: T -> int, target: int)
    requires asc != [] && |none| == |asc| && forall k :: 0 <= k < |none| ==> !none[k]
    ensures var last := asc[|asc| - 1];
            Passing(asc, amount, target, none[|asc| - 1 := true], [last], amount(last), 0, PassOver(Amounts(asc, amount), target))
  {
    PickFirst(asc, none, amount);
    assert Amounts([asc[|asc| - 1]], amount) == [amount(asc[|asc| - 1])];
  }

  lemma PassOn<T>(asc: seq<T>, amount: T -> int, target: int, marks: seq<bool>, selected: seq<T>, total: int, i: nat, pass: Pass)
    requires Passing(asc, amount, target, marks, selected, total, i, pass) && i + 1 < |asc| && total + amount(asc[i]) > target
    ensures Passing(asc, amount, target, marks, selected, total, i + 1, pass)
  {
    PickNext(asc, marks, selected, total, amount, i);
    HitsNext(Amounts(asc, amount), i, total, target);
    CourseNext(pass.course, selected, amount, Amounts(asc, amount), i, total, target, asc[i]);
  }

  lemma PassTakes<T>(asc: seq<T>, amount: T -> int, target: int, marks: seq<bool>, selected: seq<T>, total: int, i: nat, pass: Pass)
    requires Passing(asc, amount, target, marks, selected, total, i, pass) && i + 1 < |asc| && total + amount(asc[i]) < target
    ensures Passing(asc, amount, target, marks[i := true], selected + [asc[i]], total + amount(asc[i]), i + 1, pass)
  {
    PickNext(asc, marks, selected, total, amount, i);
    HitsNext(Amounts(asc, amount), i, total, target);
    CourseNext(pass.course, selected, amount, Amounts(asc, amount), i, total, target, asc[i]);
  }

  lemma PassLands<T>(asc: seq<T>, amount: T -> int, target: int, marks: seq<bool>, selected: seq<T>, total: int, i: nat, pass: Pass)
    requires Passing(asc, amount, target, marks, selected, total, i, pass) && i + 1 < |asc| && total + amount(asc[i]) == target
    ensures PassLanded(asc, amount, target, marks[i := true], selected + [asc[i]], pass)
  {
    PickNext(asc, marks, selected, total, amount, i);
    HitsNext(Amounts(asc, amount), i, total, target);
    CourseNext(pass.course, selected, amount, Amounts(asc, amount), i, total, target, asc[i]);
    assert LandedAt(asc, marks[i := true], i, target, amount, selected + [asc[i]], Marked(asc, marks[i := true], |asc|, false));
  }

  /** The pass has landed, having taken just what it takes in all. */
  ghost predicate PassLanded<T>(asc: seq<T>, amount: T -> int, target: int, marks: seq<bool>, selected: seq<T>, pass: Pass) {
    match pass
    case Pass(lands, course) =>
      lands && |marks| == |asc| && course == Amounts(selected, amount)
      && Landed(asc, target, amount, selected, Marked(asc, marks, |asc|, false))
  }

  /** An item passed over, taken, or taken to land. */
  lemma PassNext<T>(asc: seq<T>, amount: T -> int, target: int, marks: seq<bool>, selected: seq<T>, total: int, i: nat, pass: Pass)
    requires Passing(asc, amount, target, marks, selected, total, i, pass) && i + 1 < |asc| && i < |marks|
    ensures var next, taken, marked := total + amount(asc[i]), selected + [asc[i]], marks[i := true];
            if next > target then Passing(asc, amount, target, marks, selected, total, i + 1, pass)
            else if next < target then Passing(asc, amount, target, marked, taken, next, i + 1, pass)
            else PassLanded(asc, amount, target, marked, taken, pass)
  {
    if total + amount(asc[i]) > target {
      PassOn(asc, amount, target, marks, selected, total, i, pass);
    } else if total + amount(asc[i]) < target {
      PassTakes(asc, amount, target, marks, selected, total, i, pass);
    } else {
      PassLands(asc, amount, target, marks, selected, total, i, pass);
    }
  }

  lemma PassEnds<T>(asc: seq<T>, amount: T -> int, target: int, marks: seq<bool>, selected: seq<T>, total: int, i: nat, pass: Pass)
    requires Passing(asc, amount, target, marks, selected, total, i, pass) && i + 1 == |asc|
    ensures !pass.lands
  {
  }

  /** One turn of the pass, at item `i`. */
  method TakeIfItFits<T>(asc: seq<T>, target: int, amount: T -> int, chosen: array<bool>, i: nat, before: seq<T>, total: int,
                         ghost pass: Pass)
    returns (selected: seq<T>, currentTotal: int, lands: bool)
    requires chosen.Length == |asc| && i + 1 < |asc|
    requires Passing(asc, amount, target, chosen[..], before, total, i, pass)
    modifies chosen
    ensures !lands ==> Passing(asc, amount, target, chosen[..], selected, currentTotal, i + 1, pass)
    ensures lands ==> PassLanded(asc, amount, target, chosen[..], selected, pass)
  {
    PassNext(asc, amount, target, chosen[..], before, total, i, pass);
    selected, currentTotal, lands := before, total, false;
    var amt := amount(asc[i]);
    if currentTotal + amt <= target {
      Mark(chosen, i);
      selected := selected + [asc[i]];
      currentTotal := currentTotal + amt;
      lands := currentTotal == target;
    }
  }

  /** The greedy pass over the sorted items. */
  method Greedy<T>(asc: seq<T>, target: int, amount: T -> int) returns (selected: seq<T>, unselected: seq<T>, sufficient: bool)
    requires asc != []
    ensures sufficient <==> PassOver(Amounts(asc, amount), target).lands
    ensures sufficient ==> Landed(asc, target, amount, selected, unselected)
    ensures sufficient ==> Amounts(selected, amount) == PassOver(Amounts(asc, amount), target).course
  {
    var n := |asc|;
    var chosen := new bool[n](i => false);
    ghost var pass := PassOver(Amounts(asc, amount), target);
    PassStarts(asc, chosen[..], amount, target);
    selected, unselected := [asc[n - 1]], [];
    Mark(chosen, n - 1);
    var currentTotal := amount(asc[n - 1]);
    for i := 0 to n - 1
      invariant Passing(asc, amount, target, chosen[..], selected, currentTotal, i, pass)
    {
      selected, currentTotal, sufficient := TakeIfItFits(asc, target, amount, chosen, i, selected, currentTotal, pass);
      if sufficient {
        unselected := Unchosen(asc, chosen);
        return;
      }
    }
    PassEnds(asc, amount, target, chosen[..], selected, currentTotal, n - 1, pass);
    sufficient := false;
  }

  lemma OneIsSound<T>(items: seq<T>, target: int, amount: T -> int, i: nat)
    requires i < |items| && amount(items[i]) >= target
    ensures Sound(items, target, amount, [items[i]], items[..i] + items[i + 1..])
    ensures amount(items[i]) >= 0 ==> OneIsEnough(Amounts(items, amount), target)
  {
    assert items == items[..i] + [items[i]] + items[i + 1..];
    assert Total([items[i]], amount) == Total([], amount) + amount(items[i]);
    assert Amounts(items, amount)[i] == amount(items[i]);
  }

  /** With no single item enough, it is the pass over the sorted amounts that decides. */
  lemma NoneIsEnough<T>(items: seq<T>, target: int, amount: T -> int, best: int)
    requires items != []
    requires best == -1 ==> forall i :: 0 <= i < |items| ==> amount(items[i]) < 0
    requires best != -1 ==> 0 <= best < |items| && amount(items[best]) < target
                            && forall i :: 0 <= i < |items| ==> amount(items[i]) <= amount(items[best])
    ensures var amounts := Amounts(items, amount);
            !OneIsEnough(amounts, target)
            && (Suffices(amounts, target) <==> var asc := Sorted(amounts); Hits(asc, 0, asc[|asc| - 1], target))
  {
    var amounts := Amounts(items, amount);
    assert forall i :: 0 <= i < |amounts| ==> amounts[i] == amount(items[i]);
    SortSorts(amounts, Itself);
    SameLength(Sorted(amounts), amounts);
  }

  lemma SameLength<T>(a: seq<T>, b: seq<T>)
    requires multiset(a) == multiset(b)
    ensures |a| == |b|
  {
    assert |multiset(a)| == |a| && |multiset(b)| == |b|;
  }

  /** The largest amount stands last once sorted. */
  lemma LargestIsLast(amounts: seq<int>, i: nat)
    requires i < |amounts| && forall k :: 0 <= k < |amounts| ==> amounts[k] <= amounts[i]
    ensures var asc := Sorted(amounts); asc != [] && asc[|asc| - 1] == amounts[i]
  {
    var asc := Sorted(amounts);
    SortSorts(amounts, Itself);
    SameLength(asc, amounts);
    assert amounts[i] in multiset(asc);
    var j :| 0 <= j < |asc| && asc[j] == amounts[i];
    assert Itself(asc[j]) <= Itself(asc[|asc| - 1]);
    assert asc[|asc| - 1] in multiset(amounts);
  }

  lemma OneSelects<T>(items: seq<T>, target: int, amount: T -> int, i: nat)
    requires i < |items| && amount(items[i]) >= target && amount(items[i]) >= 0
    requires forall k :: 0 <= k < |items| ==> amount(items[k]) <= amount(items[i])
    ensures Selects(items, target, amount, [items[i]], items[..i] + items[i + 1..])
    ensures OneIsEnough(Amounts(items, amount), target)
  {
    OneIsSound(items, target, amount, i);
    LargestIsLast(Amounts(items, amount), i);
  }

  lemma SoundOfSame<T>(asc: seq<T>, items: seq<T>, target: int, amount: T -> int, selected: seq<T>, unselected: seq<T>)
    requires multiset(asc) == multiset(items) && Sound(asc, target, amount, selected, unselected)
    ensures Sound(items, target, amount, selected, unselected)
  {
  }

  method SelectUtxo<T(!new)>(items: seq<T>, target: int, amount: T -> int)
    returns (selected: seq<T>, unselected: seq<T>, sufficient: bool)
    ensures sufficient ==> Selects(items, target, amount, selected, unselected)
    ensures !sufficient ==> selected == [] && unselected == items
    ensures sufficient <==> Suffices(Amounts(items, amount), target)
    ensures OneIsEnough(Amounts(items, amount), target) ==>
              |selected| == 1 && forall i :: 0 <= i < |items| ==> amount(items[i]) <= amount(selected[0])
  {
    if |items| == 0 {
      return [], [], false;
    }
    var bestIdx, bestAmt := Largest(items, amount);
    if bestIdx >= 0 && bestAmt >= target {
      selected := [items[bestIdx]];
      unselected := AllBut(items, bestIdx);
      OneSelects(items, target, amount, bestIdx);
      return selected, unselected, true;
    }
    NoneIsEnough(items, target, amount, bestIdx);
    var asc := SortByAmount(items, amount);
    SameLength(asc, items);
    selected, unselected, sufficient := Greedy(asc, target, amount);
    if sufficient {
      LandedIsSound(asc, target, amount, selected, unselected);
      SoundOfSame(asc, items, target, amount, selected, unselected);
    } else {
      selected, unselected := [], items;
    }
  }

  lemma AscendingThree(asc: seq<int>, a: int, b: int, c: int)
    requires AscendingBy(asc, Itself) && multiset(asc) == multiset{a, b, c} && a < b < c
    ensures asc == [a, b, c]
  {
    SameLength(asc, [a, b, c]);
    assert Itself(asc[0]) <= Itself(asc[1]) <= Itself(asc[2]);
    assert asc == [asc[0], asc[1], asc[2]];
    ThreeInOrder(asc[0], asc[1], asc[2], a, b, c);
  }

  lemma ThreeInOrder(x: int, y: int, z: int, a: int, b: int, c: int)
    requires multiset{x, y, z} == multiset{a, b, c} && x <= y <= z && a < b < c
    ensures x == a && y == b && z == c
  {
    assert x in multiset{a, b, c} && y in multiset{a, b, c} && z in multiset{a, b, c};
    assert a in multiset{x, y, z} && b in multiset{x, y, z} && c in multiset{x, y, z};
  }

  lemma LargestOfThree(xs: seq<int>, a: int, b: int, c: int)
    requires a < b < c && multiset(xs) == multiset{a, b, c}
    ensures xs != [] && (forall target :: OneIsEnough(xs, target) <==> c >= target && c >= 0)
  {
    assert c in multiset(xs);
    forall i | 0 <= i < |xs|
      ensures xs[i] <= c
    {
      assert xs[i] in multiset(xs);
    }
  }

  /**
   It is no search: of three amounts, in any order, that hold the target as the sum of the two
   smaller, the pass makes nothing unless the largest is enough alone.
   */
  lemma {:induction false} GreedyMisses(xs: seq<int>, a: int, b: int, c: int)
    requires a < b < c && multiset(xs) == multiset{a, b, c}
    ensures Suffices(xs, a + b) <==> c >= a + b && c >= 0
  {
    SortSorts(xs, Itself);
    AscendingThree(Sorted(xs), a, b, c);
    LargestOfThree(xs, a, b, c);
    HitsNext([a, b, c], 0, c, a + b);
    HitsNext([a, b, c], 1, c, a + b);
  }
}
