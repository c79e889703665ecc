/** Merging the sorted spill runs of an aggregation. */
module MergeRuns {
  import opened Options

  /** A group as it was spilled: its key and an intermediate accumulator. */
  datatype Item<A> = Item(key: int, accumulator: A)

  /** `combine` adds an intermediate result to an accumulator. */
  datatype Combiner<!A> = Combiner(initial: A, combine: (A, A) -> A)

  /** The order in which intermediate results are added does not matter. */
  ghost predicate Commutes<A(!new)>(f: Combiner<A>) {
    forall a, x, y :: f.combine(f.combine(a, x), y) == f.combine(f.combine(a, y), x)
  }

  ghost predicate Ascending<A>(items: seq<Item<A>>) {
    forall i, j :: 0 <= i < j < |items| ==> items[i].key < items[j].key
  }

  /** Every run is sorted and has each key at most once. */
  ghost predicate RunsSorted<A>(runs: seq<seq<Item<A>>>) {
    forall r :: 0 <= r < |runs| ==> Ascending(runs[r])
  }

  // ------------------------------------------------------------------------------------------------
  // What merging must give
  // ------------------------------------------------------------------------------------------------

  ghost predicate HasBefore<A>(run: seq<Item<A>>, n: nat, key: int) {
    exists j :: 0 <= j < n && j < |run| && run[j].key == key
  }

  /** The runs in which `key` is among the first `pos[r]` items. */
  ghost function Holders<A>(runs: seq<seq<Item<A>>>, pos: seq<nat>, key: int): set<nat>
    requires |pos| == |runs|
  {
    set r: nat | r < |runs| && HasBefore(runs[r], pos[r], key)
  }

  ghost function Ends<A>(runs: seq<seq<Item<A>>>): (pos: seq<nat>)
    ensures |pos| == |runs| && forall r :: 0 <= r < |runs| ==> pos[r] == |runs[r]|
  {
    seq(|runs|, r requires 0 <= r < |runs| => |runs[r]|)
  }

  ghost function AccumulatorOf<A>(f: Combiner<A>, run: seq<Item<A>>, key: int): A {
    if j :| 0 <= j < |run| && run[j].key == key then run[j].accumulator else f.initial
  }

  /** The accumulators of `key` in the given runs, combined in the order of the runs. */
  ghost function FoldOver<A>(f: Combiner<A>, runs: seq<seq<Item<A>>>, members: set<nat>, key: int, n: nat): A
    requires n <= |runs|
  {
    if n == 0 then f.initial
    else
      var before := FoldOver(f, runs, members, key, n - 1);
      if n - 1 in members then f.combine(before, AccumulatorOf(f, runs[n - 1], key)) else before
  }

  /** The accumulators of `key` in the given runs, combined in the given order. */
  ghost function FoldIn<A>(f: Combiner<A>, runs: seq<seq<Item<A>>>, order: seq<nat>, key: int): A
    requires forall k :: 0 <= k < |order| ==> order[k] < |runs|
  {
    if order == [] then f.initial
    else
      var last := |order| - 1;
      f.combine(FoldIn(f, runs, order[..last], key), AccumulatorOf(f, runs[order[last]], key))
  }

  /** Every member once, and nobody else. */
  ghost predicate IsOrder(order: seq<nat>, members: set<nat>) {
    (forall r :: r in order <==> r in members) && forall j, k :: 0 <= j < k < |order| ==> order[j] != order[k]
  }

  ghost predicate FoldsBy<A>(
    f: Combiner<A>, runs: seq<seq<Item<A>>>, members: set<nat>, key: int, result: A, order: seq<nat>)
  {
    && IsOrder(order, members) && (forall k :: 0 <= k < |order| ==> order[k] < |runs|)
    && result == FoldIn(f, runs, order, key)
  }

  /** The result combines the accumulators of all members, each once, in some order. */
  ghost predicate Folds<A>(f: Combiner<A>, runs: seq<seq<Item<A>>>, members: set<nat>, key: int, result: A) {
    exists order :: FoldsBy(f, runs, members, key, result, order)
  }

  /** The row has combined what has been popped of its key. */
  ghost predicate RowFolds<A>(f: Combiner<A>, runs: seq<seq<Item<A>>>, pos: seq<nat>, row: Item<A>)
    requires |pos| == |runs|
  {
    Holders(runs, pos, row.key) != {} && Folds(f, runs, Holders(runs, pos, row.key), row.key, row.accumulator)
  }

  /** One row per distinct key, in order, with all accumulators of that key. */
  ghost predicate IsMerged<A>(f: Combiner<A>, runs: seq<seq<Item<A>>>, rows: seq<Item<A>>) {
    && Ascending(rows)
    && (forall row :: row in rows ==> RowFolds(f, runs, Ends(runs), row))
    && (forall r, j :: 0 <= r < |runs| && 0 <= j < |runs[r]| ==> HasBefore(rows, |rows|, runs[r][j].key))
  }

  // ------------------------------------------------------------------------------------------------
  // Folds
  // ------------------------------------------------------------------------------------------------

  lemma {:induction false} SameMembers<A>(
      f: Combiner<A>, runs: seq<seq<Item<A>>>, a: set<nat>, b: set<nat>, key: int, n: nat)
    requires n <= |runs| && forall r :: 0 <= r < n ==> (r in a <==> r in b)
    ensures FoldOver(f, runs, a, key, n) == FoldOver(f, runs, b, key, n)
  {
    if n == 0 {
    } else {
      SameMembers(f, runs, a, b, key, n - 1);
    }
  }

  /** One more run may be combined last, wherever it stands. */
  lemma {:induction false} OneMoreMember<A(!new)>(
      f: Combiner<A>, runs: seq<seq<Item<A>>>, members: set<nat>, key: int, i: nat, n: nat)
    requires Commutes(f) && i < n <= |runs| && i !in members
    ensures FoldOver(f, runs, members + {i}, key, n)
         == f.combine(FoldOver(f, runs, members, key, n), AccumulatorOf(f, runs[i], key))
  {
    if i == n - 1 {
      SameMembers(f, runs, members + {i}, members, key, n - 1);
    } else {
      OneMoreMember(f, runs, members, key, i, n - 1);
    }
  }

  lemma {:induction false} NoMembers<A>(f: Combiner<A>, runs: seq<seq<Item<A>>>, key: int, n: nat)
    requires n <= |runs|
    ensures FoldOver(f, runs, {}, key, n) == f.initial
  {
    if n == 0 {
    } else {
      NoMembers(f, runs, key, n - 1);
    }
  }

  /** One more run is combined behind the others. */
  lemma FoldsMore<A>(f: Combiner<A>, runs: seq<seq<Item<A>>>, members: set<nat>, key: int, result: A, i: nat)
    requires Folds(f, runs, members, key, result) && i < |runs| && i !in members
    ensures Folds(f, runs, members + {i}, key, f.combine(result, AccumulatorOf(f, runs[i], key)))
  {
    var order :| FoldsBy(f, runs, members, key, result, order);
    var longer := order + [i];
    assert longer[..|longer| - 1] == order;
    forall r
      ensures r in longer <==> r in members + {i}
    {
      assert r in longer <==> r in order || r == i;
    }
    assert FoldsBy(f, runs, members + {i}, key, f.combine(result, AccumulatorOf(f, runs[i], key)), longer);
  }

  lemma FoldsNothing<A>(f: Combiner<A>, runs: seq<seq<Item<A>>>, key: int)
    ensures Folds(f, runs, {}, key, f.initial)
  {
    assert FoldsBy(f, runs, {}, key, f.initial, []);
  }

  lemma ShorterOrder(order: seq<nat>, members: set<nat>)
    requires IsOrder(order, members) && order != []
    ensures var last := |order| - 1;
            IsOrder(order[..last], members - {order[last]}) && order[last] in members
  {
    var last := |order| - 1;
    var shorter := order[..last];
    assert order == shorter + [order[last]];
    forall r
      ensures r in shorter <==> r in members - {order[last]}
    {
      assert r in order <==> r in shorter || r == order[last];
      if r in shorter {
        var k :| 0 <= k < last && shorter[k] == r;
        assert order[k] == r;
      }
    }
  }

  /** Where the order does not matter, every order gives the fold in the order of the runs. */
  lemma {:induction false} OrderIrrelevant<A(!new)>(
      f: Combiner<A>, runs: seq<seq<Item<A>>>, members: set<nat>, key: int, order: seq<nat>)
    requires Commutes(f) && IsOrder(order, members) && forall k :: 0 <= k < |order| ==> order[k] < |runs|
    ensures FoldIn(f, runs, order, key) == FoldOver(f, runs, members, key, |runs|)
    decreases |order|
  {
    if order == [] {
      assert members == {};
      NoMembers(f, runs, key, |runs|);
    } else {
      var last := |order| - 1;
      var i := order[last];
      ShorterOrder(order, members);
      OrderIrrelevant(f, runs, members - {i}, key, order[..last]);
      OneMoreMember(f, runs, members - {i}, key, i, |runs|);
      assert members - {i} + {i} == members;
    }
  }

  lemma AccumulatorAt<A>(f: Combiner<A>, run: seq<Item<A>>, j: nat)
    requires Ascending(run) && j < |run|
    ensures AccumulatorOf(f, run, run[j].key) == run[j].accumulator
  {
  }

  // ------------------------------------------------------------------------------------------------
  // The invariant
  // ------------------------------------------------------------------------------------------------

  ghost predicate InRuns<A>(runs: seq<seq<Item<A>>>, pos: seq<nat>) {
    |pos| == |runs| && forall r :: 0 <= r < |runs| ==> pos[r] <= |runs[r]|
  }

  predicate HasData<A>(runs: seq<seq<Item<A>>>, pos: seq<nat>, r: nat) {
    |pos| == |runs| && r < |runs| && pos[r] < |runs[r]|
  }

  function Head<A>(runs: seq<seq<Item<A>>>, pos: seq<nat>, r: nat): int
    requires HasData(runs, pos, r)
  {
    runs[r][pos[r]].key
  }

  ghost predicate RowsFold<A>(f: Combiner<A>, runs: seq<seq<Item<A>>>, pos: seq<nat>, rows: seq<Item<A>>)
    requires |pos| == |runs|
  {
    forall t :: 0 <= t < |rows| ==> RowFolds(f, runs, pos, rows[t])
  }

  ghost predicate Covered<A>(runs: seq<seq<Item<A>>>, pos: seq<nat>, rows: seq<Item<A>>)
    requires InRuns(runs, pos)
  {
    forall r, j :: 0 <= r < |runs| && 0 <= j < pos[r] ==> HasBefore(rows, |rows|, runs[r][j].key)
  }

  /** All rows are before all heads, except for the last one while its key is still to come. */
  ghost predicate BeforeHeads<A>(runs: seq<seq<Item<A>>>, pos: seq<nat>, rows: seq<Item<A>>, equal: bool) {
    && (forall r: nat, t :: HasData(runs, pos, r) && 0 <= t < |rows| ==>
          rows[t].key < Head(runs, pos, r) || (equal && t == |rows| - 1 && rows[t].key == Head(runs, pos, r)))
    && (equal ==> rows != [] && exists r: nat :: HasData(runs, pos, r) && Head(runs, pos, r) == rows[|rows| - 1].key)
  }

  ghost predicate Inv<A>(f: Combiner<A>, runs: seq<seq<Item<A>>>, pos: seq<nat>, rows: seq<Item<A>>, equal: bool) {
    InRuns(runs, pos) && Merged(f, runs, pos, rows, equal)
  }

  ghost predicate Merged<A>(f: Combiner<A>, runs: seq<seq<Item<A>>>, pos: seq<nat>, rows: seq<Item<A>>, equal: bool)
    requires InRuns(runs, pos)
  {
    && Ascending(rows)
    && RowsFold(f, runs, pos, rows) && Covered(runs, pos, rows) && BeforeHeads(runs, pos, rows, equal)
  }

  /** Run `i` has the lowest head, and `equal` tells whether another run has the same. */
  ghost predicate IsNext<A>(runs: seq<seq<Item<A>>>, pos: seq<nat>, i: nat, equal: bool) {
    && HasData(runs, pos, i)
    && (forall r: nat :: HasData(runs, pos, r) ==> Head(runs, pos, i) <= Head(runs, pos, r))
    && (equal <==> exists r: nat :: r != i && HasData(runs, pos, r) && Head(runs, pos, r) == Head(runs, pos, i))
  }

  /** The rows after the head of run `i` has been merged. */
  function WithItem<A>(f: Combiner<A>, rows: seq<Item<A>>, item: Item<A>, equal: bool): (r: seq<Item<A>>)
    requires equal ==> rows != []
    ensures |r| == if equal then |rows| else |rows| + 1
  {
    var started := if equal then rows else rows + [Item(item.key, f.initial)];
    var last := |started| - 1;
    started[last := Item(started[last].key, f.combine(started[last].accumulator, item.accumulator))]
  }

  lemma HoldersAfter<A>(runs: seq<seq<Item<A>>>, pos: seq<nat>, i: nat, key: int)
    requires RunsSorted(runs) && InRuns(runs, pos) && HasData(runs, pos, i)
    ensures var pos', k := pos[i := pos[i] + 1], Head(runs, pos, i);
            && Holders(runs, pos', key) == (if key == k then Holders(runs, pos, key) + {i} else Holders(runs, pos, key))
            && i !in Holders(runs, pos, k)
  {
    var pos', k := pos[i := pos[i] + 1], Head(runs, pos, i);
    forall r: nat | r < |runs|
      ensures HasBefore(runs[r], pos'[r], key) <==> HasBefore(runs[r], pos[r], key) || (r == i && key == k)
    {
      if r == i && key == k {
        assert runs[i][pos[i]].key == key;
      }
    }
  }

  /** While the key is still to come, the last row has it. */
  lemma LastRowHasKey<A>(runs: seq<seq<Item<A>>>, pos: seq<nat>, rows: seq<Item<A>>, i: nat, next: bool)
    requires BeforeHeads(runs, pos, rows, true) && IsNext(runs, pos, i, next)
    ensures rows[|rows| - 1].key == Head(runs, pos, i)
  {
    var r: nat :| HasData(runs, pos, r) && Head(runs, pos, r) == rows[|rows| - 1].key;
    assert rows[|rows| - 1].key <= Head(runs, pos, i) <= Head(runs, pos, r);
  }

  /** A key that starts a new row has not been popped before. */
  lemma NewKey<A>(runs: seq<seq<Item<A>>>, pos: seq<nat>, rows: seq<Item<A>>, i: nat)
    requires InRuns(runs, pos) && Covered(runs, pos, rows) && HasData(runs, pos, i)
    requires BeforeHeads(runs, pos, rows, false)
    ensures Holders(runs, pos, Head(runs, pos, i)) == {}
  {
    var k := Head(runs, pos, i);
    forall r: nat | r < |runs|
      ensures !HasBefore(runs[r], pos[r], k)
    {
    }
  }

  /** Rows other than the current one are before the next key. */
  lemma EarlierRows<A>(runs: seq<seq<Item<A>>>, pos: seq<nat>, rows: seq<Item<A>>, i: nat, equal: bool, t: nat)
    requires BeforeHeads(runs, pos, rows, equal) && HasData(runs, pos, i)
    requires t < |rows| && (equal ==> t < |rows| - 1)
    ensures rows[t].key < Head(runs, pos, i)
  {
  }

  /** The row of the popped key has combined one more accumulator. */
  lemma PopFoldsLast<A>(
      f: Combiner<A>, runs: seq<seq<Item<A>>>, pos: seq<nat>, i: nat, started: A)
    requires RunsSorted(runs) && InRuns(runs, pos) && HasData(runs, pos, i)
    requires var k := Head(runs, pos, i);
             Folds(f, runs, Holders(runs, pos, k), k, started)
    ensures var item := runs[i][pos[i]];
            RowFolds(f, runs, pos[i := pos[i] + 1], Item(item.key, f.combine(started, item.accumulator)))
  {
    var k := Head(runs, pos, i);
    AccumulatorAt(f, runs[i], pos[i]);
    HoldersAfter(runs, pos, i, k);
    FoldsMore(f, runs, Holders(runs, pos, k), k, started, i);
  }

  lemma PopFoldsOther<A>(f: Combiner<A>, runs: seq<seq<Item<A>>>, pos: seq<nat>, i: nat, row: Item<A>)
    requires RunsSorted(runs) && InRuns(runs, pos) && HasData(runs, pos, i)
    requires RowFolds(f, runs, pos, row) && row.key != Head(runs, pos, i)
    ensures RowFolds(f, runs, pos[i := pos[i] + 1], row)
  {
    HoldersAfter(runs, pos, i, row.key);
  }

  lemma PopFolds<A>(
      f: Combiner<A>, runs: seq<seq<Item<A>>>, pos: seq<nat>, rows: seq<Item<A>>, i: nat, equal: bool, next: bool)
    requires RunsSorted(runs) && InRuns(runs, pos) && RowsFold(f, runs, pos, rows) && Covered(runs, pos, rows)
    requires BeforeHeads(runs, pos, rows, equal) && IsNext(runs, pos, i, next)
    ensures RowsFold(f, runs, pos[i := pos[i] + 1], WithItem(f, rows, runs[i][pos[i]], equal))
  {
    var item, pos' := runs[i][pos[i]], pos[i := pos[i] + 1];
    var rows' := WithItem(f, rows, item, equal);
    var last := |rows'| - 1;
    if equal {
      LastRowHasKey(runs, pos, rows, i, next);
      assert RowFolds(f, runs, pos, rows[last]);
      PopFoldsLast(f, runs, pos, i, rows[last].accumulator);
    } else {
      NewKey(runs, pos, rows, i);
      FoldsNothing(f, runs, item.key);
      PopFoldsLast(f, runs, pos, i, f.initial);
    }
    assert RowFolds(f, runs, pos', rows'[last]);
    forall t | 0 <= t < last
      ensures RowFolds(f, runs, pos', rows'[t])
    {
      EarlierRows(runs, pos, rows, i, equal, t);
      PopFoldsOther(f, runs, pos, i, rows[t]);
    }
  }

  /** Merging an item keeps the keys of the rows, but for a new one at the end. */
  lemma KeysAfter<A>(f: Combiner<A>, rows: seq<Item<A>>, item: Item<A>, equal: bool)
    requires equal ==> rows != [] && rows[|rows| - 1].key == item.key
    ensures var rows' := WithItem(f, rows, item, equal);
            rows'[|rows'| - 1].key == item.key && forall t :: 0 <= t < |rows| ==> rows'[t].key == rows[t].key
  {
  }

  lemma PopAscends<A>(
      f: Combiner<A>, runs: seq<seq<Item<A>>>, pos: seq<nat>, rows: seq<Item<A>>, i: nat, equal: bool, next: bool)
    requires Ascending(rows) && BeforeHeads(runs, pos, rows, equal) && IsNext(runs, pos, i, next)
    ensures Ascending(WithItem(f, rows, runs[i][pos[i]], equal))
  {
    var item := runs[i][pos[i]];
    if equal {
      LastRowHasKey(runs, pos, rows, i, next);
    }
    KeysAfter(f, rows, item, equal);
    forall t: nat | t < |rows| && (equal ==> t < |rows| - 1)
      ensures rows[t].key < item.key
    {
      EarlierRows(runs, pos, rows, i, equal, t);
    }
  }

  lemma StillCovered<A>(rows: seq<Item<A>>, rows': seq<Item<A>>, key: int)
    requires |rows| <= |rows'| && forall t :: 0 <= t < |rows| ==> rows'[t].key == rows[t].key
    requires HasBefore(rows, |rows|, key)
    ensures HasBefore(rows', |rows'|, key)
  {
    var t :| 0 <= t < |rows| && rows[t].key == key;
    assert rows'[t].key == key;
  }

  lemma PopCovers<A>(
      f: Combiner<A>, runs: seq<seq<Item<A>>>, pos: seq<nat>, rows: seq<Item<A>>, i: nat, equal: bool)
    requires InRuns(runs, pos) && Covered(runs, pos, rows) && HasData(runs, pos, i)
    requires equal ==> rows != [] && rows[|rows| - 1].key == Head(runs, pos, i)
    ensures var pos', rows' := pos[i := pos[i] + 1], WithItem(f, rows, runs[i][pos[i]], equal);
            InRuns(runs, pos') && Covered(runs, pos', rows')
  {
    var item, pos' := runs[i][pos[i]], pos[i := pos[i] + 1];
    var rows' := WithItem(f, rows, item, equal);
    KeysAfter(f, rows, item, equal);
    forall r, j | 0 <= r < |runs| && 0 <= j < pos'[r]
      ensures HasBefore(rows', |rows'|, runs[r][j].key)
    {
      if j < pos[r] {
        StillCovered(rows, rows', runs[r][j].key);
      }
    }
  }

  lemma HeadsAfter<A>(runs: seq<seq<Item<A>>>, pos: seq<nat>, i: nat, next: bool, r: nat)
    requires RunsSorted(runs) && IsNext(runs, pos, i, next) && HasData(runs, pos[i := pos[i] + 1], r)
    ensures var k, head := Head(runs, pos, i), Head(runs, pos[i := pos[i] + 1], r);
            k < head || (next && k == head)
  {
    if r == i {
      assert Ascending(runs[i]);
      assert runs[i][pos[i]].key < runs[i][pos[i] + 1].key;
    } else {
      assert HasData(runs, pos, r);
    }
  }

  lemma PopHeads<A>(
      f: Combiner<A>, runs: seq<seq<Item<A>>>, pos: seq<nat>, rows: seq<Item<A>>, i: nat, equal: bool, next: bool)
    requires RunsSorted(runs) && BeforeHeads(runs, pos, rows, equal) && IsNext(runs, pos, i, next)
    ensures BeforeHeads(runs, pos[i := pos[i] + 1], WithItem(f, rows, runs[i][pos[i]], equal), next)
  {
    var item, pos' := runs[i][pos[i]], pos[i := pos[i] + 1];
    var rows', k := WithItem(f, rows, item, equal), item.key;
    if equal {
      LastRowHasKey(runs, pos, rows, i, next);
    }
    KeysAfter(f, rows, item, equal);
    forall r: nat, t | HasData(runs, pos', r) && 0 <= t < |rows'|
      ensures rows'[t].key < Head(runs, pos', r) || (next && t == |rows'| - 1 && rows'[t].key == Head(runs, pos', r))
    {
      HeadsAfter(runs, pos, i, next, r);
      if t < |rows'| - 1 {
        EarlierRows(runs, pos, rows, i, equal, t);
      }
    }
    if next {
      var r: nat :| r != i && HasData(runs, pos, r) && Head(runs, pos, r) == k;
      assert HasData(runs, pos', r) && Head(runs, pos', r) == k;
    }
  }

  lemma PopKeeps<A>(
      f: Combiner<A>, runs: seq<seq<Item<A>>>, pos: seq<nat>, rows: seq<Item<A>>, i: nat, equal: bool, next: bool)
    requires RunsSorted(runs) && Inv(f, runs, pos, rows, equal) && IsNext(runs, pos, i, next)
    ensures Inv(f, runs, pos[i := pos[i] + 1], WithItem(f, rows, runs[i][pos[i]], equal), next)
  {
    if equal {
      LastRowHasKey(runs, pos, rows, i, next);
    }
    PopFolds(f, runs, pos, rows, i, equal, next);
    PopAscends(f, runs, pos, rows, i, equal, next);
    PopCovers(f, runs, pos, rows, i, equal);
    PopHeads(f, runs, pos, rows, i, equal, next);
  }

  /** At the end of all runs the rows are what merging must give. */
  lemma EndIsMerged<A>(f: Combiner<A>, runs: seq<seq<Item<A>>>, pos: seq<nat>, rows: seq<Item<A>>, equal: bool)
    requires Inv(f, runs, pos, rows, equal) && forall r: nat :: !HasData(runs, pos, r)
    ensures IsMerged(f, runs, rows)
  {
    forall r: nat | r < |runs|
      ensures pos[r] == |runs[r]|
    {
      assert !HasData(runs, pos, r);
    }
    assert pos == Ends(runs);
    forall row | row in rows
      ensures RowFolds(f, runs, Ends(runs), row)
    {
      var t :| 0 <= t < |rows| && rows[t] == row;
    }
  }

  // ------------------------------------------------------------------------------------------------
  // Batches
  // ------------------------------------------------------------------------------------------------

  ghost function ItemsLeft<A>(runs: seq<seq<Item<A>>>, pos: seq<nat>, n: nat): nat
    requires InRuns(runs, pos) && n <= |runs|
  {
    if n == 0 then 0 else ItemsLeft(runs, pos, n - 1) + (|runs[n - 1]| - pos[n - 1])
  }

  lemma {:induction false} PopLeavesFewer<A>(runs: seq<seq<Item<A>>>, pos: seq<nat>, i: nat, n: nat)
    requires InRuns(runs, pos) && HasData(runs, pos, i) && n <= |runs|
    ensures ItemsLeft(runs, pos[i := pos[i] + 1], n) == ItemsLeft(runs, pos, n) - if i < n then 1 else 0
  {
    if n == 0 {
    } else {
      PopLeavesFewer(runs, pos, i, n - 1);
    }
  }

  lemma WithItemAtEnd<A>(f: Combiner<A>, before: seq<Item<A>>, rows: seq<Item<A>>, item: Item<A>, equal: bool)
    requires equal ==> rows != []
    ensures WithItem(f, before + rows, item, equal) == before + WithItem(f, rows, item, equal)
  {
    var start := Item(item.key, f.initial);
    assert (before + rows) + [start] == before + (rows + [start]);
  }

  /** One item is merged into the rows of the batch in hand. */
  lemma BatchPopKeeps<A>(
      f: Combiner<A>, runs: seq<seq<Item<A>>>, pos: seq<nat>, emitted: seq<Item<A>>, rows: seq<Item<A>>, i: nat,
      equal: bool, next: bool)
    requires RunsSorted(runs) && Inv(f, runs, pos, emitted + rows, equal) && IsNext(runs, pos, i, next)
    requires equal ==> rows != []
    ensures var pos' := pos[i := pos[i] + 1];
            && Inv(f, runs, pos', emitted + WithItem(f, rows, runs[i][pos[i]], equal), next)
            && ItemsLeft(runs, pos', |runs|) < ItemsLeft(runs, pos, |runs|)
  {
    PopKeeps(f, runs, pos, emitted + rows, i, equal, next);
    PopLeavesFewer(runs, pos, i, |runs|);
    WithItemAtEnd(f, emitted, rows, runs[i][pos[i]], equal);
  }

  class SpillMerge<A> {
    const f: Combiner<A>
    const runs: seq<seq<Item<A>>>
    var pos: seq<nat>
    var mergeRows: seq<Item<A>>
    var nextKeyIsEqual: bool
    ghost var emitted: seq<Item<A>>

    ghost predicate Valid()
      reads this
    {
      && RunsSorted(runs)
      && Inv(f, runs, pos, emitted + mergeRows, nextKeyIsEqual)
      && (nextKeyIsEqual ==> mergeRows != [])
    }

    constructor (f: Combiner<A>, runs: seq<seq<Item<A>>>)
      requires RunsSorted(runs)
      ensures Valid() && emitted == [] && mergeRows == [] && this.f == f && this.runs == runs
    {
      this.f, this.runs := f, runs;
      pos, mergeRows, nextKeyIsEqual, emitted := seq(|runs|, r => 0), [], false, [];
    }

    /** The run with the lowest head, and whether another run has the same head. */
    method NextWithEquals() returns (next: Option<nat>, equal: bool)
      requires InRuns(runs, pos)
      ensures next.None? ==> !equal && forall r: nat :: !HasData(runs, pos, r)
      ensures next.Some? ==> IsNext(runs, pos, next.value, equal)
    {
      next, equal := None, false;
      for r := 0 to |runs|
        invariant next.None? ==> !equal && forall k: nat :: k < r ==> !HasData(runs, pos, k)
        invariant next.Some? ==> next.value < r && HasData(runs, pos, next.value)
        invariant next.Some? ==>
          forall k: nat :: k < r && HasData(runs, pos, k) ==> Head(runs, pos, next.value) <= Head(runs, pos, k)
        invariant next.Some? ==>
          (equal <==> exists k: nat :: k < r && k != next.value && HasData(runs, pos, k) &&
                                       Head(runs, pos, k) == Head(runs, pos, next.value))
      {
        if HasData(runs, pos, r) {
          if next.None? || Head(runs, pos, r) < Head(runs, pos, next.value) {
            next, equal := Some(r), false;
          } else if Head(runs, pos, r) == Head(runs, pos, next.value) {
            equal := true;
          }
        }
      }
    }

    /** Takes the head of run `i` into the current row, or starts a new row with it. */
    method Merge(i: nat, equal: bool)
      requires Valid() && IsNext(runs, pos, i, equal)
      modifies this`pos, this`mergeRows, this`nextKeyIsEqual
      ensures Valid() && nextKeyIsEqual == equal
      ensures |mergeRows| == |old(mergeRows)| + if old(nextKeyIsEqual) then 0 else 1
      ensures ItemsLeft(runs, pos, |runs|) < ItemsLeft(runs, old(pos), |runs|)
    {
      BatchPopKeeps(f, runs, pos, emitted, mergeRows, i, nextKeyIsEqual, equal);
      var rows := WithItem(f, mergeRows, runs[i][pos[i]], nextKeyIsEqual);
      mergeRows, nextKeyIsEqual, pos := rows, equal, pos[i := pos[i] + 1];
    }

    /** Hands out the finished rows. */
    method ExtractSpillResult() returns (result: seq<Item<A>>)
      requires Valid() && !nextKeyIsEqual
      modifies this`mergeRows, this`emitted
      ensures Valid() && mergeRows == [] && result == old(mergeRows) && emitted == old(emitted) + result
    {
      result, mergeRows, emitted := mergeRows, [], emitted + mergeRows;
      assert emitted + mergeRows == emitted;
    }

    /** `mergeNext`: one batch. It ends only between two keys. */
    method MergeNext(batchSize: nat) returns (more: bool, result: seq<Item<A>>)
      requires Valid() && mergeRows == []
      modifies this
      ensures Valid() && mergeRows == [] && emitted == old(emitted) + result
      ensures more <==> result != []
      ensures !more ==> IsMerged(f, runs, emitted)
      ensures more ==> |result| >= batchSize || forall r: nat :: !HasData(runs, pos, r)
      ensures |result| <= if batchSize == 0 then 1 else batchSize
      ensures more ==> ItemsLeft(runs, pos, |runs|) < ItemsLeft(runs, old(pos), |runs|)
    {
      while true
        invariant Valid() && emitted == old(emitted)
        invariant ItemsLeft(runs, pos, |runs|) <= ItemsLeft(runs, old(pos), |runs|)
        invariant mergeRows != [] ==> ItemsLeft(runs, pos, |runs|) < ItemsLeft(runs, old(pos), |runs|)
        invariant |mergeRows| < batchSize || nextKeyIsEqual || mergeRows == []
        invariant |mergeRows| <= if batchSize == 0 then 1 else batchSize
        decreases ItemsLeft(runs, pos, |runs|)
      {
        var next, equal := NextWithEquals();
        if next.None? {
          EndIsMerged(f, runs, pos, emitted + mergeRows, nextKeyIsEqual);
          result := ExtractSpillResult();
          return result != [], result;
        }
        Merge(next.value, equal);
        if !nextKeyIsEqual && |mergeRows| >= batchSize {
          result := ExtractSpillResult();
          return true, result;
        }
      }
    }
  }

  /** All batches together: one row per key that combines everything spilled for it, each accumulator once,
      whatever the batch size and the distribution over runs. */
  method MergeAll<A>(f: Combiner<A>, runs: seq<seq<Item<A>>>, batchSize: nat) returns (rows: seq<Item<A>>)
    requires RunsSorted(runs)
    ensures IsMerged(f, runs, rows)
  {
    var m := new SpillMerge(f, runs);
    rows := [];
    while true
      invariant m.Valid() && m.f == f && m.runs == runs && m.mergeRows == [] && m.emitted == rows && fresh(m)
      decreases ItemsLeft(m.runs, m.pos, |m.runs|)
    {
      var more, result := m.MergeNext(batchSize);
      rows := rows + result;
      if !more {
        return;
      }
    }
  }

  // ------------------------------------------------------------------------------------------------
  // The result does not depend on batches and ties
  // ------------------------------------------------------------------------------------------------

  lemma {:induction false} SameKeysSameOrder<A>(a: seq<Item<A>>, b: seq<Item<A>>)
    requires Ascending(a) && Ascending(b)
    requires forall key :: HasBefore(a, |a|, key) <==> HasBefore(b, |b|, key)
    ensures |a| == |b| && forall i :: 0 <= i < |a| ==> a[i].key == b[i].key
    decreases |a|
  {
    if a != [] {
      assert HasBefore(a, |a|, a[|a| - 1].key);
    }
    if b != [] {
      assert HasBefore(b, |b|, b[|b| - 1].key);
    }
    if a != [] && b != [] {
      var a', b' := a[..|a| - 1], b[..|b| - 1];
      forall key
        ensures HasBefore(a', |a'|, key) <==> HasBefore(b', |b'|, key)
      {
        DropLastKey(a, key);
        DropLastKey(b, key);
      }
      SameKeysSameOrder(a', b');
    }
  }

  lemma DropLastKey<A>(a: seq<Item<A>>, key: int)
    requires Ascending(a) && a != []
    ensures HasBefore(a[..|a| - 1], |a| - 1, key) <==> HasBefore(a, |a|, key) && key != a[|a| - 1].key
  {
    if HasBefore(a[..|a| - 1], |a| - 1, key) {
      var j :| 0 <= j < |a| - 1 && a[..|a| - 1][j].key == key;
      assert a[j].key == key;
    }
    if HasBefore(a, |a|, key) && key != a[|a| - 1].key {
      var j :| 0 <= j < |a| && a[j].key == key;
      assert a[..|a| - 1][j].key == key;
    }
  }

  lemma MergedKeys<A>(f: Combiner<A>, runs: seq<seq<Item<A>>>, rows: seq<Item<A>>, key: int)
    requires IsMerged(f, runs, rows)
    ensures HasBefore(rows, |rows|, key) <==> Holders(runs, Ends(runs), key) != {}
  {
    if HasBefore(rows, |rows|, key) {
      var t :| 0 <= t < |rows| && rows[t].key == key;
      assert rows[t] in rows && RowFolds(f, runs, Ends(runs), rows[t]);
    }
    if Holders(runs, Ends(runs), key) != {} {
      var r :| r in Holders(runs, Ends(runs), key);
      var j :| 0 <= j < |runs[r]| && runs[r][j].key == key;
      assert HasBefore(rows, |rows|, runs[r][j].key);
    }
  }

  /** Where combining commutes, a row holds the fold over all runs that have its key. */
  lemma MergedIsFold<A(!new)>(f: Combiner<A>, runs: seq<seq<Item<A>>>, rows: seq<Item<A>>, t: nat)
    requires Commutes(f) && IsMerged(f, runs, rows) && t < |rows|
    ensures rows[t].accumulator == FoldOver(f, runs, Holders(runs, Ends(runs), rows[t].key), rows[t].key, |runs|)
  {
    var row := rows[t];
    var members := Holders(runs, Ends(runs), row.key);
    assert RowFolds(f, runs, Ends(runs), row);
    var order :| FoldsBy(f, runs, members, row.key, row.accumulator, order);
    OrderIrrelevant(f, runs, members, row.key, order);
  }

  /** The result then depends on nothing but the runs. */
  lemma MergedIsUnique<A(!new)>(f: Combiner<A>, runs: seq<seq<Item<A>>>, a: seq<Item<A>>, b: seq<Item<A>>)
    requires Commutes(f) && IsMerged(f, runs, a) && IsMerged(f, runs, b)
    ensures a == b
  {
    forall key
      ensures HasBefore(a, |a|, key) <==> HasBefore(b, |b|, key)
    {
      MergedKeys(f, runs, a, key);
      MergedKeys(f, runs, b, key);
    }
    SameKeysSameOrder(a, b);
    forall i | 0 <= i < |a|
      ensures a[i] == b[i]
    {
      MergedIsFold(f, runs, a, i);
      MergedIsFold(f, runs, b, i);
    }
  }
}
