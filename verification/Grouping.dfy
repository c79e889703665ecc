/** Streaming aggregation on pre-grouped keys. */
module Groupings {
  /** `pre` stands for the pre-grouped keys, `rest` for the other grouping keys. */
  datatype InputRow = InputRow(pre: int, rest: int, value: int)

  datatype Group<A> = Group(pre: int, rest: int, accumulator: A)

  datatype Aggregate<!A> = Aggregate(initial: A, add: (A, int) -> A)

  predicate SameKey<A>(g: Group<A>, row: InputRow) {
    g.pre == row.pre && g.rest == row.rest
  }

  // ------------------------------------------------------------------------------------------------
  // One-shot grouping
  // ------------------------------------------------------------------------------------------------

  /** The position of the row's group from `i` on, or the end. */
  function FindFrom<A>(groups: seq<Group<A>>, row: InputRow, i: nat): (k: nat)
    requires i <= |groups|
    ensures i <= k <= |groups|
    decreases |groups| - i
  {
    if i == |groups| || SameKey(groups[i], row) then i else FindFrom(groups, row, i + 1)
  }

  function Find<A>(groups: seq<Group<A>>, row: InputRow): (k: nat)
    ensures k <= |groups|
  {
    FindFrom(groups, row, 0)
  }

  lemma {:induction false} FindFromMeans<A>(groups: seq<Group<A>>, row: InputRow, i: nat)
    requires i <= |groups|
    ensures var k := FindFrom(groups, row, i);
            && (k < |groups| ==> SameKey(groups[k], row))
            && forall j :: i <= j < k ==> !SameKey(groups[j], row)
    decreases |groups| - i
  {
    if i == |groups| || SameKey(groups[i], row) {
    } else {
      FindFromMeans(groups, row, i + 1);
    }
  }

  lemma FindMeans<A>(groups: seq<Group<A>>, row: InputRow)
    ensures var k := Find(groups, row);
            && (k < |groups| ==> SameKey(groups[k], row))
            && forall i :: 0 <= i < k ==> !SameKey(groups[i], row)
  {
    FindFromMeans(groups, row, 0);
  }

  /** The table after one more row: groups are kept in the order of their first rows. */
  function WithRow<A>(f: Aggregate<A>, groups: seq<Group<A>>, row: InputRow): (r: seq<Group<A>>)
    ensures |groups| <= |r| <= |groups| + 1
  {
    var k := Find(groups, row);
    if k < |groups| then groups[k := groups[k].(accumulator := f.add(groups[k].accumulator, row.value))]
    else groups + [Group(row.pre, row.rest, f.add(f.initial, row.value))]
  }

  /** The groups of the rows from `lo` up to and without `hi`. */
  function Grouped<A>(f: Aggregate<A>, rows: seq<InputRow>, lo: nat, hi: nat): seq<Group<A>>
    requires lo <= hi <= |rows|
    decreases hi
  {
    if lo == hi then [] else WithRow(f, Grouped(f, rows, lo, hi - 1), rows[hi - 1])
  }

  /** The fold of all values of one key, in order. */
  ghost function FoldOf<A>(f: Aggregate<A>, rows: seq<InputRow>, lo: nat, hi: nat, pre: int, rest: int): A
    requires lo <= hi <= |rows|
    decreases hi
  {
    if lo == hi then f.initial
    else
      var before := FoldOf(f, rows, lo, hi - 1, pre, rest);
      if rows[hi - 1].pre == pre && rows[hi - 1].rest == rest then f.add(before, rows[hi - 1].value) else before
  }

  ghost predicate HasKey(rows: seq<InputRow>, lo: nat, hi: nat, pre: int, rest: int)
    requires lo <= hi <= |rows|
  {
    exists i :: lo <= i < hi && rows[i].pre == pre && rows[i].rest == rest
  }

  lemma {:induction false} NoKeyNoFold<A>(f: Aggregate<A>, rows: seq<InputRow>, lo: nat, hi: nat, pre: int, rest: int)
    requires lo <= hi <= |rows| && !HasKey(rows, lo, hi, pre, rest)
    ensures FoldOf(f, rows, lo, hi, pre, rest) == f.initial
    decreases hi
  {
    if lo == hi {
    } else {
      assert !HasKey(rows, lo, hi - 1, pre, rest);
      NoKeyNoFold(f, rows, lo, hi - 1, pre, rest);
    }
  }

  ghost predicate OneGroupPerKey<A>(groups: seq<Group<A>>) {
    forall i, j :: 0 <= i < j < |groups| ==> groups[i].pre != groups[j].pre || groups[i].rest != groups[j].rest
  }

  /** Every group holds the fold of all its rows. */
  ghost predicate HoldsFolds<A>(f: Aggregate<A>, rows: seq<InputRow>, lo: nat, hi: nat, groups: seq<Group<A>>)
    requires lo <= hi <= |rows|
  {
    forall g :: g in groups ==>
      HasKey(rows, lo, hi, g.pre, g.rest) && g.accumulator == FoldOf(f, rows, lo, hi, g.pre, g.rest)
  }

  ghost predicate HasGroup<A>(groups: seq<Group<A>>, row: InputRow) {
    exists k :: 0 <= k < |groups| && SameKey(groups[k], row)
  }

  /** One group per distinct key, each with the full fold of its rows. */
  lemma {:induction false} GroupedMeans<A>(f: Aggregate<A>, rows: seq<InputRow>, lo: nat, hi: nat)
    requires lo <= hi <= |rows|
    ensures OneGroupPerKey(Grouped(f, rows, lo, hi)) && HoldsFolds(f, rows, lo, hi, Grouped(f, rows, lo, hi))
    ensures forall i :: lo <= i < hi ==> HasGroup(Grouped(f, rows, lo, hi), rows[i])
    decreases hi
  {
    if lo == hi {
    } else {
      GroupedMeans(f, rows, lo, hi - 1);
      var before := Grouped(f, rows, lo, hi - 1);
      WithRowFolds(f, rows, lo, hi, before);
      WithRowKeepsGroups(f, before, rows[hi - 1]);
    }
  }

  lemma WithRowKeepsGroups<A>(f: Aggregate<A>, groups: seq<Group<A>>, row: InputRow)
    requires OneGroupPerKey(groups)
    ensures OneGroupPerKey(WithRow(f, groups, row)) && HasGroup(WithRow(f, groups, row), row)
    ensures forall other :: HasGroup(groups, other) ==> HasGroup(WithRow(f, groups, row), other)
  {
    FindMeans(groups, row);
    var k, r := Find(groups, row), WithRow(f, groups, row);
    assert SameKey(r[k], row);
    forall other | HasGroup(groups, other)
      ensures HasGroup(r, other)
    {
      var i :| 0 <= i < |groups| && SameKey(groups[i], other);
      assert SameKey(r[i], other);
    }
  }

  lemma WithRowFolds<A>(f: Aggregate<A>, rows: seq<InputRow>, lo: nat, hi: nat, groups: seq<Group<A>>)
    requires lo < hi <= |rows| && OneGroupPerKey(groups) && HoldsFolds(f, rows, lo, hi - 1, groups)
    requires forall i :: lo <= i < hi - 1 ==> HasGroup(groups, rows[i])
    ensures HoldsFolds(f, rows, lo, hi, WithRow(f, groups, rows[hi - 1]))
  {
    var row := rows[hi - 1];
    FindMeans(groups, row);
    var k, r := Find(groups, row), WithRow(f, groups, row);
    forall g | g in r
      ensures HasKey(rows, lo, hi, g.pre, g.rest) && g.accumulator == FoldOf(f, rows, lo, hi, g.pre, g.rest)
    {
      var j :| 0 <= j < |r| && r[j] == g;
      if j < |groups| {
        assert groups[j] in groups && HasKey(rows, lo, hi - 1, g.pre, g.rest);
      } else {
        assert rows[hi - 1].pre == g.pre && rows[hi - 1].rest == g.rest;
        NoKeyNoFold(f, rows, lo, hi - 1, g.pre, g.rest);
      }
    }
  }

  // ------------------------------------------------------------------------------------------------
  // Grouping in pieces
  // ------------------------------------------------------------------------------------------------

  ghost predicate Parted(rows: seq<InputRow>, m: nat, i: nat, j: nat) {
    i < m <= j < |rows| ==> rows[i].pre != rows[j].pre
  }

  /** No pre-grouped key occurs on both sides of position `m`. */
  ghost predicate Closed(rows: seq<InputRow>, m: nat) {
    m <= |rows| && forall i: nat, j: nat :: Parted(rows, m, i, j)
  }

  ghost predicate InOneStretch(rows: seq<InputRow>, i: nat, j: nat, k: nat) {
    i < j < k < |rows| && rows[i].pre == rows[k].pre ==> rows[j].pre == rows[i].pre
  }

  /** Rows with equal pre-grouped keys are next to each other. */
  ghost predicate Clustered(rows: seq<InputRow>) {
    forall i: nat, j: nat, k: nat :: InOneStretch(rows, i, j, k)
  }

  /** In clustered input every change of the key closes what came before. */
  lemma ChangeCloses(rows: seq<InputRow>, m: nat)
    requires Clustered(rows) && 0 < m < |rows| && rows[m - 1].pre != rows[m].pre
    ensures Closed(rows, m)
  {
    forall i: nat, j: nat
      ensures Parted(rows, m, i, j)
    {
      assert InOneStretch(rows, i, m - 1, j) && InOneStretch(rows, i, m, j);
    }
  }

  lemma {:induction false} GroupsComeFromRows<A>(f: Aggregate<A>, rows: seq<InputRow>, lo: nat, hi: nat, k: nat)
    requires lo <= hi <= |rows| && k < |Grouped(f, rows, lo, hi)|
    ensures exists i :: lo <= i < hi && rows[i].pre == Grouped(f, rows, lo, hi)[k].pre
    decreases hi
  {
    if lo == hi {
    } else {
      var before := Grouped(f, rows, lo, hi - 1);
      if k < |before| {
        GroupsComeFromRows(f, rows, lo, hi - 1, k);
      } else {
        assert rows[hi - 1].pre == Grouped(f, rows, lo, hi)[k].pre;
      }
    }
  }

  lemma FindAfter<A>(a: seq<Group<A>>, b: seq<Group<A>>, row: InputRow)
    requires forall i :: 0 <= i < |a| ==> !SameKey(a[i], row)
    ensures Find(a + b, row) == |a| + Find(b, row)
  {
    FindMeans(a + b, row);
    FindMeans(b, row);
    assert forall i :: 0 <= i < |b| ==> (a + b)[|a| + i] == b[i];
  }

  lemma WithRowAfter<A>(f: Aggregate<A>, a: seq<Group<A>>, b: seq<Group<A>>, row: InputRow)
    requires forall i :: 0 <= i < |a| ==> !SameKey(a[i], row)
    ensures WithRow(f, a + b, row) == a + WithRow(f, b, row)
  {
    FindAfter(a, b, row);
  }

  /** A closed piece and what follows group independently. */
  lemma {:induction false} GroupedSplits<A>(f: Aggregate<A>, rows: seq<InputRow>, lo: nat, m: nat, hi: nat)
    requires lo <= m <= hi <= |rows| && Closed(rows, m)
    ensures Grouped(f, rows, lo, hi) == Grouped(f, rows, lo, m) + Grouped(f, rows, m, hi)
    decreases hi
  {
    if m == hi {
    } else {
      GroupedSplits(f, rows, lo, m, hi - 1);
      var a, b, row := Grouped(f, rows, lo, m), Grouped(f, rows, m, hi - 1), rows[hi - 1];
      forall i | 0 <= i < |a|
        ensures !SameKey(a[i], row)
      {
        GroupsComeFromRows(f, rows, lo, m, i);
        var k: nat :| lo <= k < m && rows[k].pre == a[i].pre;
        assert Parted(rows, m, k, hi - 1);
      }
      WithRowAfter(f, a, b, row);
    }
  }

  // ------------------------------------------------------------------------------------------------
  // The operator
  // ------------------------------------------------------------------------------------------------

  /** `cursor` is the position of the output iterator in the table; `remaining` are the rows of the last
      pre-group of a batch, kept back until the table has been flushed. */
  datatype State<A> = State(
    table: seq<Group<A>>,
    cursor: nat,
    remaining: seq<InputRow>,
    noMoreInput: bool,
    partialFull: bool,
    finished: bool)

  function AddAll<A>(f: Aggregate<A>, groups: seq<Group<A>>, rows: seq<InputRow>, n: nat): seq<Group<A>>
    requires n <= |rows|
  {
    if n == 0 then groups else WithRow(f, AddAll(f, groups, rows, n - 1), rows[n - 1])
  }

  /** How many rows of a batch come before its last pre-group; all of them if there is only one. Looks at
      the first `n` rows. */
  function Boundary(batch: seq<InputRow>, n: nat): (r: nat)
    requires n <= |batch|
    ensures r <= |batch|
    ensures r < |batch| ==> 0 < r < n && batch[r - 1].pre != batch[r].pre
    ensures r < |batch| ==> forall k :: r <= k < n ==> batch[k].pre == batch[n - 1].pre
    ensures r == |batch| ==> forall k :: 0 <= k < n ==> batch[k].pre == batch[n - 1].pre
  {
    if n < 2 then |batch|
    else if batch[n - 2].pre != batch[n - 1].pre then n - 1
    else Boundary(batch, n - 1)
  }

  /** The first `n` rows of a batch go to the table, behind those kept back before; the others are kept back. */
  function WithRows<A>(f: Aggregate<A>, s: State<A>, batch: seq<InputRow>, n: nat, overLimit: bool): State<A>
    requires n <= |batch|
  {
    s.(table := AddAll(f, AddAll(f, s.table, s.remaining, |s.remaining|), batch, n),
       remaining := batch[n..],
       partialFull := s.partialFull || overLimit)
  }

  function WithInput<A>(f: Aggregate<A>, s: State<A>, batch: seq<InputRow>, overLimit: bool): State<A> {
    WithRows(f, s, batch, Boundary(batch, |batch|), overLimit)
  }

  function WithNoMoreInput<A>(f: Aggregate<A>, s: State<A>): State<A> {
    s.(table := AddAll(f, s.table, s.remaining, |s.remaining|), remaining := [], noMoreInput := true)
  }

  predicate HasOutput<A>(s: State<A>) {
    !s.finished && (s.noMoreInput || s.partialFull || s.remaining != [])
  }

  function NumGroups<A>(s: State<A>, batchSize: nat): nat {
    if s.cursor >= |s.table| then 0
    else if batchSize < |s.table| - s.cursor then batchSize
    else |s.table| - s.cursor
  }

  /** The state after `getOutput`: at the end of the table it is cleared and the remaining rows go in; if
      the memory limit was hit it is then cleared once more. */
  function AfterOutput<A>(f: Aggregate<A>, s: State<A>, batchSize: nat): State<A> {
    if !HasOutput(s) then s
    else
      var n := NumGroups(s, batchSize);
      if n > 0 then s.(cursor := s.cursor + n)
      else State(
          if s.partialFull then [] else AddAll(f, [], s.remaining, |s.remaining|),
          0, [], s.noMoreInput, false, s.noMoreInput)
  }

  function OutputOf<A>(s: State<A>, batchSize: nat): seq<Group<A>> {
    var n := NumGroups(s, batchSize);
    if HasOutput(s) && n > 0 then s.table[s.cursor..s.cursor + n] else []
  }

  class HashAggregation<A> {
    const f: Aggregate<A>
    var table: seq<Group<A>>
    var cursor: nat
    var remaining: seq<InputRow>
    var noMoreInput: bool
    var partialFull: bool
    var finished: bool

    constructor (f: Aggregate<A>)
      ensures this.f == f && Now() == State([], 0, [], false, false, false)
    {
      this.f := f;
      table, cursor, remaining := [], 0, [];
      noMoreInput, partialFull, finished := false, false, false;
    }

    ghost function Now(): State<A>
      reads this
    {
      State(table, cursor, remaining, noMoreInput, partialFull, finished)
    }

    /** Adds the active rows to the table. */
    method AddRows(rows: seq<InputRow>, n: nat)
      requires n <= |rows|
      modifies this`table
      ensures table == AddAll(f, old(table), rows, n)
    {
      for i := 0 to n
        invariant table == AddAll(f, old(table), rows, i)
      {
        table := WithRow(f, table, rows[i]);
      }
    }

    /** The loop that looks for the last pre-group of a batch. */
    method FindBoundary(input: seq<InputRow>) returns (numRows: nat)
      ensures numRows == Boundary(input, |input|)
    {
      numRows := |input|;
      var i := |input| - 2;
      while i >= 0
        invariant -2 <= i <= |input| - 2 && numRows == |input|
        invariant Boundary(input, |input|) == if i < 0 then |input| else Boundary(input, i + 2)
      {
        if input[i].pre != input[i + 1].pre {
          numRows := i + 1;
          break;
        }
        i := i - 1;
      }
    }

    method AddInput(input: seq<InputRow>, overLimit: bool)
      requires !noMoreInput && !partialFull
      modifies this
      ensures Now() == WithInput(f, old(Now()), input, overLimit) && partialFull == overLimit
      ensures |remaining| <= |input| && remaining == input[|input| - |remaining|..]
      ensures forall k :: 0 <= k < |remaining| ==> remaining[k].pre == input[|input| - 1].pre
      ensures remaining == [] <==> forall k :: 0 <= k < |input| ==> input[k].pre == input[|input| - 1].pre
    {
      AddRows(remaining, |remaining|);
      var numRows := FindBoundary(input);
      remaining := input[numRows..];
      AddRows(input, numRows);
      partialFull := partialFull || overLimit;
    }

    method NoMoreInput()
      modifies this
      ensures Now() == WithNoMoreInput(f, old(Now()))
    {
      noMoreInput := true;
      AddRows(remaining, |remaining|);
      remaining := [];
    }

    method GetOutput(batchSize: nat) returns (output: seq<Group<A>>)
      modifies this
      ensures Now() == AfterOutput(f, old(Now()), batchSize) && output == OutputOf(old(Now()), batchSize)
      ensures |output| <= batchSize
      ensures !old(finished) && (old(noMoreInput) || old(partialFull) || old(remaining) != []) ==>
                && (old(cursor) + batchSize <= |old(table)| ==> |output| == batchSize)
                && (old(cursor) <= |old(table)| < old(cursor) + batchSize ==> |output| == |old(table)| - old(cursor))
                && forall i :: 0 <= i < |output| ==>
                     old(cursor) + i < |old(table)| && output[i] == old(table)[old(cursor) + i]
    {
      output := [];
      if finished || (!noMoreInput && !partialFull && remaining == []) {
        return;
      }
      var left := if cursor >= |table| then 0 else |table| - cursor;
      var numGroups := if batchSize < left then batchSize else left;
      if numGroups > 0 {
        output := table[cursor..cursor + numGroups];
        cursor := cursor + numGroups;
        return;
      }
      table := [];
      AddRows(remaining, |remaining|);
      remaining := [];
      cursor := 0;
      if noMoreInput {
        finished := true;
      }
      if partialFull {
        table := [];
        partialFull := false;
      }
    }
  }

  // ------------------------------------------------------------------------------------------------
  // Streaming is one-shot grouping
  // ------------------------------------------------------------------------------------------------

  /** `overLimit`: with the batch the table exceeds the memory limit of partial aggregation. */
  datatype Step = Add(batch: seq<InputRow>, overLimit: bool) | NoMore | Get(batchSize: nat)

  /** A state with the history behind it: of all rows, those before `p` have been flushed, those up to `q`
      are in the table and those up to `r` have been received; the groups of the rows before `closed` may
      have been listed. `lost` are the rows that were cleared without having been listed. */
  datatype Trace<A> = Trace(
    s: State<A>, p: nat, q: nat, r: nat, closed: nat, emitted: seq<Group<A>>, lost: seq<InputRow>)

  ghost predicate Enabled<A>(all: seq<InputRow>, t: Trace<A>, step: Step) {
    match step
    case Add(batch, _) =>
      !t.s.noMoreInput && !t.s.partialFull && t.r + |batch| <= |all| && batch == all[t.r..t.r + |batch|]
    case NoMore => !t.s.noMoreInput && t.r == |all|
    case Get(batchSize) => batchSize >= 1
  }

  /** A trace with one more batch, of which `n` rows are added. */
  ghost function WithBatch<A>(
    f: Aggregate<A>, t: Trace<A>, batch: seq<InputRow>, n: nat, overLimit: bool): Trace<A>
    requires n <= |batch|
  {
    t.(s := WithRows(f, t.s, batch, n, overLimit), q := t.r + n, r := t.r + |batch|)
  }

  ghost function Apply<A>(f: Aggregate<A>, all: seq<InputRow>, t: Trace<A>, step: Step): Trace<A>
    requires Enabled(all, t, step)
  {
    match step
    case Add(batch, overLimit) => WithBatch(f, t, batch, Boundary(batch, |batch|), overLimit)
    case NoMore => t.(s := WithNoMoreInput(f, t.s), q := t.r)
    case Get(batchSize) =>
      var s' := AfterOutput(f, t.s, batchSize);
      if !HasOutput(t.s) then t
      else if NumGroups(t.s, batchSize) > 0 then
        t.(s := s', closed := t.q, emitted := t.emitted + OutputOf(t.s, batchSize))
      else
        var flushed := if t.s.partialFull then t.r else t.q;
        Trace(s', flushed, t.r, t.r, flushed, t.emitted, t.lost + if t.s.partialFull then t.s.remaining else [])
  }

  /** The step clears a full table together with rows that were kept back. */
  ghost predicate LosesRows<A>(t: Trace<A>, step: Step) {
    && step.Get? && HasOutput(t.s) && NumGroups(t.s, step.batchSize) == 0
    && t.s.partialFull && t.s.remaining != []
  }

  /** Where the rows are. */
  ghost predicate Held<A>(
    f: Aggregate<A>, all: seq<InputRow>, table: seq<Group<A>>, remaining: seq<InputRow>, p: nat, q: nat, r: nat)
  {
    && p <= q <= r <= |all| && table == Grouped(f, all, p, q)
    && remaining == all[q..r] && (remaining != [] ==> Closed(all, q))
  }

  /** What has been emitted: everything flushed, and the listed part of a closed piece. */
  ghost predicate Listed<A>(
    f: Aggregate<A>, all: seq<InputRow>, p: nat, closed: nat, cursor: nat, emitted: seq<Group<A>>)
  {
    && p <= closed <= |all| && Closed(all, p) && Closed(all, closed)
    && cursor <= |Grouped(f, all, p, closed)|
    && emitted == Grouped(f, all, 0, p) + Grouped(f, all, p, closed)[..cursor]
  }

  ghost predicate Inv<A>(f: Aggregate<A>, all: seq<InputRow>, t: Trace<A>) {
    && Clustered(all) && !t.s.partialFull && t.closed <= t.q
    && Held(f, all, t.s.table, t.s.remaining, t.p, t.q, t.r)
    && Listed(f, all, t.p, t.closed, t.s.cursor, t.emitted)
    && (t.s.noMoreInput ==> t.q == t.r == |all|)
    && (t.s.finished ==> t.p == |all|)
  }

  lemma {:induction false} AddAllIsGrouped<A>(
      f: Aggregate<A>, all: seq<InputRow>, lo: nat, mid: nat, rows: seq<InputRow>, n: nat)
    requires lo <= mid && n <= |rows| && mid + |rows| <= |all| && rows == all[mid..mid + |rows|]
    ensures AddAll(f, Grouped(f, all, lo, mid), rows, n) == Grouped(f, all, lo, mid + n)
  {
    if n == 0 {
    } else {
      AddAllIsGrouped(f, all, lo, mid, rows, n - 1);
    }
  }

  lemma BatchCloses(all: seq<InputRow>, r: nat, batch: seq<InputRow>)
    requires Clustered(all) && r + |batch| <= |all| && batch == all[r..r + |batch|]
    ensures Boundary(batch, |batch|) < |batch| ==> Closed(all, r + Boundary(batch, |batch|))
  {
    var n := Boundary(batch, |batch|);
    if n < |batch| {
      assert all[r + n - 1] == batch[n - 1] && all[r + n] == batch[n];
      ChangeCloses(all, r + n);
    }
  }

  lemma AddedToTable<A>(
      f: Aggregate<A>, all: seq<InputRow>, remaining: seq<InputRow>, p: nat, q: nat, r: nat,
      batch: seq<InputRow>, n: nat)
    requires p <= q <= r && r + |batch| <= |all| && n <= |batch| && remaining == all[q..r]
    requires batch == all[r..r + |batch|]
    ensures AddAll(f, AddAll(f, Grouped(f, all, p, q), remaining, |remaining|), batch, n) == Grouped(f, all, p, r + n)
  {
    AddAllIsGrouped(f, all, p, q, remaining, |remaining|);
    assert q + |remaining| == r;
    AddAllIsGrouped(f, all, p, r, batch, n);
  }

  lemma SliceOfSlice(all: seq<InputRow>, r: nat, batch: seq<InputRow>, n: nat)
    requires r + |batch| <= |all| && batch == all[r..r + |batch|] && n <= |batch|
    ensures batch[n..] == all[r + n..r + |batch|]
  {
  }

  /** The table and the rows kept back after one more batch, of which `n` rows are added. */
  lemma HeldAfter<A>(
      f: Aggregate<A>, all: seq<InputRow>, table: seq<Group<A>>, remaining: seq<InputRow>, p: nat, q: nat,
      r: nat, batch: seq<InputRow>, n: nat)
    requires Held(f, all, table, remaining, p, q, r)
    requires r + |batch| <= |all| && batch == all[r..r + |batch|] && n <= |batch|
    requires n < |batch| ==> Closed(all, r + n)
    ensures var more := AddAll(f, AddAll(f, table, remaining, |remaining|), batch, n);
            Held(f, all, more, batch[n..], p, r + n, r + |batch|)
  {
    AddedToTable(f, all, remaining, p, q, r, batch, n);
    SliceOfSlice(all, r, batch, n);
  }

  /** Receiving rows changes neither what has been emitted nor what may be listed. */
  lemma MoreRowsHeld<A>(f: Aggregate<A>, all: seq<InputRow>, t: Trace<A>, s': State<A>, q': nat, r': nat)
    requires Inv(f, all, t) && !t.s.noMoreInput && s' == t.s.(table := s'.table, remaining := s'.remaining)
    requires t.q <= q' && Held(f, all, s'.table, s'.remaining, t.p, q', r')
    ensures Inv(f, all, t.(s := s', q := q', r := r'))
  {
  }

  lemma BatchHeld<A>(
      f: Aggregate<A>, all: seq<InputRow>, t: Trace<A>, batch: seq<InputRow>, n: nat, overLimit: bool)
    requires Held(f, all, t.s.table, t.s.remaining, t.p, t.q, t.r) && n <= |batch|
    requires t.r + |batch| <= |all| && batch == all[t.r..t.r + |batch|] && (n < |batch| ==> Closed(all, t.r + n))
    ensures var t' := WithBatch(f, t, batch, n, overLimit);
            Held(f, all, t'.s.table, t'.s.remaining, t'.p, t'.q, t'.r)
  {
    HeldAfter(f, all, t.s.table, t.s.remaining, t.p, t.q, t.r, batch, n);
  }

  lemma BatchKeeps<A>(f: Aggregate<A>, all: seq<InputRow>, t: Trace<A>, batch: seq<InputRow>, n: nat)
    requires Inv(f, all, t) && Enabled(all, t, Add(batch, false)) && n <= |batch|
    requires n < |batch| ==> Closed(all, t.r + n)
    ensures Inv(f, all, WithBatch(f, t, batch, n, false))
  {
    var t' := WithBatch(f, t, batch, n, false);
    BatchHeld(f, all, t, batch, n, false);
    MoreRowsHeld(f, all, t, t'.s, t'.q, t'.r);
  }

  lemma AddKeeps<A>(f: Aggregate<A>, all: seq<InputRow>, t: Trace<A>, batch: seq<InputRow>)
    requires Inv(f, all, t) && Enabled(all, t, Add(batch, false))
    ensures Inv(f, all, Apply(f, all, t, Add(batch, false)))
  {
    BatchCloses(all, t.r, batch);
    BatchKeeps(f, all, t, batch, Boundary(batch, |batch|));
  }

  lemma NoMoreKeeps<A>(f: Aggregate<A>, all: seq<InputRow>, t: Trace<A>)
    requires Inv(f, all, t) && Enabled(all, t, NoMore)
    ensures Inv(f, all, Apply(f, all, t, NoMore))
  {
    AddAllIsGrouped(f, all, t.p, t.q, t.s.remaining, |t.s.remaining|);
  }

  /** Whatever may be listed is complete. */
  lemma TableIsClosed<A>(f: Aggregate<A>, all: seq<InputRow>, t: Trace<A>)
    requires Inv(f, all, t) && HasOutput(t.s)
    ensures Closed(all, t.q)
    ensures t.s.cursor <= |t.s.table|
    ensures t.emitted == Grouped(f, all, 0, t.p) + t.s.table[..t.s.cursor]
  {
    GroupedSplits(f, all, t.p, t.closed, t.q);
  }

  lemma ListMore<T>(before: seq<T>, table: seq<T>, c: nat, n: nat)
    requires c + n <= |table|
    ensures (before + table[..c]) + table[c..c + n] == before + table[..c + n]
  {
    assert table[..c + n] == table[..c] + table[c..c + n];
  }

  lemma ListedMore<A>(
      f: Aggregate<A>, all: seq<InputRow>, p: nat, q: nat, table: seq<Group<A>>, c: nat, n: nat,
      emitted: seq<Group<A>>)
    requires p <= q <= |all| && Closed(all, p) && Closed(all, q) && table == Grouped(f, all, p, q) && c + n <= |table|
    requires emitted == Grouped(f, all, 0, p) + table[..c]
    ensures Listed(f, all, p, q, c + n, emitted + table[c..c + n])
  {
    ListMore(Grouped(f, all, 0, p), table, c, n);
  }

  lemma EmitKeeps<A>(f: Aggregate<A>, all: seq<InputRow>, t: Trace<A>, batchSize: nat)
    requires Inv(f, all, t) && HasOutput(t.s) && NumGroups(t.s, batchSize) > 0 && batchSize >= 1
    ensures Inv(f, all, Apply(f, all, t, Get(batchSize)))
  {
    var c, n := t.s.cursor, NumGroups(t.s, batchSize);
    var t' := Apply(f, all, t, Get(batchSize));
    assert t' == t.(s := t.s.(cursor := c + n), closed := t.q, emitted := t.emitted + t.s.table[c..c + n]);
    assert Listed(f, all, t.p, t.q, c + n, t'.emitted) by {
      TableIsClosed(f, all, t);
      ListedMore(f, all, t.p, t.q, t.s.table, c, n, t.emitted);
    }
  }

  lemma DrainedIsListed<A>(f: Aggregate<A>, all: seq<InputRow>, p: nat, q: nat, emitted: seq<Group<A>>)
    requires p <= q <= |all| && Closed(all, p) && Closed(all, q)
    requires emitted == Grouped(f, all, 0, p) + Grouped(f, all, p, q)
    ensures Listed(f, all, q, q, 0, emitted)
  {
    GroupedSplits(f, all, 0, p, q);
    assert emitted == Grouped(f, all, 0, q) + [];
  }

  lemma DrainKeeps<A>(f: Aggregate<A>, all: seq<InputRow>, t: Trace<A>, batchSize: nat)
    requires Inv(f, all, t) && HasOutput(t.s) && NumGroups(t.s, batchSize) == 0 && batchSize >= 1
    ensures Inv(f, all, Apply(f, all, t, Get(batchSize)))
  {
    var t' := Apply(f, all, t, Get(batchSize));
    var table := AddAll(f, [], t.s.remaining, |t.s.remaining|);
    var s' := State(table, 0, [], t.s.noMoreInput, false, t.s.noMoreInput);
    assert t' == Trace(s', t.q, t.r, t.r, t.q, t.emitted, t.lost + []);
    assert Listed(f, all, t.q, t.q, 0, t.emitted) by {
      TableIsClosed(f, all, t);
      assert t.s.table[..t.s.cursor] == t.s.table;
      DrainedIsListed(f, all, t.p, t.q, t.emitted);
    }
    assert table == Grouped(f, all, t.q, t.r) by {
      AddAllIsGrouped(f, all, t.q, t.q, t.s.remaining, |t.s.remaining|);
    }
  }

  lemma GetKeeps<A>(f: Aggregate<A>, all: seq<InputRow>, t: Trace<A>, batchSize: nat)
    requires Inv(f, all, t) && Enabled(all, t, Get(batchSize))
    ensures Inv(f, all, Apply(f, all, t, Get(batchSize)))
  {
    if HasOutput(t.s) {
      if NumGroups(t.s, batchSize) > 0 {
        EmitKeeps(f, all, t, batchSize);
      } else {
        DrainKeeps(f, all, t, batchSize);
      }
    }
  }

  ghost predicate IsRun<A>(f: Aggregate<A>, all: seq<InputRow>, traces: seq<Trace<A>>, steps: seq<Step>) {
    && |traces| == |steps| + 1 && traces[0] == Trace(State([], 0, [], false, false, false), 0, 0, 0, 0, [], [])
    && forall k: nat :: k < |steps| ==> StepAt(f, all, traces, steps, k)
  }

  ghost predicate StepAt<A>(f: Aggregate<A>, all: seq<InputRow>, traces: seq<Trace<A>>, steps: seq<Step>, k: nat) {
    && k < |steps| && k + 1 < |traces|
    && Enabled(all, traces[k], steps[k]) && traces[k + 1] == Apply(f, all, traces[k], steps[k])
  }

  /** No batch exceeds the memory limit, as in every final aggregation. */
  ghost predicate NeverFull(steps: seq<Step>) {
    forall k :: 0 <= k < |steps| && steps[k].Add? ==> !steps[k].overLimit
  }

  lemma {:induction false} RunKeeps<A>(
      f: Aggregate<A>, all: seq<InputRow>, traces: seq<Trace<A>>, steps: seq<Step>, n: nat)
    requires IsRun(f, all, traces, steps) && Clustered(all) && n <= |steps| && NeverFull(steps)
    ensures Inv(f, all, traces[n])
  {
    if n == 0 {
    } else {
      RunKeeps(f, all, traces, steps, n - 1);
      assert StepAt(f, all, traces, steps, n - 1);
      match steps[n - 1]
      case Add(batch, _) => AddKeeps(f, all, traces[n - 1], batch);
      case NoMore => NoMoreKeeps(f, all, traces[n - 1]);
      case Get(batchSize) => GetKeeps(f, all, traces[n - 1], batchSize);
    }
  }

  /** However the rows are cut into batches, whatever the output batch sizes and whether or not the output
      is drained between inputs: the groups emitted by the end are those of one-shot grouping, each once. */
  lemma StreamingIsOneShot<A>(f: Aggregate<A>, all: seq<InputRow>, traces: seq<Trace<A>>, steps: seq<Step>)
    requires IsRun(f, all, traces, steps) && Clustered(all) && NeverFull(steps) && traces[|steps|].s.finished
    ensures traces[|steps|].emitted == Grouped(f, all, 0, |all|)
  {
    var t := traces[|steps|];
    RunKeeps(f, all, traces, steps, |steps|);
    assert t.emitted == Grouped(f, all, 0, t.p) + [];
  }

  // ------------------------------------------------------------------------------------------------
  // The memory limit of partial aggregation
  // ------------------------------------------------------------------------------------------------

  /** The aggregate that keeps every value. */
  function Collect(): Aggregate<multiset<int>> {
    Aggregate(multiset{}, (values: multiset<int>, value: int) => values + multiset{value})
  }

  type Collection = Group<multiset<int>>

  /** How often `x` is among the rows from `lo` up to and without `hi`. */
  ghost function Occurs(rows: seq<InputRow>, lo: nat, hi: nat, x: InputRow): nat
    requires lo <= hi <= |rows|
    decreases hi
  {
    if lo == hi then 0 else Occurs(rows, lo, hi - 1, x) + if rows[hi - 1] == x then 1 else 0
  }

  /** How often the group holds the value of `x` for the key of `x`. */
  ghost function HeldBy(g: Collection, x: InputRow): nat {
    if g.pre == x.pre && g.rest == x.rest then g.accumulator[x.value] else 0
  }

  /** The same for the first `n` groups together. */
  ghost function Collected(groups: seq<Collection>, n: nat, x: InputRow): nat
    requires n <= |groups|
  {
    if n == 0 then 0 else Collected(groups, n - 1, x) + HeldBy(groups[n - 1], x)
  }

  lemma {:induction false} OccursSplit(rows: seq<InputRow>, lo: nat, mid: nat, hi: nat, x: InputRow)
    requires lo <= mid <= hi <= |rows|
    ensures Occurs(rows, lo, hi, x) == Occurs(rows, lo, mid, x) + Occurs(rows, mid, hi, x)
    decreases hi
  {
    if mid == hi {
    } else {
      OccursSplit(rows, lo, mid, hi - 1, x);
    }
  }

  /** `part` stands at `lo` in `rows`. */
  lemma {:induction false} OccursInPart(rows: seq<InputRow>, part: seq<InputRow>, lo: nat, n: nat, x: InputRow)
    requires n <= |part| && lo + |part| <= |rows| && forall i :: 0 <= i < |part| ==> part[i] == rows[lo + i]
    ensures Occurs(part, 0, n, x) == Occurs(rows, lo, lo + n, x)
  {
    if n == 0 {
    } else {
      OccursInPart(rows, part, lo, n - 1, x);
    }
  }

  lemma OccursAppend(rows: seq<InputRow>, more: seq<InputRow>, x: InputRow)
    ensures Occurs(rows + more, 0, |rows + more|, x) == Occurs(rows, 0, |rows|, x) + Occurs(more, 0, |more|, x)
  {
    var both := rows + more;
    assert forall i :: 0 <= i < |more| ==> more[i] == both[|rows| + i];
    OccursSplit(both, 0, |rows|, |both|, x);
    OccursInPart(both, rows, 0, |rows|, x);
    OccursInPart(both, more, |rows|, |more|, x);
  }

  lemma {:induction false} CollectedSame(a: seq<Collection>, b: seq<Collection>, n: nat, x: InputRow)
    requires n <= |a| && n <= |b| && forall i :: 0 <= i < n ==> a[i] == b[i]
    ensures Collected(a, n, x) == Collected(b, n, x)
  {
    if n == 0 {
    } else {
      CollectedSame(a, b, n - 1, x);
    }
  }

  /** Appending `n` groups from position `c` of a table. */
  lemma {:induction false} CollectedMore(emitted: seq<Collection>, table: seq<Collection>, c: nat, n: nat, x: InputRow)
    requires c + n <= |table|
    ensures Collected(emitted + table[c..c + n], |emitted| + n, x)
         == Collected(emitted, |emitted|, x) + Collected(table, c + n, x) - Collected(table, c, x)
  {
    var more := emitted + table[c..c + n];
    if n == 0 {
      CollectedSame(more, emitted, |emitted|, x);
    } else {
      CollectedMore(emitted, table, c, n - 1, x);
      CollectedSame(more, emitted + table[c..c + n - 1], |emitted| + n - 1, x);
      assert more[|emitted| + n - 1] == table[c + n - 1];
    }
  }

  /** Updating one group. */
  lemma {:induction false} CollectedUpdate(groups: seq<Collection>, k: nat, g: Collection, n: nat, x: InputRow)
    requires k < n <= |groups|
    ensures Collected(groups[k := g], n, x) == Collected(groups, n, x) - HeldBy(groups[k], x) + HeldBy(g, x)
  {
    if k == n - 1 {
      CollectedSame(groups[k := g], groups, n - 1, x);
    } else {
      CollectedUpdate(groups, k, g, n - 1, x);
    }
  }

  lemma WithRowCollects(groups: seq<Collection>, row: InputRow, x: InputRow)
    ensures var after := WithRow(Collect(), groups, row);
            Collected(after, |after|, x) == Collected(groups, |groups|, x) + if row == x then 1 else 0
  {
    FindMeans(groups, row);
    var k, after := Find(groups, row), WithRow(Collect(), groups, row);
    if k < |groups| {
      CollectedUpdate(groups, k, after[k], |groups|, x);
    } else {
      CollectedSame(after, groups, |groups|, x);
    }
  }

  /** The groups of a table hold the values of its rows. */
  lemma {:induction false} GroupedCollects(rows: seq<InputRow>, lo: nat, hi: nat, x: InputRow)
    requires lo <= hi <= |rows|
    ensures Collected(Grouped(Collect(), rows, lo, hi), |Grouped(Collect(), rows, lo, hi)|, x)
        == Occurs(rows, lo, hi, x)
    decreases hi
  {
    if lo == hi {
    } else {
      GroupedCollects(rows, lo, hi - 1, x);
      WithRowCollects(Grouped(Collect(), rows, lo, hi - 1), rows[hi - 1], x);
    }
  }

  /** The groups already listed will not change: they are complete, or no more rows are added before the
      table is cleared. */
  ghost predicate Settled<A>(all: seq<InputRow>, t: Trace<A>) {
    || t.s.cursor == 0
    || Closed(all, t.closed)
    || (t.closed == t.q && (t.s.noMoreInput || (t.s.partialFull && t.s.remaining == [])))
  }

  /** As `Inv`, with the limit: what was flushed need not be complete. */
  ghost predicate FlushInv<A>(f: Aggregate<A>, all: seq<InputRow>, t: Trace<A>) {
    && Clustered(all) && t.p <= t.closed <= t.q
    && Held(f, all, t.s.table, t.s.remaining, t.p, t.q, t.r)
    && t.s.cursor <= |Grouped(f, all, t.p, t.closed)| && Settled(all, t)
    && (t.s.noMoreInput ==> t.q == t.r == |all|)
    && (t.s.finished ==> t.p == |all| && t.s.cursor == 0)
  }

  lemma FlushBatchKeeps<A>(
      f: Aggregate<A>, all: seq<InputRow>, t: Trace<A>, batch: seq<InputRow>, n: nat, overLimit: bool)
    requires FlushInv(f, all, t) && Enabled(all, t, Add(batch, overLimit)) && n <= |batch|
    requires n < |batch| ==> Closed(all, t.r + n)
    ensures FlushInv(f, all, WithBatch(f, t, batch, n, overLimit))
  {
    BatchHeld(f, all, t, batch, n, overLimit);
    MoreRowsFlushable(f, all, t, WithBatch(f, t, batch, n, overLimit));
  }

  lemma FlushAddKeeps<A>(f: Aggregate<A>, all: seq<InputRow>, t: Trace<A>, batch: seq<InputRow>, overLimit: bool)
    requires FlushInv(f, all, t) && Enabled(all, t, Add(batch, overLimit))
    ensures FlushInv(f, all, Apply(f, all, t, Add(batch, overLimit)))
  {
    BatchCloses(all, t.r, batch);
    FlushBatchKeeps(f, all, t, batch, Boundary(batch, |batch|), overLimit);
  }

  lemma MoreRowsFlushable<A>(f: Aggregate<A>, all: seq<InputRow>, t: Trace<A>, t': Trace<A>)
    requires FlushInv(f, all, t) && !t.s.noMoreInput && !t.s.partialFull && t.q <= t'.q
    requires Held(f, all, t'.s.table, t'.s.remaining, t'.p, t'.q, t'.r)
    requires t'.p == t.p && t'.closed == t.closed && t'.s.cursor == t.s.cursor
    requires !t'.s.noMoreInput && t'.s.finished == t.s.finished
    ensures FlushInv(f, all, t')
  {
  }

  lemma FlushNoMoreKeeps<A>(f: Aggregate<A>, all: seq<InputRow>, t: Trace<A>)
    requires FlushInv(f, all, t) && Enabled(all, t, NoMore)
    ensures FlushInv(f, all, Apply(f, all, t, NoMore))
  {
    AddAllIsGrouped(f, all, t.p, t.q, t.s.remaining, |t.s.remaining|);
  }

  /** The listed groups are the first of the table. */
  lemma ListedPrefix<A>(f: Aggregate<A>, all: seq<InputRow>, t: Trace<A>)
    requires FlushInv(f, all, t)
    ensures t.s.cursor <= |t.s.table| && t.s.table[..t.s.cursor] == Grouped(f, all, t.p, t.closed)[..t.s.cursor]
  {
    if t.s.cursor > 0 && Closed(all, t.closed) {
      GroupedSplits(f, all, t.p, t.closed, t.q);
    }
  }

  lemma FlushEmitKeeps<A>(f: Aggregate<A>, all: seq<InputRow>, t: Trace<A>, batchSize: nat)
    requires FlushInv(f, all, t) && Enabled(all, t, Get(batchSize))
    requires HasOutput(t.s) && NumGroups(t.s, batchSize) > 0
    ensures FlushInv(f, all, Apply(f, all, t, Get(batchSize)))
  {
  }

  lemma FlushDrainKeeps<A>(f: Aggregate<A>, all: seq<InputRow>, t: Trace<A>, batchSize: nat)
    requires FlushInv(f, all, t) && Enabled(all, t, Get(batchSize))
    requires HasOutput(t.s) && NumGroups(t.s, batchSize) == 0
    ensures FlushInv(f, all, Apply(f, all, t, Get(batchSize)))
  {
    AddAllIsGrouped(f, all, t.q, t.q, t.s.remaining, |t.s.remaining|);
  }

  lemma FlushStepKeeps<A>(f: Aggregate<A>, all: seq<InputRow>, t: Trace<A>, step: Step)
    requires FlushInv(f, all, t) && Enabled(all, t, step)
    ensures FlushInv(f, all, Apply(f, all, t, step))
  {
    match step
    case Add(batch, overLimit) => FlushAddKeeps(f, all, t, batch, overLimit);
    case NoMore => FlushNoMoreKeeps(f, all, t);
    case Get(batchSize) =>
      if HasOutput(t.s) {
        if NumGroups(t.s, batchSize) > 0 {
          FlushEmitKeeps(f, all, t, batchSize);
        } else {
          FlushDrainKeeps(f, all, t, batchSize);
        }
      }
  }

  /** Emitted and lost values are those of the rows flushed and of the groups listed. */
  ghost predicate Conserved(all: seq<InputRow>, t: Trace<multiset<int>>, x: InputRow)
    requires t.p <= t.closed <= |all| && t.s.cursor <= |Grouped(Collect(), all, t.p, t.closed)|
  {
    Collected(t.emitted, |t.emitted|, x) + Occurs(t.lost, 0, |t.lost|, x)
    == Occurs(all, 0, t.p, x) + Collected(Grouped(Collect(), all, t.p, t.closed), t.s.cursor, x)
  }

  lemma ListedValues(all: seq<InputRow>, t: Trace<multiset<int>>, x: InputRow)
    requires FlushInv(Collect(), all, t)
    ensures t.s.cursor <= |t.s.table|
    ensures Collected(Grouped(Collect(), all, t.p, t.closed), t.s.cursor, x) == Collected(t.s.table, t.s.cursor, x)
  {
    var listed := Grouped(Collect(), all, t.p, t.closed);
    ListedPrefix(Collect(), all, t);
    forall i | 0 <= i < t.s.cursor
      ensures listed[i] == t.s.table[i]
    {
      assert listed[i] == listed[..t.s.cursor][i] && t.s.table[i] == t.s.table[..t.s.cursor][i];
    }
    CollectedSame(listed, t.s.table, t.s.cursor, x);
  }

  lemma ConservedMore(all: seq<InputRow>, t: Trace<multiset<int>>, t': Trace<multiset<int>>, n: nat, x: InputRow)
    requires t.p <= t.q <= |all| && t.s.table == Grouped(Collect(), all, t.p, t.q) && t.s.cursor + n <= |t.s.table|
    requires Collected(t.emitted, |t.emitted|, x) + Occurs(t.lost, 0, |t.lost|, x)
          == Occurs(all, 0, t.p, x) + Collected(t.s.table, t.s.cursor, x)
    requires Collected(t'.emitted, |t'.emitted|, x) == Collected(t.emitted, |t.emitted|, x)
          + Collected(t.s.table, t.s.cursor + n, x) - Collected(t.s.table, t.s.cursor, x)
    requires t'.p == t.p && t'.closed == t.q && t'.s.cursor == t.s.cursor + n && t'.lost == t.lost
    ensures Conserved(all, t', x)
  {
  }

  lemma EmittedMore(t: Trace<multiset<int>>, t': Trace<multiset<int>>, c: nat, n: nat, x: InputRow)
    requires c + n <= |t.s.table| && t'.emitted == t.emitted + t.s.table[c..c + n]
    ensures Collected(t'.emitted, |t'.emitted|, x) == Collected(t.emitted, |t.emitted|, x)
          + Collected(t.s.table, c + n, x) - Collected(t.s.table, c, x)
  {
    CollectedMore(t.emitted, t.s.table, c, n, x);
    assert |t'.emitted| == |t.emitted| + n;
  }

  lemma EmitConserves(all: seq<InputRow>, t: Trace<multiset<int>>, t': Trace<multiset<int>>, n: nat, x: InputRow)
    requires t.p <= t.q <= |all| && t.s.table == Grouped(Collect(), all, t.p, t.q) && t.s.cursor + n <= |t.s.table|
    requires Collected(t.emitted, |t.emitted|, x) + Occurs(t.lost, 0, |t.lost|, x)
          == Occurs(all, 0, t.p, x) + Collected(t.s.table, t.s.cursor, x)
    requires t'.emitted == t.emitted + t.s.table[t.s.cursor..t.s.cursor + n]
    requires t'.p == t.p && t'.closed == t.q && t'.s.cursor == t.s.cursor + n && t'.lost == t.lost
    ensures Conserved(all, t', x)
  {
    EmittedMore(t, t', t.s.cursor, n, x);
    ConservedMore(all, t, t', n, x);
  }

  /** Once the table is listed to its end, everything before `q` is accounted for. */
  lemma DrainedValues(all: seq<InputRow>, t: Trace<multiset<int>>, x: InputRow)
    requires FlushInv(Collect(), all, t) && Conserved(all, t, x) && t.s.cursor >= |t.s.table|
    ensures Collected(t.emitted, |t.emitted|, x) + Occurs(t.lost, 0, |t.lost|, x) == Occurs(all, 0, t.q, x)
  {
    ListedValues(all, t, x);
    GroupedCollects(all, t.p, t.q, x);
    OccursSplit(all, 0, t.p, t.q, x);
  }

  lemma LostValues(all: seq<InputRow>, q: nat, r: nat, remaining: seq<InputRow>, lost: seq<InputRow>, x: InputRow)
    requires q <= r <= |all| && remaining == all[q..r]
    ensures Occurs(lost + remaining, 0, |lost + remaining|, x) == Occurs(lost, 0, |lost|, x) + Occurs(all, q, r, x)
  {
    OccursAppend(lost, remaining, x);
    OccursInPart(all, remaining, q, |remaining|, x);
  }

  lemma DrainConserves(all: seq<InputRow>, t: Trace<multiset<int>>, batchSize: nat, x: InputRow)
    requires FlushInv(Collect(), all, t) && Enabled(all, t, Get(batchSize)) && Conserved(all, t, x)
    requires HasOutput(t.s) && NumGroups(t.s, batchSize) == 0
    requires FlushInv(Collect(), all, Apply(Collect(), all, t, Get(batchSize)))
    ensures Conserved(all, Apply(Collect(), all, t, Get(batchSize)), x)
  {
    DrainedValues(all, t, x);
    if t.s.partialFull {
      LostValues(all, t.q, t.r, t.s.remaining, t.lost, x);
      OccursSplit(all, 0, t.q, t.r, x);
    } else {
      assert t.lost + [] == t.lost;
    }
  }

  lemma GetConserves(all: seq<InputRow>, t: Trace<multiset<int>>, batchSize: nat, x: InputRow)
    requires FlushInv(Collect(), all, t) && Enabled(all, t, Get(batchSize)) && Conserved(all, t, x)
    requires FlushInv(Collect(), all, Apply(Collect(), all, t, Get(batchSize)))
    ensures Conserved(all, Apply(Collect(), all, t, Get(batchSize)), x)
  {
    if HasOutput(t.s) {
      if NumGroups(t.s, batchSize) > 0 {
        ListedValues(all, t, x);
        EmitConserves(all, t, Apply(Collect(), all, t, Get(batchSize)), NumGroups(t.s, batchSize), x);
      } else {
        DrainConserves(all, t, batchSize, x);
      }
    }
  }

  lemma StepConserves(all: seq<InputRow>, t: Trace<multiset<int>>, step: Step, x: InputRow)
    requires FlushInv(Collect(), all, t) && Enabled(all, t, step) && Conserved(all, t, x)
    ensures FlushInv(Collect(), all, Apply(Collect(), all, t, step))
    ensures Conserved(all, Apply(Collect(), all, t, step), x)
  {
    FlushStepKeeps(Collect(), all, t, step);
    if step.Get? {
      GetConserves(all, t, step.batchSize, x);
    }
  }

  lemma {:induction false} RunConserves(
      all: seq<InputRow>, traces: seq<Trace<multiset<int>>>, steps: seq<Step>, n: nat, x: InputRow)
    requires IsRun(Collect(), all, traces, steps) && Clustered(all) && n <= |steps|
    ensures FlushInv(Collect(), all, traces[n]) && Conserved(all, traces[n], x)
  {
    if n == 0 {
    } else {
      RunConserves(all, traces, steps, n - 1, x);
      assert StepAt(Collect(), all, traces, steps, n - 1);
      StepConserves(all, traces[n - 1], steps[n - 1], x);
    }
  }

  ghost predicate LosesRowsAt<A>(traces: seq<Trace<A>>, steps: seq<Step>, k: nat) {
    k < |steps| && k < |traces| && LosesRows(traces[k], steps[k])
  }

  lemma {:induction false} LostOnlyThere<A>(
      f: Aggregate<A>, all: seq<InputRow>, traces: seq<Trace<A>>, steps: seq<Step>, n: nat)
    requires IsRun(f, all, traces, steps) && n <= |steps|
    ensures traces[n].lost == [] <==> forall k: nat :: k < n ==> !LosesRowsAt(traces, steps, k)
  {
    if n == 0 {
    } else {
      LostOnlyThere(f, all, traces, steps, n - 1);
      assert StepAt(f, all, traces, steps, n - 1);
      assert traces[n].lost == [] <==> traces[n - 1].lost == [] && !LosesRowsAt(traces, steps, n - 1);
    }
  }

  lemma LostIsMissed(lost: seq<InputRow>)
    requires lost != []
    ensures Occurs(lost, 0, |lost|, lost[0]) > 0
  {
    OccursSplit(lost, 0, 1, |lost|, lost[0]);
    assert Occurs(lost, 0, 0, lost[0]) == 0;
  }

  /** The groups emitted hold every value of every key as often as the input, if need be over several groups
      of one key. */
  ghost predicate HoldsAll(all: seq<InputRow>, emitted: seq<Collection>) {
    forall x :: Collected(emitted, |emitted|, x) == Occurs(all, 0, |all|, x)
  }

  lemma FinishedConserves(all: seq<InputRow>, traces: seq<Trace<multiset<int>>>, steps: seq<Step>, x: InputRow)
    requires IsRun(Collect(), all, traces, steps) && Clustered(all) && traces[|steps|].s.finished
    ensures var t := traces[|steps|];
            Collected(t.emitted, |t.emitted|, x) + Occurs(t.lost, 0, |t.lost|, x) == Occurs(all, 0, |all|, x)
  {
    RunConserves(all, traces, steps, |steps|, x);
  }

  /** Over every run of a partial aggregation, whenever the limit is hit: the groups emitted by the end hold
      exactly the values of their keys if and only if no full table is cleared while rows are kept back. */
  lemma FlushKeepsValuesIff(all: seq<InputRow>, traces: seq<Trace<multiset<int>>>, steps: seq<Step>)
    requires IsRun(Collect(), all, traces, steps) && Clustered(all) && traces[|steps|].s.finished
    ensures HoldsAll(all, traces[|steps|].emitted)
       <==> forall k: nat :: k < |steps| ==> !LosesRowsAt(traces, steps, k)
  {
    var t := traces[|steps|];
    LostOnlyThere(Collect(), all, traces, steps, |steps|);
    if t.lost == [] {
      forall x
        ensures Collected(t.emitted, |t.emitted|, x) == Occurs(all, 0, |all|, x)
      {
        FinishedConserves(all, traces, steps, x);
      }
    } else {
      LostIsMissed(t.lost);
      FinishedConserves(all, traces, steps, t.lost[0]);
    }
  }

  /** Two rows of different pre-groups and a limit hit by the first batch: the second row never comes out. */
  lemma FlushLosesRows(f: Aggregate<int>)
    ensures var s0: State<int> := State([], 0, [], false, false, false);
            var s1 := WithInput(f, s0, [InputRow(1, 0, 10), InputRow(2, 0, 20)], true);
            var s2 := AfterOutput(f, s1, 10);
            var s3 := AfterOutput(f, s2, 10);
            var s4 := WithNoMoreInput(f, s3);
            && OutputOf(s1, 10) == [Group(1, 0, f.add(f.initial, 10))] && OutputOf(s2, 10) == []
            && AfterOutput(f, s4, 10).finished && OutputOf(s4, 10) == []
  {
    var batch := [InputRow(1, 0, 10), InputRow(2, 0, 20)];
    assert Boundary(batch, 2) == 1;
    assert AddAll(f, [], batch, 0) == [];
    assert AddAll(f, [], batch, 1) == [Group(1, 0, f.add(f.initial, 10))];
  }
}
