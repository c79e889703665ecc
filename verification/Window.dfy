/** Aggregates as window functions: an incremental path that resumes across output blocks. */
module Windows {
  import opened Options

  /** An aggregate function: accumulators of type `A`, results of type `R`. */
  datatype WindowFunction<!A, !R> = WindowFunction(initial: A, add: (A, int) -> A, extract: A -> R)

  /** Adding the rows from `lo` up to and without `hi`, in order. */
  function Fold<A, R>(f: WindowFunction<A, R>, acc: A, rows: seq<int>, lo: nat, hi: nat): A
    requires lo <= hi <= |rows|
    decreases hi
  {
    if hi == lo then acc else f.add(Fold(f, acc, rows, lo, hi - 1), rows[hi - 1])
  }

  lemma {:induction false} FoldResumes<A, R>(
      f: WindowFunction<A, R>, acc: A, rows: seq<int>, lo: nat, mid: nat, hi: nat)
    requires lo <= mid <= hi <= |rows|
    ensures Fold(f, Fold(f, acc, rows, lo, mid), rows, mid, hi) == Fold(f, acc, rows, lo, hi)
  {
    if mid == hi {
    } else {
      FoldResumes(f, acc, rows, lo, mid, hi - 1);
    }
  }

  lemma {:induction false} FoldShifts<A, R>(
      f: WindowFunction<A, R>, acc: A, rows: seq<int>, first: nat, last: nat, lo: nat, hi: nat)
    requires first <= last <= |rows| && lo <= hi <= last - first
    ensures Fold(f, acc, rows[first..last], lo, hi) == Fold(f, acc, rows, first + lo, first + hi)
  {
    if lo == hi {
    } else {
      FoldShifts(f, acc, rows, first, last, lo, hi - 1);
    }
  }

  /** The aggregate of exactly the rows of a frame: what every result is meant to be. */
  function FrameResult<A, R>(f: WindowFunction<A, R>, rows: seq<int>, start: nat, end: nat): R
    requires start <= end < |rows|
  {
    f.extract(Fold(f, f.initial, rows, start, end + 1))
  }

  // ------------------------------------------------------------------------------------------------
  // What an aggregate is
  // ------------------------------------------------------------------------------------------------

  /** `g` says what the accumulator is after any rows, one by one. */
  ghost predicate Accumulates<A(!new), R>(f: WindowFunction<A, R>, g: seq<int> -> A) {
    g([]) == f.initial && forall s, x :: AddsLast(f, g, s, x)
  }

  ghost predicate AddsLast<A(!new), R>(f: WindowFunction<A, R>, g: seq<int> -> A, s: seq<int>, x: int) {
    g(s + [x]) == f.add(g(s), x)
  }

  lemma {:induction false} FoldAccumulates<A(!new), R>(
      f: WindowFunction<A, R>, g: seq<int> -> A, rows: seq<int>, lo: nat, hi: nat)
    requires Accumulates(f, g) && lo <= hi <= |rows|
    ensures Fold(f, f.initial, rows, lo, hi) == g(rows[lo..hi])
  {
    if lo == hi {
    } else {
      FoldAccumulates(f, g, rows, lo, hi - 1);
      assert AddsLast(f, g, rows[lo..hi - 1], rows[hi - 1]);
      assert rows[lo..hi] == rows[lo..hi - 1] + [rows[hi - 1]];
    }
  }

  /** The result for a frame is that of its rows, all of them, in order and no others. */
  lemma FrameResultIs<A(!new), R>(f: WindowFunction<A, R>, g: seq<int> -> A, rows: seq<int>, start: nat, end: nat)
    requires Accumulates(f, g) && start <= end < |rows|
    ensures FrameResult(f, rows, start, end) == f.extract(g(rows[start..end + 1]))
  {
    FoldAccumulates(f, g, rows, start, end + 1);
  }

  function Collect(): WindowFunction<seq<int>, seq<int>> {
    WindowFunction([], (rows: seq<int>, x: int) => rows + [x], (rows: seq<int>) => rows)
  }

  /** The window function that collects its rows returns the frame. */
  lemma FrameIsCollected(rows: seq<int>, start: nat, end: nat)
    requires start <= end < |rows|
    ensures FrameResult(Collect(), rows, start, end) == rows[start..end + 1]
  {
    var g := (s: seq<int>) => s;
    forall s, x
      ensures AddsLast(Collect(), g, s, x)
    {
    }
    FrameResultIs(Collect(), g, rows, start, end);
  }

  /** Every window function has its `g`. */
  lemma SomeAccumulates<A(!new), R>(f: WindowFunction<A, R>)
    ensures exists g :: Accumulates(f, g)
  {
    var g := (s: seq<int>) => Fold(f, f.initial, s, 0, |s|);
    forall s, x
      ensures AddsLast(f, g, s, x)
    {
      FoldShifts(f, f.initial, s + [x], 0, |s|, 0, |s|);
      assert (s + [x])[0..|s|] == s;
    }
    assert Accumulates(f, g);
  }

  datatype FrameMetadata = FrameMetadata(firstRow: nat, lastRow: nat, incremental: bool, usePrevious: bool)

  /** A block of output rows with the frames of its valid rows. */
  datatype Block = Block(starts: seq<nat>, ends: seq<nat>, valid: seq<bool>)

  /** A valid row has a non-empty frame inside the partition. */
  predicate BlockFits(b: Block, size: nat) {
    && |b.starts| == |b.ends| == |b.valid|
    && forall i :: 0 <= i < |b.valid| && b.valid[i] ==> b.starts[i] <= b.ends[i] < size
  }

  predicate HasValid(b: Block) {
    exists i :: 0 <= i < |b.valid| && b.valid[i]
  }

  /** Row `i` is the first valid row. */
  predicate IsFirst(b: Block, i: nat) {
    i < |b.valid| && b.valid[i] && forall k :: 0 <= k < i ==> !b.valid[k]
  }

  /** One frame start for all valid rows, and frame ends that do not fall. */
  ghost predicate CanIncrement(b: Block, n: nat, start: nat)
    requires n <= |b.valid| == |b.starts| == |b.ends|
  {
    && (forall i :: 0 <= i < n && b.valid[i] ==> b.starts[i] == start)
    && (forall i, j :: 0 <= i < j < n && b.valid[i] && b.valid[j] ==> b.ends[i] <= b.ends[j])
  }

  /** What the analysis of a block must find. */
  ghost predicate Describes(m: FrameMetadata, b: Block, first: nat)
    requires |b.valid| == |b.starts| == |b.ends| && IsFirst(b, first)
  {
    && (forall i :: 0 <= i < |b.valid| && b.valid[i] ==> m.firstRow <= b.starts[i] && b.ends[i] <= m.lastRow)
    && (exists i :: 0 <= i < |b.valid| && b.valid[i] && b.starts[i] == m.firstRow)
    && (exists i :: 0 <= i < |b.valid| && b.valid[i] && b.ends[i] == m.lastRow)
    && (m.incremental <==> CanIncrement(b, |b.valid|, b.starts[first]))
  }

  /** The analysis of a block, and whether it goes on where the previous one ended. */
  ghost predicate Analyzed(m: FrameMetadata, b: Block, previous: Option<FrameMetadata>)
    requires |b.valid| == |b.starts| == |b.ends|
  {
    exists first: nat ::
      && IsFirst(b, first) && Describes(m, b, first)
      && (m.usePrevious <==>
            && m.incremental && previous.Some? && previous.value.incremental
            && previous.value.firstRow == m.firstRow && previous.value.lastRow <= b.ends[first])
  }

  /** What the two paths rely on. */
  ghost predicate Usable(m: FrameMetadata, b: Block, previous: Option<FrameMetadata>, size: nat)
    requires BlockFits(b, size)
  {
    && m.firstRow <= m.lastRow < size
    && (forall i :: 0 <= i < |b.valid| && b.valid[i] ==> m.firstRow <= b.starts[i] && b.ends[i] <= m.lastRow)
    && (exists i :: 0 <= i < |b.valid| && b.valid[i] && b.ends[i] == m.lastRow)
    && (m.incremental ==> CanIncrement(b, |b.valid|, m.firstRow))
    && (m.usePrevious ==>
          && m.incremental && previous.Some? && previous.value.incremental && previous.value.firstRow == m.firstRow
          && forall i :: 0 <= i < |b.valid| && b.valid[i] ==> previous.value.lastRow <= b.ends[i])
  }

  lemma AnalyzedIsUsable(m: FrameMetadata, b: Block, previous: Option<FrameMetadata>, size: nat)
    requires BlockFits(b, size) && Analyzed(m, b, previous)
    ensures Usable(m, b, previous, size)
  {
    var first: nat :| IsFirst(b, first) && Describes(m, b, first)
      && (m.usePrevious ==> previous.Some? && previous.value.lastRow <= b.ends[first]);
    if m.incremental {
      assert b.starts[first] == m.firstRow;
    }
  }

  datatype Scan = Scan(firstRow: nat, lastRow: nat, prevFrameEnd: nat, incremental: bool)

  /** The running values of the analysis after the first `n` rows. */
  ghost function Scanned(b: Block, first: nat, n: nat): Scan
    requires |b.valid| == |b.starts| == |b.ends| && IsFirst(b, first) && n <= |b.valid|
  {
    if n <= first then Scan(b.starts[first], b.ends[first], b.ends[first], true)
    else
      var before, start, end := Scanned(b, first, n - 1), b.starts[n - 1], b.ends[n - 1];
      if !b.valid[n - 1] then before
      else Scan(
          if start < before.firstRow then start else before.firstRow,
          if end > before.lastRow then end else before.lastRow,
          end,
          before.incremental && start == b.starts[first] && end >= before.prevFrameEnd)
  }

  lemma {:induction false} ScanBounds(b: Block, first: nat, n: nat)
    requires |b.valid| == |b.starts| == |b.ends| && IsFirst(b, first) && first < n <= |b.valid|
    ensures var s := Scanned(b, first, n);
            && (forall i :: 0 <= i < n && b.valid[i] ==> s.firstRow <= b.starts[i] && b.ends[i] <= s.lastRow)
            && (exists i :: 0 <= i < |b.valid| && b.valid[i] && b.starts[i] == s.firstRow)
            && (exists i :: 0 <= i < |b.valid| && b.valid[i] && b.ends[i] == s.lastRow)
  {
    if n > first + 1 {
      ScanBounds(b, first, n - 1);
    }
  }

  ghost predicate IsLastEnd(b: Block, n: nat, k: nat, end: nat)
    requires n <= |b.valid| == |b.ends|
  {
    k < n && b.valid[k] && b.ends[k] == end && forall j :: k < j < n ==> !b.valid[j]
  }

  lemma {:induction false} ScanLastEnd(b: Block, first: nat, n: nat) returns (k: nat)
    requires |b.valid| == |b.starts| == |b.ends| && IsFirst(b, first) && first < n <= |b.valid|
    ensures IsLastEnd(b, n, k, Scanned(b, first, n).prevFrameEnd)
  {
    if b.valid[n - 1] {
      k := n - 1;
    } else {
      k := ScanLastEnd(b, first, n - 1);
    }
  }

  lemma {:induction false} ScanIncremental(b: Block, first: nat, n: nat)
    requires |b.valid| == |b.starts| == |b.ends| && IsFirst(b, first) && first < n <= |b.valid|
    ensures Scanned(b, first, n).incremental <==> CanIncrement(b, n, b.starts[first])
  {
    if n > first + 1 {
      ScanIncremental(b, first, n - 1);
      var k := ScanLastEnd(b, first, n - 1);
      if b.valid[n - 1] && CanIncrement(b, n - 1, b.starts[first]) {
        assert forall i :: 0 <= i < n - 1 && b.valid[i] ==> i <= k && b.ends[i] <= b.ends[k];
      }
    }
  }

  class AggregateWindow<!A, !R(==)> {
    const f: WindowFunction<A, R>
    var partition: seq<int>
    var previous: Option<FrameMetadata>
    var accumulator: A
    var aggregateResult: R
    var args: seq<int>

    /** After an incremental block the accumulator is ready to go on where the block ended. */
    ghost predicate Valid()
      reads this
    {
      previous.Some? && previous.value.incremental ==>
        var m := previous.value;
        && m.firstRow <= m.lastRow < |partition|
        && accumulator == Fold(f, f.initial, partition, m.firstRow, m.lastRow + 1)
        && aggregateResult == f.extract(accumulator)
    }

    constructor (f: WindowFunction<A, R>, partition: seq<int>)
      ensures Valid() && this.f == f && this.partition == partition
    {
      this.f, this.partition := f, partition;
      previous, args := None, [];
      accumulator, aggregateResult := f.initial, f.extract(f.initial);
    }

    method ResetPartition(partition: seq<int>)
      modifies this
      ensures Valid() && this.partition == partition && previous.None?
    {
      this.partition := partition;
      previous := None;
    }

    /** `validRows.begin()`. */
    method FirstValid(b: Block) returns (first: nat)
      requires HasValid(b)
      ensures IsFirst(b, first)
    {
      first := 0;
      while !b.valid[first]
        invariant first < |b.valid| && forall k :: 0 <= k < first ==> !b.valid[k]
        decreases |b.valid| - first
      {
        assert exists i :: first < i < |b.valid| && b.valid[i];
        first := first + 1;
      }
    }

    method AnalyzeFrameValues(b: Block) returns (m: FrameMetadata)
      requires BlockFits(b, |partition|) && HasValid(b)
      ensures Analyzed(m, b, previous)
    {
      var firstValid := FirstValid(b);
      var firstRow, lastRow := b.starts[firstValid], b.ends[firstValid];
      var prevFrameEnd, incremental := lastRow, true;
      for i := firstValid to |b.valid|
        invariant Scanned(b, firstValid, i) == Scan(firstRow, lastRow, prevFrameEnd, incremental)
      {
        if b.valid[i] {
          firstRow := if b.starts[i] < firstRow then b.starts[i] else firstRow;
          lastRow := if b.ends[i] > lastRow then b.ends[i] else lastRow;
          incremental := incremental && b.starts[i] == b.starts[firstValid];
          incremental := incremental && b.ends[i] >= prevFrameEnd;
          prevFrameEnd := b.ends[i];
        }
      }
      ScanBounds(b, firstValid, |b.valid|);
      ScanIncremental(b, firstValid, |b.valid|);
      var usePrevious := incremental && previous.Some? && previous.value.incremental
        && previous.value.firstRow == firstRow && previous.value.lastRow <= b.ends[firstValid];
      m := FrameMetadata(firstRow, lastRow, incremental, usePrevious);
      assert IsFirst(b, firstValid) && Describes(m, b, firstValid);
    }

    /** Adds the argument rows from `lo` up to `hi` and extracts the result. */
    method ComputeAggregate(lo: nat, hi: nat)
      requires lo <= hi <= |args|
      modifies this`accumulator, this`aggregateResult
      ensures accumulator == Fold(f, old(accumulator), args, lo, hi) && aggregateResult == f.extract(accumulator)
    {
      for i := lo to hi
        invariant accumulator == Fold(f, old(accumulator), args, lo, i)
      {
        accumulator := f.add(accumulator, args[i]);
      }
      aggregateResult := f.extract(accumulator);
    }

    /** The accumulator holds the rows from `first` up to `upTo`, and the result is extracted if there are any. */
    ghost predicate Accumulated(first: nat, upTo: nat)
      reads this
    {
      && first <= upTo <= |partition|
      && accumulator == Fold(f, f.initial, partition, first, upTo)
      && (first < upTo ==> aggregateResult == f.extract(accumulator))
    }

    /** Goes on to a frame end that is not before the last one. */
    method Extend(startFrame: nat, prevFrameEnd: nat, currentFrameEnd: nat, ghost first: nat, ghost last: nat)
      requires startFrame <= last <= |partition| && args == partition[startFrame..last]
      requires prevFrameEnd <= currentFrameEnd <= |args|
      requires Accumulated(first, startFrame + prevFrameEnd) && first < startFrame + currentFrameEnd
      modifies this`accumulator, this`aggregateResult
      ensures Accumulated(first, startFrame + currentFrameEnd)
    {
      if currentFrameEnd > prevFrameEnd {
        FoldShifts(f, accumulator, partition, startFrame, last, prevFrameEnd, currentFrameEnd);
        FoldResumes(f, f.initial, partition, first, startFrame + prevFrameEnd, startFrame + currentFrameEnd);
        ComputeAggregate(prevFrameEnd, currentFrameEnd);
      }
    }

    /** One row of the incremental path. */
    method NextFrame(b: Block, i: nat, startFrame: nat, prevFrameEnd: nat, ghost first: nat, ghost last: nat)
      returns (r: Option<R>, frameEnd: nat)
      requires BlockFits(b, |partition|) && i < |b.valid| && startFrame <= last <= |partition|
      requires args == partition[startFrame..last]
      requires prevFrameEnd <= |args| && Accumulated(first, startFrame + prevFrameEnd)
      requires b.valid[i] ==> b.starts[i] == first && startFrame + prevFrameEnd <= b.ends[i] + 1 <= last
      modifies this`accumulator, this`aggregateResult
      ensures Accumulated(first, startFrame + frameEnd) && frameEnd <= |args|
      ensures frameEnd == if b.valid[i] then b.ends[i] + 1 - startFrame else prevFrameEnd
      ensures r == if b.valid[i] then Some(FrameResult(f, partition, b.starts[i], b.ends[i])) else None
    {
      if b.valid[i] {
        frameEnd := b.ends[i] + 1 - startFrame;
        Extend(startFrame, prevFrameEnd, frameEnd, first, last);
        r := Some(aggregateResult);
      } else {
        r, frameEnd := None, prevFrameEnd;
      }
    }

    /** The incremental path: the accumulator grows from frame end to frame end. */
    method IncrementalAggregation(b: Block, startFrame: nat, ghost m: FrameMetadata) returns (result: seq<Option<R>>)
      requires BlockFits(b, |partition|) && startFrame <= m.lastRow + 1 <= |partition|
      requires args == partition[startFrame..m.lastRow + 1] && Accumulated(m.firstRow, startFrame)
      requires CanIncrement(b, |b.valid|, m.firstRow)
      requires forall i :: 0 <= i < |b.valid| && b.valid[i] ==> startFrame <= b.ends[i] + 1 <= m.lastRow + 1
      requires exists i :: 0 <= i < |b.valid| && b.valid[i] && b.ends[i] == m.lastRow
      modifies this`accumulator, this`aggregateResult
      ensures Accumulated(m.firstRow, m.lastRow + 1)
      ensures IsBlockResult(f, partition, b, result, |b.valid|)
    {
      result := [];
      var prevFrameEnd := 0;
      for i := 0 to |b.valid|
        invariant 0 <= prevFrameEnd <= |args| && Accumulated(m.firstRow, startFrame + prevFrameEnd)
        invariant forall k :: 0 <= k < i && b.valid[k] ==> b.ends[k] + 1 <= startFrame + prevFrameEnd
        invariant forall k :: i <= k < |b.valid| && b.valid[k] ==> startFrame + prevFrameEnd <= b.ends[k] + 1
        invariant IsBlockResult(f, partition, b, result, i)
      {
        var r, frameEnd := NextFrame(b, i, startFrame, prevFrameEnd, m.firstRow, m.lastRow + 1);
        OneMoreResult(f, partition, b, result, i, r);
        result := result + [r];
        prevFrameEnd := frameEnd;
      }
    }

    /** The naive path: every frame from scratch. */
    method SimpleAggregation(b: Block, minFrame: nat, maxFrame: nat) returns (result: seq<Option<R>>)
      requires BlockFits(b, |partition|) && minFrame <= maxFrame < |partition|
      requires args == partition[minFrame..maxFrame + 1]
      requires forall i :: 0 <= i < |b.valid| && b.valid[i] ==> minFrame <= b.starts[i] && b.ends[i] <= maxFrame
      modifies this`accumulator, this`aggregateResult
      ensures IsBlockResult(f, partition, b, result, |b.valid|)
    {
      result := [];
      for i := 0 to |b.valid|
        invariant IsBlockResult(f, partition, b, result, i)
      {
        if b.valid[i] {
          accumulator := f.initial;
          FoldShifts(f, f.initial, partition, minFrame, maxFrame + 1, b.starts[i] - minFrame, b.ends[i] + 1 - minFrame);
          ComputeAggregate(b.starts[i] - minFrame, b.ends[i] + 1 - minFrame);
          OneMoreResult(f, partition, b, result, i, Some(aggregateResult));
          result := result + [Some(aggregateResult)];
        } else {
          OneMoreResult(f, partition, b, result, i, None);
          result := result + [None];
        }
      }
    }

    /** Starts or resumes the accumulator, then takes the incremental path. */
    method ApplyIncremental(b: Block, m: FrameMetadata) returns (result: seq<Option<R>>)
      requires Valid() && BlockFits(b, |partition|) && Usable(m, b, previous, |partition|) && m.incremental
      modifies this`accumulator, this`aggregateResult, this`args
      ensures Accumulated(m.firstRow, m.lastRow + 1)
      ensures IsBlockResult(f, partition, b, result, |b.valid|)
    {
      var startRow;
      if m.usePrevious {
        startRow := previous.value.lastRow + 1;
      } else {
        startRow := m.firstRow;
        accumulator := f.initial;
      }
      args := partition[startRow..m.lastRow + 1];
      result := IncrementalAggregation(b, startRow, m);
    }

    /** One output block. Whatever happened in earlier blocks, each valid row gets the aggregate of exactly
        its frame and each other row gets null. */
    method Apply(b: Block) returns (result: seq<Option<R>>)
      requires Valid() && BlockFits(b, |partition|)
      modifies this
      ensures Valid() && partition == old(partition)
      ensures IsBlockResult(f, partition, b, result, |b.valid|)
    {
      if !HasValid(b) {
        return seq(|b.valid|, i => None);
      }
      var m := AnalyzeFrameValues(b);
      AnalyzedIsUsable(m, b, previous, |partition|);
      if m.incremental {
        result := ApplyIncremental(b, m);
      } else {
        result := ApplySimple(b, m);
      }
      previous := Some(m);
    }

    method ApplySimple(b: Block, m: FrameMetadata) returns (result: seq<Option<R>>)
      requires BlockFits(b, |partition|) && Usable(m, b, previous, |partition|)
      modifies this`accumulator, this`aggregateResult, this`args
      ensures IsBlockResult(f, partition, b, result, |b.valid|)
    {
      args := partition[m.firstRow..m.lastRow + 1];
      result := SimpleAggregation(b, m.firstRow, m.lastRow);
    }
  }

  /** The first `n` results of a block. */
  ghost predicate IsBlockResult<A, R>(f: WindowFunction<A, R>, rows: seq<int>, b: Block, result: seq<Option<R>>, n: nat)
    requires BlockFits(b, |rows|) && n <= |b.valid|
  {
    && |result| == n
    && forall i :: 0 <= i < n ==>
       result[i] == if b.valid[i] then Some(FrameResult(f, rows, b.starts[i], b.ends[i])) else None
  }

  lemma OneMoreResult<A, R>(
      f: WindowFunction<A, R>, rows: seq<int>, b: Block, result: seq<Option<R>>, n: nat, r: Option<R>)
    requires BlockFits(b, |rows|) && n < |b.valid| && IsBlockResult(f, rows, b, result, n)
    requires r == if b.valid[n] then Some(FrameResult(f, rows, b.starts[n], b.ends[n])) else None
    ensures IsBlockResult(f, rows, b, result + [r], n + 1)
  {
  }

  /** Each valid row has the aggregate of the rows of its frame, and each other row has null. */
  ghost predicate IsFrameColumn<A(!new), R>(
    f: WindowFunction<A, R>, g: seq<int> -> A, rows: seq<int>, b: Block, result: seq<Option<R>>)
    requires BlockFits(b, |rows|)
  {
    && |result| == |b.valid|
    && forall i :: 0 <= i < |b.valid| ==>
         result[i] == if b.valid[i] then Some(f.extract(g(rows[b.starts[i]..b.ends[i] + 1]))) else None
  }

  lemma BlockResultIsColumn<A(!new), R>(
      f: WindowFunction<A, R>, g: seq<int> -> A, rows: seq<int>, b: Block, result: seq<Option<R>>)
    requires BlockFits(b, |rows|) && IsBlockResult(f, rows, b, result, |b.valid|) && Accumulates(f, g)
    ensures IsFrameColumn(f, g, rows, b, result)
  {
    forall i | 0 <= i < |b.valid| && b.valid[i]
      ensures result[i] == Some(f.extract(g(rows[b.starts[i]..b.ends[i] + 1])))
    {
      FrameResultIs(f, g, rows, b.starts[i], b.ends[i]);
    }
  }

  lemma BlocksAreColumns<A(!new), R>(
      f: WindowFunction<A, R>, rows: seq<int>, blocks: seq<Block>, results: seq<seq<Option<R>>>)
    requires |results| == |blocks| && forall k :: 0 <= k < |blocks| ==> BlockFits(blocks[k], |rows|)
    requires forall k :: 0 <= k < |blocks| ==> IsBlockResult(f, rows, blocks[k], results[k], |blocks[k].valid|)
    ensures forall g, k :: Accumulates(f, g) && 0 <= k < |blocks| ==>
              IsFrameColumn(f, g, rows, blocks[k], results[k])
  {
    forall g, k | Accumulates(f, g) && 0 <= k < |blocks|
      ensures IsFrameColumn(f, g, rows, blocks[k], results[k])
    {
      BlockResultIsColumn(f, g, rows, blocks[k], results[k]);
    }
  }

  /** All blocks of a partition, one after the other: whatever way there is to say what the accumulator is
      after some rows, the results are those of the rows of the frames. */
  method WindowOverPartition<A(!new), R(==)>(f: WindowFunction<A, R>, rows: seq<int>, blocks: seq<Block>)
    returns (results: seq<seq<Option<R>>>)
    requires forall k :: 0 <= k < |blocks| ==> BlockFits(blocks[k], |rows|)
    ensures |results| == |blocks|
    ensures forall g, k :: Accumulates(f, g) && 0 <= k < |blocks| ==>
              IsFrameColumn(f, g, rows, blocks[k], results[k])
  {
    var w := new AggregateWindow(f, rows);
    results := [];
    for k := 0 to |blocks|
      invariant w.Valid() && w.f == f && w.partition == rows && |results| == k
      invariant forall j :: 0 <= j < k ==> IsBlockResult(f, rows, blocks[j], results[j], |blocks[j].valid|)
    {
      var result := w.Apply(blocks[k]);
      results := results + [result];
    }
    BlocksAreColumns(f, rows, blocks, results);
  }
}
