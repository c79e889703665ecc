/** Row ids that operators of one task draw from a shared pool, a block at a time. */
module UniqueIds {
  const BLOCK: nat := 0x10_0000
  const MAX_ROW_ID: nat := 0x100_0000_0000

  /** What an operator has left of its block: the ids from `counter` up to and without `max`. */
  datatype IdBlock = IdBlock(counter: nat, max: nat)

  datatype Generated = Generated(ids: seq<nat>, block: IdBlock, pool: nat)

  function Min(a: int, b: int): int {
    if a < b then a else b
  }

  /** The task still has ids for this many rows. */
  predicate Room(pool: nat, rows: nat) {
    rows > 0 ==> pool + rows + BLOCK <= MAX_ROW_ID
  }

  /** A new block is drawn only while the pool has one. */
  predicate CanDraw(block: IdBlock, pool: nat) {
    block.counter >= block.max ==> pool + BLOCK <= MAX_ROW_ID
  }

  /** One turn of the loop: the ids from `counter` on are for the rows up to `end`. */
  datatype Batch = Batch(counter: nat, max: nat, pool: nat, end: nat)

  function NextBatch(extra: nat, block: IdBlock, pool: nat, start: nat, size: nat): (b: Batch)
    requires start < size && CanDraw(block, pool)
    ensures start < b.end <= size
  {
    if block.counter >= block.max then
      var max := Min(pool + BLOCK, MAX_ROW_ID);
      Batch(pool, max, pool + BLOCK, Min(size, start + Min(max - pool + extra, BLOCK)))
    else
      Batch(block.counter, block.max, pool, Min(size, start + Min(block.max - block.counter + extra, BLOCK)))
  }

  function Stretch(counter: nat, n: nat): (ids: seq<nat>)
    ensures |ids| == n && forall k :: 0 <= k < n ==> ids[k] == counter + k
  {
    seq(n, k requires 0 <= k => counter + k)
  }

  /** The ids from row `start` on, when up to `extra` ids more than are left may be taken from a block. The
      code takes one more. The counter is moved on by the number of the row, not of the batch. */
  function Generate(extra: nat, block: IdBlock, pool: nat, start: nat, size: nat): Generated
    requires start <= size && Room(pool, size - start)
    decreases size - start
  {
    if start == size then Generated([], block, pool)
    else
      var b := NextBatch(extra, block, pool, start, size);
      var rest := Generate(extra, IdBlock(b.counter + b.end, b.max), b.pool, b.end, size);
      Generated(Stretch(b.counter, b.end - start) + rest.ids, rest.block, rest.pool)
  }

  /** The whole column, given the ids of the rows before `start`. */
  ghost function Whole(extra: nat, ids: seq<nat>, block: IdBlock, pool: nat, start: nat, size: nat): Generated
    requires start <= size && Room(pool, size - start)
  {
    var rest := Generate(extra, block, pool, start, size);
    Generated(ids + rest.ids, rest.block, rest.pool)
  }

  lemma OneTurn(extra: nat, ids: seq<nat>, block: IdBlock, pool: nat, start: nat, size: nat)
    requires start < size && Room(pool, size - start)
    ensures var b := NextBatch(extra, block, pool, start, size);
            var more := ids + Stretch(b.counter, b.end - start);
            Whole(extra, ids, block, pool, start, size)
              == Whole(extra, more, IdBlock(b.counter + b.end, b.max), b.pool, b.end, size)
  {
    var b := NextBatch(extra, block, pool, start, size);
    var first := Stretch(b.counter, b.end - start);
    var rest := Generate(extra, IdBlock(b.counter + b.end, b.max), b.pool, b.end, size).ids;
    assert ids + (first + rest) == (ids + first) + rest;
  }

  class RowIdPool {
    var next: nat

    constructor ()
      ensures next == 0
    {
      next := 0;
    }
  }

  class AssignUniqueId {
    var rowIdCounter: nat
    var maxRowIdCounterValue: nat
    const rowIdPool: RowIdPool

    constructor (pool: RowIdPool)
      ensures rowIdPool == pool && State() == IdBlock(0, 0)
    {
      rowIdPool := pool;
      rowIdCounter, maxRowIdCounterValue := 0, 0;
    }

    ghost function State(): IdBlock
      reads this
    {
      IdBlock(rowIdCounter, maxRowIdCounterValue)
    }

    method RequestRowIds()
      modifies this, rowIdPool
      ensures rowIdCounter == old(rowIdPool.next) && rowIdPool.next == old(rowIdPool.next) + BLOCK
      ensures maxRowIdCounterValue == Min(rowIdCounter + BLOCK, MAX_ROW_ID)
    {
      rowIdCounter := rowIdPool.next;
      rowIdPool.next := rowIdPool.next + BLOCK;
      maxRowIdCounterValue := Min(rowIdCounter + BLOCK, MAX_ROW_ID);
    }

    /** One turn of the loop, for the rows from `start` on. */
    method NextIds(start: nat, size: nat) returns (ids: seq<nat>)
      requires start < size && CanDraw(State(), rowIdPool.next)
      modifies this, rowIdPool
      ensures var b := NextBatch(1, old(State()), old(rowIdPool.next), start, size);
              && ids == Stretch(b.counter, b.end - start) && rowIdPool.next == b.pool
              && State() == IdBlock(b.counter + b.end, b.max)
    {
      if rowIdCounter >= maxRowIdCounterValue {
        RequestRowIds();
      }
      var batchSize := Min(maxRowIdCounterValue - rowIdCounter + 1, BLOCK);
      var end := Min(size, start + batchSize);
      ids := Stretch(rowIdCounter, end - start);
      rowIdCounter := rowIdCounter + end;
    }

    method GenerateIdColumn(size: nat) returns (ids: seq<nat>)
      requires Room(rowIdPool.next, size)
      modifies this, rowIdPool
      ensures Generate(1, old(State()), old(rowIdPool.next), 0, size) == Generated(ids, State(), rowIdPool.next)
    {
      ids := [];
      var start := 0;
      while start < size
        invariant start <= size && Room(rowIdPool.next, size - start)
        invariant Whole(1, ids, State(), rowIdPool.next, start, size)
               == Whole(1, [], old(State()), old(rowIdPool.next), 0, size)
        decreases size - start
      {
        OneTurn(1, ids, State(), rowIdPool.next, start, size);
        var more := NextIds(start, size);
        ids := ids + more;
        start := start + |more|;
      }
      assert ids + [] == ids;
      ghost var all := Generate(1, old(State()), old(rowIdPool.next), 0, size).ids;
      assert [] + all == all;
    }
  }

  // ------------------------------------------------------------------------------------------------
  // What one turn takes
  // ------------------------------------------------------------------------------------------------

  predicate Has(block: IdBlock, id: nat) {
    block.counter <= id < block.max
  }

  ghost predicate Rising(ids: seq<nat>) {
    forall i, j :: 0 <= i < j < |ids| ==> ids[i] < ids[j]
  }

  /** Ids that a turn may use: what is left of the block, and what it draws from the pool. */
  predicate Mine(block: IdBlock, pool: nat, pool': nat, id: nat) {
    Has(block, id) || pool <= id < pool'
  }

  /** The rows fit into what is left of the block, or there is nothing left of it. */
  predicate NoOverrun(extra: nat, block: IdBlock, rows: nat) {
    extra == 0 || block.counter >= block.max || rows <= block.max - block.counter
  }

  /** What is left of the block after a turn. The counter is moved on by the number of the row. */
  function Left(b: Batch): IdBlock {
    IdBlock(b.counter + b.end, b.max)
  }

  /** The turn takes rising ids that are its own, and leaves an interval of its own. */
  ghost predicate Clean(block: IdBlock, pool: nat, ids: seq<nat>, left: IdBlock, pool': nat) {
    && pool <= pool' && left.max <= pool' && Rising(ids)
    && (forall id :: id in ids ==> Mine(block, pool, pool', id))
    && (forall id: nat :: Has(left, id) ==> Mine(block, pool, pool', id) && id !in ids)
  }

  lemma TurnStaysInBlock(extra: nat, block: IdBlock, pool: nat, start: nat, size: nat)
    requires start < size && CanDraw(block, pool) && block.max <= pool && block.max < block.counter + BLOCK
    requires NoOverrun(extra, block, size - start)
    ensures var b := NextBatch(extra, block, pool, start, size);
            && pool <= b.pool && b.max <= b.pool && b.max < Left(b).counter + BLOCK
            && b.counter + (b.end - start) <= b.max && Left(b).counter >= b.counter + (b.end - start)
            && ((b.counter == block.counter && b.max == block.max) || b.counter == pool)
  {
  }

  /** A turn that does not run over a block that has been begun. */
  lemma TurnIsClean(extra: nat, block: IdBlock, pool: nat, start: nat, size: nat)
    requires start < size && CanDraw(block, pool) && block.max <= pool && block.max < block.counter + BLOCK
    requires NoOverrun(extra, block, size - start)
    ensures var b := NextBatch(extra, block, pool, start, size);
            Clean(block, pool, Stretch(b.counter, b.end - start), Left(b), b.pool)
  {
    var b := NextBatch(extra, block, pool, start, size);
    var ids := Stretch(b.counter, b.end - start);
    TurnStaysInBlock(extra, block, pool, start, size);
    forall id | id in ids
      ensures Mine(block, pool, b.pool, id) && id < Left(b).counter
    {
      var k :| 0 <= k < |ids| && ids[k] == id;
    }
  }

  /** The ids come from the block that the operator has or, if there is nothing left of it, from the next of
      the pool. */
  lemma TurnSource(extra: nat, block: IdBlock, pool: nat, start: nat, size: nat)
    requires start < size && CanDraw(block, pool)
    ensures var b := NextBatch(extra, block, pool, start, size);
            && b.counter == (if block.counter >= block.max then pool else block.counter)
            && b.pool == (if block.counter >= block.max then pool + BLOCK else pool)
  {
  }

  /** The counter is moved on by the number of the row, not by the number of ids taken: behind the first
      block's worth of rows, every block that is drawn is given up after one turn. */
  lemma LongCallWastes(extra: nat, block: IdBlock, pool: nat, start: nat, size: nat)
    requires BLOCK <= start < size && CanDraw(block, pool) && block.counter >= block.max
    ensures var b := NextBatch(extra, block, pool, start, size);
            Left(b).counter > Left(b).max && Left(b).counter == pool + b.end
  {
  }

  /** A turn that does takes the id after the block: the first id of the next one. */
  lemma OverrunTakesNext(block: IdBlock, pool: nat, start: nat, size: nat)
    requires start < size && CanDraw(block, pool) && block.max < block.counter + BLOCK
    requires !NoOverrun(1, block, size - start)
    ensures var b := NextBatch(1, block, pool, start, size);
            && b.pool == pool && Left(b).counter >= Left(b).max && block.max in Stretch(b.counter, b.end - start)
  {
    var b := NextBatch(1, block, pool, start, size);
    assert b == Batch(block.counter, block.max, pool, start + (block.max - block.counter + 1));
    assert Stretch(b.counter, b.end - start)[block.max - block.counter] == block.max;
  }

  // ------------------------------------------------------------------------------------------------
  // Several operators on one pool
  // ------------------------------------------------------------------------------------------------

  /** An operator, which has ids for the rows of its batch up to `start`. */
  datatype Worker = Worker(block: IdBlock, start: nat, size: nat)

  datatype System = System(pool: nat, workers: seq<Worker>, issued: seq<nat>)

  /** An operator gets its next batch, or goes through its loop once. Turns of others may come in between. */
  datatype Step = Begin(worker: nat, size: nat) | Turn(worker: nat)

  ghost predicate Enabled(s: System, step: Step) {
    && step.worker < |s.workers|
    && var w := s.workers[step.worker];
       match step
       case Begin(_, size) => w.start >= w.size && size > 0
       case Turn(_) => w.start < w.size && CanDraw(w.block, s.pool)
  }

  ghost function Apply(extra: nat, s: System, step: Step): System
    requires Enabled(s, step)
  {
    var w := s.workers[step.worker];
    match step
    case Begin(i, size) => s.(workers := s.workers[i := Worker(w.block, 0, size)])
    case Turn(i) =>
      var b := NextBatch(extra, w.block, s.pool, w.start, w.size);
      System(b.pool, s.workers[i := Worker(Left(b), b.end, w.size)], s.issued + Stretch(b.counter, b.end - w.start))
  }

  /** All remaining turns of operator `i`, with no other in between. */
  ghost function Finished(extra: nat, s: System, i: nat): System
    requires i < |s.workers| && s.workers[i].start <= s.workers[i].size
    requires Room(s.pool, s.workers[i].size - s.workers[i].start)
    decreases s.workers[i].size - s.workers[i].start
  {
    if s.workers[i].start == s.workers[i].size then s else Finished(extra, Apply(extra, s, Turn(i)), i)
  }

  /** These are the call as `Generate` has it. */
  lemma {:induction false} TurnsAreCall(extra: nat, s: System, i: nat)
    requires i < |s.workers| && s.workers[i].start <= s.workers[i].size
    requires Room(s.pool, s.workers[i].size - s.workers[i].start)
    ensures var w := s.workers[i];
            var g := Generate(extra, w.block, s.pool, w.start, w.size);
            Finished(extra, s, i)
              == System(g.pool, s.workers[i := Worker(g.block, w.size, w.size)], s.issued + g.ids)
    decreases s.workers[i].size - s.workers[i].start
  {
    var w := s.workers[i];
    if w.start == w.size {
      assert s.workers[i := w] == s.workers && s.issued + [] == s.issued;
    } else {
      var t := Apply(extra, s, Turn(i));
      var b := NextBatch(extra, w.block, s.pool, w.start, w.size);
      var rest := Generate(extra, Left(b), b.pool, b.end, w.size);
      var first, done := Stretch(b.counter, b.end - w.start), Worker(rest.block, w.size, w.size);
      TurnsAreCall(extra, t, i);
      assert t.workers[i := done] == s.workers[i := done];
      assert (s.issued + first) + rest.ids == s.issued + (first + rest.ids);
    }
  }

  ghost predicate Distinct(ids: seq<nat>) {
    forall i, j :: 0 <= i < j < |ids| ==> ids[i] != ids[j]
  }

  predicate Aligned(x: nat) {
    x % BLOCK == 0
  }

  ghost predicate BlockGood(s: System, block: IdBlock) {
    && block.max <= s.pool && block.max < block.counter + BLOCK && Aligned(block.max)
    && forall id :: id in s.issued ==> !Has(block, id)
  }

  /** Ids are distinct, below the pool and outside of what operators have left; no two operators have the
      same id left; the first id of every block has been used. */
  ghost predicate Inv(s: System) {
    && Aligned(s.pool) && Distinct(s.issued)
    && (forall id :: id in s.issued ==> id < s.pool)
    && (forall b: nat :: b < s.pool && Aligned(b) ==> b in s.issued)
    && (forall i :: 0 <= i < |s.workers| ==> BlockGood(s, s.workers[i].block))
    && (forall i, j, id: nat :: 0 <= i < j < |s.workers| ==>
         !(Has(s.workers[i].block, id) && Has(s.workers[j].block, id)))
  }

  lemma NextAligned(pool: nat)
    requires Aligned(pool)
    ensures Aligned(pool + BLOCK)
  {
  }

  lemma OneBlock(pool: nat, k: nat)
    requires Aligned(pool) && Aligned(k) && pool <= k < pool + BLOCK
    ensures k == pool
  {
  }

  /** The first id of every block between `pool` and `pool'` has been taken. */
  ghost predicate FirstIdsIn(pool: nat, pool': nat, ids: seq<nat>) {
    forall k: nat :: pool <= k < pool' && Aligned(k) ==> k in ids
  }

  /** Blocks stay aligned, and a block that is drawn gives its first id. */
  lemma TurnStaysAligned(extra: nat, block: IdBlock, pool: nat, start: nat, size: nat)
    requires start < size && CanDraw(block, pool) && Aligned(pool) && Aligned(block.max)
    ensures var b := NextBatch(extra, block, pool, start, size);
            && Aligned(b.pool) && Aligned(b.max) && pool <= b.pool
            && FirstIdsIn(pool, b.pool, Stretch(b.counter, b.end - start))
  {
    var b := NextBatch(extra, block, pool, start, size);
    NextAligned(pool);
    forall k: nat | pool <= k < b.pool && Aligned(k)
      ensures k in Stretch(b.counter, b.end - start)
    {
      OneBlock(pool, k);
      assert Stretch(b.counter, b.end - start)[0] == k;
    }
  }

  lemma DistinctTogether(a: seq<nat>, b: seq<nat>)
    requires Distinct(a) && Rising(b) && forall id :: id in b ==> id !in a
    ensures Distinct(a + b)
  {
    forall i, j | 0 <= i < j < |a + b|
      ensures (a + b)[i] != (a + b)[j]
    {
      if i < |a| <= j {
        assert b[j - |a|] in b;
      }
    }
  }

  lemma IssuedAfter(s: System, i: nat, ids: seq<nat>, left: IdBlock, pool: nat)
    requires Inv(s) && i < |s.workers| && Clean(s.workers[i].block, s.pool, ids, left, pool)
    ensures Distinct(s.issued + ids) && forall id :: id in s.issued + ids ==> id < pool
  {
    var block := s.workers[i].block;
    assert BlockGood(s, block);
    forall id | id in ids
      ensures id !in s.issued && id < pool
    {
      assert Mine(block, s.pool, pool, id);
    }
    DistinctTogether(s.issued, ids);
  }

  lemma ApartAfter(s: System, i: nat, ids: seq<nat>, w: Worker, pool: nat, j: nat, k: nat, id: nat)
    requires Inv(s) && i < |s.workers| && Clean(s.workers[i].block, s.pool, ids, w.block, pool) && j < k < |s.workers|
    ensures !(Has(s.workers[i := w][j].block, id) && Has(s.workers[i := w][k].block, id))
  {
    assert BlockGood(s, s.workers[j].block) && BlockGood(s, s.workers[k].block);
    assert Has(w.block, id) ==> Mine(s.workers[i].block, s.pool, pool, id);
  }

  lemma BlockAfter(s: System, i: nat, k: nat, ids: seq<nat>, w: Worker, pool: nat)
    requires Inv(s) && i < |s.workers| && k < |s.workers| && Clean(s.workers[i].block, s.pool, ids, w.block, pool)
    requires Aligned(w.block.max) && w.block.max < w.block.counter + BLOCK
    ensures BlockGood(System(pool, s.workers[i := w], s.issued + ids), s.workers[i := w][k].block)
  {
    var block, mine := s.workers[i := w][k].block, s.workers[i].block;
    assert BlockGood(s, s.workers[k].block) && BlockGood(s, mine);
    forall id | id in s.issued + ids
      ensures !Has(block, id)
    {
      if id in ids {
        assert Mine(mine, s.pool, pool, id);
      } else {
        assert id in s.issued;
      }
    }
  }

  lemma InvAfter(s: System, i: nat, ids: seq<nat>, w: Worker, pool: nat)
    requires Inv(s) && i < |s.workers| && Clean(s.workers[i].block, s.pool, ids, w.block, pool)
    requires Aligned(pool) && Aligned(w.block.max) && w.block.max < w.block.counter + BLOCK
    requires FirstIdsIn(s.pool, pool, ids)
    ensures Inv(System(pool, s.workers[i := w], s.issued + ids))
  {
    var s' := System(pool, s.workers[i := w], s.issued + ids);
    IssuedAfter(s, i, ids, w.block, pool);
    forall k | 0 <= k < |s'.workers|
      ensures BlockGood(s', s'.workers[k].block)
    {
      BlockAfter(s, i, k, ids, w, pool);
    }
    forall j, k, id: nat | 0 <= j < k < |s'.workers|
      ensures !(Has(s'.workers[j].block, id) && Has(s'.workers[k].block, id))
    {
      ApartAfter(s, i, ids, w, pool, j, k, id);
    }
  }

  /** A turn without overrun keeps all ids distinct, now and later. */
  lemma CleanTurnKeeps(extra: nat, s: System, i: nat)
    requires Inv(s) && Enabled(s, Turn(i))
    requires NoOverrun(extra, s.workers[i].block, s.workers[i].size - s.workers[i].start)
    ensures Inv(Apply(extra, s, Turn(i)))
  {
    var w := s.workers[i];
    var b := NextBatch(extra, w.block, s.pool, w.start, w.size);
    var ids := Stretch(b.counter, b.end - w.start);
    assert BlockGood(s, w.block);
    CleanTurn(extra, w.block, s.pool, w.start, w.size, b, ids);
    assert Apply(extra, s, Turn(i)) == System(b.pool, s.workers[i := Worker(Left(b), b.end, w.size)], s.issued + ids);
    InvAfter(s, i, ids, Worker(Left(b), b.end, w.size), b.pool);
  }

  lemma CleanTurn(extra: nat, block: IdBlock, pool: nat, start: nat, size: nat, b: Batch, ids: seq<nat>)
    requires start < size && CanDraw(block, pool) && block.max <= pool && block.max < block.counter + BLOCK
    requires NoOverrun(extra, block, size - start) && Aligned(pool) && Aligned(block.max)
    requires b == NextBatch(extra, block, pool, start, size) && ids == Stretch(b.counter, b.end - start)
    ensures Clean(block, pool, ids, Left(b), b.pool) && FirstIdsIn(pool, b.pool, ids)
    ensures Aligned(b.pool) && Aligned(b.max) && b.max < Left(b).counter + BLOCK
  {
    TurnStaysInBlock(extra, block, pool, start, size);
    TurnIsClean(extra, block, pool, start, size);
    TurnStaysAligned(extra, block, pool, start, size);
  }

  lemma BeginKeeps(extra: nat, s: System, i: nat, size: nat)
    requires Inv(s) && Enabled(s, Begin(i, size))
    ensures Inv(Apply(extra, s, Begin(i, size)))
  {
    var s' := Apply(extra, s, Begin(i, size));
    forall k | 0 <= k < |s'.workers|
      ensures BlockGood(s', s'.workers[k].block)
    {
      assert BlockGood(s, s.workers[k].block);
    }
  }

  // ------------------------------------------------------------------------------------------------
  // Overruns
  // ------------------------------------------------------------------------------------------------

  lemma TwiceIsNotDistinct(ids: seq<nat>, i: nat, j: nat)
    requires i < j < |ids| && ids[i] == ids[j]
    ensures !Distinct(ids)
  {
  }

  lemma LongerStaysRepeated(a: seq<nat>, b: seq<nat>)
    requires !Distinct(a)
    ensures !Distinct(a + b)
  {
    var i, j :| 0 <= i < j < |a| && a[i] == a[j];
    TwiceIsNotDistinct(a + b, i, j);
  }

  lemma CommonIsRepeated(a: seq<nat>, b: seq<nat>, id: nat)
    requires id in a && id in b
    ensures !Distinct(a + b)
  {
    var i :| 0 <= i < |a| && a[i] == id;
    var j :| 0 <= j < |b| && b[j] == id;
    assert (a + b)[|a| + j] == id;
    TwiceIsNotDistinct(a + b, i, |a| + j);
  }

  /** An operator has nothing left of its block. */
  ghost predicate Exhausted(s: System, i: nat) {
    i < |s.workers| && s.workers[i].block.counter >= s.workers[i].block.max
  }

  /** An id has been issued twice, or the next id of the pool has been issued before its block is drawn and
      some operator is about to draw it. */
  ghost predicate Damaged(s: System) {
    !Distinct(s.issued) || (s.pool in s.issued && exists i: nat :: Exhausted(s, i))
  }

  /** Either the next block has been drawn by somebody, and its first id has been used, or nobody has drawn
      it and the operator that runs over is going to. */
  lemma OverrunDamages(s: System, i: nat)
    requires Inv(s) && Enabled(s, Turn(i))
    requires !NoOverrun(1, s.workers[i].block, s.workers[i].size - s.workers[i].start)
    ensures Damaged(Apply(1, s, Turn(i)))
  {
    var w, s' := s.workers[i], Apply(1, s, Turn(i));
    var b := NextBatch(1, w.block, s.pool, w.start, w.size);
    assert BlockGood(s, w.block);
    OverrunTakesNext(w.block, s.pool, w.start, w.size);
    if w.block.max < s.pool {
      CommonIsRepeated(s.issued, Stretch(b.counter, b.end - w.start), w.block.max);
    } else {
      assert s'.pool in s'.issued && Exhausted(s', i);
    }
  }

  /** A block that is drawn when its first id has been issued repeats the id. */
  lemma NextDrawRepeats(extra: nat, s: System, i: nat)
    requires Enabled(s, Turn(i)) && Exhausted(s, i) && s.pool in s.issued
    ensures !Distinct(Apply(extra, s, Turn(i)).issued)
  {
    var w := s.workers[i];
    var b := NextBatch(extra, w.block, s.pool, w.start, w.size);
    assert Stretch(b.counter, b.end - w.start)[0] == s.pool;
    CommonIsRepeated(s.issued, Stretch(b.counter, b.end - w.start), s.pool);
  }

  /** Damage is for good. */
  lemma DamageStays(s: System, step: Step)
    requires Damaged(s) && Enabled(s, step)
    ensures Damaged(Apply(1, s, step))
  {
    var s', j := Apply(1, s, step), step.worker;
    if !Distinct(s.issued) {
      if step.Turn? {
        var w := s.workers[j];
        var b := NextBatch(1, w.block, s.pool, w.start, w.size);
        LongerStaysRepeated(s.issued, Stretch(b.counter, b.end - w.start));
      }
    } else {
      var i: nat :| Exhausted(s, i);
      if step.Turn? && Exhausted(s, j) {
        NextDrawRepeats(1, s, j);
      } else {
        assert s'.pool == s.pool && Exhausted(s', i);
      }
    }
  }

  /** The next turn of an operator; if it has no batch, with a batch of `size` rows. */
  ghost function NextTurn(s: System, i: nat, size: nat): System
    requires i < |s.workers| && size > 0 && CanDraw(s.workers[i].block, s.pool)
  {
    if s.workers[i].start < s.workers[i].size then Apply(1, s, Turn(i))
    else Apply(1, Apply(1, s, Begin(i, size)), Turn(i))
  }

  /** All ids are distinct, and stay so if an operator that has nothing left of its block goes on. */
  ghost predicate DistinctSoon(s: System)
    requires s.pool + BLOCK <= MAX_ROW_ID
  {
    && Distinct(s.issued)
    && forall i: nat, size: nat :: size > 0 && Exhausted(s, i) ==> Distinct(NextTurn(s, i, size).issued)
  }

  lemma CleanNextTurn(s: System, i: nat, size: nat)
    requires Inv(s) && Exhausted(s, i) && size > 0 && s.pool + BLOCK <= MAX_ROW_ID
    ensures Distinct(NextTurn(s, i, size).issued)
  {
    if s.workers[i].start < s.workers[i].size {
      CleanTurnKeeps(1, s, i);
    } else {
      BeginKeeps(1, s, i, size);
      CleanTurnKeeps(1, Apply(1, s, Begin(i, size)), i);
    }
  }

  lemma DamagedNextTurn(s: System, i: nat, size: nat)
    requires Exhausted(s, i) && s.pool in s.issued && size > 0 && s.pool + BLOCK <= MAX_ROW_ID
    ensures !Distinct(NextTurn(s, i, size).issued)
  {
    if s.workers[i].start < s.workers[i].size {
      NextDrawRepeats(1, s, i);
    } else {
      NextDrawRepeats(1, Apply(1, s, Begin(i, size)), i);
    }
  }

  lemma GoodIsDistinctSoon(s: System)
    requires Inv(s) && s.pool + BLOCK <= MAX_ROW_ID
    ensures DistinctSoon(s)
  {
    forall i: nat, size: nat | size > 0 && Exhausted(s, i)
      ensures Distinct(NextTurn(s, i, size).issued)
    {
      CleanNextTurn(s, i, size);
    }
  }

  lemma DamagedIsNotDistinctSoon(s: System)
    requires Damaged(s) && s.pool + BLOCK <= MAX_ROW_ID
    ensures !DistinctSoon(s)
  {
    if Distinct(s.issued) {
      var i: nat :| Exhausted(s, i);
      DamagedNextTurn(s, i, 1);
    }
  }

  /** As written, a turn keeps the ids of all operators distinct, now and at the next draw, exactly if it
      does not run over a block that has been begun. */
  lemma TurnKeepsDistinctIff(s: System, i: nat)
    requires Inv(s) && Enabled(s, Turn(i)) && Apply(1, s, Turn(i)).pool + BLOCK <= MAX_ROW_ID
    ensures DistinctSoon(Apply(1, s, Turn(i)))
       <==> NoOverrun(1, s.workers[i].block, s.workers[i].size - s.workers[i].start)
  {
    if NoOverrun(1, s.workers[i].block, s.workers[i].size - s.workers[i].start) {
      CleanTurnKeeps(1, s, i);
      GoodIsDistinctSoon(Apply(1, s, Turn(i)));
    } else {
      OverrunDamages(s, i);
      DamagedIsNotDistinctSoon(Apply(1, s, Turn(i)));
    }
  }

  // ------------------------------------------------------------------------------------------------
  // Runs
  // ------------------------------------------------------------------------------------------------

  ghost predicate StepAt(extra: nat, states: seq<System>, steps: seq<Step>, k: nat) {
    && k < |steps| && k + 1 < |states| && Enabled(states[k], steps[k])
    && states[k + 1] == Apply(extra, states[k], steps[k])
  }

  ghost predicate IsStart(s: System) {
    s.pool == 0 && s.issued == [] && forall i :: 0 <= i < |s.workers| ==> s.workers[i] == Worker(IdBlock(0, 0), 0, 0)
  }

  ghost predicate IsRun(extra: nat, states: seq<System>, steps: seq<Step>) {
    |states| == |steps| + 1 && IsStart(states[0]) && forall k: nat :: k < |steps| ==> StepAt(extra, states, steps, k)
  }

  /** The step does not run over a block that has been begun. */
  ghost predicate CleanStep(extra: nat, s: System, step: Step) {
    step.Turn? ==>
      && step.worker < |s.workers|
      && var w := s.workers[step.worker];
         w.start < w.size && NoOverrun(extra, w.block, w.size - w.start)
  }

  ghost predicate CleanAt(extra: nat, states: seq<System>, steps: seq<Step>, k: nat) {
    k < |steps| && k < |states| && CleanStep(extra, states[k], steps[k])
  }

  lemma CleanStepKeeps(extra: nat, s: System, step: Step)
    requires Inv(s) && Enabled(s, step) && CleanStep(extra, s, step)
    ensures Inv(Apply(extra, s, step))
  {
    match step
    case Begin(i, size) => BeginKeeps(extra, s, i, size);
    case Turn(i) => CleanTurnKeeps(extra, s, i);
  }

  /** Over every run in which no turn runs over a block that has been begun, all ids of all operators are
      distinct, however their turns are interleaved. */
  lemma {:induction false} IdsAreDistinct(extra: nat, states: seq<System>, steps: seq<Step>, n: nat)
    requires IsRun(extra, states, steps) && n <= |steps|
    requires forall k: nat :: k < n ==> CleanAt(extra, states, steps, k)
    ensures Inv(states[n])
  {
    if n == 0 {
    } else {
      IdsAreDistinct(extra, states, steps, n - 1);
      assert StepAt(extra, states, steps, n - 1) && CleanAt(extra, states, steps, n - 1);
      CleanStepKeeps(extra, states[n - 1], steps[n - 1]);
    }
  }

  /** So without the extra id they are distinct over every run. */
  lemma DistinctWithoutExtra(states: seq<System>, steps: seq<Step>)
    requires IsRun(0, states, steps)
    ensures Distinct(states[|steps|].issued)
  {
    forall k: nat | k < |steps|
      ensures CleanAt(0, states, steps, k)
    {
      assert StepAt(0, states, steps, k);
    }
    IdsAreDistinct(0, states, steps, |steps|);
  }

  /** From the first overrun on the ids are damaged. */
  lemma {:induction false} RunStaysDamaged(states: seq<System>, steps: seq<Step>, first: nat, n: nat)
    requires IsRun(1, states, steps) && first < n <= |steps| && !CleanAt(1, states, steps, first)
    requires forall k: nat :: k < first ==> CleanAt(1, states, steps, k)
    ensures Damaged(states[n])
  {
    assert StepAt(1, states, steps, n - 1);
    if n == first + 1 {
      IdsAreDistinct(1, states, steps, first);
      OverrunDamages(states[first], steps[first].worker);
    } else {
      RunStaysDamaged(states, steps, first, n - 1);
      DamageStays(states[n - 1], steps[n - 1]);
    }
  }

  lemma {:induction false} FirstOverrun(states: seq<System>, steps: seq<Step>, k: nat) returns (first: nat)
    requires k < |steps| && !CleanAt(1, states, steps, k)
    ensures first <= k && !CleanAt(1, states, steps, first)
    ensures forall i: nat :: i < first ==> CleanAt(1, states, steps, i)
  {
    if i: nat :| i < k && !CleanAt(1, states, steps, i) {
      first := FirstOverrun(states, steps, i);
    } else {
      first := k;
    }
  }

  /** Over every run of any number of operators, with their turns interleaved in any way: all ids, those of
      the next draw included, are distinct if and only if no turn has run over a block that had been begun. */
  lemma RunKeepsDistinctIff(states: seq<System>, steps: seq<Step>)
    requires IsRun(1, states, steps) && states[|steps|].pool + BLOCK <= MAX_ROW_ID
    ensures DistinctSoon(states[|steps|]) <==> forall k: nat :: k < |steps| ==> CleanAt(1, states, steps, k)
  {
    if k: nat :| k < |steps| && !CleanAt(1, states, steps, k) {
      var first := FirstOverrun(states, steps, k);
      RunStaysDamaged(states, steps, first, |steps|);
      DamagedIsNotDistinctSoon(states[|steps|]);
    } else {
      IdsAreDistinct(1, states, steps, |steps|);
      GoodIsDistinctSoon(states[|steps|]);
    }
  }

  /** Two operators have taken one id each, from a block of its own; then the first goes on with a block's
      worth of rows. */
  lemma TwoOperatorsCollide()
    ensures var idle := Worker(IdBlock(0, 0), 0, 0);
            var s0 := System(0, [idle, idle], []);
            var s1 := NextTurn(s0, 0, 1);
            var s2 := NextTurn(s1, 1, 1);
            && s2.pool == 2 * BLOCK && s2.issued == [0, BLOCK]
            && s2.workers == [Worker(IdBlock(1, BLOCK), 1, 1), Worker(IdBlock(BLOCK + 1, 2 * BLOCK), 1, 1)]
            && !Distinct(NextTurn(s2, 0, BLOCK).issued)
  {
    var idle := Worker(IdBlock(0, 0), 0, 0);
    var s0 := System(0, [idle, idle], []);
    var s1 := NextTurn(s0, 0, 1);
    assert s1 == System(BLOCK, [Worker(IdBlock(1, BLOCK), 1, 1), idle], [0]);
    var s2 := NextTurn(s1, 1, 1);
    assert s2.issued == [0, BLOCK];
    OverrunTakesNext(IdBlock(1, BLOCK), 2 * BLOCK, 0, BLOCK);
    CommonIsRepeated(s2.issued, Stretch(1, BLOCK), BLOCK);
  }
}
