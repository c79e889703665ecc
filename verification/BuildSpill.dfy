/** BuildGroup spilling on the build side: several builders fill tables, and whenever one of them runs out
    of memory all of them spill the same partitions. */
module BuildSpills {
  import opened SpillPartitions
  import opened JoinSpecs
  import opened JoinCuts

  // ------------------------------------------------------------------------------------------------
  // One builder
  // ------------------------------------------------------------------------------------------------

  /** The rows of one builder: in its table, and in its spill files by partition number. */
  datatype BuilderRows = BuilderRows(table: multiset<Row>, files: map<nat, multiset<Row>>)

  ghost function FileOf(b: BuilderRows, number: nat): multiset<Row> {
    if number in b.files then b.files[number] else multiset{}
  }

  /** A batch goes to the table, except for the rows of partitions that are already spilled. */
  ghost function Accept(r: Round, b: BuilderRows, rows: multiset<Row>): BuilderRows {
    BuilderRows(
      b.table + Select(rows, InMemory(r, b.files.Keys)),
      map n | n in b.files :: b.files[n] + Select(rows, WithNumber(r, n)))
  }

  /** `Spiller::spill(partitions)`: the rows of the given partitions leave the table. */
  ghost function SpillOut(r: Round, b: BuilderRows, numbers: set<nat>): BuilderRows {
    BuilderRows(
      Select(b.table, InMemory(r, numbers)),
      map n | n in b.files.Keys + numbers ::
        FileOf(b, n) + if n in numbers then Select(b.table, WithNumber(r, n)) else multiset{})
  }

  /** Where the rows accepted so far must be. */
  ghost predicate SplitOf(r: Round, b: BuilderRows, accepted: multiset<Row>) {
    && b.table == Select(accepted, InMemory(r, b.files.Keys))
    && forall n :: n in b.files ==> b.files[n] == Select(accepted, WithNumber(r, n))
  }

  lemma SelectAdds(a: multiset<Row>, b: multiset<Row>, f: Row -> bool)
    ensures Select(a + b, f) == Select(a, f) + Select(b, f)
  {
  }

  lemma AcceptKeepsSplit(r: Round, b: BuilderRows, accepted: multiset<Row>, rows: multiset<Row>)
    requires SplitOf(r, b, accepted)
    ensures SplitOf(r, Accept(r, b, rows), accepted + rows)
  {
    var b' := Accept(r, b, rows);
    assert b'.files.Keys == b.files.Keys;
    SelectAdds(accepted, rows, InMemory(r, b.files.Keys));
    forall n | n in b'.files
      ensures b'.files[n] == Select(accepted + rows, WithNumber(r, n))
    {
      SelectAdds(accepted, rows, WithNumber(r, n));
    }
  }

  lemma SelectTwice(m: multiset<Row>, f: Row -> bool, g: Row -> bool, h: Row -> bool)
    requires forall row :: h(row) == (f(row) && g(row))
    ensures Select(Select(m, f), g) == Select(m, h)
  {
  }

  lemma SelectNone(m: multiset<Row>, f: Row -> bool, g: Row -> bool)
    requires forall row :: !(f(row) && g(row))
    ensures Select(Select(m, f), g) == multiset{}
  {
  }

  /** After spilling more partitions, the file of each holds its rows and no others. */
  lemma SpilledFile(r: Round, b: BuilderRows, accepted: multiset<Row>, numbers: set<nat>, n: nat)
    requires SplitOf(r, b, accepted) && n in b.files.Keys + numbers
    ensures SpillOut(r, b, numbers).files[n] == Select(accepted, WithNumber(r, n))
  {
    if n in b.files {
      SelectNone(accepted, InMemory(r, b.files.Keys), WithNumber(r, n));
    } else {
      SelectTwice(accepted, InMemory(r, b.files.Keys), WithNumber(r, n), WithNumber(r, n));
    }
  }

  lemma SpillOutKeepsSplit(r: Round, b: BuilderRows, accepted: multiset<Row>, numbers: set<nat>)
    requires SplitOf(r, b, accepted)
    ensures SplitOf(r, SpillOut(r, b, numbers), accepted)
    ensures SpillOut(r, b, numbers).files.Keys == b.files.Keys + numbers
  {
    var b' := SpillOut(r, b, numbers);
    assert b'.files.Keys == b.files.Keys + numbers;
    forall n | n in b'.files
      ensures b'.files[n] == Select(accepted, WithNumber(r, n))
    {
      SpilledFile(r, b, accepted, numbers, n);
    }
    SelectTwice(accepted, InMemory(r, b.files.Keys), InMemory(r, numbers), InMemory(r, b.files.Keys + numbers));
  }

  // ------------------------------------------------------------------------------------------------
  // The builder as an object
  // ------------------------------------------------------------------------------------------------

  /** The first `n` rows of a batch, where the flag is set and `f` holds, in order. */
  ghost function Chosen(batch: seq<Row>, flags: seq<bool>, f: Row -> bool, n: nat): seq<Row>
    requires n <= |batch| == |flags|
  {
    if n == 0 then []
    else Chosen(batch, flags, f, n - 1) + if flags[n - 1] && f(batch[n - 1]) then [batch[n - 1]] else []
  }

  ghost function Any(): Row -> bool {
    (row: Row) => true
  }

  /** The first `n` rows where `f` holds, in order. */
  function Picked(rows: seq<Row>, f: Row -> bool, n: nat): seq<Row>
    requires n <= |rows|
  {
    if n == 0 then [] else Picked(rows, f, n - 1) + if f(rows[n - 1]) then [rows[n - 1]] else []
  }

  lemma {:induction false} PickedPrefix(rows: seq<Row>, more: seq<Row>, f: Row -> bool, n: nat)
    requires n <= |rows|
    ensures Picked(rows + more, f, n) == Picked(rows, f, n)
  {
    if n == 0 {
    } else {
      PickedPrefix(rows, more, f, n - 1);
    }
  }

  /** The rows come in their order: what is picked of two pieces is picked of each. */
  lemma {:induction false} PickedOfSum(a: seq<Row>, b: seq<Row>, f: Row -> bool, n: nat)
    requires n <= |b|
    ensures Picked(a + b, f, |a| + n) == Picked(a, f, |a|) + Picked(b, f, n)
  {
    if n == 0 {
      PickedPrefix(a, b, f, |a|);
    } else {
      PickedOfSum(a, b, f, n - 1);
      assert (a + b)[|a| + n - 1] == b[n - 1];
    }
  }

  lemma PickedOne(row: Row, f: Row -> bool)
    ensures Picked([row], f, 1) == if f(row) then [row] else []
  {
    assert Picked([row], f, 0) == [];
  }

  lemma SelectEmpty(f: Row -> bool)
    ensures Select(multiset{}, f) == multiset{}
  {
  }

  lemma SelectNext(c: multiset<Row>, x: Row, f: Row -> bool)
    ensures Select(c + multiset{x}, f) == if f(x) then Select(c, f) + multiset{x} else Select(c, f)
  {
  }

  lemma {:induction false} PickedIsSelect(rows: seq<Row>, f: Row -> bool, n: nat)
    requires n <= |rows|
    ensures multiset(Picked(rows, f, n)) == Select(multiset(rows[..n]), f)
  {
    if n == 0 {
      SelectEmpty(f);
    } else {
      PickedIsSelect(rows, f, n - 1);
      assert rows[..n] == rows[..n - 1] + [rows[n - 1]];
      SelectNext(multiset(rows[..n - 1]), rows[n - 1], f);
    }
  }

  lemma PickedNext(rows: seq<Row>, row: Row, f: Row -> bool)
    ensures Picked(rows + [row], f, |rows| + 1) == Picked(rows, f, |rows|) + if f(row) then [row] else []
  {
    PickedPrefix(rows, [row], f, |rows|);
  }

  /** Choosing flagged rows that satisfy `f` is choosing the flagged rows, then those with `f`. */
  lemma {:induction false} ChosenIsPicked(batch: seq<Row>, flags: seq<bool>, f: Row -> bool, n: nat)
    requires n <= |batch| == |flags|
    ensures var all := Chosen(batch, flags, Any(), n);
            Chosen(batch, flags, f, n) == Picked(all, f, |all|)
  {
    if n == 0 {
      assert Chosen(batch, flags, Any(), n) == [];
    } else {
      ChosenIsPicked(batch, flags, f, n - 1);
      var all, row := Chosen(batch, flags, Any(), n - 1), batch[n - 1];
      if flags[n - 1] {
        PickedNext(all, row, f);
        assert Chosen(batch, flags, Any(), n) == all + [row];
      } else {
        assert Chosen(batch, flags, Any(), n) == all;
      }
    }
  }

  /** The files after the first `n` rows of a batch. */
  ghost function FilesAfter(
    r: Round, files: map<nat, seq<Row>>, batch: seq<Row>, flags: seq<bool>, n: nat): (after: map<nat, seq<Row>>)
    requires n <= |batch| == |flags|
    ensures after.Keys == files.Keys
  {
    if n == 0 then files
    else
      var before, number := FilesAfter(r, files, batch, flags, n - 1), r.number(batch[n - 1]);
      if flags[n - 1] && number in before then before[number := before[number] + [batch[n - 1]]] else before
  }

  lemma {:induction false} FilesAfterIs(
      r: Round, files: map<nat, seq<Row>>, batch: seq<Row>, flags: seq<bool>, n: nat, k: nat)
    requires n <= |batch| == |flags| && k in files
    ensures FilesAfter(r, files, batch, flags, n)[k] == files[k] + Chosen(batch, flags, WithNumber(r, k), n)
  {
    if n == 0 {
    } else {
      FilesAfterIs(r, files, batch, flags, n - 1, k);
    }
  }

  /** The files after the first `n` rows of the table, of which those of `numbers` are written out. */
  ghost function Moved(r: Round, files: map<nat, seq<Row>>, table: seq<Row>, numbers: set<nat>, n: nat)
    : (after: map<nat, seq<Row>>)
    requires n <= |table| && numbers <= files.Keys
    ensures after.Keys == files.Keys
  {
    if n == 0 then files
    else
      var before, number := Moved(r, files, table, numbers, n - 1), r.number(table[n - 1]);
      if number in numbers then before[number := before[number] + [table[n - 1]]] else before
  }

  lemma {:induction false} MovedIs(
      r: Round, files: map<nat, seq<Row>>, table: seq<Row>, numbers: set<nat>, n: nat, k: nat)
    requires n <= |table| && numbers <= files.Keys && k in files
    ensures Moved(r, files, table, numbers, n)[k]
         == files[k] + if k in numbers then Picked(table, WithNumber(r, k), n) else []
  {
    if n == 0 {
    } else {
      MovedIs(r, files, table, numbers, n - 1, k);
    }
  }

  /** Every partition that is spilled now has a file. */
  function Marked(files: map<nat, seq<Row>>, numbers: set<nat>): map<nat, seq<Row>> {
    map k | k in files.Keys + numbers :: OldFile(files, k)
  }

  lemma MovedFiles(r: Round, files: map<nat, seq<Row>>, table: seq<Row>, numbers: set<nat>)
    ensures var after := Moved(r, Marked(files, numbers), table, numbers, |table|);
            && after.Keys == files.Keys + numbers
            && (forall k :: k in after && k !in numbers ==> after[k] == files[k])
            && forall k :: k in numbers ==> after[k] == OldFile(files, k) + Picked(table, WithNumber(r, k), |table|)
  {
    forall k | k in files.Keys + numbers
      ensures Moved(r, Marked(files, numbers), table, numbers, |table|)[k]
           == OldFile(files, k) + if k in numbers then Picked(table, WithNumber(r, k), |table|) else []
    {
      MovedIs(r, Marked(files, numbers), table, numbers, |table|, k);
    }
  }

  /** The rows that a spiller holds in its files and those that stay in the table. `active` and the
      index buffers of the source live only during one call. */
  class HashBuild {
    const r: Round
    var table: seq<Row>
    var files: map<nat, seq<Row>>

    constructor (r: Round)
      ensures this.r == r && table == [] && files == map[]
    {
      this.r := r;
      table := [];
      files := map[];
    }

    /** The row loop of `spillInput`: active rows of spilled partitions are appended to the files and
        deselected. */
    method SpillInput(batch: seq<Row>, active: array<bool>)
      requires active.Length == |batch|
      modifies this`files, active
      ensures files.Keys == old(files).Keys
      ensures forall k :: k in files ==>
          files[k] == old(files)[k] + Chosen(batch, old(active[..]), WithNumber(r, k), |batch|)
      ensures forall i :: 0 <= i < |batch| ==> active[i] == (old(active[i]) && r.number(batch[i]) !in files)
    {
      ghost var flags := active[..];
      for n := 0 to |batch|
        invariant files.Keys == old(files).Keys && files == FilesAfter(r, old(files), batch, flags, n)
        invariant forall i :: 0 <= i < |batch| ==> active[i] == (flags[i] && (i < n ==> r.number(batch[i]) !in files))
      {
        var number := r.number(batch[n]);
        if active[n] && number in files {
          active[n] := false;
          files := files[number := files[number] + [batch[n]]];
        }
      }
      forall k | k in files
        ensures files[k] == old(files)[k] + Chosen(batch, flags, WithNumber(r, k), |batch|)
      {
        FilesAfterIs(r, old(files), batch, flags, |batch|, k);
      }
    }

    /** The store loop of `addInput`: the rows that are still active go to the table. */
    method Store(batch: seq<Row>, active: array<bool>)
      requires active.Length == |batch|
      modifies this`table
      ensures table == old(table) + Chosen(batch, active[..], Any(), |batch|)
    {
      ghost var flags := active[..];
      for n := 0 to |batch|
        invariant table == old(table) + Chosen(batch, flags, Any(), n)
      {
        if active[n] {
          table := table + [batch[n]];
        }
      }
    }

    /** `Spiller::spill(partitions)`: the partitions are marked as spilled, then the rows of the table
        that belong to them are written to their files in order and erased. */
    method Spill(numbers: set<nat>)
      modifies this
      ensures table == Picked(old(table), InMemory(r, numbers), |old(table)|)
      ensures files.Keys == old(files).Keys + numbers
      ensures forall k :: k in files && k !in numbers ==> files[k] == old(files)[k]
      ensures forall k :: k in numbers ==>
          files[k] == OldFile(old(files), k) + Picked(old(table), WithNumber(r, k), |old(table)|)
    {
      var kept := [];
      files := Marked(files, numbers);
      for n := 0 to |table|
        invariant table == old(table) && kept == Picked(table, InMemory(r, numbers), n)
        invariant files == Moved(r, Marked(old(files), numbers), table, numbers, n)
      {
        var number := r.number(table[n]);
        if number in numbers {
          files := files[number := files[number] + [table[n]]];
        } else {
          kept := kept + [table[n]];
        }
      }
      MovedFiles(r, old(files), table, numbers);
      table := kept;
    }

    /** The builder's rows without their order. */
    ghost function View(): BuilderRows
      reads this
    {
      ViewOf(table, files)
    }

    /** A batch whose selected rows are `active`: spilling what must be spilled and storing the rest is
        accepting the batch. */
    method AddBatch(batch: seq<Row>, active: array<bool>)
      requires active.Length == |batch|
      modifies this, active
      ensures View() == Accept(r, old(View()), multiset(Chosen(batch, old(active[..]), Any(), |batch|)))
    {
      ghost var flags, table0, files0 := active[..], table, files;
      SpillInput(batch, active);
      Store(batch, active);
      StillActive(r, files0.Keys, batch, flags, active[..], |batch|);
      MoreChosen(table0, batch, flags, InMemory(r, files0.Keys));
      forall k | k in files0
        ensures multiset(files[k])
            == multiset(files0[k]) + Select(multiset(Chosen(batch, flags, Any(), |batch|)), WithNumber(r, k))
      {
        MoreChosen(files0[k], batch, flags, WithNumber(r, k));
      }
      AcceptedRows(r, table0, files0, multiset(Chosen(batch, flags, Any(), |batch|)), table, files);
    }

    /** Spilling partitions takes exactly their rows out of the table. */
    method SpillPartitions(numbers: set<nat>)
      modifies this
      ensures View() == SpillOut(r, old(View()), numbers)
    {
      ghost var table0, files0 := table, files;
      Spill(numbers);
      RowsSpilledOut(r, table0, files0, numbers, table, files);
    }
  }

  ghost function ViewOf(table: seq<Row>, files: map<nat, seq<Row>>): BuilderRows {
    BuilderRows(multiset(table), map k | k in files :: multiset(files[k]))
  }

  /** The rows that stay active are those whose partition is not spilled. */
  lemma {:induction false} StillActive(
      r: Round, spilled: set<nat>, batch: seq<Row>, flags: seq<bool>, active: seq<bool>, n: nat)
    requires n <= |batch| == |flags| == |active|
    requires forall i :: 0 <= i < |batch| ==> active[i] == (flags[i] && r.number(batch[i]) !in spilled)
    ensures Chosen(batch, active, Any(), n) == Chosen(batch, flags, InMemory(r, spilled), n)
  {
    if n == 0 {
    } else {
      StillActive(r, spilled, batch, flags, active, n - 1);
    }
  }

  lemma ChosenIsSelect(batch: seq<Row>, flags: seq<bool>, f: Row -> bool)
    requires |batch| == |flags|
    ensures multiset(Chosen(batch, flags, f, |batch|)) == Select(multiset(Chosen(batch, flags, Any(), |batch|)), f)
  {
    ChosenIsPicked(batch, flags, f, |batch|);
    AllPickedIsSelect(Chosen(batch, flags, Any(), |batch|), f);
  }

  lemma MoreChosen(rows: seq<Row>, batch: seq<Row>, flags: seq<bool>, f: Row -> bool)
    requires |batch| == |flags|
    ensures multiset(rows + Chosen(batch, flags, f, |batch|))
        == multiset(rows) + Select(multiset(Chosen(batch, flags, Any(), |batch|)), f)
  {
    ChosenIsSelect(batch, flags, f);
  }

  lemma AllPickedIsSelect(rows: seq<Row>, f: Row -> bool)
    ensures multiset(Picked(rows, f, |rows|)) == Select(multiset(rows), f)
  {
    PickedIsSelect(rows, f, |rows|);
    assert rows[..|rows|] == rows;
  }

  lemma MorePicked(rows: seq<Row>, table: seq<Row>, f: Row -> bool)
    ensures multiset(rows + Picked(table, f, |table|)) == multiset(rows) + Select(multiset(table), f)
  {
    AllPickedIsSelect(table, f);
  }

  lemma SameRows(a: BuilderRows, b: BuilderRows)
    requires a.table == b.table && a.files.Keys == b.files.Keys && forall k :: k in a.files ==> a.files[k] == b.files[k]
    ensures a == b
  {
  }

  lemma AcceptedRows(
      r: Round, table: seq<Row>, files: map<nat, seq<Row>>, rows: multiset<Row>, table': seq<Row>,
      files': map<nat, seq<Row>>)
    requires files'.Keys == files.Keys && multiset(table') == multiset(table) + Select(rows, InMemory(r, files.Keys))
    requires forall k :: k in files ==> multiset(files'[k]) == multiset(files[k]) + Select(rows, WithNumber(r, k))
    ensures ViewOf(table', files') == Accept(r, ViewOf(table, files), rows)
  {
    assert ViewOf(table, files).files.Keys == files.Keys;
    SameRows(ViewOf(table', files'), Accept(r, ViewOf(table, files), rows));
  }

  lemma RowsSpilledOut(
      r: Round, table: seq<Row>, files: map<nat, seq<Row>>, numbers: set<nat>, table': seq<Row>,
      files': map<nat, seq<Row>>)
    requires table' == Picked(table, InMemory(r, numbers), |table|) && files'.Keys == files.Keys + numbers
    requires forall k :: k in files' && k !in numbers ==> files'[k] == files[k]
    requires forall k :: k in numbers ==> files'[k] == OldFile(files, k) + Picked(table, WithNumber(r, k), |table|)
    ensures ViewOf(table', files') == SpillOut(r, ViewOf(table, files), numbers)
  {
    var view, after := ViewOf(table, files), ViewOf(table', files');
    var spilled := SpillOut(r, view, numbers);
    assert view.files.Keys == files.Keys;
    AllPickedIsSelect(table, InMemory(r, numbers));
    forall k | k in files'
      ensures after.files[k] == spilled.files[k]
    {
      if k in numbers {
        MorePicked(OldFile(files, k), table, WithNumber(r, k));
      } else {
        assert multiset(files[k]) + multiset{} == multiset(files[k]);
      }
    }
    SameRows(after, spilled);
  }

  function OldFile(files: map<nat, seq<Row>>, number: nat): seq<Row> {
    if number in files then files[number] else []
  }

  // ------------------------------------------------------------------------------------------------
  // The group of builders
  // ------------------------------------------------------------------------------------------------

  /** `Running`: between batches; `Holding`: a batch is in hand, new or woken up with; `Waiting`: the
      batch is parked until the group has spilled; `Stopped`: no more input. */
  datatype OpPhase = Running | Holding(batch: multiset<Row>) | Waiting(batch: multiset<Row>) | Stopped

  /** `read` is everything the builder has been given, `accepted` what it has stored or spilled. */
  datatype Op = Op(phase: OpPhase, rows: BuilderRows, read: multiset<Row>, accepted: multiset<Row>)

  /** `partitions` is the number of partitions of the round. */
  datatype BuildGroup = BuildGroup(
    jt: JoinType, r: Round, partitions: nat, ops: seq<Op>, needSpill: bool, spilled: set<nat>)

  datatype GroupStep =
    | Read(op: nat, batch: multiset<Row>)
    | Fits(op: nat)
    | AskSpill(op: nat, numbers: set<nat>)
    | Stop(op: nat, numbers: set<nat>)

  ghost predicate NumbersBelow(r: Round, partitions: nat) {
    forall row :: r.number(row) < partitions
  }

  ghost predicate IsGroupInit(g: BuildGroup) {
    && |g.ops| >= 1 && !g.needSpill && g.spilled == {} && NumbersBelow(g.r, g.partitions)
    && forall i :: 0 <= i < |g.ops| ==>
                     g.ops[i] == Op(Running, BuilderRows(multiset{}, map[]), multiset{}, multiset{})
  }

  /** Some table has rows of partition `n`. */
  ghost predicate Spillable(g: BuildGroup, n: nat) {
    exists k, row :: 0 <= k < |g.ops| && row in g.ops[k].rows.table && g.r.number(row) == n
  }

  /** What `runSpill` may choose: partitions with rows in some table, and at least one if there is any. */
  ghost predicate MayChoose(g: BuildGroup, numbers: set<nat>) {
    (forall n :: n in numbers ==> Spillable(g, n)) && (numbers == {} ==> forall n :: !Spillable(g, n))
  }

  /** A builder asks because its own table has no room for the batch, or because another has asked. */
  ghost predicate GroupEnabled(g: BuildGroup, step: GroupStep) {
    && step.op < |g.ops|
    && (RunsSpill(g, step) ==> MayChoose(g, step.numbers))
    && match step
       case Read(i, batch) => g.ops[i].phase == Running
       case Fits(i) => g.ops[i].phase.Holding? && !g.needSpill
       case AskSpill(i, numbers) => g.ops[i].phase.Holding? && (g.needSpill || g.ops[i].rows.table != multiset{})
       case Stop(i, numbers) => g.ops[i].phase == Running
  }

  /** The step is the one that makes the whole group spill. */
  ghost predicate RunsSpill(g: BuildGroup, step: GroupStep) {
    (step.AskSpill? && OthersWait(g, step.op)) || (step.Stop? && g.needSpill && OthersWait(g, step.op))
  }

  /** The checks of `runSpill`: some partition is not spilled yet, and there is something to spill. */
  ghost predicate SpillChecksHold(g: BuildGroup, step: GroupStep) {
    RunsSpill(g, step) ==> step.numbers != {} && exists n :: n < g.partitions && n !in g.spilled
  }

  ghost function AcceptBatch(g: BuildGroup, op: Op, batch: multiset<Row>): Op {
    var rows := ActiveRows(g.jt, batch);
    Op(Running, Accept(g.r, op.rows, rows), op.read, op.accepted + rows)
  }

  /** `runSpill`: every builder of the group, stopped ones included, spills the same partitions, and
      the waiting ones resume with their parked batch. */
  ghost function SpillAll(g: BuildGroup, numbers: set<nat>): BuildGroup {
    g.(needSpill := false,
       spilled := g.spilled + numbers,
       ops := seq(|g.ops|, i requires 0 <= i < |g.ops| => SpillOp(g.r, g.ops[i], numbers)))
  }

  ghost function SpillOp(r: Round, op: Op, numbers: set<nat>): Op {
    op.(rows := SpillOut(r, op.rows, numbers),
        phase := if op.phase.Waiting? then Holding(op.phase.batch) else op.phase)
  }

  /** Every other builder that is still active waits: this one completes the group. */
  ghost predicate OthersWait(g: BuildGroup, i: nat) {
    forall k :: 0 <= k < |g.ops| && k != i ==> g.ops[k].phase.Waiting? || g.ops[k].phase == Stopped
  }

  ghost predicate SomeWaits(g: BuildGroup) {
    exists k :: 0 <= k < |g.ops| && g.ops[k].phase.Waiting?
  }

  ghost function Halt(g: BuildGroup, i: nat): BuildGroup
    requires i < |g.ops|
  {
    g.(ops := g.ops[i := g.ops[i].(phase := Stopped)])
  }

  ghost function GroupApply(g: BuildGroup, step: GroupStep): BuildGroup
    requires GroupEnabled(g, step)
  {
    match step
    case Read(i, batch) =>
      g.(ops := g.ops[i := g.ops[i].(phase := Holding(batch), read := g.ops[i].read + batch)])
    case Fits(i) =>
      g.(ops := g.ops[i := AcceptBatch(g, g.ops[i], g.ops[i].phase.batch)])
    case AskSpill(i, numbers) =>
      if OthersWait(g, i) then
        var g' := SpillAll(g, numbers);
        g'.(ops := g'.ops[i := AcceptBatch(g, g'.ops[i], g.ops[i].phase.batch)])
      else
        g.(needSpill := true, ops := g.ops[i := g.ops[i].(phase := Waiting(g.ops[i].phase.batch))])
    case Stop(i, numbers) =>
      if g.needSpill && OthersWait(g, i) then SpillAll(Halt(g, i), numbers) else Halt(g, i)
  }

  ghost function InHand(op: Op): multiset<Row> {
    if op.phase.Holding? || op.phase.Waiting? then op.phase.batch else multiset{}
  }

  /** Nothing is lost and nothing is counted twice: what has been read is what has been accepted and
      the batch in hand, and every accepted row is in the place its partition demands. */
  ghost predicate OpGood(g: BuildGroup, op: Op) {
    && op.rows.files.Keys == g.spilled
    && SplitOf(g.r, op.rows, op.accepted)
    && ActiveRows(g.jt, op.read) == op.accepted + ActiveRows(g.jt, InHand(op))
  }

  ghost predicate OpsGood(g: BuildGroup) {
    forall i :: 0 <= i < |g.ops| ==> OpGood(g, g.ops[i])
  }

  ghost predicate IsActive(op: Op) {
    op.phase == Running || op.phase.Holding?
  }

  /** Builders wait exactly while a spill is requested; then one of them has rows to spill, and some
      other builder is still active. */
  ghost predicate WaitersGood(g: BuildGroup) {
    && (g.needSpill <==> SomeWaits(g))
    && (g.needSpill ==> exists k :: 0 <= k < |g.ops| && g.ops[k].phase.Waiting? && g.ops[k].rows.table != multiset{})
    && (g.needSpill ==> exists k :: 0 <= k < |g.ops| && IsActive(g.ops[k]))
  }

  ghost predicate HasFile(g: BuildGroup, n: nat) {
    exists k :: 0 <= k < |g.ops| && FileOf(g.ops[k].rows, n) != multiset{}
  }

  ghost predicate FilesGood(g: BuildGroup) {
    forall n :: n in g.spilled ==> HasFile(g, n)
  }

  ghost predicate GroupInv(g: BuildGroup) {
    OpsGood(g) && WaitersGood(g) && NumbersBelow(g.r, g.partitions) && FilesGood(g)
  }

  lemma ActiveRowsAdd(jt: JoinType, a: multiset<Row>, b: multiset<Row>)
    ensures ActiveRows(jt, a + b) == ActiveRows(jt, a) + ActiveRows(jt, b)
  {
    if !KeepsNullKeys(jt) {
      SelectAdds(a, b, (r: Row) => !HasNull(r.key));
      assert WithoutNullKeys(a + b) == WithoutNullKeys(a) + WithoutNullKeys(b);
    }
  }

  lemma ActiveRowsEmpty(jt: JoinType)
    ensures ActiveRows(jt, multiset{}) == multiset{}
  {
  }

  lemma AcceptKeepsGood(g: BuildGroup, op: Op)
    requires OpGood(g, op) && (op.phase.Holding? || op.phase.Waiting?)
    ensures OpGood(g, AcceptBatch(g, op, op.phase.batch))
  {
    var rows := ActiveRows(g.jt, op.phase.batch);
    AcceptKeepsSplit(g.r, op.rows, op.accepted, rows);
    assert Accept(g.r, op.rows, rows).files.Keys == op.rows.files.Keys;
    ActiveRowsEmpty(g.jt);
  }

  lemma SpillKeepsGood(g: BuildGroup, op: Op, numbers: set<nat>)
    requires OpGood(g, op)
    ensures OpGood(SpillAll(g, numbers), SpillOp(g.r, op, numbers))
  {
    SpillOutKeepsSplit(g.r, op.rows, op.accepted, numbers);
  }

  lemma SpillAllKeepsOps(g: BuildGroup, numbers: set<nat>)
    requires OpsGood(g)
    ensures OpsGood(SpillAll(g, numbers)) && WaitersGood(SpillAll(g, numbers))
  {
    var g' := SpillAll(g, numbers);
    forall i | 0 <= i < |g'.ops|
      ensures OpGood(g', g'.ops[i])
    {
      SpillKeepsGood(g, g.ops[i], numbers);
    }
  }

  lemma SpillFillsFile(r: Round, b: BuilderRows, numbers: set<nat>, n: nat, row: Row)
    requires (row in FileOf(b, n)) || (n in numbers && row in b.table && r.number(row) == n)
    ensures FileOf(SpillOut(r, b, numbers), n) != multiset{}
  {
    var b' := SpillOut(r, b, numbers);
    assert n in b'.files;
    assert row in b'.files[n];
  }

  lemma SpillAllFillsFile(g: BuildGroup, numbers: set<nat>, n: nat, k: nat, row: Row)
    requires k < |g.ops|
    requires row in FileOf(g.ops[k].rows, n) || (n in numbers && row in g.ops[k].rows.table && g.r.number(row) == n)
    ensures HasFile(SpillAll(g, numbers), n)
  {
    SpillFillsFile(g.r, g.ops[k].rows, numbers, n, row);
    assert SpillAll(g, numbers).ops[k].rows == SpillOut(g.r, g.ops[k].rows, numbers);
  }

  /** A partition is spilled only where it has rows, so its files have rows from then on. */
  lemma SpillAllKeepsFile(g: BuildGroup, numbers: set<nat>, n: nat)
    requires HasFile(g, n) || (n in numbers && Spillable(g, n))
    ensures HasFile(SpillAll(g, numbers), n)
  {
    if HasFile(g, n) {
      var k :| 0 <= k < |g.ops| && FileOf(g.ops[k].rows, n) != multiset{};
      var row :| row in FileOf(g.ops[k].rows, n);
      SpillAllFillsFile(g, numbers, n, k, row);
    } else {
      var k, row :| 0 <= k < |g.ops| && row in g.ops[k].rows.table && g.r.number(row) == n;
      SpillAllFillsFile(g, numbers, n, k, row);
    }
  }

  lemma SpillAllKeeps(g: BuildGroup, numbers: set<nat>)
    requires OpsGood(g) && NumbersBelow(g.r, g.partitions) && FilesGood(g)
    requires forall n :: n in numbers ==> Spillable(g, n)
    ensures GroupInv(SpillAll(g, numbers))
  {
    SpillAllKeepsOps(g, numbers);
    forall n | n in SpillAll(g, numbers).spilled
      ensures HasFile(SpillAll(g, numbers), n)
    {
      SpillAllKeepsFile(g, numbers, n);
    }
  }

  /** One builder changes and loses no row of its files. */
  ghost predicate Updated(g: BuildGroup, i: nat, g': BuildGroup) {
    && i < |g.ops| == |g'.ops| && g' == g.(ops := g.ops[i := g'.ops[i]], needSpill := g'.needSpill)
    && g'.ops[i].rows.files.Keys == g.ops[i].rows.files.Keys
    && forall n :: n in g.ops[i].rows.files ==> g.ops[i].rows.files[n] <= g'.ops[i].rows.files[n]
  }

  lemma UpdateKeepsOps(g: BuildGroup, i: nat, g': BuildGroup)
    requires OpsGood(g) && Updated(g, i, g') && OpGood(g, g'.ops[i])
    ensures OpsGood(g')
  {
    forall k | 0 <= k < |g'.ops|
      ensures OpGood(g', g'.ops[k])
    {
      assert OpGood(g, if k == i then g'.ops[i] else g.ops[k]);
    }
  }

  lemma UpdateKeepsFiles(g: BuildGroup, i: nat, g': BuildGroup)
    requires Updated(g, i, g') && FilesGood(g)
    ensures FilesGood(g')
  {
    forall n | n in g'.spilled
      ensures HasFile(g', n)
    {
      var k :| 0 <= k < |g.ops| && FileOf(g.ops[k].rows, n) != multiset{};
      var row :| row in FileOf(g.ops[k].rows, n);
      assert row in FileOf(g'.ops[k].rows, n);
    }
  }

  lemma WaitersUnchanged(g: BuildGroup, g': BuildGroup, i: nat)
    requires WaitersGood(g) && i < |g.ops| == |g'.ops| && g' == g.(ops := g.ops[i := g'.ops[i]])
    requires IsActive(g.ops[i]) && IsActive(g'.ops[i])
    ensures WaitersGood(g')
  {
    if g.needSpill {
      var k :| 0 <= k < |g.ops| && g.ops[k].phase.Waiting? && g.ops[k].rows.table != multiset{};
      assert g'.ops[k] == g.ops[k];
    }
  }

  lemma AcceptGrows(r: Round, b: BuilderRows, rows: multiset<Row>)
    ensures var b' := Accept(r, b, rows);
            b'.files.Keys == b.files.Keys && forall n :: n in b.files ==> b.files[n] <= b'.files[n]
  {
  }

  lemma ReadKeeps(g: BuildGroup, i: nat, batch: multiset<Row>)
    requires GroupInv(g) && GroupEnabled(g, Read(i, batch))
    ensures GroupInv(GroupApply(g, Read(i, batch)))
  {
    var op, g' := g.ops[i], GroupApply(g, Read(i, batch));
    assert OpGood(g, op);
    ActiveRowsAdd(g.jt, op.read, batch);
    ActiveRowsEmpty(g.jt);
    assert OpGood(g, g'.ops[i]);
    UpdateKeepsOps(g, i, g');
    UpdateKeepsFiles(g, i, g');
    WaitersUnchanged(g, g', i);
  }

  lemma FitsKeeps(g: BuildGroup, i: nat)
    requires GroupInv(g) && GroupEnabled(g, Fits(i))
    ensures GroupInv(GroupApply(g, Fits(i)))
  {
    var op, g' := g.ops[i], GroupApply(g, Fits(i));
    assert OpGood(g, op);
    AcceptKeepsGood(g, op);
    AcceptGrows(g.r, op.rows, ActiveRows(g.jt, op.phase.batch));
    UpdateKeepsOps(g, i, g');
    UpdateKeepsFiles(g, i, g');
    WaitersUnchanged(g, g', i);
  }

  /** The last builder to ask: all spill, and it goes on with its batch. */
  lemma LastAskKeeps(g: BuildGroup, i: nat, numbers: set<nat>)
    requires GroupInv(g) && GroupEnabled(g, AskSpill(i, numbers)) && OthersWait(g, i)
    ensures GroupInv(GroupApply(g, AskSpill(i, numbers)))
  {
    var g', h := GroupApply(g, AskSpill(i, numbers)), SpillAll(g, numbers);
    SpillAllKeeps(g, numbers);
    assert h.ops[i].phase == g.ops[i].phase;
    assert g' == GroupApply(h, Fits(i));
    FitsKeeps(h, i);
  }

  lemma ParkKeepsWaiters(g: BuildGroup, i: nat, g': BuildGroup)
    requires WaitersGood(g) && i < |g.ops| && g.ops[i].phase.Holding? && !OthersWait(g, i)
    requires g.needSpill || g.ops[i].rows.table != multiset{}
    requires g' == g.(needSpill := true, ops := g.ops[i := g.ops[i].(phase := Waiting(g.ops[i].phase.batch))])
    ensures WaitersGood(g')
  {
    assert g'.ops[i].phase.Waiting?;
    var k :| 0 <= k < |g.ops| && k != i && !g.ops[k].phase.Waiting? && g.ops[k].phase != Stopped;
    assert g'.ops[k] == g.ops[k] && IsActive(g'.ops[k]);
    if g.ops[i].rows.table == multiset{} {
      var m :| 0 <= m < |g.ops| && g.ops[m].phase.Waiting? && g.ops[m].rows.table != multiset{};
      assert g'.ops[m] == g.ops[m];
    }
  }

  /** A builder that has to wait for others parks its batch. */
  lemma ParkKeeps(g: BuildGroup, i: nat, numbers: set<nat>)
    requires GroupInv(g) && GroupEnabled(g, AskSpill(i, numbers)) && !OthersWait(g, i)
    ensures GroupInv(GroupApply(g, AskSpill(i, numbers)))
  {
    var g' := GroupApply(g, AskSpill(i, numbers));
    assert OpGood(g, g.ops[i]);
    UpdateKeepsOps(g, i, g');
    UpdateKeepsFiles(g, i, g');
    ParkKeepsWaiters(g, i, g');
  }

  lemma AskSpillKeeps(g: BuildGroup, i: nat, numbers: set<nat>)
    requires GroupInv(g) && GroupEnabled(g, AskSpill(i, numbers))
    ensures GroupInv(GroupApply(g, AskSpill(i, numbers)))
  {
    if OthersWait(g, i) {
      LastAskKeeps(g, i, numbers);
    } else {
      ParkKeeps(g, i, numbers);
    }
  }

  /** A builder that stops leaves the waiters alone when another active builder is left. */
  lemma StopLeavesWaiters(g: BuildGroup, i: nat)
    requires WaitersGood(g) && i < |g.ops| && g.ops[i].phase == Running
    requires !(g.needSpill && OthersWait(g, i))
    ensures WaitersGood(Halt(g, i))
  {
    var h := Halt(g, i);
    if g.needSpill {
      var k :| 0 <= k < |g.ops| && g.ops[k].phase.Waiting? && g.ops[k].rows.table != multiset{};
      assert h.ops[k] == g.ops[k];
      var m :| 0 <= m < |g.ops| && m != i && !g.ops[m].phase.Waiting? && g.ops[m].phase != Stopped;
      assert h.ops[m] == g.ops[m] && IsActive(h.ops[m]);
    }
  }

  lemma StillSpillable(g: BuildGroup, i: nat, n: nat)
    requires i < |g.ops| && Spillable(g, n)
    ensures Spillable(Halt(g, i), n)
  {
    var k, row :| 0 <= k < |g.ops| && row in g.ops[k].rows.table && g.r.number(row) == n;
    assert Halt(g, i).ops[k].rows == g.ops[k].rows;
  }

  lemma HaltKeepsRows(g: BuildGroup, i: nat)
    requires OpsGood(g) && FilesGood(g) && i < |g.ops| && g.ops[i].phase == Running
    ensures OpsGood(Halt(g, i)) && FilesGood(Halt(g, i))
  {
    assert OpGood(g, g.ops[i]);
    UpdateKeepsOps(g, i, Halt(g, i));
    UpdateKeepsFiles(g, i, Halt(g, i));
  }

  lemma LastStopKeeps(g: BuildGroup, i: nat, numbers: set<nat>)
    requires OpsGood(g) && FilesGood(g) && NumbersBelow(g.r, g.partitions) && MayChoose(g, numbers)
    requires i < |g.ops| && g.ops[i].phase == Running
    ensures GroupInv(SpillAll(Halt(g, i), numbers))
  {
    HaltKeepsRows(g, i);
    forall n | n in numbers
      ensures Spillable(Halt(g, i), n)
    {
      StillSpillable(g, i, n);
    }
    SpillAllKeeps(Halt(g, i), numbers);
  }

  lemma StopKeeps(g: BuildGroup, i: nat, numbers: set<nat>)
    requires GroupInv(g) && GroupEnabled(g, Stop(i, numbers))
    ensures GroupInv(GroupApply(g, Stop(i, numbers)))
  {
    if g.needSpill && OthersWait(g, i) {
      assert RunsSpill(g, Stop(i, numbers));
      LastStopKeeps(g, i, numbers);
    } else {
      HaltKeepsRows(g, i);
      StopLeavesWaiters(g, i);
    }
  }

  /** Every step of the group keeps the invariant: no parked batch is lost or replayed twice, no table
      holds a row of a spilled partition, all builders have spilled the same partitions, whoever waits
      has an active builder to wait for, and no partition is spilled without rows. */
  lemma GroupStepKeeps(g: BuildGroup, step: GroupStep)
    requires GroupInv(g) && GroupEnabled(g, step)
    ensures GroupInv(GroupApply(g, step))
  {
    match step
    case Read(i, batch) => ReadKeeps(g, i, batch);
    case Fits(i) => FitsKeeps(g, i);
    case AskSpill(i, numbers) => AskSpillKeeps(g, i, numbers);
    case Stop(i, numbers) => StopKeeps(g, i, numbers);
  }

  /** Whenever the group spills, some table has a row, its partition is not spilled yet, and so the
      checks of `runSpill` pass. */
  lemma SpillChecksPass(g: BuildGroup, step: GroupStep)
    requires GroupInv(g) && GroupEnabled(g, step)
    ensures SpillChecksHold(g, step)
  {
    if RunsSpill(g, step) {
      var k :| 0 <= k < |g.ops| && g.ops[k].rows.table != multiset{};
      assert OpGood(g, g.ops[k]);
      var row :| row in g.ops[k].rows.table;
      var n := g.r.number(row);
      assert Spillable(g, n);
      assert InMemory(g.r, g.spilled)(row);
      assert n < g.partitions && n !in g.spilled;
    }
  }

  lemma GroupInitGood(g: BuildGroup)
    requires IsGroupInit(g)
    ensures GroupInv(g)
  {
    forall i | 0 <= i < |g.ops|
      ensures OpGood(g, g.ops[i])
    {
      SelectEmpty(InMemory(g.r, {}));
      ActiveRowsEmpty(g.jt);
    }
  }

  ghost predicate GroupStepAt(groups: seq<BuildGroup>, steps: seq<GroupStep>, k: nat) {
    && k < |steps| && k + 1 < |groups|
    && GroupEnabled(groups[k], steps[k]) && groups[k + 1] == GroupApply(groups[k], steps[k])
  }

  ghost predicate IsGroupRun(groups: seq<BuildGroup>, steps: seq<GroupStep>) {
    && |groups| == |steps| + 1 && IsGroupInit(groups[0])
    && forall k: nat :: k < |steps| ==> GroupStepAt(groups, steps, k)
  }

  lemma {:induction false} GroupRunKeeps(groups: seq<BuildGroup>, steps: seq<GroupStep>, n: nat)
    requires IsGroupRun(groups, steps) && n <= |steps|
    ensures GroupInv(groups[n]) && groups[n].r == groups[0].r && groups[n].jt == groups[0].jt
  {
    if n == 0 {
      GroupInitGood(groups[0]);
    } else {
      GroupRunKeeps(groups, steps, n - 1);
      assert GroupStepAt(groups, steps, n - 1);
      GroupStepKeeps(groups[n - 1], steps[n - 1]);
    }
  }

  // ------------------------------------------------------------------------------------------------
  // What the last builder publishes
  // ------------------------------------------------------------------------------------------------

  ghost function AllRead(ops: seq<Op>): multiset<Row> {
    if ops == [] then multiset{} else ops[0].read + AllRead(ops[1..])
  }

  ghost function AllTables(ops: seq<Op>): multiset<Row> {
    if ops == [] then multiset{} else ops[0].rows.table + AllTables(ops[1..])
  }

  ghost function AllFiles(ops: seq<Op>, n: nat): multiset<Row> {
    if ops == [] then multiset{} else FileOf(ops[0].rows, n) + AllFiles(ops[1..], n)
  }

  lemma {:induction false} TotalsSplit(g: BuildGroup, ops: seq<Op>, n: nat)
    requires forall i :: 0 <= i < |ops| ==> OpGood(g, ops[i]) && ops[i].phase == Stopped
    ensures AllTables(ops) == Select(ActiveRows(g.jt, AllRead(ops)), InMemory(g.r, g.spilled))
    ensures n in g.spilled ==> AllFiles(ops, n) == Select(ActiveRows(g.jt, AllRead(ops)), WithNumber(g.r, n))
  {
    ActiveRowsEmpty(g.jt);
    if ops == [] {
      SelectEmpty(InMemory(g.r, g.spilled));
      SelectEmpty(WithNumber(g.r, n));
    } else {
      TotalsSplit(g, ops[1..], n);
      assert OpGood(g, ops[0]);
      var first, rest := ActiveRows(g.jt, ops[0].read), ActiveRows(g.jt, AllRead(ops[1..]));
      assert first == ops[0].accepted;
      ActiveRowsAdd(g.jt, ops[0].read, AllRead(ops[1..]));
      SelectAdds(first, rest, InMemory(g.r, g.spilled));
      SelectAdds(first, rest, WithNumber(g.r, n));
    }
  }

  lemma {:induction false} FilesFilled(ops: seq<Op>, n: nat, k: nat)
    requires k < |ops| && FileOf(ops[k].rows, n) != multiset{}
    ensures AllFiles(ops, n) != multiset{}
  {
    if k == 0 {
      var row :| row in FileOf(ops[0].rows, n);
      assert row in AllFiles(ops, n);
    } else {
      FilesFilled(ops[1..], n, k - 1);
      var row :| row in AllFiles(ops[1..], n);
      assert row in AllFiles(ops, n);
    }
  }

  /** A run of the group over the rows of a round, in which every builder has stopped and `numbers` were
      spilled. */
  ghost predicate BuildsRound(
    setting: Setting, offset: nat, rows: multiset<Row>, numbers: set<nat>,
    groups: seq<BuildGroup>, steps: seq<GroupStep>)
  {
    && IsGroupRun(groups, steps)
    && groups[0].jt == setting.jt && groups[0].r == RoundAt(setting, offset)
    && var g := groups[|steps|];
       && (forall i :: 0 <= i < |g.ops| ==> g.ops[i].phase == Stopped)
       && AllRead(g.ops) == rows && g.spilled == numbers
  }

  /** After every run of the group that has ended, whatever was spilled when and whoever waited: the
      merged tables hold exactly the rows of the partitions that were not spilled and the files of
      each spilled partition exactly its rows, of which there is at least one. */
  lemma GroupBuildsTheRound(
      setting: Setting, offset: nat, rows: multiset<Row>, numbers: set<nat>,
      groups: seq<BuildGroup>, steps: seq<GroupStep>)
    requires BuildsRound(setting, offset, rows, numbers, groups, steps)
    ensures var ops, active := groups[|steps|].ops, ActiveRows(setting.jt, rows);
            && AllTables(ops) == Keep(setting, active, IdsOf(offset, numbers))
            && forall n :: n in numbers ==>
                 && AllFiles(ops, n) == Part(setting, active, SpillPartitionId(offset, n))
                 && AllFiles(ops, n) != multiset{}
  {
    var g, active := groups[|steps|], ActiveRows(setting.jt, rows);
    GroupRunKeeps(groups, steps, |steps|);
    TotalsSplit(g, g.ops, 0);
    RoundKeeps(setting, offset, active, numbers);
    forall n | n in numbers
      ensures AllFiles(g.ops, n) == Part(setting, active, SpillPartitionId(offset, n))
      ensures AllFiles(g.ops, n) != multiset{}
    {
      TotalsSplit(g, g.ops, n);
      RoundParts(setting, offset, active, n);
      var k :| 0 <= k < |g.ops| && FileOf(g.ops[k].rows, n) != multiset{};
      FilesFilled(g.ops, n, k);
    }
  }
}
