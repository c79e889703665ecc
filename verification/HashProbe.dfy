/** The prober on one table: its row loops, and what they add up to. */
module HashProbes {
  import opened Options
  import opened Sums
  import opened JoinSpecs
  import opened SpillPartitions
  import opened JoinCuts
  import opened BuildSpills

  // ------------------------------------------------------------------------------------------------
  // Output of a loop
  // ------------------------------------------------------------------------------------------------

  /** What a loop of `n` turns emits. */
  ghost function Emits(emit: nat -> seq<OutRow>, n: nat): seq<OutRow> {
    if n == 0 then [] else Emits(emit, n - 1) + emit(n - 1)
  }

  /** How often turn `i` emits `o`. */
  ghost function Turn(emit: nat -> seq<OutRow>, i: nat, o: OutRow): nat {
    multiset(emit(i))[o]
  }

  /** How often `o` is emitted in `n` turns. */
  ghost function Count(emit: nat -> seq<OutRow>, n: nat, o: OutRow): nat {
    if n == 0 then 0 else Count(emit, n - 1, o) + Turn(emit, n - 1, o)
  }

  lemma CountAppend(out: seq<OutRow>, more: seq<OutRow>, o: OutRow)
    ensures multiset(out + more)[o] == multiset(out)[o] + multiset(more)[o]
  {
  }

  lemma {:induction false} EmitsAre(emit: nat -> seq<OutRow>, n: nat, o: OutRow)
    ensures multiset(Emits(emit, n))[o] == Count(emit, n, o)
  {
    if n == 0 {
    } else {
      EmitsAre(emit, n - 1, o);
      CountAppend(Emits(emit, n - 1), emit(n - 1), o);
    }
  }

  /** Every turn adds what `part` grows by. */
  ghost predicate Grows(emit: nat -> seq<OutRow>, part: nat -> nat, n: nat, o: OutRow) {
    part(0) == 0 && forall i: nat :: i < n ==> part(i + 1) == part(i) + Turn(emit, i, o)
  }

  lemma {:induction false} EmitsCount(emit: nat -> seq<OutRow>, part: nat -> nat, n: nat, o: OutRow)
    requires Grows(emit, part, n, o)
    ensures Count(emit, n, o) == part(n)
  {
    if n == 0 {
    } else {
      EmitsCount(emit, part, n - 1, o);
    }
  }

  lemma {:induction false} EmitsSome(emit: nat -> seq<OutRow>, n: nat, k: nat, o: OutRow)
    requires k < n && Turn(emit, k, o) > 0
    ensures Count(emit, n, o) > 0
  {
    if k == n - 1 {
    } else {
      EmitsSome(emit, n - 1, k, o);
    }
  }

  // ------------------------------------------------------------------------------------------------
  // One probe row
  // ------------------------------------------------------------------------------------------------

  /** What the hits of one probe row with `rows` give, before misses are considered. */
  ghost function HitPart(jt: JoinType, l: Row, rows: multiset<Row>, o: OutRow): nat {
    if jt.Inner? || jt.Left? || jt.Right? || jt.Full? then Pairs(multiset{l}, rows, o)
    else if jt.LeftSemiFilter? then LeftRows(multiset{l}, rows, o, true)
    else 0
  }

  /** The output row of one hit. */
  function HitRows(jt: JoinType, l: Row, r: Row): seq<OutRow> {
    if jt.Inner? || jt.Left? || jt.Right? || jt.Full? then [OutRow(Some(l), Some(r), None)]
    else if jt.LeftSemiFilter? then [OutRow(Some(l), None, None)]
    else []
  }

  lemma HitStep(jt: JoinType, l: Row, rows: multiset<Row>, r: Row, o: OutRow)
    requires jt == LeftSemiFilter ==> Matches(l, r) ==> !MatchedByRight(l, rows)
    ensures HitPart(jt, l, rows + multiset{r}, o)
         == HitPart(jt, l, rows, o) + if Matches(l, r) then multiset(HitRows(jt, l, r))[o] else 0
  {
    MatchedInUnion(l, rows, multiset{r});
    if o.left.Some? && o.right.Some? {
      assert multiset{l}[l] == 1;
      TimesAddRight(multiset{l}[o.left.value], rows[o.right.value], multiset{r}[o.right.value]);
    }
  }

  lemma NoHits(jt: JoinType, l: Row, o: OutRow)
    ensures HitPart(jt, l, multiset{}, o) == 0
  {
    if o.left.Some? {
      TimesZero(multiset{l}[o.left.value]);
    }
  }

  /** The rows emitted for a probe row after its hits. */
  function MissRows(jt: JoinType, l: Row, hit: bool): seq<OutRow> {
    if (jt.Left? || jt.Full? || jt.Anti?) && !hit then [OutRow(Some(l), None, None)]
    else if jt.LeftSemiProject? then [OutRow(Some(l), None, Some(hit))]
    else []
  }

  lemma HitsAndMisses(jt: JoinType, l: Row, rows: multiset<Row>, o: OutRow)
    ensures ProbePart(jt, multiset{l}, rows, o)
         == HitPart(jt, l, rows, o) + multiset(MissRows(jt, l, MatchedByRight(l, rows)))[o]
  {
  }

  /** The output of the hit with table row `i`, if it is one. */
  ghost function HitAt(jt: JoinType, l: Row, table: seq<Row>): nat -> seq<OutRow> {
    (i: nat) => if i < |table| && Matches(l, table[i]) then HitRows(jt, l, table[i]) else []
  }

  /** The row hits one of the first `n` table rows. */
  predicate HitsFirst(l: Row, table: seq<Row>, n: nat)
    requires n <= |table|
  {
    exists k :: 0 <= k < n && Matches(l, table[k])
  }

  predicate HitsAny(l: Row, table: seq<Row>) {
    HitsFirst(l, table, |table|)
  }

  /** Everything that one probe row emits. */
  ghost function RowOutput(jt: JoinType, l: Row, table: seq<Row>): seq<OutRow> {
    Emits(HitAt(jt, l, table), |table|) + MissRows(jt, l, HitsAny(l, table))
  }

  lemma OnlyHit(l: Row, table: seq<Row>, i: nat)
    requires i < |table| && DistinctKeys(table) && Matches(l, table[i])
    ensures !MatchedByRight(l, FirstRows(table, i))
  {
    FirstRowsAre(table, i);
  }

  ghost function HitPartAt(jt: JoinType, l: Row, table: seq<Row>, o: OutRow): nat -> nat {
    (i: nat) => if i <= |table| then HitPart(jt, l, FirstRows(table, i), o) else 0
  }

  lemma TurnHits(jt: JoinType, l: Row, table: seq<Row>, i: nat, o: OutRow)
    requires i < |table|
    ensures Turn(HitAt(jt, l, table), i, o) == if Matches(l, table[i]) then multiset(HitRows(jt, l, table[i]))[o] else 0
  {
  }

  lemma HitTurn(jt: JoinType, l: Row, table: seq<Row>, i: nat, o: OutRow)
    requires i < |table| && (DropsDuplicates(jt) ==> DistinctKeys(table))
    ensures HitPart(jt, l, FirstRows(table, i + 1), o)
         == HitPart(jt, l, FirstRows(table, i), o) + Turn(HitAt(jt, l, table), i, o)
  {
    assert jt == LeftSemiFilter ==> Matches(l, table[i]) ==> !MatchedByRight(l, FirstRows(table, i)) by {
      if jt == LeftSemiFilter && Matches(l, table[i]) {
        OnlyHit(l, table, i);
      }
    }
    TurnHits(jt, l, table, i, o);
    HitStep(jt, l, FirstRows(table, i), table[i], o);
    assert FirstRows(table, i + 1) == FirstRows(table, i) + multiset{table[i]};
  }

  lemma HitPartIsAt(jt: JoinType, l: Row, table: seq<Row>, i: nat, o: OutRow)
    requires i <= |table|
    ensures HitPartAt(jt, l, table, o)(i) == HitPart(jt, l, FirstRows(table, i), o)
  {
  }

  lemma HitsGrow(jt: JoinType, l: Row, table: seq<Row>, o: OutRow)
    requires DropsDuplicates(jt) ==> DistinctKeys(table)
    ensures Grows(HitAt(jt, l, table), HitPartAt(jt, l, table, o), |table|, o)
  {
    var emit, part := HitAt(jt, l, table), HitPartAt(jt, l, table, o);
    forall i: nat | i < |table|
      ensures part(i + 1) == part(i) + Turn(emit, i, o)
    {
      HitTurn(jt, l, table, i, o);
      HitPartIsAt(jt, l, table, i, o);
      HitPartIsAt(jt, l, table, i + 1, o);
    }
    NoHits(jt, l, o);
  }

  lemma HitsAreHitPart(jt: JoinType, l: Row, table: seq<Row>, o: OutRow)
    requires DropsDuplicates(jt) ==> DistinctKeys(table)
    ensures multiset(Emits(HitAt(jt, l, table), |table|))[o] == HitPart(jt, l, multiset(table), o)
  {
    HitsGrow(jt, l, table, o);
    EmitsAre(HitAt(jt, l, table), |table|, o);
    EmitsCount(HitAt(jt, l, table), HitPartAt(jt, l, table, o), |table|, o);
    AllRows(table);
  }

  lemma MatchedByIndex(l: Row, table: seq<Row>)
    ensures MatchedByRight(l, multiset(table)) <==> HitsAny(l, table)
  {
    if k :| 0 <= k < |table| && Matches(l, table[k]) {
      assert table[k] in multiset(table);
    }
  }

  lemma RowIsProbePart(jt: JoinType, l: Row, table: seq<Row>, o: OutRow)
    requires DropsDuplicates(jt) ==> DistinctKeys(table)
    ensures multiset(RowOutput(jt, l, table))[o] == ProbePart(jt, multiset{l}, multiset(table), o)
  {
    MatchedByIndex(l, table);
    HitsAreHitPart(jt, l, table, o);
    HitsAndMisses(jt, l, multiset(table), o);
  }

  // ------------------------------------------------------------------------------------------------
  // Many probe rows
  // ------------------------------------------------------------------------------------------------

  ghost function RowAt(jt: JoinType, table: seq<Row>, rows: seq<Row>): nat -> seq<OutRow> {
    (i: nat) => if i < |rows| then RowOutput(jt, rows[i], table) else []
  }

  /** What all the probe rows emit. */
  ghost function ProbeOutput(jt: JoinType, table: seq<Row>, rows: seq<Row>): seq<OutRow> {
    Emits(RowAt(jt, table, rows), |rows|)
  }

  ghost function ProbePartAt(jt: JoinType, table: seq<Row>, rows: seq<Row>, o: OutRow): nat -> nat {
    (i: nat) => if i <= |rows| then ProbePart(jt, FirstRows(rows, i), multiset(table), o) else 0
  }

  lemma RowTurn(jt: JoinType, table: seq<Row>, rows: seq<Row>, i: nat, o: OutRow)
    requires i < |rows| && (DropsDuplicates(jt) ==> DistinctKeys(table))
    ensures ProbePartAt(jt, table, rows, o)(i + 1)
         == ProbePartAt(jt, table, rows, o)(i) + Turn(RowAt(jt, table, rows), i, o)
  {
    RowIsProbePart(jt, rows[i], table, o);
    ProbePartAdds(jt, FirstRows(rows, i), multiset{rows[i]}, multiset(table), o);
  }

  /** What the probe rows emit is the probe part of their join with the table. */
  lemma OutputIsProbePart(jt: JoinType, table: seq<Row>, rows: seq<Row>, o: OutRow)
    requires DropsDuplicates(jt) ==> DistinctKeys(table)
    ensures multiset(ProbeOutput(jt, table, rows))[o] == ProbePart(jt, multiset(rows), multiset(table), o)
  {
    var emit, part := RowAt(jt, table, rows), ProbePartAt(jt, table, rows, o);
    forall i: nat | i < |rows|
      ensures part(i + 1) == part(i) + Turn(emit, i, o)
    {
      RowTurn(jt, table, rows, i, o);
    }
    EmitsAre(emit, |rows|, o);
    EmitsCount(emit, part, |rows|, o);
    AllRows(rows);
  }

  /** The probed flags after one more probe row. */
  function Flag(jt: JoinType, table: seq<Row>, flags: seq<bool>, l: Row): (after: seq<bool>)
    requires |flags| == |table|
    ensures |after| == |table|
  {
    seq(|table|, k requires 0 <= k < |table| => flags[k] || (NeedLastProbe(jt) && Matches(l, table[k])))
  }

  ghost function FlagAll(jt: JoinType, table: seq<Row>, flags: seq<bool>, rows: seq<Row>, n: nat): (after: seq<bool>)
    requires |flags| == |table| && n <= |rows|
    ensures |after| == |table|
  {
    if n == 0 then flags else Flag(jt, table, FlagAll(jt, table, flags, rows, n - 1), rows[n - 1])
  }

  /** Table row `k` is flagged if it has met a matching row. */
  ghost predicate FlagsAre(jt: JoinType, table: seq<Row>, flags: seq<bool>, left: multiset<Row>) {
    && |flags| == |table|
    && forall k :: 0 <= k < |table| ==> flags[k] == (NeedLastProbe(jt) && MatchedByLeft(table[k], left))
  }

  lemma FlagKeeps(jt: JoinType, table: seq<Row>, flags: seq<bool>, left: multiset<Row>, l: Row)
    requires FlagsAre(jt, table, flags, left)
    ensures FlagsAre(jt, table, Flag(jt, table, flags, l), left + multiset{l})
  {
    forall k | 0 <= k < |table|
      ensures Flag(jt, table, flags, l)[k] == (NeedLastProbe(jt) && MatchedByLeft(table[k], left + multiset{l}))
    {
      MatchedInUnion(table[k], left, multiset{l});
      assert MatchedByLeft(table[k], multiset{l}) <==> Matches(l, table[k]);
    }
  }

  lemma {:induction false} FlagAllKeeps(
      jt: JoinType, table: seq<Row>, flags: seq<bool>, left: multiset<Row>, rows: seq<Row>, n: nat)
    requires FlagsAre(jt, table, flags, left) && n <= |rows|
    ensures FlagsAre(jt, table, FlagAll(jt, table, flags, rows, n), left + FirstRows(rows, n))
  {
    if n == 0 {
      assert left + FirstRows(rows, 0) == left;
    } else {
      FlagAllKeeps(jt, table, flags, left, rows, n - 1);
      FlagKeeps(jt, table, FlagAll(jt, table, flags, rows, n - 1), left + FirstRows(rows, n - 1), rows[n - 1]);
      assert left + FirstRows(rows, n) == left + FirstRows(rows, n - 1) + multiset{rows[n - 1]};
    }
  }

  lemma AllFlagged(jt: JoinType, table: seq<Row>, flags: seq<bool>, left: multiset<Row>, rows: seq<Row>)
    requires FlagsAre(jt, table, flags, left)
    ensures FlagsAre(jt, table, FlagAll(jt, table, flags, rows, |rows|), left + multiset(rows))
  {
    FlagAllKeeps(jt, table, flags, left, rows, |rows|);
    AllRows(rows);
  }

  /** `skipProbeOnEmptyBuild`. */
  predicate SkipsOnEmptyBuild(jt: JoinType) {
    jt.Inner? || jt.LeftSemiFilter? || jt.Right? || jt.RightSemiFilter? || jt.RightSemiProject?
  }

  lemma {:induction false} EmitsNothing(emit: nat -> seq<OutRow>, n: nat)
    requires forall i: nat :: i < n ==> |emit(i)| == 0
    ensures Emits(emit, n) == []
  {
    if n == 0 {
    } else {
      EmitsNothing(emit, n - 1);
    }
  }

  /** Skipping loses nothing. */
  lemma NothingToProbe(jt: JoinType, table: seq<Row>, rows: seq<Row>)
    requires SkipsOnEmptyBuild(jt) && |table| == 0
    ensures ProbeOutput(jt, table, rows) == []
  {
    EmitsNothing(RowAt(jt, table, rows), |rows|);
  }

  // ------------------------------------------------------------------------------------------------
  // The build rows at the end
  // ------------------------------------------------------------------------------------------------

  /** The rows of the build side output, by flag. */
  function BuildRow(jt: JoinType, r: Row, probed: bool): seq<OutRow> {
    if ((jt.Right? || jt.Full?) && !probed) || (jt.RightSemiFilter? && probed) then [OutRow(None, Some(r), None)]
    else if jt.RightSemiProject? then [OutRow(None, Some(r), Some(probed))]
    else []
  }

  ghost function BuildRowAt(jt: JoinType, table: seq<Row>, flags: seq<bool>): nat -> seq<OutRow>
    requires |flags| == |table|
  {
    (i: nat) => if i < |table| then BuildRow(jt, table[i], flags[i]) else []
  }

  /** What the table rows emit. */
  ghost function BuildOutput(jt: JoinType, table: seq<Row>, flags: seq<bool>): seq<OutRow>
    requires |flags| == |table|
  {
    Emits(BuildRowAt(jt, table, flags), |table|)
  }

  lemma BuildRowIsBuildPart(jt: JoinType, left: multiset<Row>, rows: multiset<Row>, r: Row, o: OutRow)
    ensures BuildPart(jt, left, rows + multiset{r}, o)
         == BuildPart(jt, left, rows, o) + multiset(BuildRow(jt, r, NeedLastProbe(jt) && MatchedByLeft(r, left)))[o]
  {
  }

  ghost function BuildPartAt(jt: JoinType, left: multiset<Row>, table: seq<Row>, o: OutRow): nat -> nat {
    (i: nat) => if i <= |table| then BuildPart(jt, left, FirstRows(table, i), o) else 0
  }

  lemma BuildTurn(jt: JoinType, table: seq<Row>, flags: seq<bool>, left: multiset<Row>, i: nat, o: OutRow)
    requires FlagsAre(jt, table, flags, left) && i < |table|
    ensures BuildPartAt(jt, left, table, o)(i + 1)
         == BuildPartAt(jt, left, table, o)(i) + Turn(BuildRowAt(jt, table, flags), i, o)
  {
    BuildRowIsBuildPart(jt, left, FirstRows(table, i), table[i], o);
  }

  /** What the table rows emit by their flags is the build part of the join with everything probed. */
  lemma OutputIsBuildPart(jt: JoinType, table: seq<Row>, flags: seq<bool>, left: multiset<Row>, o: OutRow)
    requires FlagsAre(jt, table, flags, left)
    ensures multiset(BuildOutput(jt, table, flags))[o] == BuildPart(jt, left, multiset(table), o)
  {
    var emit, part := BuildRowAt(jt, table, flags), BuildPartAt(jt, left, table, o);
    forall i: nat | i < |table|
      ensures part(i + 1) == part(i) + Turn(emit, i, o)
    {
      BuildTurn(jt, table, flags, left, i, o);
    }
    EmitsAre(emit, |table|, o);
    EmitsCount(emit, part, |table|, o);
    AllRows(table);
  }

  function NoFlags(table: seq<Row>): seq<bool> {
    seq(|table|, k => false)
  }

  /** The flags that the last prober reports: a right semi project join answers false for every row if
      this prober has had no input, whatever its peers have probed. */
  function Reported(jt: JoinType, table: seq<Row>, flags: seq<bool>, noInput: bool): seq<bool> {
    if jt == RightSemiProject && noInput then NoFlags(table) else flags
  }

  /** The last prober reports other flags than those set. */
  ghost predicate Blind(jt: JoinType, flags: seq<bool>, noInput: bool) {
    jt == RightSemiProject && noInput && true in flags
  }

  lemma SeesUnlessBlind(jt: JoinType, table: seq<Row>, flags: seq<bool>, noInput: bool)
    requires |flags| == |table|
    ensures Reported(jt, table, flags, noInput) == flags <==> !Blind(jt, flags, noInput)
  {
    var reported := Reported(jt, table, flags, noInput);
    if !Blind(jt, flags, noInput) {
      assert forall k :: 0 <= k < |flags| ==> reported[k] == flags[k];
    } else {
      var k :| 0 <= k < |flags| && flags[k];
      assert !reported[k];
    }
  }

  /** A blind prober reports no row as matched. */
  lemma BlindReportsNone(table: seq<Row>, o: OutRow)
    requires o.matched == Some(true)
    ensures multiset(BuildOutput(RightSemiProject, table, NoFlags(table)))[o] == 0
  {
    var emit := BuildRowAt(RightSemiProject, table, NoFlags(table));
    EmitsAre(emit, |table|, o);
    EmitsCount(emit, (i: nat) => 0, |table|, o);
  }

  lemma FlaggedIsReported(table: seq<Row>, flags: seq<bool>, k: nat)
    requires k < |table| == |flags| && flags[k]
    ensures multiset(BuildOutput(RightSemiProject, table, flags))[OutRow(None, Some(table[k]), Some(true))] > 0
  {
    var emit, o := BuildRowAt(RightSemiProject, table, flags), OutRow(None, Some(table[k]), Some(true));
    EmitsAre(emit, |table|, o);
    EmitsSome(emit, |table|, k, o);
  }

  // ------------------------------------------------------------------------------------------------
  // The prober as an object
  // ------------------------------------------------------------------------------------------------

  class HashProbe {
    const jt: JoinType
    const r: Round
    const table: seq<Row>
    var probedFlags: seq<bool>
    var files: map<nat, seq<Row>>
    var noInput: bool

    ghost predicate Valid()
      reads this
    {
      |probedFlags| == |table|
    }

    constructor (jt: JoinType, r: Round, table: seq<Row>, spilled: set<nat>)
      ensures Valid() && probedFlags == NoFlags(table) && files == (map k | k in spilled :: []) && noInput
      ensures this.jt == jt && this.r == r && this.table == table
    {
      this.jt, this.r, this.table := jt, r, table;
      probedFlags := NoFlags(table);
      files := map k | k in spilled :: [];
      noInput := true;
    }

    /** `spillInput`: the rows of spilled partitions go to the files, the others are kept in order. */
    method SpillInput(input: seq<Row>) returns (rest: seq<Row>)
      modifies this`files
      ensures rest == Picked(input, InMemory(r, old(files).Keys), |input|)
      ensures files.Keys == old(files).Keys
      ensures forall k :: k in files ==> files[k] == old(files)[k] + Picked(input, WithNumber(r, k), |input|)
    {
      rest := [];
      for n := 0 to |input|
        invariant files.Keys == old(files).Keys
        invariant rest == Picked(input, InMemory(r, old(files).Keys), n)
        invariant files == Moved(r, old(files), input, old(files).Keys, n)
      {
        var partition := r.number(input[n]);
        if partition !in files {
          rest := rest + [input[n]];
        } else {
          files := files[partition := files[partition] + [input[n]]];
        }
      }
      forall k | k in files
        ensures files[k] == old(files)[k] + Picked(input, WithNumber(r, k), |input|)
      {
        MovedIs(r, old(files), input, old(files).Keys, |input|, k);
      }
    }

    /** All results of one probe row; the table rows that are hit are flagged. */
    method ProbeRow(l: Row) returns (out: seq<OutRow>)
      requires Valid()
      modifies this`probedFlags
      ensures Valid() && probedFlags == Flag(jt, table, old(probedFlags), l)
      ensures out == RowOutput(jt, l, table)
    {
      out := [];
      var hit := false;
      for i := 0 to |table|
        invariant |probedFlags| == |table|
        invariant forall k :: 0 <= k < |table| ==>
          probedFlags[k] == if k < i then Flag(jt, table, old(probedFlags), l)[k] else old(probedFlags)[k]
        invariant hit == HitsFirst(l, table, i)
        invariant out == Emits(HitAt(jt, l, table), i)
      {
        if Matches(l, table[i]) {
          hit := true;
          out := out + HitRows(jt, l, table[i]);
          if NeedLastProbe(jt) {
            probedFlags := probedFlags[i := true];
          }
        }
      }
      out := out + MissRows(jt, l, hit);
    }

    /** `getOutput` until the input is used up. */
    method ProbeBatch(input: seq<Row>) returns (out: seq<OutRow>)
      requires Valid()
      modifies this`probedFlags
      ensures Valid() && probedFlags == FlagAll(jt, table, old(probedFlags), input, |input|)
      ensures out == ProbeOutput(jt, table, input)
    {
      out := [];
      for n := 0 to |input|
        invariant Valid() && probedFlags == FlagAll(jt, table, old(probedFlags), input, n)
        invariant out == Emits(RowAt(jt, table, input), n)
      {
        var more := ProbeRow(input[n]);
        out := out + more;
      }
    }

    /** `addInput` and the output that follows it: spill, skip if there is nothing to probe, else probe. */
    method AddInput(input: seq<Row>) returns (out: seq<OutRow>)
      requires Valid()
      modifies this
      ensures Valid() && noInput == (old(noInput) && input == [])
      ensures files.Keys == old(files).Keys
      ensures forall k :: k in files ==> files[k] == old(files)[k] + Picked(input, WithNumber(r, k), |input|)
      ensures var rest := Picked(input, InMemory(r, old(files).Keys), |input|);
              && out == ProbeOutput(jt, table, rest)
              && probedFlags == FlagAll(jt, table, old(probedFlags), rest, |rest|)
    {
      if |input| > 0 {
        noInput := false;
      }
      var rest := SpillInput(input);
      if |table| == 0 && SkipsOnEmptyBuild(jt) {
        NothingToProbe(jt, table, rest);
        return [];
      }
      out := ProbeBatch(rest);
    }

    /** `getBuildSideOutput` of the last prober, over all its batches. */
    method BuildSideOutput() returns (out: seq<OutRow>)
      requires Valid()
      ensures out == BuildOutput(jt, table, Reported(jt, table, probedFlags, noInput))
    {
      out := [];
      for n := 0 to |table|
        invariant out == Emits(BuildRowAt(jt, table, Reported(jt, table, probedFlags, noInput)), n)
      {
        var match_ := if jt == RightSemiProject && noInput then false else probedFlags[n];
        out := out + BuildRow(jt, table[n], match_);
      }
    }
  }

  /** The prober keeps and spills by the same partitions as the builders: what it keeps of a batch is what
      the round keeps in memory, and what it spills is what each partition owns. */
  lemma ProbeSpillCuts(setting: Setting, offset: nat, input: seq<Row>, numbers: set<nat>, n: nat)
    ensures var r := RoundAt(setting, offset);
            && multiset(Picked(input, InMemory(r, numbers), |input|))
               == Keep(setting, multiset(input), IdsOf(offset, numbers))
            && multiset(Picked(input, WithNumber(r, n), |input|))
               == Part(setting, multiset(input), SpillPartitionId(offset, n))
  {
    var r := RoundAt(setting, offset);
    AllPickedIsSelect(input, InMemory(r, numbers));
    AllPickedIsSelect(input, WithNumber(r, n));
    RoundKeeps(setting, offset, multiset(input), numbers);
    RoundParts(setting, offset, multiset(input), n);
  }

  ghost function Flat(batches: seq<seq<Row>>): multiset<Row> {
    if batches == [] then multiset{} else Flat(batches[..|batches| - 1]) + multiset(batches[|batches| - 1])
  }

  /** The rows emitted while probing with `left`. */
  ghost predicate Emitted(jt: JoinType, left: multiset<Row>, table: seq<Row>, out: seq<OutRow>) {
    forall o :: multiset(out)[o] == ProbePart(jt, left, multiset(table), o)
  }

  lemma EmittedMore(jt: JoinType, left: multiset<Row>, batch: seq<Row>, table: seq<Row>, out: seq<OutRow>)
    requires Emitted(jt, left, table, out) && (DropsDuplicates(jt) ==> DistinctKeys(table))
    ensures Emitted(jt, left + multiset(batch), table, out + ProbeOutput(jt, table, batch))
  {
    forall o: OutRow
      ensures multiset(out + ProbeOutput(jt, table, batch))[o]
           == ProbePart(jt, left + multiset(batch), multiset(table), o)
    {
      OutputIsProbePart(jt, table, batch, o);
      ProbePartAdds(jt, left, multiset(batch), multiset(table), o);
    }
  }

  lemma {:induction false} AllInMemory(rows: seq<Row>, r: Round, n: nat)
    requires n <= |rows|
    ensures Picked(rows, InMemory(r, {}), n) == rows[..n]
  {
    if n == 0 {
    } else {
      AllInMemory(rows, r, n - 1);
      assert rows[..n] == rows[..n - 1] + [rows[n - 1]];
    }
  }

  /** Nothing probed, nothing flagged, and nobody is blind. */
  lemma NotBlind(jt: JoinType, table: seq<Row>, flags: seq<bool>, left: multiset<Row>, noInput: bool)
    requires FlagsAre(jt, table, flags, left) && (noInput ==> left == multiset{})
    ensures Reported(jt, table, flags, noInput) == flags
  {
    if noInput {
      forall k | 0 <= k < |flags|
        ensures !flags[k]
      {
      }
    }
    SeesUnlessBlind(jt, table, flags, noInput);
  }

  /** Where a prober without spilling stands after the rows `left`. */
  ghost predicate Progress(
    jt: JoinType, table: seq<Row>, flags: seq<bool>, noInput: bool, left: multiset<Row>, out: seq<OutRow>)
  {
    && FlagsAre(jt, table, flags, left)
    && (noInput ==> left == multiset{})
    && Emitted(jt, left, table, out)
  }

  lemma ProgressBegins(jt: JoinType, table: seq<Row>)
    ensures Progress(jt, table, NoFlags(table), true, multiset{}, [])
  {
  }

  lemma ProgressMore(
      jt: JoinType, table: seq<Row>, flags: seq<bool>, noInput: bool, left: multiset<Row>, out: seq<OutRow>,
      batch: seq<Row>, r: Round)
    requires Progress(jt, table, flags, noInput, left, out) && (DropsDuplicates(jt) ==> DistinctKeys(table))
    ensures var rest := Picked(batch, InMemory(r, {}), |batch|);
            Progress(jt, table, FlagAll(jt, table, flags, rest, |rest|), noInput && batch == [],
                     left + multiset(batch), out + ProbeOutput(jt, table, rest))
  {
    AllInMemory(batch, r, |batch|);
    assert batch[..|batch|] == batch;
    AllFlagged(jt, table, flags, left, batch);
    EmittedMore(jt, left, batch, table, out);
  }

  lemma ProgressEnds(
      jt: JoinType, table: seq<Row>, flags: seq<bool>, noInput: bool, left: multiset<Row>, out: seq<OutRow>)
    requires Progress(jt, table, flags, noInput, left, out)
    ensures var rest := BuildOutput(jt, table, Reported(jt, table, flags, noInput));
            forall o :: multiset(out + rest)[o] == JoinCount(jt, left, multiset(table), o)
  {
    NotBlind(jt, table, flags, left, noInput);
    forall o: OutRow
      ensures multiset(out + BuildOutput(jt, table, flags))[o] == JoinCount(jt, left, multiset(table), o)
    {
      OutputIsBuildPart(jt, table, flags, left, o);
      PartsMakeJoin(jt, left, multiset(table), o);
    }
  }

  /** One prober, one table, no spilling: however the probe side is cut into batches, the loops return
      the join. */
  method JoinInMemory(jt: JoinType, table: seq<Row>, batches: seq<seq<Row>>, number: Row -> nat)
    returns (out: seq<OutRow>)
    requires DropsDuplicates(jt) ==> DistinctKeys(table)
    ensures forall o :: multiset(out)[o] == JoinCount(jt, Flat(batches), multiset(table), o)
  {
    var p := new HashProbe(jt, Round(number), table, {});
    ProgressBegins(jt, table);
    out := [];
    for n := 0 to |batches|
      invariant p.Valid() && p.jt == jt && p.table == table && p.files.Keys == {}
      invariant Progress(jt, table, p.probedFlags, p.noInput, Flat(batches[..n]), out)
    {
      ProgressMore(jt, table, p.probedFlags, p.noInput, Flat(batches[..n]), out, batches[n], p.r);
      assert batches[..n + 1][..n] == batches[..n];
      var more := p.AddInput(batches[n]);
      out := out + more;
    }
    assert batches[..|batches|] == batches;
    ProgressEnds(jt, table, p.probedFlags, p.noInput, Flat(batches), out);
    var rest := p.BuildSideOutput();
    out := out + rest;
  }
}
