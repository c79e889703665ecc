/** What each join type returns, as the number of times each output row appears. */
module JoinSpecs {
  import opened Options
  import opened Sums

  /** A row of either side: its join key columns, null where absent, and everything else. */
  datatype Row = Row(key: seq<Option<int>>, payload: int)

  datatype JoinType =
    | Inner | Left | Right | Full | LeftSemiFilter | LeftSemiProject | RightSemiFilter | RightSemiProject | Anti

  /** `matched` is the flag column of the semi project joins. */
  datatype OutRow = OutRow(left: Option<Row>, right: Option<Row>, matched: Option<bool>)

  predicate HasNull(key: seq<Option<int>>) {
    None in key
  }

  /** Join keys are equal and have no null. */
  predicate Matches(left: Row, right: Row) {
    left.key == right.key && !HasNull(left.key)
  }

  ghost predicate MatchedByRight(left: Row, right: multiset<Row>) {
    exists r :: r in right && Matches(left, r)
  }

  ghost predicate MatchedByLeft(right: Row, left: multiset<Row>) {
    exists l :: l in left && Matches(l, right)
  }

  // The building blocks: how often output row `o` comes from pairs, unmatched rows and so on.

  ghost function Pairs(left: multiset<Row>, right: multiset<Row>, o: OutRow): nat {
    if o.left.Some? && o.right.Some? && o.matched.None? && Matches(o.left.value, o.right.value)
    then Times(left[o.left.value], right[o.right.value]) else 0
  }

  ghost function LeftRows(left: multiset<Row>, right: multiset<Row>, o: OutRow, matched: bool): nat {
    if o.left.Some? && o.right.None? && o.matched.None? && MatchedByRight(o.left.value, right) == matched
    then left[o.left.value] else 0
  }

  ghost function RightRows(left: multiset<Row>, right: multiset<Row>, o: OutRow, matched: bool): nat {
    if o.left.None? && o.right.Some? && o.matched.None? && MatchedByLeft(o.right.value, left) == matched
    then right[o.right.value] else 0
  }

  ghost function LeftFlagged(left: multiset<Row>, right: multiset<Row>, o: OutRow): nat {
    if o.left.Some? && o.right.None? && o.matched == Some(MatchedByRight(o.left.value, right))
    then left[o.left.value] else 0
  }

  ghost function RightFlagged(left: multiset<Row>, right: multiset<Row>, o: OutRow): nat {
    if o.left.None? && o.right.Some? && o.matched == Some(MatchedByLeft(o.right.value, left))
    then right[o.right.value] else 0
  }

  /** How often `o` appears in the join of the probe rows `left` with the build rows `right`. The semi
      project and anti joins are the regular ones, with EXISTS and NOT EXISTS semantics. */
  ghost function JoinCount(jt: JoinType, left: multiset<Row>, right: multiset<Row>, o: OutRow): nat {
    match jt
    case Inner => Pairs(left, right, o)
    case Left => Pairs(left, right, o) + LeftRows(left, right, o, false)
    case Right => Pairs(left, right, o) + RightRows(left, right, o, false)
    case Full => Pairs(left, right, o) + LeftRows(left, right, o, false) + RightRows(left, right, o, false)
    case LeftSemiFilter => LeftRows(left, right, o, true)
    case LeftSemiProject => LeftFlagged(left, right, o)
    case RightSemiFilter => RightRows(left, right, o, true)
    case RightSemiProject => RightFlagged(left, right, o)
    case Anti => LeftRows(left, right, o, false)
  }

  /** What is in the join of each type: pairs that match, rows of a side without a match, rows of a side with
      one, and rows of a side with a flag that says whether they have one. */
  ghost predicate InJoin(jt: JoinType, left: multiset<Row>, right: multiset<Row>, o: OutRow) {
    match o
    case OutRow(Some(l), Some(r), matched) =>
      (jt.Inner? || jt.Left? || jt.Right? || jt.Full?) && matched == None && l in left && r in right && Matches(l, r)
    case OutRow(Some(l), None, matched) =>
      var hasMatch := exists r :: r in right && Matches(l, r);
      && l in left
      && (|| ((jt.Left? || jt.Full? || jt.Anti?) && matched == None && !hasMatch)
          || (jt.LeftSemiFilter? && matched == None && hasMatch)
          || (jt.LeftSemiProject? && matched == Some(hasMatch)))
    case OutRow(None, Some(r), matched) =>
      var hasMatch := exists l :: l in left && Matches(l, r);
      && r in right
      && (|| ((jt.Right? || jt.Full?) && matched == None && !hasMatch)
          || (jt.RightSemiFilter? && matched == None && hasMatch)
          || (jt.RightSemiProject? && matched == Some(hasMatch)))
    case OutRow(None, None, _) => false
  }

  /** The join has the rows that are in it, a pair as often as there are such pairs and a row of one side as
      often as that side has it. */
  lemma JoinCountMeans(jt: JoinType, left: multiset<Row>, right: multiset<Row>, o: OutRow)
    ensures InJoin(jt, left, right, o) ==>
              JoinCount(jt, left, right, o) ==
              if o.left.None? then right[o.right.value]
              else if o.right.None? then left[o.left.value]
              else left[o.left.value] * right[o.right.value]
    ensures !InJoin(jt, left, right, o) ==> JoinCount(jt, left, right, o) == 0
  {
    if o.left.Some? && o.right.Some? {
      TimesIsProduct(left[o.left.value], right[o.right.value]);
    }
  }

  /** The part of the result that is emitted while probing. */
  ghost function ProbePart(jt: JoinType, left: multiset<Row>, right: multiset<Row>, o: OutRow): nat {
    match jt
    case Inner => Pairs(left, right, o)
    case Right => Pairs(left, right, o)
    case Left => Pairs(left, right, o) + LeftRows(left, right, o, false)
    case Full => Pairs(left, right, o) + LeftRows(left, right, o, false)
    case LeftSemiFilter => LeftRows(left, right, o, true)
    case LeftSemiProject => LeftFlagged(left, right, o)
    case Anti => LeftRows(left, right, o, false)
    case RightSemiFilter => 0
    case RightSemiProject => 0
  }

  /** The part that the last prober emits from the build rows once every prober is through. */
  ghost function BuildPart(jt: JoinType, left: multiset<Row>, right: multiset<Row>, o: OutRow): nat {
    match jt
    case Right => RightRows(left, right, o, false)
    case Full => RightRows(left, right, o, false)
    case RightSemiFilter => RightRows(left, right, o, true)
    case RightSemiProject => RightFlagged(left, right, o)
    case Inner => 0
    case Left => 0
    case LeftSemiFilter => 0
    case LeftSemiProject => 0
    case Anti => 0
  }

  /** `needLastProbe()`. */
  predicate NeedLastProbe(jt: JoinType) {
    jt.Right? || jt.Full? || jt.RightSemiFilter? || jt.RightSemiProject?
  }

  lemma PartsMakeJoin(jt: JoinType, left: multiset<Row>, right: multiset<Row>, o: OutRow)
    ensures JoinCount(jt, left, right, o) == ProbePart(jt, left, right, o) + BuildPart(jt, left, right, o)
  {
  }

  /** No row of one half matches a row of the other half. */
  ghost predicate Separate(left1: multiset<Row>, right1: multiset<Row>, left2: multiset<Row>, right2: multiset<Row>) {
    && (forall l, r :: l in left1 && r in right2 ==> !Matches(l, r))
    && (forall l, r :: l in left2 && r in right1 ==> !Matches(l, r))
  }

  lemma PairsSplit(a: nat, b: nat, c: nat, d: nat)
    requires a == 0 || d == 0
    requires b == 0 || c == 0
    ensures Times(a + b, c + d) == Times(a, c) + Times(b, d)
  {
    TimesAddLeft(a, b, c + d);
    TimesAddRight(a, c, d);
    TimesAddRight(b, c, d);
    TimesZero(a);
    TimesZero(b);
  }

  lemma MatchedInUnion(left: Row, right1: multiset<Row>, right2: multiset<Row>)
    ensures MatchedByRight(left, right1 + right2) <==> MatchedByRight(left, right1) || MatchedByRight(left, right2)
    ensures MatchedByLeft(left, right1 + right2) <==> MatchedByLeft(left, right1) || MatchedByLeft(left, right2)
  {
  }

  lemma PairsOfHalves(
      left1: multiset<Row>, right1: multiset<Row>, left2: multiset<Row>, right2: multiset<Row>, o: OutRow)
    requires Separate(left1, right1, left2, right2)
    ensures Pairs(left1 + left2, right1 + right2, o) == Pairs(left1, right1, o) + Pairs(left2, right2, o)
  {
    if o.left.Some? && o.right.Some? && Matches(o.left.value, o.right.value) {
      var l, r := o.left.value, o.right.value;
      PairsSplit(left1[l], left2[l], right1[r], right2[r]);
    }
  }

  lemma LeftRowsOfHalves(
      left1: multiset<Row>, right1: multiset<Row>, left2: multiset<Row>, right2: multiset<Row>, o: OutRow, m: bool)
    requires Separate(left1, right1, left2, right2)
    ensures LeftRows(left1 + left2, right1 + right2, o, m)
        == LeftRows(left1, right1, o, m) + LeftRows(left2, right2, o, m)
    ensures LeftFlagged(left1 + left2, right1 + right2, o)
        == LeftFlagged(left1, right1, o) + LeftFlagged(left2, right2, o)
  {
    if o.left.Some? {
      MatchedInUnion(o.left.value, right1, right2);
    }
  }

  lemma RightRowsOfHalves(
      left1: multiset<Row>, right1: multiset<Row>, left2: multiset<Row>, right2: multiset<Row>, o: OutRow, m: bool)
    requires Separate(left1, right1, left2, right2)
    ensures RightRows(left1 + left2, right1 + right2, o, m)
         == RightRows(left1, right1, o, m) + RightRows(left2, right2, o, m)
    ensures RightFlagged(left1 + left2, right1 + right2, o)
         == RightFlagged(left1, right1, o) + RightFlagged(left2, right2, o)
  {
    if o.right.Some? {
      MatchedInUnion(o.right.value, left1, left2);
    }
  }

  /** The join of two separate halves is the two joins, for every join type. */
  lemma JoinSplits(
      jt: JoinType, left1: multiset<Row>, right1: multiset<Row>, left2: multiset<Row>, right2: multiset<Row>, o: OutRow)
    requires Separate(left1, right1, left2, right2)
    ensures JoinCount(jt, left1 + left2, right1 + right2, o)
         == JoinCount(jt, left1, right1, o) + JoinCount(jt, left2, right2, o)
  {
    PairsOfHalves(left1, right1, left2, right2, o);
    LeftRowsOfHalves(left1, right1, left2, right2, o, jt == LeftSemiFilter);
    RightRowsOfHalves(left1, right1, left2, right2, o, jt == RightSemiFilter);
  }

  /** What is emitted while probing adds up over probers and batches. */
  lemma ProbePartAdds(jt: JoinType, left1: multiset<Row>, left2: multiset<Row>, right: multiset<Row>, o: OutRow)
    ensures ProbePart(jt, left1 + left2, right, o) == ProbePart(jt, left1, right, o) + ProbePart(jt, left2, right, o)
  {
    if o.left.Some? && o.right.Some? {
      TimesAddLeft(left1[o.left.value], left2[o.left.value], right[o.right.value]);
    }
  }

  ghost predicate IsSelection(m: multiset<Row>, f: Row -> bool, s: multiset<Row>) {
    forall r :: s[r] == if f(r) then m[r] else 0
  }

  lemma {:induction false} SelectionExists(m: multiset<Row>, f: Row -> bool)
    ensures exists s :: IsSelection(m, f, s)
    decreases |m|
  {
    if m == multiset{} {
      assert IsSelection(m, f, m);
    } else {
      var x :| x in m;
      SelectionExists(m - multiset{x}, f);
      var rest :| IsSelection(m - multiset{x}, f, rest);
      var s := if f(x) then rest + multiset{x} else rest;
      forall r: Row
        ensures s[r] == if f(r) then m[r] else 0
      {
        assert (m - multiset{x})[r] == if r == x then m[r] - 1 else m[r];
      }
      assert IsSelection(m, f, s);
    }
  }

  /** The rows of `m` that satisfy `f`. */
  ghost function Select(m: multiset<Row>, f: Row -> bool): (s: multiset<Row>)
    ensures IsSelection(m, f, s)
  {
    SelectionExists(m, f);
    var s :| IsSelection(m, f, s);
    s
  }

  /** The first `n` rows without their order. */
  ghost function FirstRows(rows: seq<Row>, n: nat): multiset<Row>
    requires n <= |rows|
  {
    if n == 0 then multiset{} else FirstRows(rows, n - 1) + multiset{rows[n - 1]}
  }

  lemma {:induction false} FirstRowsAre(rows: seq<Row>, n: nat)
    requires n <= |rows|
    ensures FirstRows(rows, n) == multiset(rows[..n])
  {
    if n == 0 {
      assert rows[..0] == [];
    } else {
      FirstRowsAre(rows, n - 1);
      assert rows[..n] == rows[..n - 1] + [rows[n - 1]];
    }
  }

  lemma AllRows(rows: seq<Row>)
    ensures FirstRows(rows, |rows|) == multiset(rows)
  {
    FirstRowsAre(rows, |rows|);
    assert rows[..|rows|] == rows;
  }

  /** The join types whose build side keeps rows with a null in the key. */
  predicate KeepsNullKeys(jt: JoinType) {
    jt.Right? || jt.Full? || jt.RightSemiProject?
  }

  ghost function WithoutNullKeys(m: multiset<Row>): multiset<Row> {
    Select(m, (r: Row) => !HasNull(r.key))
  }

  /** The builders may drop rows with null keys for every other join type. */
  lemma NullKeysMayBeDropped(jt: JoinType, left: multiset<Row>, right: multiset<Row>, o: OutRow)
    requires !KeepsNullKeys(jt)
    ensures JoinCount(jt, left, WithoutNullKeys(right), o) == JoinCount(jt, left, right, o)
  {
    var kept := WithoutNullKeys(right);
    if o.left.Some? {
      if r :| r in right && Matches(o.left.value, r) {
        assert r in kept;
      }
    }
  }

  /** What `addInput` does not deselect. */
  ghost function ActiveRows(jt: JoinType, rows: multiset<Row>): multiset<Row> {
    if KeepsNullKeys(jt) then rows else WithoutNullKeys(rows)
  }

  lemma ActiveRowsJoin(jt: JoinType, left: multiset<Row>, right: multiset<Row>, o: OutRow)
    ensures JoinCount(jt, left, ActiveRows(jt, right), o) == JoinCount(jt, left, right, o)
  {
    if !KeepsNullKeys(jt) {
      NullKeysMayBeDropped(jt, left, right, o);
    }
  }

  ghost function Keys(m: multiset<Row>): set<seq<Option<int>>> {
    set r | r in m :: r.key
  }

  lemma MatchedIffKey(left: Row, right: multiset<Row>)
    ensures MatchedByRight(left, right) <==> left.key in Keys(right) && !HasNull(left.key)
  {
  }

  /** The join types whose table has one row per key. */
  predicate DropsDuplicates(jt: JoinType) {
    jt.LeftSemiFilter? || jt.LeftSemiProject? || jt.Anti?
  }

  ghost predicate DistinctKeys(table: seq<Row>) {
    forall i, j :: 0 <= i < j < |table| ==> table[i].key != table[j].key
  }

  /** What `prepareJoinTable` makes of the stored rows: all of them, or one for each key. */
  ghost predicate IsTable(jt: JoinType, stored: multiset<Row>, table: seq<Row>) {
    if DropsDuplicates(jt) then
      DistinctKeys(table) && multiset(table) <= stored && Keys(multiset(table)) == Keys(stored)
    else
      multiset(table) == stored
  }

  lemma TableJoins(jt: JoinType, left: multiset<Row>, stored: multiset<Row>, table: seq<Row>, o: OutRow)
    requires IsTable(jt, stored, table)
    ensures JoinCount(jt, left, multiset(table), o) == JoinCount(jt, left, stored, o)
  {
    if DropsDuplicates(jt) {
      DuplicatesMayBeDropped(jt, left, stored, multiset(table), o);
    }
  }

  /** Left semi and anti joins may keep one row per distinct key. */
  lemma DuplicatesMayBeDropped(jt: JoinType, left: multiset<Row>, right: multiset<Row>, kept: multiset<Row>, o: OutRow)
    requires DropsDuplicates(jt)
    requires Keys(kept) == Keys(right)
    ensures JoinCount(jt, left, kept, o) == JoinCount(jt, left, right, o)
  {
    if o.left.Some? {
      MatchedIffKey(o.left.value, right);
      MatchedIffKey(o.left.value, kept);
    }
  }
}
