/** How the partitions of a bit range cut rows, and with them the join. */
module JoinCuts {
  import opened Options
  import opened Sums
  import opened HashBitRanges
  import opened SpillPartitions
  import opened JoinSpecs

  /** The join type and the hash of the join key, the same function on both sides. */
  datatype Setting = Setting(jt: JoinType, hash: seq<Option<int>> -> nat, numBits: nat)

  /** The round fixes the bit range, and with it the partition number of each row. */
  datatype Round = Round(number: Row -> nat)

  /** The partition of the bit range at `offset` to which a row belongs. */
  function PartitionOf(g: Setting, offset: nat, row: Row): SpillPartitionId {
    var fits := offset + g.numBits <= 64;
    SpillPartitionId(offset, if fits then HashBitRange(offset, offset + g.numBits).Field(g.hash(row.key)) else 0)
  }

  function RoundAt(g: Setting, offset: nat): Round {
    Round((row: Row) => PartitionOf(g, offset, row).number)
  }

  function InMemory(r: Round, numbers: set<nat>): Row -> bool {
    (row: Row) => r.number(row) !in numbers
  }

  function WithNumber(r: Round, number: nat): Row -> bool {
    (row: Row) => r.number(row) == number
  }

  ghost function InPart(g: Setting, id: SpillPartitionId): Row -> bool {
    (row: Row) => PartitionOf(g, id.offset, row) == id
  }

  ghost function InNone(g: Setting, ids: set<SpillPartitionId>): Row -> bool {
    (row: Row) => forall id :: id in ids ==> PartitionOf(g, id.offset, row) != id
  }

  /** The rows of a spilled partition. */
  ghost function Part(g: Setting, rows: multiset<Row>, id: SpillPartitionId): multiset<Row> {
    Select(rows, InPart(g, id))
  }

  /** The rows that stay in memory. */
  ghost function Keep(g: Setting, rows: multiset<Row>, ids: set<SpillPartitionId>): multiset<Row> {
    Select(rows, InNone(g, ids))
  }

  lemma PartAdds(g: Setting, a: multiset<Row>, b: multiset<Row>, id: SpillPartitionId)
    ensures Part(g, a + b, id) == Part(g, a, id) + Part(g, b, id)
  {
  }

  lemma KeepAdds(g: Setting, a: multiset<Row>, b: multiset<Row>, ids: set<SpillPartitionId>)
    ensures Keep(g, a + b, ids) == Keep(g, a, ids) + Keep(g, b, ids)
  {
  }

  /** Spilling one more partition takes exactly its rows out of memory. */
  lemma KeepSplits(g: Setting, rows: multiset<Row>, ids: set<SpillPartitionId>, id: SpillPartitionId)
    requires id in ids && SameOffset(ids)
    ensures Keep(g, rows, ids - {id}) == Keep(g, rows, ids) + Part(g, rows, id)
  {
    forall r: Row
      ensures InNone(g, ids - {id})(r) <==> InNone(g, ids)(r) || InPart(g, id)(r)
      ensures !(InNone(g, ids)(r) && InPart(g, id)(r))
    {
      assert InNone(g, ids)(r) ==> PartitionOf(g, id.offset, r) != id;
    }
  }

  /** Rows in memory and rows of a spilled partition never match: equal keys have equal hashes. */
  lemma PartsSeparate(
      g: Setting, left: multiset<Row>, right: multiset<Row>, ids: set<SpillPartitionId>, id: SpillPartitionId)
    requires id in ids
    ensures Separate(Keep(g, left, ids), Keep(g, right, ids), Part(g, left, id), Part(g, right, id))
  {
    var k1, k2, p1, p2 := Keep(g, left, ids), Keep(g, right, ids), Part(g, left, id), Part(g, right, id);
    forall l, r | l in k1 && r in p2
      ensures !Matches(l, r)
    {
      assert InNone(g, ids)(l) && InPart(g, id)(r);
    }
    forall l, r | l in p1 && r in k2
      ensures !Matches(l, r)
    {
      assert InPart(g, id)(l) && InNone(g, ids)(r);
    }
  }

  ghost function PartJoin(g: Setting, left: multiset<Row>, right: multiset<Row>, o: OutRow)
    : SpillPartitionId -> nat
  {
    (id: SpillPartitionId) => JoinCount(g.jt, Part(g, left, id), Part(g, right, id), o)
  }

  /** Spilling any set of partitions cuts the join into the join in memory and one join per partition. */
  lemma {:induction false} SpillingCutsJoin(
      g: Setting, left: multiset<Row>, right: multiset<Row>, ids: set<SpillPartitionId>, o: OutRow)
    requires SameOffset(ids)
    ensures JoinCount(g.jt, left, right, o) ==
            JoinCount(g.jt, Keep(g, left, ids), Keep(g, right, ids), o) + Sum(ids, PartJoin(g, left, right, o))
    decreases ids
  {
    if ids == {} {
      assert Keep(g, left, ids) == left && Keep(g, right, ids) == right;
    } else {
      var id :| id in ids;
      SpillingCutsJoin(g, left, right, ids - {id}, o);
      KeepSplits(g, left, ids, id);
      KeepSplits(g, right, ids, id);
      PartsSeparate(g, left, right, ids, id);
      JoinSplits(g.jt, Keep(g, left, ids), Keep(g, right, ids), Part(g, left, id), Part(g, right, id), o);
      SumRemove(ids, PartJoin(g, left, right, o), id);
    }
  }

  /** The partition ids of the spilled numbers. */
  ghost function IdsOf(offset: nat, numbers: set<nat>): set<SpillPartitionId> {
    set n | n in numbers :: SpillPartitionId(offset, n)
  }

  lemma IdsOfNumbers(ids: set<SpillPartitionId>, offset: nat)
    requires forall id :: id in ids ==> id.offset == offset
    ensures IdsOf(offset, NumbersOf(ids)) == ids
  {
    forall id | id in ids
      ensures id in IdsOf(offset, NumbersOf(ids))
    {
      assert id.number in NumbersOf(ids) && id == SpillPartitionId(offset, id.number);
    }
  }

  lemma SelectSame(m: multiset<Row>, f: Row -> bool, g: Row -> bool)
    requires forall row :: f(row) == g(row)
    ensures Select(m, f) == Select(m, g)
  {
  }

  /** Partition numbers of a round and partition ids cut rows in the same way. */
  lemma RoundKeeps(g: Setting, offset: nat, rows: multiset<Row>, numbers: set<nat>)
    ensures Select(rows, InMemory(RoundAt(g, offset), numbers)) == Keep(g, rows, IdsOf(offset, numbers))
  {
    var r := RoundAt(g, offset);
    forall row: Row
      ensures InMemory(r, numbers)(row) == InNone(g, IdsOf(offset, numbers))(row)
    {
      var id := PartitionOf(g, offset, row);
      assert id.number in numbers <==> id in IdsOf(offset, numbers);
    }
    SelectSame(rows, InMemory(r, numbers), InNone(g, IdsOf(offset, numbers)));
  }

  lemma RoundParts(g: Setting, offset: nat, rows: multiset<Row>, n: nat)
    ensures Select(rows, WithNumber(RoundAt(g, offset), n)) == Part(g, rows, SpillPartitionId(offset, n))
  {
    SelectSame(rows, WithNumber(RoundAt(g, offset), n), InPart(g, SpillPartitionId(offset, n)));
  }
}
