/** Identifiers of spilled partitions, the order in which they are restored and the way one
    partition is shared out among the builders. */
module SpillPartitions {
  datatype SpillPartitionId = SpillPartitionId(offset: nat, number: nat)

  /** `operator<`: the partition on the higher bits comes first, then the smaller number. */
  predicate Before(a: SpillPartitionId, b: SpillPartitionId) {
    if a.offset != b.offset then a.offset > b.offset else a.number < b.number
  }

  ghost predicate IsFirst(id: SpillPartitionId, ids: set<SpillPartitionId>) {
    id in ids && forall other :: other in ids && other != id ==> Before(id, other)
  }

  /** Every non-empty set of ids has a first one, so an ordered map has a well-defined `begin()`. */
  lemma {:induction false} FirstExists(ids: set<SpillPartitionId>)
    requires ids != {}
    ensures exists id :: IsFirst(id, ids)
  {
    var id :| id in ids;
    if ids == {id} {
      assert IsFirst(id, ids);
    } else {
      var rest := ids - {id};
      FirstExists(rest);
      var best :| IsFirst(best, rest);
      var first := if Before(id, best) then id else best;
      forall other | other in ids && other != first
        ensures Before(first, other)
      {
        if other != id && other != best {
          assert Before(best, other);
        }
      }
      assert IsFirst(first, ids);
    }
  }

  /** `spillPartitionSets_.begin()->first`: the deepest pending partition. */
  function First(ids: set<SpillPartitionId>): (id: SpillPartitionId)
    requires ids != {}
    ensures IsFirst(id, ids)
    ensures forall other :: other in ids ==> other.offset <= id.offset
    ensures forall other :: other in ids && other.offset == id.offset ==> id.number <= other.number
  {
    FirstExists(ids);
    var id :| id in ids && forall other | other in ids :: other != id ==> Before(id, other);
    id
  }

  ghost predicate SameOffset(ids: set<SpillPartitionId>) {
    forall a, b :: a in ids && b in ids ==> a.offset == b.offset
  }

  /** `toPartitionNumSet`. */
  function NumbersOf(ids: set<SpillPartitionId>): set<nat> {
    set id | id in ids :: id.number
  }

  lemma {:induction false} NumbersDistinct(ids: set<SpillPartitionId>)
    requires SameOffset(ids)
    ensures |NumbersOf(ids)| == |ids|
  {
    if ids == {} {
      assert NumbersOf(ids) == {};
    } else {
      var id :| id in ids;
      NumbersDistinct(ids - {id});
      assert NumbersOf(ids) == NumbersOf(ids - {id}) + {id.number};
      assert id.number !in NumbersOf(ids - {id});
    }
  }

  /** A spill file, known by the rows it holds only through its name. */
  type SpillFile = nat

  datatype SpillPartition = SpillPartition(id: SpillPartitionId, files: seq<SpillFile>)

  type SpillPartitionSet = m: map<SpillPartitionId, SpillPartition> | forall id :: id in m ==> m[id].id == id
    witness map[]

  /** `bits::roundUp`. */
  function RoundUp(value: nat, factor: nat): (r: nat)
    requires factor > 0
    ensures r >= value
  {
    var x := value + (factor - 1);
    assert x == x / factor * factor + x % factor;
    x / factor * factor
  }

  function Concat(shards: seq<SpillPartition>): seq<SpillFile> {
    if shards == [] then [] else shards[0].files + Concat(shards[1..])
  }

  lemma {:induction false} ConcatAppend(shards: seq<SpillPartition>, last: SpillPartition)
    ensures Concat(shards + [last]) == Concat(shards) + last.files
  {
    if shards == [] {
      assert shards + [last] == [last] + [];
    } else {
      ConcatAppend(shards[1..], last);
      assert (shards + [last])[1..] == shards[1..] + [last];
    }
  }

  /** What splitting a partition into shards gives: the first shard takes every file, since the
      number of files per shard is the file count rounded up to a multiple of the shard count. */
  function Split(partition: SpillPartition, numShards: nat): seq<SpillPartition>
  {
    seq(numShards, i => if i == 0 then partition else SpillPartition(partition.id, []))
  }

  /** `SpillPartition::split`, loop for loop. */
  method SplitShards(partition: SpillPartition, numShards: nat) returns (shards: seq<SpillPartition>)
    requires numShards > 0
    ensures shards == Split(partition, numShards)
    ensures |shards| == numShards && shards[0].files == partition.files
    ensures forall i :: 0 <= i < numShards ==> shards[i].id == partition.id && (i > 0 ==> shards[i].files == [])
  {
    var perShard := RoundUp(|partition.files|, numShards);
    shards := [];
    var fileIdx := 0;
    while |shards| < numShards
      invariant |shards| <= numShards && fileIdx <= |partition.files|
      invariant shards == Split(partition, |shards|)
      invariant |shards| == 0 ==> fileIdx == 0
      invariant |shards| > 0 ==> fileIdx == |partition.files|
      decreases numShards - |shards|
    {
      var shardFiles: seq<SpillFile> := [];
      var start := fileIdx;
      while |shardFiles| < perShard && fileIdx < |partition.files|
        invariant start <= fileIdx <= |partition.files| && |shardFiles| <= perShard
        invariant shardFiles == partition.files[start..fileIdx]
        decreases |partition.files| - fileIdx
      {
        shardFiles := shardFiles + [partition.files[fileIdx]];
        fileIdx := fileIdx + 1;
      }
      assert fileIdx == |partition.files|;
      assert shardFiles == if |shards| == 0 then partition.files else [];
      shards := shards + [SpillPartition(partition.id, shardFiles)];
    }
  }

  /** No file is lost, duplicated or reordered, and every shard keeps the id of the partition. */
  lemma {:induction false} SplitKeepsFiles(partition: SpillPartition, numShards: nat)
    requires numShards > 0
    ensures |Split(partition, numShards)| == numShards
    ensures Concat(Split(partition, numShards)) == partition.files
    ensures forall shard :: shard in Split(partition, numShards) ==> shard.id == partition.id
  {
    var shards := Split(partition, numShards);
    if numShards == 1 {
      assert shards == [partition];
      assert shards[1..] == [];
    } else {
      SplitKeepsFiles(partition, numShards - 1);
      assert shards == Split(partition, numShards - 1) + [SpillPartition(partition.id, [])];
      ConcatAppend(Split(partition, numShards - 1), SpillPartition(partition.id, []));
    }
  }

  /** The shards have the same number of files exactly when there is one shard or nothing to share
      out: the even split that the bridge documents fails for every other call. */
  lemma SplitEvenIff(partition: SpillPartition, numShards: nat)
    requires numShards > 0
    ensures (forall i, j :: 0 <= i < numShards && 0 <= j < numShards ==>
                |Split(partition, numShards)[i].files| == |Split(partition, numShards)[j].files|)
        <==> numShards == 1 || partition.files == []
  {
    var shards := Split(partition, numShards);
    if numShards > 1 {
      assert shards[0].files == partition.files && shards[1].files == [];
      assert |shards[1].files| == 0;
    }
  }
}
