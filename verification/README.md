# Verified models of the Velox execution engine

This project models the hardest parts of `velox/exec` in Dafny and proves that they do what the engine
promises.

* **Spilling hash join.** Builders and probers meet at a bridge. When memory runs out, builders spill hash
  partitions, probers spill the matching partitions, and each partition is restored in a later round,
  possibly spilling again. `JoinBridge.dfy` is the bridge as an object; `JoinProtocol.dfy` is every
  interleaving of its callers as a state machine; `JoinSpec.dfy` says what each join type returns and
  `JoinCut.dfy` how partitions cut it; `BuildSpill.dfy` is the group of builders that spill together and
  `HashProbe.dfy` the probe loops; `SpillJoin.dfy` puts them together and follows the rows of every round,
  what the builders store and spill, the flags of the table and what the probers emit, through the protocol;
  `SpillProgress.dfy` shows that every run of it can go on to its end, with any partitions spilled that have
  rows, and `BlindRun.dfy` is a run that loses a match; `HashBitRange.dfy` and `SpillPartition.dfy` are the
  partitioner and the partition files; `NullAware.dfy` is IN and NOT IN.
* **Row serde.** `SerdeValues.dfy` is the byte format with its round trip and `SerdeLayout.dfy` says where
  each part of a value is in it; `SerdeOrder.dfy` and `SerdeCanonical.dfy` are the order of values and the
  form in which maps are written, and `SerdeStored.dfy` says what is stored for a value without that form;
  `SerdeStream.dfy`, `SerdeCompare.dfy`, `SerdeHash.dfy` and `SerdeVector.dfy` are the operations that write,
  compare, hash and read encoded values; `SerdeShortRow.dfy`, with the arithmetic of `Residues.dfy`, says when the hash of a
  row that lacks children survives being stored.
* **Exchange.** `Exchange.dfy` is the page queue and the source as objects, `ExchangeProtocol.dfy` the
  whole system of producers, sources and consumers.
* **Aggregation.** `Window.dfy` is incremental window aggregation, `Grouping.dfy` streaming grouping,
  `MergeRuns.dfy` the merge of spilled runs.
* **Smaller parts.** `Pushdown.dfy` is dynamic filter pushdown and `Limit.dfy` what it does to a limit,
  `CrossJoin.dfy` is the batched cross join, `UniqueIds.dfy` the assignment of unique ids.

Objects whose methods change their fields are classes, loops are loops, and protocols are state machines
whose steps are one critical section each. A check of the engine that throws is a `CheckFailed` result.
Every class method is tied to a function on values, and the theorems over whole runs are about those
functions. What the functions mean is said once more without them: by a relation, by positions and counts,
or by the fields of the object before and after a call. Row values, hash functions, accumulators and operators are parameters, so the theorems hold
for all of them.

What was found where code and documentation or intent disagree; the model follows the code:

* A right semi project join whose last prober has had no row of its own reports every build row as
  unmatched, whatever its peers have matched (`SpillingPreservesJoinIff`, `BlindRunExists`).
* `SpillPartition::split` gives every file to the first shard (`SplitEvenIff`).
* A bit range of more than 31 bits has negative partition numbers, and beyond 30 bits the two forms of
  `partition` disagree (`PartitionNonNegativeIff`, `PartitionFormsAgreeIff`).
* Null-aware joins on several key columns answer unknown where the SQL predicate is false
  (`AnswerIsInIff`).
* A streaming partial aggregation that hits its memory limit loses the rows that it keeps back
  (`FlushKeepsValuesIff`, `FlushLosesRows`).
* A partly used block of unique ids may issue the first id of the next block (`RunKeepsDistinctIff`,
  `TwoOperatorsCollide`).
* A call for more rows than a block of unique ids gives up the blocks that it draws after one turn
  (`LongCallWastes`).
* A row vector that lacks children hashes differently from its serialized form (`ShortRowHashIff`,
  `EmptyRowHashes`).
* Clearing the exchange queue does not reset its byte count (`ClearingKeepsBytesIff`).
* Filters are pushed through a limit, which does not commute with them (`PushdownThroughLimitIff`,
  `JoinBehindLimitIff`, `LimitChangesJoin`).

`dafny verify dfyconfig.toml` checks the whole project.

## Model

| member | source | states |
|---|---|---|
| `HashBitRanges.PartitionFormsAgree` | velox/exec/HashBitRange.h:26-56 | for up to 30 bits the partition number is a valid index and both forms of `partition` agree for every hash, so rows spilled from memory, from input and on the probe side land in the same partition |
| `HashBitRanges.PartitionFormsAgreeIff` | velox/exec/HashBitRange.h:26-56 | both forms agree for every hash if and only if the range has at most 30 bits |
| `HashBitRanges.PartitionNonNegativeIff` | velox/exec/HashBitRange.h:33-40 | all 64-bit hashes have a non-negative partition number if and only if the range has at most 31 bits |
| `HashBitRanges.NegativeWitness` | velox/exec/HashBitRange.h:38-40 | a hash whose partition number is the least 32-bit integer, for every range of more than 31 bits |
| `HashBitRanges.NestedRangesSplit` | velox/exec/HashBitRange.h:33-40 | the next range of bits refines the partitions of the range before it |
| `HashBitRanges.FieldMeans` | velox/exec/HashBitRange.h:33-40 | the partition number is the hash divided by two to the first bit, modulo two to the number of bits |
| `HashBitRanges.PartitionBatch` | velox/exec/HashPartitionFunction.cpp:57-86 | the loop gives every row of a batch the partition of its hash, by bit field or remainder |
| `SpillPartitions.First` | velox/exec/Spill.h:458-468 | of any non-empty set of pending ids the first one has the highest bit offset and, of those, the smallest number |
| `SpillPartitions.SplitShards` | velox/exec/Spill.cpp:256-272 | the nested loops give the asked number of shards, each with the id of the partition, the first one with all files and the others with none |
| `SpillPartitions.SplitKeepsFiles` | velox/exec/Spill.cpp:256-272 | splitting loses, repeats and reorders no file and keeps the id |
| `SpillPartitions.SplitEvenIff` | velox/exec/Spill.cpp:258-269 | the shards are equally large if and only if there is one shard or no file |
| `JoinBridges.HashJoinBridge.SetHashTable` | velox/exec/HashJoinBridge.cpp:33-74 | succeeds exactly if the bridge has started, no table is out, all shards are taken, new ids are deeper and none is pending; then the table is out with the flag for null keys, the restored id and the spilled ids as given, the partitions are added and all waiters are notified |
| `JoinBridges.HashJoinBridge.AddPending` | velox/exec/HashJoinBridge.cpp:57-61 | the loop adds all new partitions, or stops at one that is already pending |
| `JoinBridges.HashJoinBridge.SetAntiJoinHasNullKeys` | velox/exec/HashJoinBridge.cpp:76-91 | succeeds exactly if the bridge has started, nothing is out and all shards are taken; then a result without a table but with null keys is out, pending partitions are dropped and all waiters are notified |
| `JoinBridges.HashJoinBridge.TableOrFuture` | velox/exec/HashJoinBridge.cpp:93-109 | returns the published table and changes nothing, or registers the caller |
| `JoinBridges.HashJoinBridge.ProbeFinished` | velox/exec/HashJoinBridge.cpp:111-142 | drops the table and, if data is pending, takes the first pending partition, splits it among the builders and notifies them |
| `JoinBridges.HashJoinBridge.SpillInputOrFuture` | velox/exec/HashJoinBridge.cpp:144-165 | hands out each shard once, says that nothing is left, or registers the caller |
| `JoinBridges.HashJoinBridge.AddBuilder` | velox/exec/HashJoinBridge.cpp:27-31 | counts builders until the bridge starts |
| `JoinBridges.HashJoinBridge.Start` | velox/exec/HashJoinBridge.cpp:21-25 | fails exactly if there is no builder |
| `JoinProtocols.InitInv` | velox/exec/HashJoinBridge.cpp:21-31 | the invariant holds when the pipelines start |
| `JoinProtocols.SpillIdsFresh` | velox/exec/HashJoinBridge.cpp:49-61 | what a round may spill is never already pending and always deeper than what is being restored |
| `JoinProtocols.PublishTableKeeps` | velox/exec/HashBuild.cpp:684-775 | publishing passes all checks and starts a probe phase in which every waiting prober has been notified |
| `JoinProtocols.PublishNullKeysKeeps` | velox/exec/HashBuild.cpp:704-734 | publishing an empty anti join result passes all checks and keeps the invariant |
| `JoinProtocols.PollBuildKeeps` | velox/exec/HashBuild.cpp:777-823 | each builder takes exactly one shard per round, finishes, or waits with its own promise |
| `JoinProtocols.PollProbeKeeps` | velox/exec/HashProbe.cpp:226-300 | each prober sees each table once and the restored partition is always among its own |
| `JoinProtocols.FinishInputKeeps` | velox/exec/HashProbe.cpp:1349-1384 | a prober's spilled ids become those of the bridge, its spiller has as many numbers as ids, and only the last prober passes the barrier |
| `JoinProtocols.FinishProbeKeeps` | velox/exec/HashProbe.cpp:341-367 | ending a round passes all checks and starts a build phase on the first pending partition |
| `JoinProtocols.StepKeepsProtocol` | velox/exec/HashJoinBridge.cpp:33-165 | every step of every driver passes the checks on the bridge and on spilled partitions and keeps the invariant: shards gone before the next table, promises never mixed, pending ids equal on both sides |
| `JoinProtocols.SomeDriverCanStep` | velox/exec/HashBuild.cpp:877-910 | no deadlock and no lost wake-up: some driver can step unless all are done and nothing is pending |
| `JoinProtocols.PublishFalls` | velox/exec/HashBuild.cpp:183-192 | a published table uses up weight even if it spills every partition that the level limit allows |
| `JoinProtocols.StepsLeftFalls` | velox/exec/HashJoinBridge.cpp:111-142 | a measure falls with every step, so every run ends |
| `JoinProtocols.EveryRunIsGood` | velox/exec/HashJoinBridge.cpp:33-165 | over every run of any number of drivers: invariant, all checks on the bridge and on spilled partitions, bounded number of tables, bounded length, and at rest everybody is done |
| `JoinProtocols.TableIsLastPublished` | velox/exec/HashJoinBridge.cpp:62-109 | over every run, the result that is out is the one that was published last, with the flag, the ids and the number it was published with |
| `JoinProtocols.ProberSeesFlag` | velox/exec/HashProbe.cpp:280-297 | over every run, a prober that takes a table sees null keys exactly if the builder that published it said so |
| `JoinProtocols.TablesBound` | velox/core/QueryConfig.h:306-325 | the number of tables is at most a geometric sum in the fanout and the level limit |
| `JoinProtocols.ArbitraryOrderClashes` | velox/exec/HashJoinBridge.cpp:49-61 | for any two partitions of one level, restoring the second while a deeper one is pending can spill that one again and trip the check |
| `JoinSpecs.JoinCountMeans` | velox/core/PlanNode.h:1188-1250 | which rows are in each type of join, and how often: a pair as often as there are such pairs, a row of one side as often as that side has it |
| `JoinSpecs.PartsMakeJoin` | velox/core/PlanNode.h:1188-1250 | what probing emits and what the last prober emits make up the join, for every join type |
| `JoinSpecs.JoinSplits` | velox/core/PlanNode.h:1188-1250 | the join of two halves without matches across is the two joins, for every join type |
| `JoinSpecs.ProbePartAdds` | velox/exec/HashProbe.cpp:839-958 | what probing emits adds up over batches and probers |
| `JoinSpecs.NullKeysMayBeDropped` | velox/exec/HashBuild.cpp:297-305 | dropping build rows with null keys does not change the join types that do it |
| `JoinSpecs.ActiveRowsJoin` | velox/exec/HashBuild.cpp:297-305 | the rows that every join type keeps active give the same join |
| `JoinSpecs.DuplicatesMayBeDropped` | velox/exec/HashBuild.cpp:135-146 | one build row per key is enough for left semi and anti joins |
| `JoinSpecs.TableJoins` | velox/exec/HashBuild.cpp:135-146 | the table made of the stored rows, with or without duplicates, gives the same join |
| `JoinCuts.SpillingCutsJoin` | velox/exec/HashProbe.cpp:383-425 | spilling any set of partitions on both sides cuts the join into the part in memory and one join per partition |
| `SpillJoins.RoundBuiltPublishes` | velox/exec/HashBuild.cpp:684-766 | whatever the group of builders did, the published table is made of the active rows kept and each pending partition has its active rows |
| `SpillJoins.PublishKeepsWorth` | velox/exec/HashBuild.cpp:700-766 | publishing neither loses nor repeats an output row that is still owed, although null keys and duplicate keys are dropped |
| `SpillJoins.DataStepProbes` | velox/exec/HashProbe.cpp:383-425 | the loops of a prober spill the rows of each partition, probe with the rest, emit their probe part and set the flags of the rows they match |
| `SpillJoins.FinishInputKeepsWorth` | velox/exec/HashProbe.cpp:516-558 | probing emits what it takes from the rows still owed |
| `SpillJoins.FinishProbeMovesWorth` | velox/exec/HashProbe.cpp:712-771 | emitting build rows by their reported flags and choosing the next partition conserve what is owed, up to what is not reported |
| `SpillJoins.PaysUnlessBlind` | velox/exec/HashProbe.cpp:754-768 | the last prober emits exactly what is owed unless it is blind: right semi project, no row of its own, and a matched build row |
| `SpillJoins.StepKeepsWorth` | velox/exec/HashProbe.cpp:226-425 | emitted plus owed is unchanged by every step of a run that is not blind |
| `SpillJoins.StepKeepsFit` | velox/exec/HashProbe.cpp:226-241 | the partitions with rows are the pending ones, on both sides, after every step |
| `SpillJoins.SpillingPreservesJoin` | velox/exec/HashBuild.cpp:462-504 | every run that has come to rest, whatever was spilled by whom at whatever level, has emitted exactly the plain join of all rows; for right semi project if no step is blind |
| `SpillJoins.SpillingPreservesJoinIff` | velox/exec/HashProbe.cpp:754-768 | for every join type, the output is the join if and only if no round was ended by a blind prober |
| `SpillProgresses.BuildCanEndIff` | velox/exec/HashBuild.cpp:599-652 | the last builder can end a round with a set of partitions spilled if and only if each of them has a row that is stored |
| `SpillProgresses.JoinCanGoOn` | velox/exec/HashBuild.cpp:684-766 | every state of a join with its rows that is not at rest has a step and a next state of the rows |
| `SpillProgresses.RunCanEnd` | velox/exec/HashProbe.cpp:226-425 | every run of a join with its rows can be continued to its end |
| `SpillProgresses.SpillingRunExists` | velox/exec/HashBuild.cpp:599-652 | a builder may spill any partitions of the first round that have rows, and the run goes on to its end |
| `SpillProgresses.RowCanBeSpilled` | velox/exec/HashBuild.cpp:599-652 | for every stored build row there is a run that spills its partition, comes to its end and emits the plain join |
| `BlindRuns.BlindRunExists` | velox/exec/HashProbe.cpp:516-521 | for every matching row, a run of one builder and two probers that loses the match |
| `BuildSpills.AcceptKeepsSplit` | velox/exec/HashBuild.cpp:462-504 | after a batch the table has the rows of unspilled partitions and each file those of its partition |
| `BuildSpills.SpillOutKeepsSplit` | velox/exec/HashBuild.cpp:645-652 | after spilling more partitions no row of a spilled partition is left in the table and none is lost |
| `BuildSpills.HashBuild.SpillInput` | velox/exec/HashBuild.cpp:462-504 | the row loop appends active rows of spilled partitions to their files in order and deselects exactly those |
| `BuildSpills.HashBuild.Store` | velox/exec/HashBuild.cpp:356-373 | the loop stores the rows still active, in order |
| `BuildSpills.HashBuild.Spill` | velox/exec/HashBuild.cpp:645-652 | the row loop writes the rows of the given partitions to their files in order and keeps the others in order |
| `BuildSpills.HashBuild.AddBatch` | velox/exec/HashBuild.cpp:278-373 | the loops together accept a batch as the group model says |
| `BuildSpills.HashBuild.SpillPartitions` | velox/exec/HashBuild.cpp:645-652 | spilling as an object does is spilling as the group model says |
| `BuildSpills.PickedOfSum` | velox/exec/HashBuild.cpp:356-373 | rows that are picked keep their order: what is picked of two pieces is picked of each |
| `BuildSpills.GroupStepKeeps` | velox/exec/SpillOperatorGroup.cpp:57-186 | every step of the group keeps: same partitions spilled everywhere, no parked batch lost or replayed twice, a waiter always has an active builder to wait for, no partition spilled without rows |
| `BuildSpills.SpillChecksPass` | velox/exec/HashBuild.cpp:599-645 | whenever the group spills, some partition is not spilled yet and there is something to spill |
| `BuildSpills.LastAskKeeps` | velox/exec/SpillOperatorGroup.cpp:151-186 | the last builder to ask spills for all, stopped ones included, and wakes the others with their batches |
| `BuildSpills.ParkKeeps` | velox/exec/HashBuild.cpp:571-597 | a builder that has to wait parks its batch and still owes it |
| `BuildSpills.GroupRunKeeps` | velox/exec/HashBuild.cpp:375-397 | the invariant over every run of the group |
| `BuildSpills.GroupBuildsTheRound` | velox/exec/HashBuild.cpp:684-766 | after every run the merged tables and files are exactly the unspilled rows and the rows of each partition, and no spilled partition is empty |
| `HashProbes.HashProbe.SpillInput` | velox/exec/HashProbe.cpp:383-425 | the loop appends rows of spilled partitions to their files and keeps the others, in order |
| `HashProbes.ProbeSpillCuts` | velox/exec/HashProbe.cpp:383-425 | the prober cuts its rows by the same partitions as the builders |
| `HashProbes.HashProbe.ProbeRow` | velox/exec/HashProbe.cpp:561-620 | the loop emits the hits and the miss of one probe row and flags the build rows it hits |
| `HashProbes.HashProbe.ProbeBatch` | velox/exec/HashProbe.cpp:839-958 | a batch emits what its rows emit and flags what they flag |
| `HashProbes.HashProbe.AddInput` | velox/exec/HashProbe.cpp:516-560 | spilling, skipping an empty table and probing together emit what the rows kept emit, and the prober remembers whether it has had a row |
| `HashProbes.OutputIsProbePart` | velox/exec/HashProbe.cpp:839-958 | what probe rows emit is exactly the probe part of their join with the table |
| `HashProbes.FlagAllKeeps` | velox/exec/HashProbe.cpp:936-941 | a table row is flagged exactly if it has met a matching row |
| `HashProbes.HashProbe.BuildSideOutput` | velox/exec/HashProbe.cpp:712-771 | the loop emits the table rows by the flags that this prober reports |
| `HashProbes.OutputIsBuildPart` | velox/exec/HashProbe.cpp:712-771 | what the table rows emit by their flags is exactly the build part of the join with everything probed |
| `HashProbes.JoinInMemory` | velox/exec/HashProbe.cpp:839-958 | however the probe side is cut into batches, the loops return the join |
| `NullAware.NullAwareBuild.AddInput` | velox/exec/HashBuild.cpp:297-332 | null keys are noted and deselected; an anti join stops at the first one without storing the batch |
| `NullAware.FedKnows` | velox/exec/HashBuild.cpp:297-332 | a builder knows exactly whether its whole input has a null key, and if it did not stop it has all other keys |
| `NullAware.FinishHashBuild` | velox/exec/HashBuild.cpp:704-766 | the last builder publishes null keys exactly if the join is anti and some builder met one, else all keys |
| `NullAware.FillMatchColumn` | velox/exec/HashProbe.cpp:643-685 | the constant and the loop set true, false and null exactly where the answer is true, false and unknown |
| `NullAware.AntiRows` | velox/exec/HashProbe.cpp:890-916 | the loop lists, in order, exactly the rows that qualify |
| `NullAware.InMeans` | velox/core/PlanNode.h:1213-1249 | IN is true exactly if the key has no null and is one of the build keys, and false exactly if it certainly differs from every build key |
| `NullAware.HandOver` | velox/exec/HashProbe.cpp:280-297 | through the bridge a prober gets the keys and the flag that the last builder published, or no table and the flag for an anti join with null keys |
| `NullAware.AnswerIsInIff` | velox/exec/HashProbe.cpp:643-685 | the engine's answer is the SQL predicate's if and only if the build side is empty, no null is involved or some comparison is not certainly false |
| `NullAware.AnswersAreExactIff` | velox/core/PlanNode.h:1213-1249 | over any builders and batches the match column is three-valued IN exactly where it is decidable |
| `NullAware.AntiAnswersAreExactIff` | velox/core/PlanNode.h:1230-1249 | an anti join returns exactly the rows for which NOT IN is true and decidable, whatever the point at which a builder stopped |
| `NullAware.OneColumnIsExact` | velox/core/PlanNode.h:1213-1249 | on one key column every row is decidable |
| `NullAware.TwoColumnsDiffer` | velox/exec/HashProbe.cpp:666-677 | a two-column key for which it is not |
| `NullAware.LeftSemiProjectIn` | velox/exec/HashProbe.cpp:643-685 | the join from builders through the bridge to the match column, on any number of key columns: true, false and null exactly where IN is true, false and unknown for every decidable row, null where it is not decidable, and true exactly for keys without nulls that are on the build side |
| `NullAware.AntiNotIn` | velox/exec/HashProbe.cpp:286-297 | the join from builders through the bridge to the output, on any number of key columns, returns in order exactly the rows for which NOT IN is true and decidable |
| `SerdeValues.RoundTrip` | velox/exec/ContainerRowSerde.cpp:38-330 | decoding an encoded value returns it and consumes exactly its bytes, whatever follows, for every nested value |
| `SerdeValues.NullsRoundTrip` | velox/exec/ContainerRowSerde.cpp:95-127 | null flags of any number come back from their words |
| `SerdeValues.PrefixFree` | velox/exec/ContainerRowSerde.cpp:38-190 | no encoding is the beginning of another |
| `SerdeLayouts.IntegerByte` | velox/exec/ContainerRowSerde.cpp:38-45 | byte k of an integer is the integer divided by 256 to the k, modulo 256 |
| `SerdeLayouts.NullBit` | velox/exec/ContainerRowSerde.cpp:95-110 | null flag 64 k + 8 m + b is bit b, from the lowest, of byte m of word k |
| `SerdeLayouts.NullsSize` | velox/exec/ContainerRowSerde.cpp:95-110 | null flags take eight bytes for every 64 flags begun |
| `SerdeLayouts.RowLayout` | velox/exec/ContainerRowSerde.cpp:67-93 | a row is its null flags followed by its fields in order, each at the sum of the sizes of those before it, null fields taking no bytes |
| `SerdeLayouts.ArrayLayout` | velox/exec/ContainerRowSerde.cpp:129-141 | an array is its size, its null flags and its elements in order, each at the sum of the sizes of those before it |
| `SerdeStreams.WriteNulls` | velox/exec/ContainerRowSerde.cpp:95-127 | the nested loops write the words of the flags |
| `SerdeStreams.ReadNulls` | velox/exec/ContainerRowSerde.cpp:237-244 | the loop reads them back |
| `SerdeStreams.SerializeOne` | velox/exec/ContainerRowSerde.cpp:38-190 | appends the encoding of what is to be stored for the value: rows field by field with null for missing children, arrays element by element in order, maps with the same entries in key order, at every depth |
| `SerdeStreams.SerializeRow` | velox/exec/ContainerRowSerde.cpp:67-93 | fields that a row lacks are written as nulls |
| `SerdeStreams.SerializeArray` | velox/exec/ContainerRowSerde.cpp:129-154 | size, flags and non-null elements in the given order |
| `SerdeStoredValues.CanonicalIsStored` | velox/exec/ContainerRowSerde.cpp:67-190 | the written form of every nested value is what is to be stored for it, by a relation that does not mention the form |
| `SerdeStoredValues.StoredUnchanged` | velox/exec/ContainerRowSerde.cpp:170-182 | a value with all children whose maps are in key order, at every depth, is written as it is |
| `SerdeCanonicals.IndicesInKeyOrder` | velox/vector/ComplexVector.cpp:917-925 | the sorted key indices are in key order |
| `SerdeCanonicals.EveryIndexOnce` | velox/vector/ComplexVector.cpp:917-925 | they are a permutation |
| `SerdeCanonicals.MapOrderIrrelevant` | velox/exec/ContainerRowSerde.cpp:170-182 | maps with the same entries in any order are written alike |
| `SerdeVectors.DeserializeOne` | velox/exec/ContainerRowSerde.cpp:195-330 | the slot holds the decoded value, the stream is past it, every other row and every slot to come is unchanged, and the size and offset checks of maps cannot fail |
| `SerdeVectors.DeserializeRow` | velox/exec/ContainerRowSerde.cpp:246-267 | the same for rows whose children grow when written |
| `SerdeVectors.DeserializeArray` | velox/exec/ContainerRowSerde.cpp:269-287 | elements are appended and nothing before them changes |
| `SerdeVectors.ExtractRows` | velox/exec/RowContainer.h:962-993 | a sequence of encoded rows is read back into one vector, each in its slot, with earlier rows intact |
| `SerdeVectors.StoreAndLoad` | velox/exec/ContainerRowSerde.cpp:38-330 | serializing a value and deserializing it into a slot leaves there what is to be stored for it, the value itself if it has all children and its maps are in key order, and every other slot as it was |
| `SerdeVectors.HoldsOne` | velox/exec/ContainerRowSerde.cpp:195-330 | a slot holds at most one value |
| `SerdeOrders.TotalOrder` | velox/exec/ContainerRowSerde.cpp:338-546 | for every type, direction and place of nulls the order is total and identifies only equal values |
| `SerdeOrders.Antisymmetric` | velox/exec/ContainerRowSerde.cpp:338-546 | swapping the sides negates the order |
| `SerdeOrders.ZeroIsEqual` | velox/exec/ContainerRowSerde.cpp:338-546 | zero exactly for equal values |
| `SerdeOrders.Transitive` | velox/exec/ContainerRowSerde.cpp:338-546 | the order is transitive, strictly where a step is strict |
| `SerdeOrders.BytesMean` | velox/exec/ContainerRowSerde.cpp:352-376 | a string comes before another exactly if it is a proper beginning of it or has the smaller byte at the first place where they differ |
| `SerdeOrders.OrderMeans` | velox/exec/ContainerRowSerde.cpp:338-546 | the order is negative exactly if the first value comes first: by number, by bytes, by the first field or element that differs or else by size, turned round when descending, with nulls first or last as asked in either direction |
| `SerdeCompares.DecodeHasType` | velox/exec/ContainerRowSerde.cpp:195-330 | whatever is decoded has the type it was decoded for |
| `SerdeCompares.CompareStreams` | velox/exec/ContainerRowSerde.cpp:582-731 | negative, zero and positive exactly where the left value comes before, is equal to and comes after the right one, with equalsOnly zero exactly for equal ones, and zero only when both are read to their ends |
| `SerdeCompares.CompareRowStreams` | velox/exec/ContainerRowSerde.cpp:665-695 | the same for rows |
| `SerdeCompares.CompareArrayStreams` | velox/exec/ContainerRowSerde.cpp:629-663 | the same for arrays, with the tie-break on sizes turned round when descending |
| `SerdeCompares.CompareStringAsc` | velox/exec/ContainerRowSerde.cpp:352-376 | however the string lies in ranges, the piecewise comparison is negative or positive exactly where the string comes before or after the other byte by byte |
| `SerdeCompares.CompareWithVector` | velox/exec/ContainerRowSerde.cpp:338-557 | the comparison of a stream with a vector says which value comes first, the value of the vector taken as it would be stored |
| `SerdeCompares.CompareArrayWithVector` | velox/exec/ContainerRowSerde.cpp:438-506 | the same for arrays and for map keys and values in key order |
| `SerdeHashes.HashStream` | velox/exec/ContainerRowSerde.cpp:736-803 | hashing the bytes is hashing the value, which is read to its end |
| `SerdeHashes.RowHashMeans` | velox/exec/ContainerRowSerde.cpp:770-785 | the hash of a row mixes the hashes of all its fields, nulls included, in order |
| `SerdeHashes.ArrayHashMeans` | velox/exec/ContainerRowSerde.cpp:755-768 | the hash of an array mixes the hashes of all its elements into the seed, in order |
| `SerdeHashes.VectorRowHashMeans` | velox/vector/ComplexVector.cpp:308-323 | the hash of a row in a vector mixes the hashes of the children that are there, in order, and is that of null if there are none |
| `SerdeHashes.CanonicalHash` | velox/vector/ComplexVector.cpp:838-850 | for every nested value the hash of the vector, with its maps in any order at any depth, is the hash of the form that is written, unless a row with several fields lacks a child |
| `SerdeHashes.CompareAndHash` | velox/exec/ContainerRowSerde.cpp:736-803 | where a stored value compares equal to a vector's value, hashing the stored bytes gives the vector's hash |
| `SerdeHashes.EqualValuesHashEqually` | velox/vector/ComplexVector.cpp:838-850 | vector values whose stored forms compare equal hash equally, whatever the order of their maps |
| `SerdeShortRows.HashesAhead` | velox/vector/ComplexVector.cpp:308-323 | with hash functions that count, the hash of the stored form is ahead of the vector's by exactly the number of children that are missing, at all depths, in rows, arrays and maps |
| `SerdeShortRows.ShortRowHashIff` | velox/vector/ComplexVector.cpp:308-323 | a value in a vector hashes like its stored form for all hash functions if and only if, at every depth, each row has all its children or its type has one field |
| `SerdeShortRows.EmptyRowHashes` | velox/common/base/BitUtil.h:719-728 | with the code's own mix, a row of two fields without children hashes to 1 in the vector and to another value once it is stored |
| `SerdeHashes.MixInAnyOrder` | velox/common/base/BitUtil.h:736-742 | the commutative mix lets two elements change places, in 64-bit arithmetic |
| `SerdeHashes.MapHashIgnoresOrder` | velox/vector/ComplexVector.cpp:838-850 | writing a map in key order does not change its hash |
| `Exchanges.ExchangeQueue.Enqueue` | velox/exec/Exchange.h:101-120 | a page is appended, its bytes are counted and it resumes the last waiter; an end marker counts and may end the queue |
| `Exchanges.ExchangeQueue.Dequeue` | velox/exec/Exchange.h:142-165 | error, first page, end or a promise, exactly when each is due, and the state after each |
| `Exchanges.ExchangeQueue.AddSource` | velox/exec/Exchange.h:179-182 | refused exactly after noMoreSources |
| `Exchanges.ExchangeQueue.NoMoreSources` | velox/exec/Exchange.h:184-192 | ends the queue if every source has ended |
| `Exchanges.ExchangeQueue.SetError` | velox/exec/Exchange.h:125-140 | clears pages and promises once, and leaves the byte count |
| `Exchanges.ExchangeQueue.Close` | velox/exec/Exchange.h:194-207 | clears pages and promises, and leaves the byte count |
| `Exchanges.ClearingKeepsBytesIff` | velox/exec/Exchange.h:204-207 | the byte count is right after clearing if and only if all queued pages were empty |
| `Exchanges.LocalExchangeSource.ShouldRequest` | velox/exec/Exchange.cpp:89-94 | true for exactly one caller until the response is in |
| `Exchanges.LocalExchangeSource.Receive` | velox/exec/Exchange.cpp:96-155 | drops items that came before, queues the rest and one end marker, moves the sequence by the new pages; fails exactly if there is nothing new after a restart |
| `ExchangeProtocols.StepKeeps` | velox/exec/Exchange.cpp:185-273 | every step, a split that wakes a consumer included, keeps prefix delivery, byte count, a promise for every sleeper, and outstanding requests |
| `ExchangeProtocols.ExactlyOnceInOrder` | velox/exec/Exchange.cpp:96-155 | over every run the pages of a source are the prefix of its log of length `sequence`; a consumer that sees the end has every log in full |
| `ExchangeProtocols.NoLostWakeup` | velox/exec/Exchange.cpp:318-352 | even where consumers are also woken by splits and leave promises behind, a queued page always finds a consumer awake; while all sleep a response is outstanding or sources may still come |
| `ExchangeProtocols.NewPages` | velox/exec/Exchange.cpp:112-132 | what is left of a resent response is exactly the next piece of the log |
| `Windows.AggregateWindow.AnalyzeFrameValues` | velox/exec/AggregateWindow.cpp:205-246 | the least start, the greatest end, incremental exactly for one start and rising ends, resumed exactly if the previous block allows it |
| `Windows.FrameResultIs` | velox/exec/AggregateWindow.cpp:262-275 | for every function of sequences that starts and goes on like the accumulator, the result for a frame is extracted from that function of exactly the rows of the frame, in order |
| `Windows.FrameIsCollected` | velox/exec/AggregateWindow.cpp:262-275 | the window function that collects its rows returns the rows of the frame |
| `Windows.AggregateWindow.IncrementalAggregation` | velox/exec/AggregateWindow.cpp:277-304 | each valid row gets the aggregate of exactly its frame, whether rows are added or the last result is used again |
| `Windows.AggregateWindow.SimpleAggregation` | velox/exec/AggregateWindow.cpp:306-337 | the same, from scratch per row |
| `Windows.AggregateWindow.Apply` | velox/exec/AggregateWindow.cpp:109-166 | one block after any earlier blocks: frame aggregates for valid rows, nulls for the others |
| `Windows.AggregateWindow.ResetPartition` | velox/exec/AggregateWindow.cpp:103-107 | nothing is resumed in a new partition |
| `Windows.WindowOverPartition` | velox/exec/AggregateWindow.cpp:109-166 | every sequence of blocks of a partition gives each valid row the aggregate of exactly the rows of its frame and each other row null, whatever was resumed |
| `Groupings.GroupedMeans` | velox/exec/GroupingSet.cpp:156-236 | the table has one group per distinct key, with the fold of all its rows |
| `Groupings.GroupedSplits` | velox/exec/GroupingSet.cpp:119-137 | a closed piece of the input and the rest group independently |
| `Groupings.Boundary` | velox/exec/GroupingSet.cpp:123-136 | the boundary is at the last change of the pre-grouped key, and at the end of the batch exactly if there is none |
| `Groupings.HashAggregation.AddInput` | velox/exec/GroupingSet.cpp:112-142 | rows kept back go in first; what is kept back of the batch is its end, the rows of its last pre-group, and nothing exactly if it has only one |
| `Groupings.HashAggregation.NoMoreInput` | velox/exec/GroupingSet.cpp:144-150 | the rows kept back are added |
| `Groupings.HashAggregation.GetOutput` | velox/exec/HashAggregation.cpp:270-328 | the next groups of the table are listed, as many as there are up to the batch size; at the end the table is cleared, takes the rows kept back, and is cleared again if the limit was hit |
| `Groupings.StreamingIsOneShot` | velox/exec/GroupingSet.cpp:402-428 | for clustered input, all batchings, output sizes and interleavings without a memory limit: the groups emitted are those of one-shot grouping, each once |
| `Groupings.RunConserves` | velox/exec/HashAggregation.cpp:270-328 | at every moment of every run emitted and lost values are those of the rows flushed and of the groups listed |
| `Groupings.FlushKeepsValuesIff` | velox/exec/HashAggregation.cpp:216-238 | over every run, whenever the memory limit is hit, the groups emitted hold exactly the values of their keys if and only if no full table was cleared while rows were kept back |
| `Groupings.FlushLosesRows` | velox/exec/GroupingSet.cpp:455-459 | two rows and one flush after which the second row never comes out |
| `MergeRuns.SpillMerge.NextWithEquals` | velox/exec/TreeOfLosers.h:123-149 | the run with the lowest head, and whether another run has the same |
| `MergeRuns.SpillMerge.Merge` | velox/exec/GroupingSet.cpp:643-650 | one item is combined into the current row or starts a new one |
| `MergeRuns.SpillMerge.MergeNext` | velox/exec/GroupingSet.cpp:637-656 | a batch ends only between keys, is full unless it is the last, and the last call leaves everything merged |
| `MergeRuns.PopKeeps` | velox/exec/GroupingSet.cpp:637-656 | every row has combined exactly what has been popped of its key, each accumulator once |
| `MergeRuns.MergeAll` | velox/exec/GroupingSet.cpp:584-656 | the batches together have one row per distinct key, in order, that combines all its accumulators, each once, in some order |
| `MergeRuns.MergedIsFold` | velox/exec/GroupingSet.cpp:637-656 | where combining commutes, a row is the fold over all runs that have its key |
| `MergeRuns.MergedIsUnique` | velox/exec/GroupingSet.cpp:637-656 | where combining commutes, the result does not depend on batch size and on the order of equal heads |
| `Pushdowns.CanPushdownFilters` | velox/exec/Driver.cpp:593-640 | exactly the channels whose filters land on an operator that takes them |
| `Pushdowns.LandingIff` | velox/exec/Driver.cpp:593-640 | the landing place is exactly the end of the walk: every operator passed has an identity projection of the channel, and the place is the source or has none |
| `Pushdowns.Driver.PushdownFilter` | velox/exec/Driver.cpp:219-251 | the filter is installed where the other walk ends, and the check fails exactly if that operator takes none |
| `Pushdowns.Driver.PushdownFilters` | velox/exec/Driver.cpp:209-254 | all filters are installed, or some place takes none |
| `Pushdowns.Driver.PushdownSupported` | velox/exec/HashProbe.cpp:311-334 | one filter is installed per supported channel, that of the first key on it which makes one, and no check is tripped |
| `Pushdowns.FirstFilters` | velox/exec/HashProbe.cpp:325-333 | the loop over the keys keeps the first filter of each channel |
| `Pushdowns.SupportedFromKeys` | velox/exec/HashProbe.cpp:325-333 | the filters that the prober makes are made from the join keys |
| `Pushdowns.InstallingIsFiltering` | velox/exec/Driver.cpp:219-251 | one more filter at its landing place, whatever is installed already, filters the join's input |
| `Pushdowns.PushdownIsFilter` | velox/exec/Driver.cpp:209-254 | installing all filters of an operator, several at one place or one behind another, filters its input by all of them, if every operator passed commutes with filters |
| `Pushdowns.PushdownKeepsJoin` | velox/exec/HashProbe.cpp:311-334 | with all filters made from the join keys installed beside any others the join result is unchanged, for the join types that make filters |
| `Limits.LimitOperator.GetOutput` | velox/exec/Limit.cpp:49-97 | a batch gives the rows from the remaining offset on, up to the remaining limit, and both are moved on |
| `Limits.LimitOperator.Drain` | velox/exec/Limit.cpp:49-97 | however the input is cut into batches, the rows from the offset on come out, at most the count of them |
| `Limits.TakenMeans` | velox/exec/Limit.cpp:49-97 | row i of the limit is row offset + i of the input, up to the count or to the end |
| `Limits.LimitCommutesOnIff` | velox/exec/Limit.cpp:29-37 | when filtering any column before a limit with any offset is filtering behind it: exactly if no skipped row is dropped and no row is newly taken, or all taken rows are dropped and none is newly taken, or the kept rows repeat with the distance by which the limit is moved |
| `Limits.PlainLimitCommutesIff` | velox/exec/Limit.cpp:30-37 | without an offset: exactly if the limit takes all rows, all rows that it takes pass, or none of the others does |
| `Limits.NoLimitCommutes` | velox/exec/Limit.cpp:33-37 | no limit commutes with all filters on a column |
| `Limits.PushdownThroughLimitIff` | velox/exec/Driver.cpp:219-251 | any number of filters pushed through a limit at the end of any pipeline filter what it returns if and only if the limit commutes with them on the rows that enter it |
| `Limits.LimitKeepsJoinIff` | velox/exec/HashProbe.cpp:311-334 | the join behind a limit stays as it is if and only if each row with a match is lost as often as it is newly taken, or, for right semi joins, the build rows that those rows match stay matched |
| `Limits.NewRowsDecide` | velox/exec/HashProbe.cpp:311-334 | if no skipped row is dropped, as without an offset: exactly when no row that the limit newly takes has a match, or, for right semi joins, none whose match is new |
| `Limits.JoinBehindLimitIff` | velox/exec/HashProbe.cpp:311-334 | the same for the filters that a join makes from its keys and any pipeline that ends with a limit |
| `Limits.LimitChangesJoin` | velox/exec/Limit.cpp:33-37 | a scan with a limit whose join result changes when the filter is pushed |
| `CrossJoins.ProductCounts` | velox/exec/CrossJoinProbe.cpp:94-155 | the product has every pair as often as its sides say |
| `CrossJoins.ProductAt` | velox/exec/CrossJoinProbe.cpp:94-155 | where each pair is in the product: by build vector, in it by probe row, and in it by build row |
| `CrossJoins.ProbeCount` | velox/exec/CrossJoinProbe.cpp:101-108 | at least one probe row, and no more than fit unless it is one |
| `CrossJoins.ProbeCountFitsIff` | velox/exec/CrossJoinProbe.cpp:99-108 | the probe rows of a batch exist if and only if rows are left or the build vector fits into a batch, so the loop relies on non-empty inputs |
| `CrossJoins.CrossJoinProbe.GetOutput` | velox/exec/CrossJoinProbe.cpp:94-155 | a batch is not empty, no larger than the batch size or one build vector, continues the product, and moves the cursor on |
| `CrossJoins.CrossJoin` | velox/exec/CrossJoinProbe.cpp:94-155 | the batches of one input are its product, by build vector, then probe row |
| `UniqueIds.AssignUniqueId.GenerateIdColumn` | velox/exec/AssignUniqueId.cpp:73-100 | the loop issues the ids of `Generate` with one extra id per block |
| `UniqueIds.AssignUniqueId.NextIds` | velox/exec/AssignUniqueId.cpp:84-98 | one turn draws a block if none is left, issues consecutive ids and moves the counter on by the number of the last row |
| `UniqueIds.AssignUniqueId.RequestRowIds` | velox/exec/AssignUniqueId.cpp:102-106 | draws the next block from the pool |
| `UniqueIds.TurnSource` | velox/exec/AssignUniqueId.cpp:85-88 | ids come from the block at hand or, if it is used up, from the next block of the pool |
| `UniqueIds.LongCallWastes` | velox/exec/AssignUniqueId.cpp:97-98 | the counter is moved by the number of the row, so behind the first block of rows of a call every block that is drawn is given up after one turn |
| `UniqueIds.TurnsAreCall` | velox/exec/AssignUniqueId.cpp:84-99 | the turns of one operator with no other in between are the whole loop |
| `UniqueIds.TurnIsClean` | velox/exec/AssignUniqueId.cpp:84-99 | a turn that does not run over a begun block takes rising ids of its own and leaves an interval of its own |
| `UniqueIds.OverrunTakesNext` | velox/exec/AssignUniqueId.cpp:90-95 | a turn that does takes the first id of the next block |
| `UniqueIds.TurnKeepsDistinctIff` | velox/exec/AssignUniqueId.cpp:84-106 | a turn keeps the ids of all operators distinct, now and at the next draw, if and only if it does not run over a begun block |
| `UniqueIds.DamageStays` | velox/exec/AssignUniqueId.cpp:73-106 | once a block has been run over, every later state has a repeated id or repeats one at the next draw |
| `UniqueIds.NextDrawRepeats` | velox/exec/AssignUniqueId.cpp:102-106 | where such an id has been issued, the next draw repeats it |
| `UniqueIds.IdsAreDistinct` | velox/exec/AssignUniqueId.cpp:73-106 | over every run without such a turn, however the turns of all operators are interleaved, all ids of all operators are distinct |
| `UniqueIds.DistinctWithoutExtra` | velox/exec/AssignUniqueId.cpp:90-91 | if no extra id is taken they are distinct over every run |
| `UniqueIds.RunKeepsDistinctIff` | velox/exec/AssignUniqueId.cpp:73-106 | over every run, with turns interleaved in any way, all ids, those of the next draw included, are distinct if and only if no turn has run over a begun block |
| `UniqueIds.TwoOperatorsCollide` | velox/exec/AssignUniqueId.cpp:90-95 | two operators and three turns that issue an id twice |

## Left out

- Extra join filters, and null-aware joins with spilling: the tracking of filtered matches is not part of this model.
- SpillJoins.SpillingPreservesJoin: states the result as the count of each output row and not their order, because drivers interleave; one step covers all input of a prober in a round, because flags and output only accumulate.
- JoinProtocols.EveryRunIsGood: does not model cancellation and errors, which abandon the protocol.
- BuildSpills.GroupStepKeeps: which of the partitions with rows are spilled and when memory is short are free choices of each step, so the heuristics do not matter; the counters of waiting and active builders are expressed by the builders' phases.
- Hash tables, row containers and spill files are sequences, sets and multisets of rows; lookup, rehashing and file formats are not part of this model.
- Floating-point and timestamp leaves, string buffers and vector encodings in the serde; values are read into vectors that are passed and returned as values, so aliasing between vectors is not captured.
- SerdeVectors.Resize: fills new slots with a placeholder, because their content is not defined before they are written.
- Exchange errors and closing beyond the effect of the two calls on the queue, the retry of failed responses, duplicate task ids and the acknowledgement of pages to producers.
- Global, distinct and masked aggregation, and spilling by partition in `getOutputWithSpill`.
- Pushdowns.PushdownIsFilter: assumes of each operator passed that it commutes with row filters, because operators are parameters; `Limit.dfy` says when this holds for a limit.
- SerdeShortRows.ShortRowHashIff: is stated for values that lack fewer than 2^63 children, because array elements are mixed in 64 bits, where the count of missing children that the proof uses repeats after that number.
- Replacing a join by its dynamic filter, and null-aware right semi project with dynamic filters.
- UniqueIds.AssignUniqueId.GenerateIdColumn: does not model the check against the task mask and the behaviour beyond 2^40 ids per task, which `Room` and `CanDraw` exclude.
- CrossJoins.CrossJoinProbe.GetOutput: is stated for probe inputs with rows, because the driver checks that no empty vector is passed on (velox/exec/Driver.cpp:376-380).
- Memory reservation, statistics, lazy loading, dictionary wrapping and reuse of vectors, which do not affect results.
