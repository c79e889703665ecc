/** The rendezvous of the build and the probe pipelines of a hash join. */
module JoinBridges {
  import opened Options
  import opened SpillPartitions

  /** A driver that may wait on a promise of the bridge. */
  datatype Party = Builder(index: nat) | Prober(index: nat)

  /** What the builders hand over. The table is absent when a null-aware anti join met a null key. */
  datatype HashBuildResult<T> = HashBuildResult(
    hasNullKeys: bool,
    table: Option<T>,
    restoredPartitionId: Option<SpillPartitionId>,
    spillPartitionIds: set<SpillPartitionId>)

  /** The fields guarded by the mutex of the bridge, as one value. */
  datatype BridgeState<T> = BridgeState(
    started: bool,
    numBuilders: nat,
    buildResult: Option<HashBuildResult<T>>,
    restoringId: Option<SpillPartitionId>,
    restoringShards: seq<SpillPartition>,
    pending: SpillPartitionSet,
    promises: seq<Party>)

  /** The checks of `setHashTable`: no table is out, every shard has been taken, what was spilled
      while restoring lies on deeper bits, and no pending id is spilled again. */
  ghost predicate CanSetHashTable<T>(s: BridgeState<T>, spilled: SpillPartitionSet) {
    && s.started
    && s.buildResult.None?
    && s.restoringShards == []
    && (s.restoringId.Some? ==> forall id :: id in spilled ==> s.restoringId.value.offset < id.offset)
    && forall id :: id in spilled ==> id !in s.pending
  }

  ghost function WithTable<T>(
    s: BridgeState<T>, table: T, spilled: SpillPartitionSet, hasNullKeys: bool): BridgeState<T>
  {
    s.(buildResult := Some(HashBuildResult(hasNullKeys, Some(table), s.restoringId, spilled.Keys)),
       restoringId := None,
       pending := s.pending + spilled,
       promises := [])
  }

  ghost predicate CanSetAntiJoinHasNullKeys<T>(s: BridgeState<T>) {
    s.started && s.buildResult.None? && s.restoringShards == []
  }

  ghost function WithNullKeys<T>(s: BridgeState<T>): BridgeState<T> {
    s.(buildResult := Some(HashBuildResult(true, None, None, {})),
       restoringId := None,
       pending := map[],
       promises := [])
  }

  ghost predicate CanGetTable<T>(s: BridgeState<T>) {
    s.started && (s.buildResult.Some? ==> s.restoringId.None? && s.restoringShards == [])
  }

  ghost predicate CanFinishProbe<T>(s: BridgeState<T>) {
    && s.started
    && s.buildResult.Some?
    && s.restoringId.None?
    && s.restoringShards == []
    && s.numBuilders > 0
    && (s.pending == map[] ==> s.promises == [])
  }

  /** Drops the table and restores the pending partition `id` next. */
  ghost function Restore<T>(s: BridgeState<T>, id: SpillPartitionId): BridgeState<T>
    requires id in s.pending
  {
    s.(buildResult := None,
       restoringId := Some(id),
       restoringShards := Split(s.pending[id], s.numBuilders),
       pending := s.pending - {id},
       promises := [])
  }

  /** The first pending partition in the order of the ids is the one restored. */
  ghost function WithProbeFinished<T>(s: BridgeState<T>): BridgeState<T> {
    if s.pending == map[] then
      s.(buildResult := None)
    else
      assert s.pending.Keys != {};
      Restore(s, First(s.pending.Keys))
  }

  ghost predicate CanGetSpillInput<T>(s: BridgeState<T>) {
    && s.started
    && (s.restoringId.None? || s.buildResult.None?)
    && (s.restoringId.Some? ==> s.restoringShards != [])
  }

  /** The three answers of `spillInputOrFuture`. */
  datatype SpillInput = NoMoreSpill | Shard(partition: SpillPartition) | Wait

  class HashJoinBridge<T(==)> {
    var started: bool
    var numBuilders: nat
    var buildResult: Option<HashBuildResult<T>>
    var restoringId: Option<SpillPartitionId>
    var restoringShards: seq<SpillPartition>
    var pending: SpillPartitionSet
    var promises: seq<Party>

    ghost function View(): BridgeState<T>
      reads this
    {
      BridgeState(started, numBuilders, buildResult, restoringId, restoringShards, pending, promises)
    }

    constructor ()
      ensures View() == BridgeState(false, 0, None, None, [], map[], [])
    {
      started := false;
      numBuilders := 0;
      buildResult := None;
      restoringId := None;
      restoringShards := [];
      pending := map[];
      promises := [];
    }

    method AddBuilder() returns (r: Result<()>)
      modifies this
      ensures r.Success? <==> !old(started)
      ensures View() == if r.Success? then old(View()).(numBuilders := old(numBuilders) + 1) else old(View())
    {
      if started {
        return CheckFailed;
      }
      numBuilders := numBuilders + 1;
      return Success(());
    }

    method Start() returns (r: Result<()>)
      modifies this
      ensures r.Success? <==> old(numBuilders) > 0
      ensures View() == old(View()).(started := true)
    {
      started := true;
      if numBuilders == 0 {
        return CheckFailed;
      }
      return Success(());
    }

    /** The loop over the new partitions: it stops at one that is already pending. */
    method AddPending(spilled: SpillPartitionSet) returns (added: bool)
      modifies this`pending
      ensures added <==> forall id :: id in spilled ==> id !in old(pending)
      ensures added ==> pending == old(pending) + spilled
    {
      var rest := spilled.Keys;
      while rest != {}
        invariant rest <= spilled.Keys
        invariant pending.Keys == old(pending).Keys + (spilled.Keys - rest)
        invariant forall id :: id in pending ==>
            pending[id] == if id in old(pending) then old(pending)[id] else spilled[id]
        invariant forall id :: id in spilled.Keys - rest ==> id !in old(pending)
      {
        var id := First(rest);
        if id in pending {
          return false;
        }
        pending := pending[id := spilled[id]];
        rest := rest - {id};
      }
      return true;
    }

    /** Publishes the table built by the last builder and wakes every waiting prober. The answer
        says whether there is spilled data to restore later. */
    method SetHashTable(table: T, spilled: SpillPartitionSet, hasNullKeys: bool)
      returns (r: Result<bool>, notified: seq<Party>)
      modifies this
      ensures r.Success? <==> CanSetHashTable(old(View()), spilled)
      ensures r.Success? <==>
                && old(started) && old(buildResult).None? && old(restoringShards) == []
                && (old(restoringId).Some? ==> forall id :: id in spilled ==> old(restoringId).value.offset < id.offset)
                && forall id :: id in spilled ==> id !in old(pending)
      ensures r.Success? ==> View() == WithTable(old(View()), table, spilled, hasNullKeys)
      ensures r.Success? ==>
                && buildResult == Some(HashBuildResult(hasNullKeys, Some(table), old(restoringId), spilled.Keys))
                && restoringId == None && promises == [] && pending == old(pending) + spilled
      ensures r.Success? ==> r.value == (pending != map[]) && notified == old(promises)
      ensures r.CheckFailed? ==> View() == old(View()).(pending := pending) && notified == []
    {
      notified := [];
      if !started || buildResult.Some? || restoringShards != [] {
        return CheckFailed, [];
      }
      if restoringId.Some? && exists id :: id in spilled && restoringId.value.offset >= id.offset {
        return CheckFailed, [];
      }
      var added := AddPending(spilled);
      if !added {
        return CheckFailed, [];
      }
      buildResult := Some(HashBuildResult(hasNullKeys, Some(table), restoringId, spilled.Keys));
      restoringId := None;
      notified := promises;
      promises := [];
      r := Success(pending != map[]);
    }

    /** A null-aware anti join met a null build key: the result is empty, spilled data is dropped. */
    method SetAntiJoinHasNullKeys() returns (r: Result<()>, notified: seq<Party>)
      modifies this
      ensures r.Success? <==> CanSetAntiJoinHasNullKeys(old(View()))
      ensures r.Success? <==> old(started) && old(buildResult).None? && old(restoringShards) == []
      ensures r.Success? ==>
                && buildResult == Some(HashBuildResult(true, None, None, {}))
                && restoringId == None && promises == [] && pending == map[]
      ensures View() == if r.Success? then WithNullKeys(old(View())) else old(View())
      ensures notified == if r.Success? then old(promises) else []
    {
      if !started || buildResult.Some? || restoringShards != [] {
        return CheckFailed, [];
      }
      buildResult := Some(HashBuildResult(true, None, None, {}));
      restoringId := None;
      pending := map[];
      notified := promises;
      promises := [];
      r := Success(());
    }

    /** The published table, or a promise of the bridge for `who`. */
    method TableOrFuture(who: Party) returns (r: Result<Option<HashBuildResult<T>>>)
      modifies this
      ensures r.Success? <==> CanGetTable(old(View()))
      ensures r.Success? <==>
                old(started) && (old(buildResult).Some? ==> old(restoringId).None? && old(restoringShards) == [])
      ensures r.Success? ==> r.value == old(buildResult)
      ensures View() ==
              if r.Success? && r.value.None? then old(View()).(promises := old(promises) + [who]) else old(View())
    {
      if !started || (buildResult.Some? && (restoringId.Some? || restoringShards != [])) {
        return CheckFailed;
      }
      if buildResult.None? {
        promises := promises + [who];
      }
      return Success(buildResult);
    }

    /** Drops the table; if spilled data remains, selects the partition to restore, splits it among
        the builders and wakes them. */
    method ProbeFinished() returns (r: Result<bool>, notified: seq<Party>)
      modifies this
      ensures r.Success? <==> CanFinishProbe(old(View()))
      ensures r.Success? <==>
                && old(started) && old(buildResult).Some? && old(restoringId).None? && old(restoringShards) == []
                && old(numBuilders) > 0 && (old(pending) == map[] ==> old(promises) == [])
      ensures r.Success? && r.value ==>
                && restoringId.Some? && IsFirst(restoringId.value, old(pending).Keys)
                && restoringShards == Split(old(pending)[restoringId.value], numBuilders)
                && pending == old(pending) - {restoringId.value} && promises == []
      ensures r.Success? ==> buildResult == None && (!r.value ==> restoringId == None && restoringShards == [])
      ensures r.Success? ==> View() == WithProbeFinished(old(View()))
      ensures r.Success? ==> r.value == (old(pending) != map[])
      ensures r.Success? ==> notified == if r.value then old(promises) else []
    {
      notified := [];
      if !started || buildResult.None? || restoringId.Some? || restoringShards != [] || numBuilders == 0 {
        return CheckFailed, [];
      }
      buildResult := None;
      if pending != map[] {
        assert pending.Keys != {};
        var id := First(pending.Keys);
        restoringId := Some(id);
        restoringShards := SplitShards(pending[id], numBuilders);
        pending := pending - {id};
        notified := promises;
        promises := [];
        r := Success(true);
      } else if promises != [] {
        r := CheckFailed;
      } else {
        r := Success(false);
      }
    }

    /** A shard of the partition being restored, the news that nothing is left to restore, or a
        promise of the bridge for `who`. */
    method SpillInputOrFuture(who: Party) returns (r: Result<SpillInput>)
      modifies this
      ensures r.Success? <==> CanGetSpillInput(old(View()))
      ensures r.Success? <==>
                && old(started) && (old(restoringId).None? || old(buildResult).None?)
                && (old(restoringId).Some? ==> old(restoringShards) != [])
      ensures r.CheckFailed? ==> View() == old(View())
      ensures r.Success? && old(restoringId).Some? ==>
                var last := |old(restoringShards)| - 1;
                r.value == Shard(old(restoringShards)[last]) &&
                View() == old(View()).(restoringShards := old(restoringShards)[..last])
      ensures r.Success? && old(restoringId).None? && old(pending) == map[] ==>
                r.value == NoMoreSpill && View() == old(View())
      ensures r.Success? && old(restoringId).None? && old(pending) != map[] ==>
                r.value == Wait && View() == old(View()).(promises := old(promises) + [who])
    {
      if !started || (restoringId.Some? && buildResult.Some?) {
        return CheckFailed;
      }
      if restoringId.None? {
        if pending == map[] {
          return Success(NoMoreSpill);
        }
        promises := promises + [who];
        return Success(Wait);
      }
      if restoringShards == [] {
        return CheckFailed;
      }
      var shard := restoringShards[|restoringShards| - 1];
      restoringShards := restoringShards[..|restoringShards| - 1];
      return Success(Shard(shard));
    }
  }
}
