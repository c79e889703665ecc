/** Every interleaving of the builders and probers of a spilling hash join, as a state machine over
    the bridge. A step is one critical section of one driver. */
module JoinProtocols {
  import opened Options
  import opened Powers
  import opened Sums
  import opened SpillPartitions
  import opened JoinBridges

  /** The spill settings of the join, and the three facts about its type that the protocol needs: whether
      the last prober emits build-side rows, whether null keys of the build side matter, and whether one
      empties the join. */
  datatype JoinConfig = JoinConfig(
    startBit: nat, numBits: nat, maxSpillLevel: int, needLastProbe: bool, nullAware: bool, nullAwareAnti: bool)
  {

    predicate Valid() {
      numBits > 0 && startBit + numBits <= 64 && (nullAwareAnti ==> nullAware)
    }

    /** The number of partitions made at one level. */
    function Fanout(): (n: nat)
      ensures n >= 1
    {
      Pow2(numBits)
    }

    /** `spillLevel`: how many times `numBits` fits between the start bit and `offset`. */
    function SpillLevel(offset: nat): nat
      requires Valid()
      decreases offset
    {
      if offset < startBit + numBits then 0 else 1 + SpillLevel(offset - numBits)
    }

    /** `exceedSpillLevelLimit`. */
    predicate ExceedsLimit(offset: nat)
      requires Valid()
    {
      offset + numBits > 64 || (maxSpillLevel != -1 && SpillLevel(offset) > maxSpillLevel)
    }

    /** `setupSpiller`: a partition of this offset may be spilled again when it is restored. */
    predicate MaySpillAgain(offset: nat)
      requires Valid()
    {
      !ExceedsLimit(offset + numBits)
    }

    /** The largest number of tables that restoring one partition of this offset can lead to. */
    function Weight(offset: nat): (w: nat)
      requires Valid()
      ensures w >= 1
      decreases if offset <= 64 then 64 - offset else 0
    {
      if MaySpillAgain(offset) then 1 + Fanout() * Weight(offset + numBits) else 1
    }
  }

  /** Where a builder is. `Polling` is running between two calls of the bridge. */
  datatype BuilderPhase = Building | AtBuildBarrier | Polling | WaitingForProbe | BuildDone

  /** `taken` counts the inputs the builder has started: the initial one and one shard per round. */
  datatype BuilderState = BuilderState(phase: BuilderPhase, taken: nat)

  datatype ProberPhase = NeedTable | WaitingForBuild | Probing | AtProbeBarrier | LastProber | ProbeDone

  /** `pendingIds` are the keys of the prober's own spilled partitions, `inputIds` the partitions it
      is spilling now, `seen` the number of tables it has received. */
  datatype ProberState = ProberState(
    phase: ProberPhase,
    pendingIds: set<SpillPartitionId>,
    inputIds: set<SpillPartitionId>,
    seen: nat)

  datatype Protocol = Protocol(
    config: JoinConfig,
    bridge: BridgeState<nat>,
    builders: seq<BuilderState>,
    probers: seq<ProberState>,
    tables: nat)

  datatype Step =
    | FinishBuild(builder: nat, spilled: SpillPartitionSet, hasNullKeys: bool)
    | FinishBuildNullKeys(builder: nat)
    | PollBuild(builder: nat)
    | PollProbe(prober: nat)
    | FinishInput(prober: nat)
    | FinishProbe(prober: nat)

  ghost predicate IsInit(s: Protocol) {
    && s.config.Valid()
    && |s.builders| >= 1 && |s.probers| >= 1
    && s.bridge == BridgeState(true, |s.builders|, None, None, [], map[], [])
    && (forall i :: 0 <= i < |s.builders| ==> s.builders[i] == BuilderState(Building, 1))
    && (forall j :: 0 <= j < |s.probers| ==> s.probers[j] == ProberState(NeedTable, {}, {}, 0))
    && s.tables == 0
  }

  /** The offset of the partitions that the builders make in the current round. */
  ghost function RoundOffset(s: Protocol): nat {
    if s.bridge.restoringId.None? then s.config.startBit else s.bridge.restoringId.value.offset + s.config.numBits
  }

  /** What the builders of a round may have spilled: partitions of the round's bit range, each with rows
      and so with files, and none at all once the level limit is reached. */
  ghost predicate SpilledInRound(s: Protocol, spilled: SpillPartitionSet)
    requires s.config.Valid()
  {
    && (forall id :: id in spilled ==>
          id.offset == RoundOffset(s) && id.number < s.config.Fanout() && spilled[id].files != [])
    && (s.bridge.restoringId.Some? && !s.config.MaySpillAgain(s.bridge.restoringId.value.offset) ==> spilled == map[])
  }

  /** The barrier of the build pipeline answers true to the last builder only. */
  ghost predicate LastToBuild(s: Protocol, i: nat) {
    forall k :: 0 <= k < |s.builders| && k != i ==> s.builders[k].phase == AtBuildBarrier
  }

  /** The same barrier for the probe pipeline: a prober without spilled data does not wait at it. */
  ghost predicate LastToProbe(s: Protocol, j: nat) {
    forall k :: 0 <= k < |s.probers| && k != j ==> s.probers[k].phase in {AtProbeBarrier, ProbeDone}
  }

  ghost predicate Enabled(s: Protocol, step: Step)
    requires s.config.Valid()
  {
    match step
    // A null-aware join that is not emptied by a null key publishes whether the build side has any.
    case FinishBuild(i, spilled, nulls) =>
      && i < |s.builders| && s.builders[i].phase == Building && SpilledInRound(s, spilled)
      && (nulls ==> s.config.nullAware && !s.config.nullAwareAnti)
    // A null key can only be met in the initial input: rows with null keys are never spilled here.
    case FinishBuildNullKeys(i) =>
      i < |s.builders| && s.builders[i].phase == Building && s.config.nullAwareAnti && s.tables == 0
    case PollBuild(i) => i < |s.builders| && s.builders[i].phase == Polling
    case PollProbe(j) => j < |s.probers| && s.probers[j].phase == NeedTable
    case FinishInput(j) => j < |s.probers| && s.probers[j].phase == Probing
    case FinishProbe(j) => j < |s.probers| && s.probers[j].phase == LastProber
  }

  /** Resumes the drivers whose promises were realized. */
  function WakeBuilders(builders: seq<BuilderState>, notified: seq<Party>): (r: seq<BuilderState>)
    ensures |r| == |builders|
  {
    seq(|builders|, i requires 0 <= i < |builders| =>
      if builders[i].phase == WaitingForProbe && Builder(i) in notified then builders[i].(phase := Polling)
      else builders[i])
  }

  function WakeProbers(probers: seq<ProberState>, notified: seq<Party>): (r: seq<ProberState>)
    ensures |r| == |probers|
  {
    seq(|probers|, j requires 0 <= j < |probers| =>
      if probers[j].phase == WaitingForBuild && Prober(j) in notified then probers[j].(phase := NeedTable)
      else probers[j])
  }

  /** The last builder has published: its peers leave the barrier with it. */
  function LeaveBuildBarrier(builders: seq<BuilderState>): (r: seq<BuilderState>)
    ensures |r| == |builders|
  {
    seq(|builders|, i requires 0 <= i < |builders| => builders[i].(phase := Polling))
  }

  /** The last prober has reported: every prober resets and asks for the next table. */
  function LeaveProbeBarrier(probers: seq<ProberState>): (r: seq<ProberState>)
    ensures |r| == |probers|
  {
    seq(|probers|, j requires 0 <= j < |probers| =>
      if probers[j].phase in {AtProbeBarrier, LastProber} then probers[j].(phase := NeedTable, inputIds := {})
      else probers[j])
  }

  ghost function Publish(s: Protocol, bridge: BridgeState<nat>): Protocol {
    s.(bridge := bridge,
       builders := LeaveBuildBarrier(s.builders),
       probers := WakeProbers(s.probers, s.bridge.promises),
       tables := s.tables + 1)
  }

  ghost function TakeTable(p: ProberState, result: HashBuildResult<nat>): ProberState {
    ProberState(
      Probing,
      if result.restoredPartitionId.Some? then p.pendingIds - {result.restoredPartitionId.value} else p.pendingIds,
      result.spillPartitionIds,
      p.seen + 1)
  }

  ghost function NextRound(s: Protocol): Protocol {
    s.(bridge := WithProbeFinished(s.bridge),
       builders := WakeBuilders(s.builders, s.bridge.promises),
       probers := LeaveProbeBarrier(s.probers))
  }

  ghost function Apply(s: Protocol, step: Step): Protocol
    requires s.config.Valid() && Enabled(s, step)
  {
    match step
    case FinishBuild(i, spilled, nulls) =>
      if !LastToBuild(s, i) then
        s.(builders := s.builders[i := s.builders[i].(phase := AtBuildBarrier)])
      else
        Publish(s, WithTable(s.bridge, s.tables, spilled, nulls))
    case FinishBuildNullKeys(i) =>
      if !LastToBuild(s, i) then
        s.(builders := s.builders[i := s.builders[i].(phase := AtBuildBarrier)])
      else
        Publish(s, WithNullKeys(s.bridge))
    case PollBuild(i) =>
      if s.bridge.restoringId.Some? then
        var n := |s.bridge.restoringShards|;
        s.(bridge := s.bridge.(restoringShards := s.bridge.restoringShards[..if n == 0 then 0 else n - 1]),
           builders := s.builders[i := BuilderState(Building, s.builders[i].taken + 1)])
      else if s.bridge.pending == map[] then
        s.(builders := s.builders[i := s.builders[i].(phase := BuildDone)])
      else
        s.(bridge := s.bridge.(promises := s.bridge.promises + [Builder(i)]),
           builders := s.builders[i := s.builders[i].(phase := WaitingForProbe)])
    case PollProbe(j) =>
      if s.bridge.buildResult.Some? then
        s.(probers := s.probers[j := TakeTable(s.probers[j], s.bridge.buildResult.value)])
      else
        s.(bridge := s.bridge.(promises := s.bridge.promises + [Prober(j)]),
           probers := s.probers[j := s.probers[j].(phase := WaitingForBuild)])
    case FinishInput(j) =>
      var p := s.probers[j];
      var pendingIds := p.pendingIds + p.inputIds;
      var phase :=
        if pendingIds != {} then (if LastToProbe(s, j) then LastProber else AtProbeBarrier)
        else if s.config.needLastProbe && LastToProbe(s, j) then LastProber else ProbeDone;
      s.(probers := s.probers[j := ProberState(phase, pendingIds, p.inputIds, p.seen)])
    case FinishProbe(j) =>
      if s.probers[j].pendingIds == {} then
        s.(probers := s.probers[j := s.probers[j].(phase := ProbeDone)])
      else
        NextRound(s)
  }

  /** The run-time checks that the step makes on the bridge and on spilled partitions, in the bridge and
      in the operators. Checks on the state of an operator are expressed by its phase. */
  ghost predicate ChecksHold(s: Protocol, step: Step)
    requires s.config.Valid() && Enabled(s, step)
  {
    match step
    case FinishBuild(i, spilled, _) =>
      LastToBuild(s, i) ==> CanSetHashTable(s.bridge, spilled) && forall id :: id in spilled ==> spilled[id].files != []
    case FinishBuildNullKeys(i) => LastToBuild(s, i) ==> CanSetAntiJoinHasNullKeys(s.bridge)
    case PollBuild(i) => CanGetSpillInput(s.bridge)
    case PollProbe(j) =>
      && CanGetTable(s.bridge)
      && (s.bridge.buildResult.Some? ==>
            var result := s.bridge.buildResult.value;
            // The restored partition is among the prober's own; an early end leaves none behind.
            && (result.restoredPartitionId.Some? ==> result.restoredPartitionId.value in s.probers[j].pendingIds)
            && (result.hasNullKeys ==> s.config.nullAware)
            && (result.table.None? ==> s.probers[j].pendingIds == {}))
    case FinishInput(j) =>
      // The prober's spiller has one partition number for each id to be spilled.
      |NumbersOf(s.probers[j].inputIds)| == |s.probers[j].inputIds|
    case FinishProbe(j) => s.probers[j].pendingIds != {} ==> CanFinishProbe(s.bridge) && s.bridge.pending != map[]
  }

  function CountPolling(builders: seq<BuilderState>): nat {
    if builders == [] then 0
    else (if builders[0].phase == Polling then 1 else 0) + CountPolling(builders[1..])
  }

  lemma {:induction false} CountUpdate(builders: seq<BuilderState>, i: nat, b: BuilderState)
    requires i < |builders|
    ensures CountPolling(builders[i := b]) ==
            CountPolling(builders) - (if builders[i].phase == Polling then 1 else 0)
              + (if b.phase == Polling then 1 else 0)
  {
    if i == 0 {
      assert builders[i := b][1..] == builders[1..];
    } else {
      CountUpdate(builders[1..], i - 1, b);
      assert builders[i := b][1..] == builders[1..][i - 1 := b];
    }
  }

  lemma {:induction false} CountZero(builders: seq<BuilderState>)
    requires forall i :: 0 <= i < |builders| ==> builders[i].phase != Polling
    ensures CountPolling(builders) == 0
  {
    if builders == [] {
    } else {
      CountZero(builders[1..]);
    }
  }

  lemma {:induction false} CountPositive(builders: seq<BuilderState>, i: nat)
    requires i < |builders| && builders[i].phase == Polling
    ensures CountPolling(builders) >= 1
  {
    if i == 0 {
    } else {
      CountPositive(builders[1..], i - 1);
    }
  }

  lemma {:induction false} CountAll(builders: seq<BuilderState>)
    requires forall i :: 0 <= i < |builders| ==> builders[i].phase == Polling
    ensures CountPolling(builders) == |builders|
  {
    if builders == [] {
    } else {
      CountAll(builders[1..]);
    }
  }

  /** Partitions of an aligned bit range with a number below the fanout. */
  ghost predicate GoodId(config: JoinConfig, id: SpillPartitionId)
    requires config.Valid()
  {
    config.startBit <= id.offset && id.offset + config.numBits <= 64 && id.number < config.Fanout()
  }

  ghost predicate Shape(s: Protocol) {
    && s.config.Valid()
    && |s.builders| >= 1 && |s.probers| >= 1
    && s.bridge.started && s.bridge.numBuilders == |s.builders|
    && forall id :: id in s.bridge.pending ==> GoodId(s.config, id)
  }

  ghost function RestoringIds(s: Protocol): set<SpillPartitionId> {
    if s.bridge.restoringId.Some? then {s.bridge.restoringId.value} else {}
  }

  /** No table is out: the builders work on the initial input or on the shards of one partition, the
      probers wait for the result and the promises are exactly theirs. */
  ghost predicate BuildPhase(s: Protocol)
    requires s.config.Valid()
  {
    && s.bridge.buildResult.None?
    && BuildersBuild(s)
    && ProbersWait(s)
    && PromisesAreProbers(s)
    && RestoringDeepest(s)
  }

  ghost predicate BuildersBuild(s: Protocol) {
    && (forall i :: 0 <= i < |s.builders| ==>
          && s.builders[i].phase in {Polling, Building, AtBuildBarrier}
          && s.builders[i].taken == if s.builders[i].phase == Polling then s.tables else s.tables + 1)
    && |s.bridge.restoringShards| == CountPolling(s.builders)
    && (exists i :: 0 <= i < |s.builders| && s.builders[i].phase != AtBuildBarrier)
  }

  ghost predicate ProbersWait(s: Protocol) {
    forall j :: 0 <= j < |s.probers| ==>
                  && s.probers[j].phase in {NeedTable, WaitingForBuild}
                  && s.probers[j].pendingIds == s.bridge.pending.Keys + RestoringIds(s)
                  && s.probers[j].seen == s.tables
  }

  ghost predicate PromisesAreProbers(s: Protocol) {
    && (forall p :: p in s.bridge.promises ==>
       p.Prober? && p.index < |s.probers| && s.probers[p.index].phase == WaitingForBuild)
    && (forall j :: 0 <= j < |s.probers| && s.probers[j].phase == WaitingForBuild ==> Prober(j) in s.bridge.promises)
  }

  /** No pending partition is deeper than the one being restored. */
  ghost predicate RestoringDeepest(s: Protocol)
    requires s.config.Valid()
  {
    match s.bridge.restoringId
    case None => s.tables == 0 && s.bridge.pending == map[] && s.bridge.restoringShards == []
    case Some(id) =>
      && s.tables >= 1
      && GoodId(s.config, id)
      && id !in s.bridge.pending
      && forall other :: other in s.bridge.pending ==> other.offset <= id.offset
  }

  /** A table is out: the probers work on it, the builders wait for the next partition and the
      promises are exactly theirs. */
  ghost predicate ProbePhase(s: Protocol) {
    && s.bridge.buildResult.Some?
    && s.bridge.restoringId.None?
    && s.bridge.restoringShards == []
    && s.tables >= 1
    && BuildersWait(s)
    && PromisesAreBuilders(s)
    && ResultFits(s)
    && (forall j :: 0 <= j < |s.probers| ==> ProberFits(s, s.probers[j]))
    && ProbersProbe(s)
  }

  ghost predicate BuildersWait(s: Protocol) {
    forall i :: 0 <= i < |s.builders| ==>
                  && s.builders[i].phase in {Polling, WaitingForProbe, BuildDone}
                  && s.builders[i].taken == s.tables
                  && (s.builders[i].phase == BuildDone ==> s.bridge.pending == map[])
                  && (s.builders[i].phase == WaitingForProbe ==> s.bridge.pending != map[])
  }

  ghost predicate PromisesAreBuilders(s: Protocol) {
    && (forall p :: p in s.bridge.promises ==>
       p.Builder? && p.index < |s.builders| && s.builders[p.index].phase == WaitingForProbe)
    && (forall i :: 0 <= i < |s.builders| && s.builders[i].phase == WaitingForProbe ==> Builder(i) in s.bridge.promises)
  }

  ghost predicate ResultFits(s: Protocol)
    requires s.bridge.buildResult.Some?
  {
    var result := s.bridge.buildResult.value;
    && result.spillPartitionIds <= s.bridge.pending.Keys && SameOffset(result.spillPartitionIds)
    && (result.hasNullKeys ==> s.config.nullAware)
    && (result.restoredPartitionId.Some? ==> result.restoredPartitionId.value !in s.bridge.pending)
    && (result.table.None? ==> s.bridge.pending == map[] && result.restoredPartitionId.None?)
  }

  /** The prober's own spilled partitions are those of the bridge, up to where it is in the round. */
  ghost predicate ProberFits(s: Protocol, p: ProberState)
    requires s.bridge.buildResult.Some?
  {
    var result := s.bridge.buildResult.value;
    match p.phase
    case NeedTable =>
      && p.seen == s.tables - 1
      && p.pendingIds == s.bridge.pending.Keys - result.spillPartitionIds
                         + (if result.restoredPartitionId.Some? then {result.restoredPartitionId.value} else {})
    case Probing =>
      && p.seen == s.tables
      && p.pendingIds == s.bridge.pending.Keys - result.spillPartitionIds
      && p.inputIds == result.spillPartitionIds
    case AtProbeBarrier => p.seen == s.tables && p.pendingIds == s.bridge.pending.Keys && s.bridge.pending != map[]
    case LastProber => p.seen == s.tables && p.pendingIds == s.bridge.pending.Keys
    case ProbeDone => p.seen == s.tables && p.pendingIds == {} && s.bridge.pending == map[]
    case WaitingForBuild => false
  }

  ghost predicate ProbersProbe(s: Protocol) {
    && (exists j :: 0 <= j < |s.probers| && s.probers[j].phase != AtProbeBarrier)
    && (forall j :: 0 <= j < |s.probers| && s.probers[j].phase == LastProber ==> LastToProbe(s, j))
  }

  ghost predicate Inv(s: Protocol) {
    Shape(s) && (BuildPhase(s) || ProbePhase(s))
  }

  lemma InitInv(s: Protocol)
    requires IsInit(s)
    ensures Inv(s)
  {
    CountZero(s.builders);
    assert s.builders[0].phase != AtBuildBarrier;
  }

  /** What a builder spills while restoring is new: it lies on deeper bits than anything pending. */
  lemma SpillIdsFresh(s: Protocol, spilled: SpillPartitionSet)
    requires Shape(s) && BuildPhase(s) && SpilledInRound(s, spilled)
    ensures forall id :: id in spilled ==> id !in s.bridge.pending && GoodId(s.config, id)
    ensures s.bridge.restoringId.Some? ==> forall id :: id in spilled ==> s.bridge.restoringId.value.offset < id.offset
  {
  }

  lemma ReachBarrierKeeps(s: Protocol, step: Step)
    requires Inv(s) && Enabled(s, step) && (step.FinishBuild? || step.FinishBuildNullKeys?)
    requires !LastToBuild(s, step.builder)
    ensures Inv(Apply(s, step))
  {
    var i := step.builder;
    var t := Apply(s, step);
    assert BuildPhase(s);
    CountUpdate(s.builders, i, s.builders[i].(phase := AtBuildBarrier));
    var k :| 0 <= k < |s.builders| && k != i && s.builders[k].phase != AtBuildBarrier;
    assert t.builders[k].phase != AtBuildBarrier;
    assert BuildersBuild(t);
    assert BuildPhase(t);
  }

  lemma PublishTableKeeps(s: Protocol, i: nat, spilled: SpillPartitionSet, nulls: bool)
    requires Inv(s) && Enabled(s, FinishBuild(i, spilled, nulls)) && LastToBuild(s, i)
    ensures ChecksHold(s, FinishBuild(i, spilled, nulls)) && Inv(Apply(s, FinishBuild(i, spilled, nulls)))
  {
    var t := Apply(s, FinishBuild(i, spilled, nulls));
    assert BuildPhase(s);
    CountZero(s.builders);
    SpillIdsFresh(s, spilled);
    assert t.bridge.pending.Keys - spilled.Keys == s.bridge.pending.Keys;
    assert t.probers[0].phase != AtProbeBarrier;
    forall j | 0 <= j < |t.probers|
      ensures ProberFits(t, t.probers[j]) && t.probers[j].phase == NeedTable
    {
    }
    assert ProbePhase(t);
  }

  lemma PublishNullKeysKeeps(s: Protocol, i: nat)
    requires Inv(s) && Enabled(s, FinishBuildNullKeys(i)) && LastToBuild(s, i)
    ensures CanSetAntiJoinHasNullKeys(s.bridge) && Inv(Apply(s, FinishBuildNullKeys(i)))
  {
    var t := Apply(s, FinishBuildNullKeys(i));
    assert BuildPhase(s);
    CountZero(s.builders);
    assert t.probers[0].phase != AtProbeBarrier;
    assert ProbePhase(t);
  }

  lemma TakeShardKeeps(s: Protocol, i: nat)
    requires Shape(s) && BuildPhase(s) && Enabled(s, PollBuild(i))
    ensures ChecksHold(s, PollBuild(i)) && Shape(Apply(s, PollBuild(i))) && BuildPhase(Apply(s, PollBuild(i)))
  {
    var t := Apply(s, PollBuild(i));
    CountPositive(s.builders, i);
    assert s.bridge.restoringShards != [];
    CountUpdate(s.builders, i, BuilderState(Building, s.builders[i].taken + 1));
    assert t.builders[i].phase != AtBuildBarrier;
    assert BuildersBuild(t);
  }

  lemma AskForShardKeeps(s: Protocol, i: nat)
    requires Shape(s) && ProbePhase(s) && Enabled(s, PollBuild(i))
    ensures ChecksHold(s, PollBuild(i)) && Shape(Apply(s, PollBuild(i))) && ProbePhase(Apply(s, PollBuild(i)))
  {
    var t := Apply(s, PollBuild(i));
    assert PromisesAreBuilders(t);
    assert ProbersProbe(t);
  }

  lemma PollBuildKeeps(s: Protocol, i: nat)
    requires Inv(s) && Enabled(s, PollBuild(i))
    ensures ChecksHold(s, PollBuild(i)) && Inv(Apply(s, PollBuild(i)))
  {
    if BuildPhase(s) {
      TakeShardKeeps(s, i);
    } else {
      AskForShardKeeps(s, i);
    }
  }

  lemma PollProbeKeeps(s: Protocol, j: nat)
    requires Inv(s) && Enabled(s, PollProbe(j))
    ensures ChecksHold(s, PollProbe(j)) && Inv(Apply(s, PollProbe(j)))
  {
    var t := Apply(s, PollProbe(j));
    if BuildPhase(s) {
      assert PromisesAreProbers(t);
      assert BuildPhase(t);
    } else {
      assert t.probers[j].phase != AtProbeBarrier;
      forall k | 0 <= k < |t.probers|
        ensures ProberFits(t, t.probers[k])
      {
        assert ProberFits(s, s.probers[k]);
      }
      assert ProbePhase(t);
    }
  }

  /** What a prober that has read its input leaves: all pending ids are its own. */
  lemma ReadProberFits(s: Protocol, j: nat, k: nat)
    requires Shape(s) && ProbePhase(s) && Enabled(s, FinishInput(j)) && k < |s.probers|
    ensures ProberFits(Apply(s, FinishInput(j)), Apply(s, FinishInput(j)).probers[k])
  {
    assert ProberFits(s, s.probers[k]);
    if k == j {
      assert s.probers[j].pendingIds + s.probers[j].inputIds == s.bridge.pending.Keys;
    }
  }

  lemma SomebodyProbes(s: Protocol, j: nat)
    requires Shape(s) && ProbePhase(s) && Enabled(s, FinishInput(j))
    ensures ProbersProbe(Apply(s, FinishInput(j)))
  {
    var t := Apply(s, FinishInput(j));
    if LastToProbe(s, j) {
      assert t.probers[j].phase != AtProbeBarrier;
    } else {
      var k :| 0 <= k < |s.probers| && k != j && s.probers[k].phase !in {AtProbeBarrier, ProbeDone};
      assert t.probers[k].phase != AtProbeBarrier;
    }
    assert forall k :: 0 <= k < |s.probers| ==> s.probers[k].phase != LastProber;
  }

  lemma ReadKeepsPhase(s: Protocol, j: nat)
    requires Shape(s) && ProbePhase(s) && Enabled(s, FinishInput(j))
    ensures Shape(Apply(s, FinishInput(j))) && ProbePhase(Apply(s, FinishInput(j)))
  {
    var t := Apply(s, FinishInput(j));
    forall k | 0 <= k < |t.probers|
      ensures ProberFits(t, t.probers[k])
    {
      ReadProberFits(s, j, k);
    }
    SomebodyProbes(s, j);
  }

  lemma FinishInputKeeps(s: Protocol, j: nat)
    requires Inv(s) && Enabled(s, FinishInput(j))
    ensures ChecksHold(s, FinishInput(j)) && Inv(Apply(s, FinishInput(j)))
  {
    assert ProbePhase(s);
    assert ProberFits(s, s.probers[j]);
    NumbersDistinct(s.probers[j].inputIds);
    ReadKeepsPhase(s, j);
  }

  /** The last prober of the last round is done. */
  lemma FinishLastRoundKeeps(s: Protocol, j: nat)
    requires Shape(s) && ProbePhase(s) && Enabled(s, FinishProbe(j)) && s.probers[j].pendingIds == {}
    ensures Shape(Apply(s, FinishProbe(j))) && ProbePhase(Apply(s, FinishProbe(j)))
  {
    var t := Apply(s, FinishProbe(j));
    assert ProberFits(s, s.probers[j]);
    assert s.bridge.pending == map[];
    assert t.probers[j].phase != AtProbeBarrier;
    forall k | 0 <= k < |t.probers|
      ensures ProberFits(t, t.probers[k])
    {
      assert ProberFits(s, s.probers[k]);
    }
  }

  lemma RestoreBuilders(s: Protocol)
    requires Shape(s) && ProbePhase(s) && s.bridge.pending != map[]
    ensures BuildersBuild(NextRound(s))
  {
    var t := NextRound(s);
    CountAll(t.builders);
    assert t.builders[0].phase != AtBuildBarrier;
  }

  lemma RestoreProbers(s: Protocol, j: nat)
    requires Shape(s) && ProbePhase(s) && s.bridge.pending != map[] && Enabled(s, FinishProbe(j))
    ensures ProbersWait(NextRound(s)) && PromisesAreProbers(NextRound(s))
  {
    var t := NextRound(s);
    assert LastToProbe(s, j);
    forall k | 0 <= k < |t.probers|
      ensures t.probers[k].phase == NeedTable && t.probers[k].seen == t.tables
      ensures t.probers[k].pendingIds == t.bridge.pending.Keys + RestoringIds(t)
    {
      assert ProberFits(s, s.probers[k]);
    }
  }

  /** The partition restored next is the deepest one. */
  lemma RestoresDeepest(s: Protocol)
    requires Shape(s) && ProbePhase(s) && s.bridge.pending != map[]
    ensures Shape(NextRound(s)) && RestoringDeepest(NextRound(s)) && NextRound(s).bridge.buildResult.None?
  {
    assert s.bridge.pending.Keys != {};
  }

  /** The last prober of a round starts the next one. */
  lemma NextRoundBuilds(s: Protocol, j: nat)
    requires Shape(s) && ProbePhase(s) && s.bridge.pending != map[] && Enabled(s, FinishProbe(j))
    ensures Shape(NextRound(s)) && BuildPhase(NextRound(s))
  {
    RestoreBuilders(s);
    RestoreProbers(s, j);
    RestoresDeepest(s);
  }

  lemma FinishRoundKeeps(s: Protocol, j: nat)
    requires Shape(s) && ProbePhase(s) && Enabled(s, FinishProbe(j)) && s.probers[j].pendingIds != {}
    ensures s.bridge.pending != map[] && Shape(Apply(s, FinishProbe(j))) && BuildPhase(Apply(s, FinishProbe(j)))
  {
    assert ProberFits(s, s.probers[j]);
    assert s.bridge.pending != map[];
    NextRoundBuilds(s, j);
  }

  lemma FinishProbeKeeps(s: Protocol, j: nat)
    requires Inv(s) && Enabled(s, FinishProbe(j))
    ensures ChecksHold(s, FinishProbe(j)) && Inv(Apply(s, FinishProbe(j)))
  {
    assert ProbePhase(s);
    if s.probers[j].pendingIds == {} {
      FinishLastRoundKeeps(s, j);
    } else {
      FinishRoundKeeps(s, j);
    }
  }

  /** Every step of every driver passes all its checks and keeps the protocol. */
  lemma StepKeepsProtocol(s: Protocol, step: Step)
    requires Inv(s) && Enabled(s, step)
    ensures ChecksHold(s, step) && Inv(Apply(s, step))
  {
    match step
    case FinishBuild(i, spilled, nulls) =>
      if LastToBuild(s, i) { PublishTableKeeps(s, i, spilled, nulls); } else { ReachBarrierKeeps(s, step); }
    case FinishBuildNullKeys(i) =>
      if LastToBuild(s, i) { PublishNullKeysKeeps(s, i); } else { ReachBarrierKeeps(s, step); }
    case PollBuild(i) => PollBuildKeeps(s, i);
    case PollProbe(j) => PollProbeKeeps(s, j);
    case FinishInput(j) => FinishInputKeeps(s, j);
    case FinishProbe(j) => FinishProbeKeeps(s, j);
  }

  ghost predicate AllDone(s: Protocol) {
    && (forall i :: 0 <= i < |s.builders| ==> s.builders[i].phase == BuildDone)
    && (forall j :: 0 <= j < |s.probers| ==> s.probers[j].phase == ProbeDone)
    && s.bridge.pending == map[]
  }

  /** No deadlock and no lost wake-up: unless everybody is done and nothing is left to restore, some
      driver can take a step. */
  lemma SomeDriverCanStep(s: Protocol)
    requires Inv(s) && !AllDone(s)
    ensures exists step :: Enabled(s, step)
  {
    if BuildPhase(s) {
      var i :| 0 <= i < |s.builders| && s.builders[i].phase != AtBuildBarrier;
      assert Enabled(s, if s.builders[i].phase == Polling then PollBuild(i) else FinishBuild(i, map[], false));
    } else if j :| 0 <= j < |s.probers| && s.probers[j].phase !in {AtProbeBarrier, ProbeDone} {
      assert ProberFits(s, s.probers[j]);
      var phase := s.probers[j].phase;
      var step :=
        if phase == NeedTable then PollProbe(j) else if phase == Probing then FinishInput(j) else FinishProbe(j);
      assert Enabled(s, step);
    } else {
      var k :| 0 <= k < |s.probers| && s.probers[k].phase != AtProbeBarrier;
      assert ProberFits(s, s.probers[k]);
      forall j | 0 <= j < |s.probers|
        ensures s.probers[j].phase == ProbeDone
      {
        assert ProberFits(s, s.probers[j]);
      }
      var i :| 0 <= i < |s.builders| && s.builders[i].phase != BuildDone;
      assert Enabled(s, PollBuild(i));
    }
  }

  // ------------------------------------------------------------------------------------------------
  // Termination
  // ------------------------------------------------------------------------------------------------

  ghost function WeightOf(config: JoinConfig): SpillPartitionId -> nat {
    (id: SpillPartitionId) => if config.Valid() then config.Weight(id.offset) else 0
  }

  /** Partitions of one bit range weigh at most as much as the range has numbers. */
  lemma {:induction false} SumBound(config: JoinConfig, ids: set<SpillPartitionId>, offset: nat, numbers: nat)
    requires config.Valid()
    requires forall id :: id in ids ==> id.offset == offset && id.number < numbers
    ensures Sum(ids, WeightOf(config)) <= numbers * config.Weight(offset)
    decreases numbers
  {
    if numbers == 0 {
      assert ids == {};
    } else {
      var top := SpillPartitionId(offset, numbers - 1);
      SumBound(config, ids - {top}, offset, numbers - 1);
      if top in ids {
        SumRemove(ids, WeightOf(config), top);
      } else {
        assert ids - {top} == ids;
      }
      assert numbers * config.Weight(offset) == (numbers - 1) * config.Weight(offset) + config.Weight(offset);
    }
  }

  /** The largest number of tables that a join can build. */
  ghost function RootWeight(config: JoinConfig): nat
    requires config.Valid()
  {
    1 + config.Fanout() * config.Weight(config.startBit)
  }

  /** An upper bound on the number of tables still to be built. */
  ghost function TablesLeft(s: Protocol): nat
    requires s.config.Valid()
  {
    Sum(s.bridge.pending.Keys, WeightOf(s.config)) +
    if s.bridge.buildResult.Some? then 0
    else if s.bridge.restoringId.Some? then s.config.Weight(s.bridge.restoringId.value.offset)
    else RootWeight(s.config)
  }

  ghost function BuilderRank(probing: bool, b: BuilderState): nat {
    match b.phase
    case Polling => if probing then 6 else 4
    case WaitingForProbe => 5
    case Building => 3
    case AtBuildBarrier => 2
    case BuildDone => 0
  }

  ghost function ProberRank(probing: bool, p: ProberState): nat {
    match p.phase
    case NeedTable => if probing then 6 else 2
    case Probing => 5
    case LastProber => 4
    case AtProbeBarrier => 3
    case WaitingForBuild => 1
    case ProbeDone => 0
  }

  ghost function BuilderRanks(probing: bool, builders: seq<BuilderState>): nat {
    if builders == [] then 0 else BuilderRank(probing, builders[0]) + BuilderRanks(probing, builders[1..])
  }

  ghost function ProberRanks(probing: bool, probers: seq<ProberState>): nat {
    if probers == [] then 0 else ProberRank(probing, probers[0]) + ProberRanks(probing, probers[1..])
  }

  lemma {:induction false} BuilderRanksBound(probing: bool, builders: seq<BuilderState>)
    ensures BuilderRanks(probing, builders) <= 6 * |builders|
  {
    if builders == [] {
    } else {
      BuilderRanksBound(probing, builders[1..]);
    }
  }

  lemma {:induction false} ProberRanksBound(probing: bool, probers: seq<ProberState>)
    ensures ProberRanks(probing, probers) <= 6 * |probers|
  {
    if probers == [] {
    } else {
      ProberRanksBound(probing, probers[1..]);
    }
  }

  lemma {:induction false} BuilderRanksFall(before: bool, bs: seq<BuilderState>, after: bool, cs: seq<BuilderState>)
    requires |bs| == |cs| && forall i :: 0 <= i < |bs| ==> BuilderRank(after, cs[i]) <= BuilderRank(before, bs[i])
    ensures BuilderRanks(after, cs) <= BuilderRanks(before, bs)
    ensures (exists i :: 0 <= i < |bs| && BuilderRank(after, cs[i]) < BuilderRank(before, bs[i])) ==>
              BuilderRanks(after, cs) < BuilderRanks(before, bs)
  {
    if bs == [] {
    } else {
      BuilderRanksFall(before, bs[1..], after, cs[1..]);
      if i :| 0 <= i < |bs| && BuilderRank(after, cs[i]) < BuilderRank(before, bs[i]) {
        if i > 0 {
          assert cs[i] == cs[1..][i - 1] && bs[i] == bs[1..][i - 1];
        }
      }
    }
  }

  lemma {:induction false} ProberRanksFall(before: bool, ps: seq<ProberState>, after: bool, qs: seq<ProberState>)
    requires |ps| == |qs| && forall j :: 0 <= j < |ps| ==> ProberRank(after, qs[j]) <= ProberRank(before, ps[j])
    ensures ProberRanks(after, qs) <= ProberRanks(before, ps)
    ensures (exists j :: 0 <= j < |ps| && ProberRank(after, qs[j]) < ProberRank(before, ps[j])) ==>
              ProberRanks(after, qs) < ProberRanks(before, ps)
  {
    if ps == [] {
    } else {
      ProberRanksFall(before, ps[1..], after, qs[1..]);
      if j :| 0 <= j < |ps| && ProberRank(after, qs[j]) < ProberRank(before, ps[j]) {
        if j > 0 {
          assert qs[j] == qs[1..][j - 1] && ps[j] == ps[1..][j - 1];
        }
      }
    }
  }

  ghost function Ranks(s: Protocol): nat {
    BuilderRanks(s.bridge.buildResult.Some?, s.builders) + ProberRanks(s.bridge.buildResult.Some?, s.probers)
  }

  /** A bound on the number of steps still possible. */
  ghost function StepsLeft(s: Protocol): nat
    requires s.config.Valid()
  {
    Times(TablesLeft(s), 6 * (|s.builders| + |s.probers|) + 1) + Ranks(s)
  }

  /** What a round spills weighs less than the round itself. */
  lemma SpilledWeighsLess(s: Protocol, spilled: SpillPartitionSet)
    requires Shape(s) && BuildPhase(s) && SpilledInRound(s, spilled)
    ensures Sum(s.bridge.pending.Keys + spilled.Keys, WeightOf(s.config)) + 1 <= TablesLeft(s)
  {
    SpillIdsFresh(s, spilled);
    SumUnion(s.bridge.pending.Keys, spilled.Keys, WeightOf(s.config));
    SumBound(s.config, spilled.Keys, RoundOffset(s), s.config.Fanout());
  }

  lemma PublishFalls(s: Protocol, step: Step)
    requires Inv(s) && Enabled(s, step) && (step.FinishBuild? || step.FinishBuildNullKeys?)
    requires LastToBuild(s, step.builder)
    ensures TablesLeft(Apply(s, step)) + 1 <= TablesLeft(s)
  {
    assert BuildPhase(s);
    if step.FinishBuild? {
      SpilledWeighsLess(s, step.spilled);
      assert Apply(s, step).bridge.pending.Keys == s.bridge.pending.Keys + step.spilled.Keys;
    }
  }

  /** A step publishes a table, and then fewer tables are left; or it does not, and then some driver
      moves on while none moves back. */
  lemma StepFalls(s: Protocol, step: Step)
    requires Inv(s) && Enabled(s, step)
    ensures var t := Apply(s, step);
            t.config == s.config && |t.builders| == |s.builders| && |t.probers| == |s.probers|
    ensures var t := Apply(s, step);
            || (t.tables == s.tables + 1 && TablesLeft(t) + 1 <= TablesLeft(s))
            || (t.tables == s.tables && TablesLeft(t) == TablesLeft(s) && Ranks(t) < Ranks(s))
  {
    if (step.FinishBuild? || step.FinishBuildNullKeys?) && LastToBuild(s, step.builder) {
      PublishFalls(s, step);
    } else {
      OtherStepFalls(s, step);
    }
  }

  lemma RanksFall(s: Protocol, t: Protocol)
    requires |t.builders| == |s.builders| && |t.probers| == |s.probers|
    requires var before, after := s.bridge.buildResult.Some?, t.bridge.buildResult.Some?;
             && (forall i :: 0 <= i < |s.builders| ==>
                   BuilderRank(after, t.builders[i]) <= BuilderRank(before, s.builders[i]))
             && (forall j :: 0 <= j < |s.probers| ==>
                   ProberRank(after, t.probers[j]) <= ProberRank(before, s.probers[j]))
             && ((exists i :: 0 <= i < |s.builders| &&
                    BuilderRank(after, t.builders[i]) < BuilderRank(before, s.builders[i])) ||
                 (exists j :: 0 <= j < |s.probers| &&
                    ProberRank(after, t.probers[j]) < ProberRank(before, s.probers[j])))
    ensures Ranks(t) < Ranks(s)
  {
    var before, after := s.bridge.buildResult.Some?, t.bridge.buildResult.Some?;
    BuilderRanksFall(before, s.builders, after, t.builders);
    ProberRanksFall(before, s.probers, after, t.probers);
  }

  lemma OtherStepFalls(s: Protocol, step: Step)
    requires Inv(s) && Enabled(s, step)
    requires (step.FinishBuild? || step.FinishBuildNullKeys?) ==> !LastToBuild(s, step.builder)
    ensures var t := Apply(s, step);
            t.tables == s.tables && TablesLeft(t) == TablesLeft(s) && Ranks(t) < Ranks(s)
  {
    TablesStay(s, step);
    BuildersMoveOn(s, step);
    ProbersMoveOn(s, step);
    RanksFall(s, Apply(s, step));
  }

  lemma RestoringMovesWeight(s: Protocol, id: SpillPartitionId)
    requires s.config.Valid() && s.bridge.buildResult.Some? && id in s.bridge.pending
    ensures TablesLeft(s.(bridge := Restore(s.bridge, id))) == TablesLeft(s)
  {
    SumRemove(s.bridge.pending.Keys, WeightOf(s.config), id);
    assert Restore(s.bridge, id).pending.Keys == s.bridge.pending.Keys - {id};
  }

  /** Only publishing uses up weight; choosing a partition to restore moves its weight. */
  lemma TablesStay(s: Protocol, step: Step)
    requires Inv(s) && Enabled(s, step)
    requires (step.FinishBuild? || step.FinishBuildNullKeys?) ==> !LastToBuild(s, step.builder)
    ensures TablesLeft(Apply(s, step)) == TablesLeft(s)
  {
    if step.FinishProbe? && s.bridge.pending != map[] {
      assert ProbePhase(s) && ProberFits(s, s.probers[step.prober]);
      assert s.bridge.pending.Keys != {};
      RestoringMovesWeight(s, First(s.bridge.pending.Keys));
    }
  }

  lemma BuildersMoveOn(s: Protocol, step: Step)
    requires Inv(s) && Enabled(s, step)
    requires (step.FinishBuild? || step.FinishBuildNullKeys?) ==> !LastToBuild(s, step.builder)
    ensures var t := Apply(s, step);
            var before, after := s.bridge.buildResult.Some?, t.bridge.buildResult.Some?;
            && |t.builders| == |s.builders|
            && (forall i :: 0 <= i < |s.builders| ==>
               BuilderRank(after, t.builders[i]) <= BuilderRank(before, s.builders[i]))
            && (step.FinishBuild? || step.FinishBuildNullKeys? || step.PollBuild? ==>
                  BuilderRank(after, t.builders[step.builder]) < BuilderRank(before, s.builders[step.builder]))
  {
  }

  lemma ProberMovesOn(s: Protocol, step: Step, j: nat)
    requires Inv(s) && Enabled(s, step) && j < |s.probers|
    requires (step.FinishBuild? || step.FinishBuildNullKeys?) ==> !LastToBuild(s, step.builder)
    ensures var t := Apply(s, step);
            var before, after := s.bridge.buildResult.Some?, t.bridge.buildResult.Some?;
            && |t.probers| == |s.probers|
            && ProberRank(after, t.probers[j]) <= ProberRank(before, s.probers[j])
            && ((step.PollProbe? || step.FinishInput? || step.FinishProbe?) && step.prober == j ==>
                  ProberRank(after, t.probers[j]) < ProberRank(before, s.probers[j]))
  {
    if step.FinishProbe? {
      assert ProbePhase(s) && LastToProbe(s, step.prober);
      assert ProberFits(s, s.probers[j]) && ProberFits(s, s.probers[step.prober]);
    }
  }

  lemma ProbersMoveOn(s: Protocol, step: Step)
    requires Inv(s) && Enabled(s, step)
    requires (step.FinishBuild? || step.FinishBuildNullKeys?) ==> !LastToBuild(s, step.builder)
    ensures var t := Apply(s, step);
            var before, after := s.bridge.buildResult.Some?, t.bridge.buildResult.Some?;
            && |t.probers| == |s.probers|
            && (forall j :: 0 <= j < |s.probers| ==>
                  ProberRank(after, t.probers[j]) <= ProberRank(before, s.probers[j]))
            && (step.PollProbe? || step.FinishInput? || step.FinishProbe? ==>
                  ProberRank(after, t.probers[step.prober]) < ProberRank(before, s.probers[step.prober]))
  {
    var t := Apply(s, step);
    ProberMovesOn(s, step, if step.PollProbe? || step.FinishInput? || step.FinishProbe? then step.prober else 0);
    forall j | 0 <= j < |s.probers|
      ensures ProberRank(t.bridge.buildResult.Some?, t.probers[j])
           <= ProberRank(s.bridge.buildResult.Some?, s.probers[j])
    {
      ProberMovesOn(s, step, j);
    }
  }

  lemma LexicographicFall(w: nat, w': nat, k: nat, r: nat, r': nat)
    requires w' + 1 <= w && r' < k
    ensures w' * k + r' < w * k + r
  {
    var d := w - w' - 1;
    assert w * k == w' * k + k + d * k;
  }

  lemma MeasureStep(s: Protocol, t: Protocol)
    requires s.config.Valid() && t.config == s.config && |t.builders| == |s.builders| && |t.probers| == |s.probers|
    requires TablesLeft(t) + 1 <= TablesLeft(s) || (TablesLeft(t) == TablesLeft(s) && Ranks(t) < Ranks(s))
    ensures StepsLeft(t) < StepsLeft(s)
  {
    BuilderRanksBound(t.bridge.buildResult.Some?, t.builders);
    ProberRanksBound(t.bridge.buildResult.Some?, t.probers);
    MeasureFalls(TablesLeft(s), TablesLeft(t), 6 * (|s.builders| + |s.probers|) + 1, Ranks(s), Ranks(t));
  }

  lemma StepsLeftFalls(s: Protocol, step: Step)
    requires Inv(s) && Enabled(s, step)
    ensures StepsLeft(Apply(s, step)) < StepsLeft(s)
  {
    StepFalls(s, step);
    MeasureStep(s, Apply(s, step));
  }

  lemma MeasureFalls(w: nat, w': nat, k: nat, r: nat, r': nat)
    requires r' < k && (w' + 1 <= w || (w' == w && r' < r))
    ensures Times(w', k) + r' < Times(w, k) + r
  {
    TimesIsProduct(w, k);
    TimesIsProduct(w', k);
    if w' + 1 <= w {
      LexicographicFall(w, w', k, r, r');
    }
  }

  // ------------------------------------------------------------------------------------------------
  // Whole runs
  // ------------------------------------------------------------------------------------------------

  ghost predicate StepAt(states: seq<Protocol>, steps: seq<Step>, k: nat) {
    && k < |steps| && k + 1 < |states| && states[k].config.Valid()
    && Enabled(states[k], steps[k]) && states[k + 1] == Apply(states[k], steps[k])
  }

  ghost predicate IsRun(states: seq<Protocol>, steps: seq<Step>) {
    && |states| == |steps| + 1 && IsInit(states[0])
    && forall k: nat :: k < |steps| ==> StepAt(states, steps, k)
  }

  /** One step, and everything that a run needs of it. */
  lemma StepIsGood(s: Protocol, step: Step)
    requires Inv(s) && Enabled(s, step)
    ensures var t := Apply(s, step);
            && Inv(t) && t.config == s.config && StepsLeft(t) < StepsLeft(s)
            && t.tables + TablesLeft(t) <= s.tables + TablesLeft(s)
  {
    StepKeepsProtocol(s, step);
    StepFalls(s, step);
    StepsLeftFalls(s, step);
  }

  lemma {:induction false} PrefixIsGood(states: seq<Protocol>, steps: seq<Step>, n: nat)
    requires IsRun(states, steps) && n <= |steps|
    ensures Inv(states[n]) && states[n].config == states[0].config
    ensures states[n].tables + TablesLeft(states[n]) <= RootWeight(states[0].config)
    ensures n + StepsLeft(states[n]) <= StepsLeft(states[0])
  {
    if n == 0 {
      InitInv(states[0]);
      assert states[0].bridge.pending.Keys == {};
    } else {
      PrefixIsGood(states, steps, n - 1);
      assert StepAt(states, steps, n - 1);
      StepIsGood(states[n - 1], steps[n - 1]);
    }
  }

  /** No driver can do anything any more. */
  ghost predicate AtRest(s: Protocol) {
    s.config.Valid() && forall step :: !Enabled(s, step)
  }

  lemma RunPassesChecks(states: seq<Protocol>, steps: seq<Step>, k: nat)
    requires IsRun(states, steps) && k < |steps|
    ensures StepAt(states, steps, k) && ChecksHold(states[k], steps[k])
  {
    PrefixIsGood(states, steps, k);
    assert StepAt(states, steps, k);
    StepKeepsProtocol(states[k], steps[k]);
  }

  lemma AtRestIsDone(s: Protocol)
    requires Inv(s) && AtRest(s)
    ensures AllDone(s)
  {
    if !AllDone(s) {
      SomeDriverCanStep(s);
    }
  }

  /** Every run of any number of builders and probers, whatever is spilled when, keeps the protocol,
      passes every check, builds no more tables than the level limit allows and cannot go on forever.
      Where no step is possible any more, everybody is done and no spilled partition is left. */
  lemma EveryRunIsGood(states: seq<Protocol>, steps: seq<Step>)
    requires IsRun(states, steps)
    ensures forall k :: 0 <= k < |states| ==> Inv(states[k]) && states[k].tables <= RootWeight(states[0].config)
    ensures forall k: nat :: k < |steps| ==> StepAt(states, steps, k) && ChecksHold(states[k], steps[k])
    ensures |steps| <= StepsLeft(states[0])
    ensures AtRest(states[|steps|]) ==> AllDone(states[|steps|])
  {
    forall k | 0 <= k < |states|
      ensures Inv(states[k]) && states[k].tables <= RootWeight(states[0].config) && k <= StepsLeft(states[0])
    {
      PrefixIsGood(states, steps, k);
    }
    forall k: nat | k < |steps|
      ensures StepAt(states, steps, k) && ChecksHold(states[k], steps[k])
    {
      RunPassesChecks(states, steps, k);
    }
    if AtRest(states[|steps|]) {
      AtRestIsDone(states[|steps|]);
    }
  }

  // ------------------------------------------------------------------------------------------------
  // What a prober is given
  // ------------------------------------------------------------------------------------------------

  /** The step is that of the last builder of a round. */
  ghost predicate Publishes(s: Protocol, step: Step) {
    (step.FinishBuild? || step.FinishBuildNullKeys?) && LastToBuild(s, step.builder)
  }

  /** What the last builder of a round publishes in state `s`. */
  ghost predicate IsPublished(s: Protocol, step: Step, result: HashBuildResult<nat>) {
    match step
    case FinishBuild(_, spilled, nulls) =>
      && (result.hasNullKeys <==> nulls) && result.table == Some(s.tables)
      && result.restoredPartitionId == s.bridge.restoringId && result.spillPartitionIds == spilled.Keys
    case FinishBuildNullKeys(_) =>
      result.hasNullKeys && result.table == None && result.restoredPartitionId == None && result.spillPartitionIds == {}
    case PollBuild(_) => false
    case PollProbe(_) => false
    case FinishInput(_) => false
    case FinishProbe(_) => false
  }

  lemma StepPublishes(s: Protocol, step: Step)
    requires s.config.Valid() && Enabled(s, step)
    ensures Publishes(s, step) ==>
              var result := Apply(s, step).bridge.buildResult;
              result.Some? && IsPublished(s, step, result.value)
    ensures !Publishes(s, step) && Apply(s, step).bridge.buildResult.Some? ==>
              Apply(s, step).bridge.buildResult == s.bridge.buildResult
  {
  }

  /** Step `k` is the last before moment `n` that publishes. */
  ghost predicate LastPublished(states: seq<Protocol>, steps: seq<Step>, k: nat, n: nat) {
    && k < n <= |steps| && n < |states| && Publishes(states[k], steps[k])
    && forall m: nat :: k < m < n ==> !Publishes(states[m], steps[m])
  }

  /** Over every run, the table that is out is the one that was published last, with everything that was
      published with it: its number, the spilled partitions, and whether the build side has null keys. */
  lemma {:induction false} TableIsLastPublished(states: seq<Protocol>, steps: seq<Step>, n: nat) returns (k: nat)
    requires IsRun(states, steps) && n <= |steps| && states[n].bridge.buildResult.Some?
    ensures LastPublished(states, steps, k, n) && IsPublished(states[k], steps[k], states[n].bridge.buildResult.value)
  {
    assert n > 0;
    assert StepAt(states, steps, n - 1);
    StepPublishes(states[n - 1], steps[n - 1]);
    if Publishes(states[n - 1], steps[n - 1]) {
      k := n - 1;
    } else {
      k := TableIsLastPublished(states, steps, n - 1);
    }
  }

  /** So a prober that takes a table sees the flag of the builder that published it. */
  lemma ProberSeesFlag(states: seq<Protocol>, steps: seq<Step>, n: nat) returns (k: nat)
    requires IsRun(states, steps) && n < |steps| && steps[n].PollProbe? && states[n].bridge.buildResult.Some?
    ensures LastPublished(states, steps, k, n)
    ensures steps[k].FinishBuild? ==>
              (states[n].bridge.buildResult.value.hasNullKeys <==> steps[k].hasNullKeys)
    ensures states[n].bridge.buildResult.value.table.None? <==> steps[k].FinishBuildNullKeys?
  {
    k := TableIsLastPublished(states, steps, n);
  }

  // ------------------------------------------------------------------------------------------------
  // The bound as a geometric sum
  // ------------------------------------------------------------------------------------------------

  /** `1 + n + ... + n^levels`. */
  function Geometric(n: nat, levels: nat): nat {
    if levels == 0 then 1 else 1 + n * Geometric(n, levels - 1)
  }

  /** The deepest level at which a partition can be made. */
  function MaxDepth(config: JoinConfig): nat
    requires config.Valid()
  {
    if config.maxSpillLevel == -1 then config.SpillLevel(64)
    else if config.maxSpillLevel < 0 then 0 else config.maxSpillLevel
  }

  lemma {:induction false} SpillLevelMonotone(config: JoinConfig, a: nat, b: nat)
    requires config.Valid() && a <= b
    ensures config.SpillLevel(a) <= config.SpillLevel(b)
    decreases a
  {
    if a >= config.startBit + config.numBits {
      SpillLevelMonotone(config, a - config.numBits, b - config.numBits);
    }
  }

  lemma {:induction false} MulMonotone(n: nat, a: nat, b: nat)
    requires a <= b
    ensures n * a <= n * b
  {
    if n == 0 {
    } else {
      MulMonotone(n - 1, a, b);
      assert n * a == (n - 1) * a + a && n * b == (n - 1) * b + b;
    }
  }

  lemma {:induction false} WeightBound(config: JoinConfig, offset: nat)
    requires config.Valid() && offset >= config.startBit && config.SpillLevel(offset) <= MaxDepth(config)
    ensures config.Weight(offset) <= Geometric(config.Fanout(), MaxDepth(config) - config.SpillLevel(offset))
    decreases if offset <= 64 then 64 - offset else 0
  {
    if config.MaySpillAgain(offset) {
      var next := offset + config.numBits;
      assert config.SpillLevel(next) == config.SpillLevel(offset) + 1;
      SpillLevelMonotone(config, next, 64);
      WeightBound(config, next);
      MulMonotone(config.Fanout(), config.Weight(next),
        Geometric(config.Fanout(), MaxDepth(config) - config.SpillLevel(next)));
    }
  }

  /** A join of fanout `n` and depth `d` builds at most `1 + n + ... + n^(d + 1)` tables. */
  lemma TablesBound(config: JoinConfig)
    requires config.Valid()
    ensures RootWeight(config) <= Geometric(config.Fanout(), MaxDepth(config) + 1)
  {
    WeightBound(config, config.startBit);
    MulMonotone(config.Fanout(), config.Weight(config.startBit), Geometric(config.Fanout(), MaxDepth(config)));
  }

  // ------------------------------------------------------------------------------------------------
  // Why the order matters
  // ------------------------------------------------------------------------------------------------

  lemma FirstOfTwo(a: SpillPartitionId, b: SpillPartitionId)
    requires Before(a, b)
    ensures First({a, b}) == a
  {
    assert IsFirst(First({a, b}), {a, b});
  }

  /** If a pending partition other than the deepest were restored, an id could be spilled twice. Here two
      partitions of one level are pending; restoring the first spills a partition of the next level.
      Restoring the other one before that partition spills it again, and the check fails. */
  lemma ArbitraryOrderClashes(
      a0: SpillPartitionId, a1: SpillPartitionId, b0: SpillPartitionId,
      first: SpillPartitionSet, second: SpillPartitionSet)
    requires a0.offset == a1.offset < b0.offset && a0.number < a1.number
    requires first.Keys == {a0, a1} && second.Keys == {b0}
    ensures var s0: BridgeState<nat> := BridgeState(true, 1, None, None, [], map[], []);
            var s1 := WithTable(s0, 0, first, false);
            && CanSetHashTable(s0, first) && s1.pending.Keys == {a0, a1} && a0 == First(s1.pending.Keys)
            && var s2 := Restore(s1, a0).(restoringShards := []);
               var s3 := WithTable(s2, 1, second, false);
               && CanSetHashTable(s2, second) && s3.pending.Keys == {a1, b0} && b0 == First(s3.pending.Keys)
               && !CanSetHashTable(Restore(s3, a1).(restoringShards := []), second)
  {
    FirstOfTwo(a0, a1);
    FirstOfTwo(b0, a1);
    assert {a1, b0} == {b0, a1};
  }
}
