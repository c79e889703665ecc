/** The rows behind the join protocol: spilling at any time and at any depth does not change the join. */
module SpillJoins {
  import opened Options
  import opened Sums
  import opened SpillPartitions
  import opened JoinBridges
  import opened JoinProtocols
  import opened JoinSpecs
  import opened JoinCuts
  import opened BuildSpills
  import opened HashProbes

  type SpilledRowsOf = map<SpillPartitionId, multiset<Row>>

  /** The rows held by the parties.
      `buildInput`: what the builders read in this round; `table`: the published table, and `flags` its
      probed flags; `builtSpilled`: the build rows of each pending partition; `probeInput`: what each
      prober has left to read in this round; `probeSpilled`: the probe rows of each prober's pending
      partitions; `noInput`: the probers that have had no row so far; `out`: everything emitted. `probed`
      records the probe rows that met the table and decides nothing. */
  datatype JoinData = JoinData(
    buildInput: multiset<Row>,
    table: seq<Row>,
    flags: seq<bool>,
    builtSpilled: SpilledRowsOf,
    probeInput: seq<multiset<Row>>,
    probeSpilled: seq<SpilledRowsOf>,
    noInput: seq<bool>,
    probed: multiset<Row>,
    out: multiset<OutRow>)

  // ------------------------------------------------------------------------------------------------
  // The steps on rows
  // ------------------------------------------------------------------------------------------------

  ghost predicate InitData(s: Protocol, d: JoinData, left: multiset<Row>, right: multiset<Row>) {
    && Sized(s, d)
    && d.buildInput == right
    && SumRows(d.probeInput) == left
    && (forall j :: 0 <= j < |d.probeSpilled| ==> d.probeSpilled[j] == map[] && d.noInput[j])
    && d.table == [] && d.builtSpilled == map[] && d.probed == multiset{} && d.out == multiset{}
  }

  ghost predicate Sized(s: Protocol, d: JoinData) {
    && |d.probeInput| == |s.probers| && |d.probeSpilled| == |s.probers| && |d.noInput| == |s.probers|
    && |d.flags| == |d.table|
  }

  /** The last builder publishes what a run of the group of builders over the rows of the round has left:
      the table is made of the stored rows, and the spilled partitions are the files of all builders. */
  ghost predicate RoundBuilt(
    g: Setting, s: Protocol, d: JoinData, spilled: SpillPartitionSet,
    groups: seq<BuildGroup>, groupSteps: seq<GroupStep>, d': JoinData)
  {
    && BuildsRound(g, RoundOffset(s), d.buildInput, NumbersOf(spilled.Keys), groups, groupSteps)
    && |groups[0].ops| == |s.builders|
    && var ops := groups[|groupSteps|].ops;
       && IsTable(g.jt, AllTables(ops), d'.table)
       && d' == d.(buildInput := multiset{},
                   table := d'.table,
                   flags := NoFlags(d'.table),
                   builtSpilled := d.builtSpilled + BuiltFiles(ops, spilled.Keys))
  }

  /** The files of all builders, by partition. */
  ghost function BuiltFiles(ops: seq<Op>, ids: set<SpillPartitionId>): SpilledRowsOf {
    map id | id in ids :: AllFiles(ops, id.number)
  }

  /** The files of a prober that has read `input`, by partition. */
  ghost function ProbeFiles(r: Round, input: seq<Row>, ids: set<SpillPartitionId>): SpilledRowsOf {
    map id | id in ids :: multiset(Picked(input, WithNumber(r, id.number), |input|))
  }

  /** The rows of each partition. */
  ghost function Parts(g: Setting, rows: multiset<Row>, ids: set<SpillPartitionId>): SpilledRowsOf {
    map id | id in ids :: Part(g, rows, id)
  }

  /** `begin()` of the ids that a prober spills gives the bit range of its spiller. */
  ghost function SpillOffset(ids: set<SpillPartitionId>): nat {
    if ids == {} then 0 else First(ids).offset
  }

  /** A prober reads its rows: it spills the rows of spilled partitions and probes the table with the rest.
      Where there is nothing to probe and nothing to spill it does not read. */
  ghost function AfterInput(g: Setting, d: JoinData, j: nat, ids: set<SpillPartitionId>, input: seq<Row>): JoinData
    requires j < |d.probeInput| == |d.probeSpilled| == |d.noInput| && |d.flags| == |d.table|
  {
    var r := RoundAt(g, SpillOffset(ids));
    var rest := Picked(input, InMemory(r, NumbersOf(ids)), |input|);
    var unread := input == [] || (|d.table| == 0 && SkipsOnEmptyBuild(g.jt) && ids == {});
    d.(probeInput := d.probeInput[j := multiset{}],
       probeSpilled := d.probeSpilled[j := d.probeSpilled[j] + ProbeFiles(r, input, ids)],
       flags := FlagAll(g.jt, d.table, d.flags, rest, |rest|),
       noInput := d.noInput[j := d.noInput[j] && unread],
       probed := d.probed + multiset(rest),
       out := d.out + multiset(ProbeOutput(g.jt, d.table, rest)))
  }

  /** It reads them in some order. */
  ghost predicate InputProbed(
    g: Setting, d: JoinData, j: nat, ids: set<SpillPartitionId>, input: seq<Row>, d': JoinData)
    requires j < |d.probeInput| == |d.probeSpilled| == |d.noInput| && |d.flags| == |d.table|
  {
    multiset(input) == d.probeInput[j] && d' == AfterInput(g, d, j, ids, input)
  }

  /** The last prober emits the build rows by the flags that it reports. */
  ghost function AfterProbe(g: Setting, d: JoinData, j: nat): JoinData
    requires j < |d.noInput| && |d.flags| == |d.table|
  {
    var flags := Reported(g.jt, d.table, d.flags, d.noInput[j]);
    d.(table := [], flags := [], probed := multiset{}, out := d.out + multiset(BuildOutput(g.jt, d.table, flags)))
  }

  /** What a step of the protocol does to the rows. */
  ghost predicate DataStep(g: Setting, s: Protocol, d: JoinData, step: Step, d': JoinData)
    requires s.config.Valid() && Enabled(s, step) && Sized(s, d)
  {
    match step
    case FinishBuild(i, spilled, _) =>
      if !LastToBuild(s, i) then d' == d
      else exists groups, groupSteps :: RoundBuilt(g, s, d, spilled, groups, groupSteps, d')
    case FinishBuildNullKeys(i) => d' == d
    case PollBuild(i) => d' == d
    case PollProbe(j) =>
      if s.bridge.buildResult.Some? && s.bridge.buildResult.value.restoredPartitionId.Some? then
        var id := s.bridge.buildResult.value.restoredPartitionId.value;
        d' == d.(probeInput := d.probeInput[j := d.probeInput[j] + Spilled(d.probeSpilled[j], id)],
                 probeSpilled := d.probeSpilled[j := d.probeSpilled[j] - {id}])
      else d' == d
    case FinishInput(j) => exists input :: InputProbed(g, d, j, s.probers[j].inputIds, input, d')
    case FinishProbe(j) =>
      if s.probers[j].pendingIds == {} || s.bridge.pending == map[] then d' == AfterProbe(g, d, j)
      else
        assert s.bridge.pending.Keys != {};
        var id := First(s.bridge.pending.Keys);
        d' == AfterProbe(g, d, j).(buildInput := Spilled(d.builtSpilled, id), builtSpilled := d.builtSpilled - {id})
  }

  ghost function Spilled(m: SpilledRowsOf, id: SpillPartitionId): multiset<Row> {
    if id in m then m[id] else multiset{}
  }

  ghost function SumRows(xs: seq<multiset<Row>>): multiset<Row> {
    if xs == [] then multiset{} else xs[0] + SumRows(xs[1..])
  }

  /** The rows of one partition over all probers. */
  ghost function SpilledRows(ms: seq<SpilledRowsOf>, id: SpillPartitionId): multiset<Row> {
    if ms == [] then multiset{} else Spilled(ms[0], id) + SpilledRows(ms[1..], id)
  }

  lemma AddBoth(a: multiset<Row>, b: multiset<Row>, c: multiset<Row>, d: multiset<Row>, e: multiset<Row>)
    requires b + c == d + e
    ensures (a + b) + c == (a + d) + e
  {
    assert (a + b) + c == a + (b + c);
    assert (a + d) + e == a + (d + e);
  }

  lemma {:induction false} SumRowsUpdate(xs: seq<multiset<Row>>, j: nat, x: multiset<Row>)
    requires j < |xs|
    ensures SumRows(xs[j := x]) + xs[j] == SumRows(xs) + x
  {
    if j == 0 {
      assert xs[j := x][1..] == xs[1..];
    } else {
      SumRowsUpdate(xs[1..], j - 1, x);
      assert xs[j := x][1..] == xs[1..][j - 1 := x];
      AddBoth(xs[0], SumRows(xs[1..][j - 1 := x]), xs[j], SumRows(xs[1..]), x);
    }
  }

  lemma {:induction false} SpilledRowsUpdate(
      ms: seq<SpilledRowsOf>, j: nat, m: SpilledRowsOf, id: SpillPartitionId)
    requires j < |ms|
    ensures SpilledRows(ms[j := m], id) + Spilled(ms[j], id) == SpilledRows(ms, id) + Spilled(m, id)
  {
    if j == 0 {
      assert ms[j := m][1..] == ms[1..];
    } else {
      SpilledRowsUpdate(ms[1..], j - 1, m, id);
      assert ms[j := m][1..] == ms[1..][j - 1 := m];
      AddBoth(Spilled(ms[0], id), SpilledRows(ms[1..][j - 1 := m], id), Spilled(ms[j], id),
              SpilledRows(ms[1..], id), Spilled(m, id));
    }
  }

  lemma {:induction false} SumRowsEmpty(xs: seq<multiset<Row>>)
    requires forall j :: 0 <= j < |xs| ==> xs[j] == multiset{}
    ensures SumRows(xs) == multiset{}
  {
    if xs == [] {
    } else {
      SumRowsEmpty(xs[1..]);
    }
  }

  lemma {:induction false} SpilledRowsEmpty(ms: seq<SpilledRowsOf>, id: SpillPartitionId)
    requires forall j :: 0 <= j < |ms| ==> id !in ms[j]
    ensures SpilledRows(ms, id) == multiset{}
  {
    if ms == [] {
    } else {
      SpilledRowsEmpty(ms[1..], id);
    }
  }

  // ------------------------------------------------------------------------------------------------
  // Conservation
  // ------------------------------------------------------------------------------------------------

  ghost function CurrentId(s: Protocol): Option<SpillPartitionId> {
    if s.bridge.buildResult.Some? then s.bridge.buildResult.value.restoredPartitionId else s.bridge.restoringId
  }

  ghost function CurrentSpill(s: Protocol): set<SpillPartitionId> {
    if s.bridge.buildResult.Some? then s.bridge.buildResult.value.spillPartitionIds else {}
  }

  /** The probe rows still to be read in this round, by all probers. */
  ghost function LeftToProbe(s: Protocol, d: JoinData): multiset<Row> {
    var id := CurrentId(s);
    SumRows(d.probeInput) + if id.Some? then SpilledRows(d.probeSpilled, id.value) else multiset{}
  }

  /** All probe rows of a pending partition: those spilled, and those that will be. */
  ghost function ProbeRowsOf(g: Setting, s: Protocol, d: JoinData, id: SpillPartitionId): multiset<Row> {
    SpilledRows(d.probeSpilled, id) + if id in CurrentSpill(s) then Part(g, LeftToProbe(s, d), id) else multiset{}
  }

  ghost function PendingJoin(g: Setting, s: Protocol, d: JoinData, o: OutRow): SpillPartitionId -> nat {
    (id: SpillPartitionId) => JoinCount(g.jt, ProbeRowsOf(g, s, d, id), Spilled(d.builtSpilled, id), o)
  }

  /** What is still to come from the current round. */
  ghost function RoundJoin(g: Setting, s: Protocol, d: JoinData, o: OutRow): nat {
    if s.bridge.buildResult.None? then
      JoinCount(g.jt, LeftToProbe(s, d), d.buildInput, o)
    else
      var kept := Keep(g, LeftToProbe(s, d), CurrentSpill(s));
      ProbePart(g.jt, kept, multiset(d.table), o) + BuildPart(g.jt, d.probed + kept, multiset(d.table), o)
  }

  /** How often `o` has been emitted or is still owed. */
  ghost function Worth(g: Setting, s: Protocol, d: JoinData, o: OutRow): nat {
    d.out[o] + RoundJoin(g, s, d, o) + Sum(s.bridge.pending.Keys, PendingJoin(g, s, d, o))
  }

  ghost predicate DataFits(g: Setting, s: Protocol, d: JoinData) {
    Inv(s) && RowsFit(g, s, d)
  }

  ghost predicate RowsFit(g: Setting, s: Protocol, d: JoinData) {
    && Sized(s, d) && SettingFits(g, s) && TableFits(g, d)
    && d.builtSpilled.Keys == s.bridge.pending.Keys
    && ProbersFit(s, d) && TableGone(g, s, d)
  }

  ghost predicate SettingFits(g: Setting, s: Protocol) {
    g.numBits == s.config.numBits && s.config.needLastProbe == NeedLastProbe(g.jt) && !s.config.nullAware
  }

  /** The flags are those of the rows that have probed the table. */
  ghost predicate TableFits(g: Setting, d: JoinData) {
    FlagsAre(g.jt, d.table, d.flags, d.probed) && (DropsDuplicates(g.jt) ==> DistinctKeys(d.table))
  }

  ghost predicate InputOver(p: ProberState) {
    p.phase.AtProbeBarrier? || p.phase.LastProber? || p.phase.ProbeDone?
  }

  ghost predicate ProberFitsRows(p: ProberState, input: multiset<Row>, spilled: SpilledRowsOf) {
    spilled.Keys == p.pendingIds && (InputOver(p) ==> input == multiset{})
  }

  /** Every prober has rows of exactly its pending partitions, and none to read once it is through. */
  ghost predicate ProbersFit(s: Protocol, d: JoinData)
    requires Sized(s, d)
  {
    forall j :: 0 <= j < |s.probers| ==> ProberFitsRows(s.probers[j], d.probeInput[j], d.probeSpilled[j])
  }

  ghost predicate AllProbersDone(s: Protocol) {
    forall j :: 0 <= j < |s.probers| ==> s.probers[j].phase == ProbeDone
  }

  /** There is no table between rounds, and none after the last prober has emitted its rows. */
  ghost predicate TableGone(g: Setting, s: Protocol, d: JoinData) {
    s.bridge.buildResult.None? || (NeedLastProbe(g.jt) && AllProbersDone(s)) ==> d.table == [] && d.probed == multiset{}
  }

  lemma InitWorth(g: Setting, s: Protocol, d: JoinData, left: multiset<Row>, right: multiset<Row>, o: OutRow)
    requires IsInit(s) && InitData(s, d, left, right)
    ensures Worth(g, s, d, o) == JoinCount(g.jt, left, right, o)
  {
    assert s.bridge.pending.Keys == {};
    assert LeftToProbe(s, d) == left;
  }

  // Publishing a table.

  /** The ids spilled in a round are new to the builders and to every prober. */
  lemma PublishFacts(g: Setting, s: Protocol, d: JoinData, i: nat, spilled: SpillPartitionSet, nulls: bool)
    requires DataFits(g, s, d) && Enabled(s, FinishBuild(i, spilled, nulls)) && LastToBuild(s, i)
    ensures s.bridge.buildResult.None? && d.probed == multiset{}
    ensures spilled.Keys !! s.bridge.pending.Keys
    ensures SameOffset(spilled.Keys)
    ensures forall j, id :: 0 <= j < |d.probeSpilled| && id in spilled.Keys ==> id !in d.probeSpilled[j]
  {
    assert BuildPhase(s);
    SpillIdsFresh(s, spilled);
    forall j, id | 0 <= j < |s.probers| && id in spilled
      ensures id !in d.probeSpilled[j]
    {
      assert ProberFitsRows(s.probers[j], d.probeInput[j], d.probeSpilled[j]);
      assert s.probers[j].pendingIds == s.bridge.pending.Keys + RestoringIds(s);
    }
  }

  /** What publishing does to the rows, in terms of the rows that the builders keep and spill. */
  ghost predicate TablePublished(g: Setting, d: JoinData, ids: set<SpillPartitionId>, d': JoinData) {
    var active := ActiveRows(g.jt, d.buildInput);
    && IsTable(g.jt, Keep(g, active, ids), d'.table)
    && d' == d.(buildInput := multiset{}, table := d'.table, flags := NoFlags(d'.table),
                builtSpilled := d.builtSpilled + Parts(g, active, ids))
  }

  lemma BuiltFilesAreParts(
      g: Setting, offset: nat, rows: multiset<Row>, ids: set<SpillPartitionId>, ops: seq<Op>)
    requires forall id :: id in ids ==> id.offset == offset
    requires forall n :: n in NumbersOf(ids) ==> AllFiles(ops, n) == Part(g, rows, SpillPartitionId(offset, n))
    ensures BuiltFiles(ops, ids) == Parts(g, rows, ids)
  {
    forall id | id in ids
      ensures BuiltFiles(ops, ids)[id] == Parts(g, rows, ids)[id]
    {
      assert id.number in NumbersOf(ids) && id == SpillPartitionId(offset, id.number);
    }
  }

  /** The group of builders has kept and spilled exactly the rows that the partitions say. */
  lemma RoundBuiltPublishes(
      g: Setting, s: Protocol, d: JoinData, spilled: SpillPartitionSet,
      groups: seq<BuildGroup>, groupSteps: seq<GroupStep>, d': JoinData)
    requires s.config.Valid() && SpilledInRound(s, spilled)
    requires RoundBuilt(g, s, d, spilled, groups, groupSteps, d')
    ensures TablePublished(g, d, spilled.Keys, d')
  {
    var offset, active, ops := RoundOffset(s), ActiveRows(g.jt, d.buildInput), groups[|groupSteps|].ops;
    GroupBuildsTheRound(g, offset, d.buildInput, NumbersOf(spilled.Keys), groups, groupSteps);
    IdsOfNumbers(spilled.Keys, offset);
    BuiltFilesAreParts(g, offset, active, spilled.Keys, ops);
  }

  lemma DataStepPublishes(
      g: Setting, s: Protocol, d: JoinData, i: nat, spilled: SpillPartitionSet, nulls: bool, d': JoinData)
    requires s.config.Valid() && Sized(s, d) && Enabled(s, FinishBuild(i, spilled, nulls)) && LastToBuild(s, i)
    requires DataStep(g, s, d, FinishBuild(i, spilled, nulls), d')
    ensures TablePublished(g, d, spilled.Keys, d')
  {
    var groups, groupSteps :| RoundBuilt(g, s, d, spilled, groups, groupSteps, d');
    RoundBuiltPublishes(g, s, d, spilled, groups, groupSteps, d');
  }

  lemma PublishKeepsWorth(
      g: Setting, s: Protocol, d: JoinData, i: nat, spilled: SpillPartitionSet, nulls: bool, d': JoinData, o: OutRow)
    requires DataFits(g, s, d) && Enabled(s, FinishBuild(i, spilled, nulls)) && LastToBuild(s, i)
    requires DataStep(g, s, d, FinishBuild(i, spilled, nulls), d')
    ensures Worth(g, Apply(s, FinishBuild(i, spilled, nulls)), d', o) == Worth(g, s, d, o)
  {
    PublishFacts(g, s, d, i, spilled, nulls);
    DataStepPublishes(g, s, d, i, spilled, nulls, d');
    var t := Publish(s, WithTable(s.bridge, s.tables, spilled, nulls));
    assert t == Apply(s, FinishBuild(i, spilled, nulls));
    PublishAlgebra(g, s, d, t, d', spilled.Keys, o);
  }

  ghost predicate Published(
    g: Setting, s: Protocol, d: JoinData, t: Protocol, d': JoinData, ids: set<SpillPartitionId>)
  {
    && s.bridge.buildResult.None? && t.bridge.buildResult.Some?
    && CurrentId(t) == CurrentId(s) && CurrentSpill(t) == ids && SameOffset(ids)
    && ids !! s.bridge.pending.Keys && t.bridge.pending.Keys == s.bridge.pending.Keys + ids
    && (forall j, id :: 0 <= j < |d.probeSpilled| && id in ids ==> id !in d.probeSpilled[j])
    && d.probed == multiset{}
    && TablePublished(g, d, ids, d')
  }

  /** Publishing a table turns the join of the round into the join in memory and the new partitions. */
  lemma PublishAlgebra(
      g: Setting, s: Protocol, d: JoinData, t: Protocol, d': JoinData, ids: set<SpillPartitionId>, o: OutRow)
    requires Published(g, s, d, t, d', ids)
    ensures Worth(g, t, d', o) == Worth(g, s, d, o)
  {
    PublishRound(g, s, d, t, d', ids, o);
    PublishPending(g, s, d, t, d', ids, o);
  }

  /** Null keys and duplicate keys may be missing from the table. */
  lemma RoundCut(
      g: Setting, left: multiset<Row>, right: multiset<Row>, table: seq<Row>, ids: set<SpillPartitionId>, o: OutRow)
    requires SameOffset(ids) && IsTable(g.jt, Keep(g, ActiveRows(g.jt, right), ids), table)
    ensures JoinCount(g.jt, left, right, o)
         == JoinCount(g.jt, Keep(g, left, ids), multiset(table), o)
            + Sum(ids, PartJoin(g, left, ActiveRows(g.jt, right), o))
  {
    var active := ActiveRows(g.jt, right);
    ActiveRowsJoin(g.jt, left, right, o);
    SpillingCutsJoin(g, left, active, ids, o);
    TableJoins(g.jt, Keep(g, left, ids), Keep(g, active, ids), table, o);
  }

  lemma PublishRound(
      g: Setting, s: Protocol, d: JoinData, t: Protocol, d': JoinData, ids: set<SpillPartitionId>, o: OutRow)
    requires Published(g, s, d, t, d', ids)
    ensures RoundJoin(g, s, d, o)
         == RoundJoin(g, t, d', o) + Sum(ids, PartJoin(g, LeftToProbe(s, d), ActiveRows(g.jt, d.buildInput), o))
  {
    var left := LeftToProbe(s, d);
    assert LeftToProbe(t, d') == left;
    RoundCut(g, left, d.buildInput, d'.table, ids, o);
    PartsMakeJoin(g.jt, Keep(g, left, ids), multiset(d'.table), o);
    assert d'.probed + Keep(g, left, ids) == Keep(g, left, ids);
  }

  lemma PublishPending(
      g: Setting, s: Protocol, d: JoinData, t: Protocol, d': JoinData, ids: set<SpillPartitionId>, o: OutRow)
    requires Published(g, s, d, t, d', ids)
    ensures Sum(t.bridge.pending.Keys, PendingJoin(g, t, d', o))
         == Sum(s.bridge.pending.Keys, PendingJoin(g, s, d, o))
            + Sum(ids, PartJoin(g, LeftToProbe(s, d), ActiveRows(g.jt, d.buildInput), o))
  {
    var left, active := LeftToProbe(s, d), ActiveRows(g.jt, d.buildInput);
    assert LeftToProbe(t, d') == left;
    var before, after := PendingJoin(g, s, d, o), PendingJoin(g, t, d', o);
    SumUnion(s.bridge.pending.Keys, ids, after);
    forall id | id in s.bridge.pending.Keys
      ensures after(id) == before(id)
    {
      assert ProbeRowsOf(g, t, d', id) == ProbeRowsOf(g, s, d, id);
      assert Spilled(d'.builtSpilled, id) == Spilled(d.builtSpilled, id);
    }
    SumEqual(s.bridge.pending.Keys, after, before);
    forall id | id in ids
      ensures after(id) == PartJoin(g, left, active, o)(id)
    {
      SpilledRowsEmpty(d.probeSpilled, id);
      assert ProbeRowsOf(g, t, d', id) == Part(g, left, id);
      assert Spilled(d'.builtSpilled, id) == Part(g, active, id);
    }
    SumEqual(ids, after, PartJoin(g, left, active, o));
  }

  // Taking a table.

  lemma SameWorth(g: Setting, s: Protocol, d: JoinData, t: Protocol, d': JoinData, o: OutRow)
    requires t.bridge.buildResult == s.bridge.buildResult && t.bridge.restoringId == s.bridge.restoringId
    requires t.bridge.pending == s.bridge.pending && d'.out == d.out && d'.probed == d.probed
    requires d'.buildInput == d.buildInput && d'.table == d.table && d'.builtSpilled == d.builtSpilled
    requires LeftToProbe(t, d') == LeftToProbe(s, d)
    requires forall id :: id in s.bridge.pending ==> SpilledRows(d'.probeSpilled, id) == SpilledRows(d.probeSpilled, id)
    ensures Worth(g, t, d', o) == Worth(g, s, d, o)
  {
    SumEqual(s.bridge.pending.Keys, PendingJoin(g, s, d, o), PendingJoin(g, t, d', o));
  }

  lemma TakeTableKeepsWorth(g: Setting, s: Protocol, d: JoinData, j: nat, d': JoinData, o: OutRow)
    requires DataFits(g, s, d) && Enabled(s, PollProbe(j)) && DataStep(g, s, d, PollProbe(j), d')
    ensures Worth(g, Apply(s, PollProbe(j)), d', o) == Worth(g, s, d, o)
  {
    var t := Apply(s, PollProbe(j));
    if s.bridge.buildResult.Some? && CurrentId(s).Some? {
      assert ProbePhase(s);
      TakeTableAlgebra(g, s, d, t, d', j, CurrentId(s).value, o);
    } else {
      SameWorth(g, s, d, t, d', o);
    }
  }

  lemma TakeTableAlgebra(
      g: Setting, s: Protocol, d: JoinData, t: Protocol, d': JoinData, j: nat, id: SpillPartitionId, o: OutRow)
    requires t.bridge == s.bridge && CurrentId(s) == Some(id) && id !in s.bridge.pending
    requires j < |d.probeInput| == |d.probeSpilled|
    requires d' == d.(probeInput := d.probeInput[j := d.probeInput[j] + Spilled(d.probeSpilled[j], id)],
                      probeSpilled := d.probeSpilled[j := d.probeSpilled[j] - {id}])
    ensures Worth(g, t, d', o) == Worth(g, s, d, o)
  {
    var m := d.probeSpilled[j] - {id};
    SumRowsUpdate(d.probeInput, j, d.probeInput[j] + Spilled(d.probeSpilled[j], id));
    SpilledRowsUpdate(d.probeSpilled, j, m, id);
    forall other | other in s.bridge.pending
      ensures SpilledRows(d'.probeSpilled, other) == SpilledRows(d.probeSpilled, other)
    {
      SpilledRowsUpdate(d.probeSpilled, j, m, other);
      assert Spilled(m, other) == Spilled(d.probeSpilled[j], other);
      CancelSame(SpilledRows(d'.probeSpilled, other), SpilledRows(d.probeSpilled, other), Spilled(m, other));
    }
    Cancel(SumRows(d'.probeInput), SumRows(d.probeInput), d.probeInput[j], Spilled(d.probeSpilled[j], id),
           SpilledRows(d'.probeSpilled, id), SpilledRows(d.probeSpilled, id));
    SameWorth(g, s, d, t, d', o);
  }

  lemma MoveOut(a': multiset<Row>, a: multiset<Row>, x: multiset<Row>, b: multiset<Row>)
    requires a' + x == a + multiset{}
    ensures a + b == (a' + b) + x
  {
    assert (a' + b) + x == (a' + x) + b;
  }

  lemma CancelSame(a: multiset<Row>, b: multiset<Row>, x: multiset<Row>)
    requires a + x == b + x
    ensures a == b
  {
    forall r: Row
      ensures a[r] == b[r]
    {
      assert (a + x)[r] == (b + x)[r];
    }
  }

  /** Rows that move from one pile to another do not change the sum of the piles. */
  lemma Cancel(
      a': multiset<Row>, a: multiset<Row>, x: multiset<Row>, y: multiset<Row>, b': multiset<Row>, b: multiset<Row>)
    requires a' + x == a + (x + y) && b' + y == b + multiset{}
    ensures a' + b' == a + b
  {
    forall r: Row
      ensures (a' + b')[r] == (a + b)[r]
    {
      assert (a' + x)[r] == (a + (x + y))[r] && (b' + y)[r] == (b + multiset{})[r];
    }
  }

  // Probing.

  /** What probing does to the rows, in terms of the partitions. */
  ghost predicate RowsProbed(g: Setting, d: JoinData, j: nat, ids: set<SpillPartitionId>, d': JoinData)
    requires j < |d.probeInput| == |d.probeSpilled|
  {
    var rows := d.probeInput[j];
    && d'.buildInput == d.buildInput && d'.table == d.table && d'.builtSpilled == d.builtSpilled
    && d'.probeInput == d.probeInput[j := multiset{}]
    && d'.probeSpilled == d.probeSpilled[j := d.probeSpilled[j] + Parts(g, rows, ids)]
    && d'.probed == d.probed + Keep(g, rows, ids)
  }

  ghost predicate RowsEmitted(g: Setting, d: JoinData, rows: multiset<Row>, d': JoinData) {
    forall o :: d'.out[o] == d.out[o] + ProbePart(g.jt, rows, multiset(d.table), o)
  }

  lemma ProbeFilesAreParts(g: Setting, offset: nat, input: seq<Row>, ids: set<SpillPartitionId>)
    requires forall id :: id in ids ==> id.offset == offset
    ensures ProbeFiles(RoundAt(g, offset), input, ids) == Parts(g, multiset(input), ids)
  {
    forall id | id in ids
      ensures ProbeFiles(RoundAt(g, offset), input, ids)[id] == Parts(g, multiset(input), ids)[id]
    {
      assert id == SpillPartitionId(offset, id.number);
      ProbeSpillCuts(g, offset, input, {}, id.number);
    }
  }

  /** A prober cuts its rows as the builders have cut theirs. */
  lemma InputCut(g: Setting, ids: set<SpillPartitionId>, input: seq<Row>)
    requires SameOffset(ids)
    ensures var r := RoundAt(g, SpillOffset(ids));
            && multiset(Picked(input, InMemory(r, NumbersOf(ids)), |input|)) == Keep(g, multiset(input), ids)
            && ProbeFiles(r, input, ids) == Parts(g, multiset(input), ids)
  {
    var offset := SpillOffset(ids);
    IdsOfNumbers(ids, offset);
    ProbeSpillCuts(g, offset, input, NumbersOf(ids), 0);
    ProbeFilesAreParts(g, offset, input, ids);
  }

  lemma InputProbedCuts(g: Setting, d: JoinData, j: nat, ids: set<SpillPartitionId>, input: seq<Row>, d': JoinData)
    requires SameOffset(ids) && j < |d.probeInput| == |d.probeSpilled| == |d.noInput| && |d.flags| == |d.table|
    requires InputProbed(g, d, j, ids, input, d')
    ensures RowsProbed(g, d, j, ids, d')
  {
    InputCut(g, ids, input);
  }

  lemma InputProbedEmits(g: Setting, d: JoinData, j: nat, ids: set<SpillPartitionId>, input: seq<Row>, d': JoinData)
    requires SameOffset(ids) && j < |d.probeInput| == |d.probeSpilled| == |d.noInput|
    requires TableFits(g, d) && InputProbed(g, d, j, ids, input, d')
    ensures RowsEmitted(g, d, Keep(g, d.probeInput[j], ids), d') && TableFits(g, d')
  {
    var r := RoundAt(g, SpillOffset(ids));
    var rest := Picked(input, InMemory(r, NumbersOf(ids)), |input|);
    InputCut(g, ids, input);
    AllFlagged(g.jt, d.table, d.flags, d.probed, rest);
    forall o
      ensures d'.out[o] == d.out[o] + ProbePart(g.jt, multiset(rest), multiset(d.table), o)
    {
      OutputIsProbePart(g.jt, d.table, rest, o);
    }
  }

  /** The ids that a prober spills are those of the round. */
  lemma ProbingFacts(g: Setting, s: Protocol, d: JoinData, j: nat)
    requires DataFits(g, s, d) && Enabled(s, FinishInput(j))
    ensures s.bridge.buildResult.Some? && s.probers[j].inputIds == CurrentSpill(s) && SameOffset(CurrentSpill(s))
    ensures CurrentSpill(s) <= s.bridge.pending.Keys && d.probeSpilled[j].Keys !! CurrentSpill(s)
    ensures CurrentId(s).Some? ==> CurrentId(s).value !in s.bridge.pending
  {
    assert ProbePhase(s) && ProberFits(s, s.probers[j]);
    assert ProberFitsRows(s.probers[j], d.probeInput[j], d.probeSpilled[j]);
    assert d.probeSpilled[j].Keys == s.bridge.pending.Keys - CurrentSpill(s);
  }

  lemma DataStepProbes(g: Setting, s: Protocol, d: JoinData, j: nat, d': JoinData)
    requires DataFits(g, s, d) && Enabled(s, FinishInput(j)) && DataStep(g, s, d, FinishInput(j), d')
    ensures RowsProbed(g, d, j, CurrentSpill(s), d') && Sized(s, d') && TableFits(g, d')
    ensures RowsEmitted(g, d, Keep(g, d.probeInput[j], CurrentSpill(s)), d')
  {
    ProbingFacts(g, s, d, j);
    var ids := CurrentSpill(s);
    var input :| InputProbed(g, d, j, ids, input, d');
    InputProbedCuts(g, d, j, ids, input, d');
    InputProbedEmits(g, d, j, ids, input, d');
  }

  lemma FinishInputKeepsWorth(g: Setting, s: Protocol, d: JoinData, j: nat, d': JoinData, o: OutRow)
    requires DataFits(g, s, d) && Enabled(s, FinishInput(j)) && DataStep(g, s, d, FinishInput(j), d')
    ensures Worth(g, Apply(s, FinishInput(j)), d', o) == Worth(g, s, d, o)
  {
    ProbingFacts(g, s, d, j);
    DataStepProbes(g, s, d, j, d');
    FinishInputAlgebra(g, s, d, Apply(s, FinishInput(j)), d', j, CurrentSpill(s), o);
  }

  ghost predicate Probed(
    g: Setting, s: Protocol, d: JoinData, t: Protocol, d': JoinData, j: nat, ids: set<SpillPartitionId>)
  {
    && t.bridge == s.bridge && s.bridge.buildResult.Some? && ids == CurrentSpill(s) && ids <= s.bridge.pending.Keys
    && (CurrentId(s).Some? ==> CurrentId(s).value !in s.bridge.pending)
    && j < |d.probeInput| == |d.probeSpilled| && d.probeSpilled[j].Keys !! ids
    && RowsProbed(g, d, j, ids, d')
  }

  lemma FinishInputAlgebra(
      g: Setting, s: Protocol, d: JoinData, t: Protocol, d': JoinData, j: nat, ids: set<SpillPartitionId>, o: OutRow)
    requires Probed(g, s, d, t, d', j, ids)
    requires RowsEmitted(g, d, Keep(g, d.probeInput[j], ids), d')
    ensures Worth(g, t, d', o) == Worth(g, s, d, o)
  {
    var rows := d.probeInput[j];
    var left, left' := LeftToProbe(s, d), LeftToProbe(t, d');
    FinishInputMoves(g, s, d, t, d', j, ids);
    forall id | id in s.bridge.pending
      ensures ProbeRowsOf(g, t, d', id) == ProbeRowsOf(g, s, d, id)
    {
      FinishInputFiles(g, s, d, t, d', j, ids, id);
    }
    KeepAdds(g, left', rows, ids);
    ProbePartAdds(g.jt, Keep(g, left', ids), Keep(g, rows, ids), multiset(d.table), o);
    assert d'.probed + Keep(g, left', ids) == d.probed + Keep(g, left, ids);
    SumEqual(s.bridge.pending.Keys, PendingJoin(g, s, d, o), PendingJoin(g, t, d', o));
  }

  /** The rows of the finished prober leave its input. */
  lemma FinishInputMoves(
      g: Setting, s: Protocol, d: JoinData, t: Protocol, d': JoinData, j: nat, ids: set<SpillPartitionId>)
    requires Probed(g, s, d, t, d', j, ids)
    ensures LeftToProbe(s, d) == LeftToProbe(t, d') + d.probeInput[j]
  {
    var rows, m' := d.probeInput[j], d'.probeSpilled[j];
    SumRowsUpdate(d.probeInput, j, multiset{});
    if CurrentId(s).Some? {
      var id := CurrentId(s).value;
      SpilledRowsUpdate(d.probeSpilled, j, m', id);
      CancelSame(SpilledRows(d'.probeSpilled, id), SpilledRows(d.probeSpilled, id), Spilled(m', id));
    }
    MoveOut(SumRows(d'.probeInput), SumRows(d.probeInput), rows,
            if CurrentId(s).Some? then SpilledRows(d.probeSpilled, CurrentId(s).value) else multiset{});
  }

  /** They go to memory or to its spilled partitions. */
  lemma FinishInputFiles(
      g: Setting, s: Protocol, d: JoinData, t: Protocol, d': JoinData, j: nat, ids: set<SpillPartitionId>,
      id: SpillPartitionId)
    requires Probed(g, s, d, t, d', j, ids) && id in s.bridge.pending
    ensures ProbeRowsOf(g, t, d', id) == ProbeRowsOf(g, s, d, id)
  {
    var rows, m' := d.probeInput[j], d'.probeSpilled[j];
    FinishInputMoves(g, s, d, t, d', j, ids);
    SpilledRowsUpdate(d.probeSpilled, j, m', id);
    if id in ids {
      PartAdds(g, LeftToProbe(t, d'), rows, id);
      assert SpilledRows(d'.probeSpilled, id) == SpilledRows(d.probeSpilled, id) + Part(g, rows, id);
    } else {
      CancelSame(SpilledRows(d'.probeSpilled, id), SpilledRows(d.probeSpilled, id), Spilled(m', id));
    }
  }

  // The end of a round.

  lemma ProbeOver(g: Setting, s: Protocol, d: JoinData)
    requires DataFits(g, s, d) && ProbePhase(s)
    requires forall j :: 0 <= j < |s.probers| ==> InputOver(s.probers[j])
    ensures LeftToProbe(s, d) == multiset{} && SumRows(d.probeInput) == multiset{}
  {
    forall j | 0 <= j < |s.probers|
      ensures d.probeInput[j] == multiset{} && (CurrentId(s).Some? ==> CurrentId(s).value !in d.probeSpilled[j])
    {
      assert ProberFits(s, s.probers[j]);
      assert ProberFitsRows(s.probers[j], d.probeInput[j], d.probeSpilled[j]);
    }
    SumRowsEmpty(d.probeInput);
    if CurrentId(s).Some? {
      SpilledRowsEmpty(d.probeSpilled, CurrentId(s).value);
    }
  }

  /** What the last prober owes when it ends the round, and what it emits. */
  ghost function Due(g: Setting, d: JoinData, step: Step, o: OutRow): nat {
    if step.FinishProbe? then BuildPart(g.jt, d.probed, multiset(d.table), o) else 0
  }

  ghost function Paid(g: Setting, d: JoinData, step: Step, o: OutRow): nat
    requires |d.flags| == |d.table|
  {
    if step.FinishProbe? && step.prober < |d.noInput| then
      multiset(BuildOutput(g.jt, d.table, Reported(g.jt, d.table, d.flags, d.noInput[step.prober])))[o]
    else 0
  }

  /** The last prober of a right semi project join has had no row, and some build row was matched. */
  ghost predicate BlindStep(g: Setting, d: JoinData, step: Step) {
    step.FinishProbe? && step.prober < |d.noInput| && Blind(g.jt, d.flags, d.noInput[step.prober])
  }

  lemma PaysUnlessBlind(g: Setting, d: JoinData, step: Step, o: OutRow)
    requires TableFits(g, d) && (step.FinishProbe? ==> step.prober < |d.noInput|) && !BlindStep(g, d, step)
    ensures Paid(g, d, step, o) == Due(g, d, step, o)
  {
    if step.FinishProbe? {
      SeesUnlessBlind(g.jt, d.table, d.flags, d.noInput[step.prober]);
      OutputIsBuildPart(g.jt, d.table, d.flags, d.probed, o);
    }
  }

  /** A blind prober never reports more matches than there are. */
  lemma PaysNoMore(g: Setting, d: JoinData, step: Step, o: OutRow)
    requires TableFits(g, d) && (step.FinishProbe? ==> step.prober < |d.noInput|) && o.matched == Some(true)
    ensures Paid(g, d, step, o) <= Due(g, d, step, o)
  {
    if BlindStep(g, d, step) {
      BlindReportsNone(d.table, o);
    } else {
      PaysUnlessBlind(g, d, step, o);
    }
  }

  /** And it reports one too few for some row. */
  lemma BlindPaysLess(g: Setting, d: JoinData, step: Step) returns (o: OutRow)
    requires TableFits(g, d) && BlindStep(g, d, step)
    ensures o.matched == Some(true) && Paid(g, d, step, o) < Due(g, d, step, o)
  {
    var k :| 0 <= k < |d.flags| && d.flags[k];
    o := OutRow(None, Some(d.table[k]), Some(true));
    BlindReportsNone(d.table, o);
    FlaggedIsReported(d.table, d.flags, k);
    OutputIsBuildPart(g.jt, d.table, d.flags, d.probed, o);
  }

  lemma RoundEndFacts(g: Setting, s: Protocol, d: JoinData, j: nat)
    requires DataFits(g, s, d) && Enabled(s, FinishProbe(j))
    ensures s.bridge.buildResult.Some? && (s.probers[j].pendingIds == {} <==> s.bridge.pending == map[])
    ensures LeftToProbe(s, d) == multiset{} && SumRows(d.probeInput) == multiset{}
  {
    assert ProbePhase(s) && ProberFits(s, s.probers[j]);
    assert LastToProbe(s, j);
    ProbeOver(g, s, d);
  }

  lemma RoundEndMovesWorth(g: Setting, s: Protocol, d: JoinData, j: nat, d': JoinData, o: OutRow)
    requires s.config.Valid() && Sized(s, d) && Enabled(s, FinishProbe(j)) && DataStep(g, s, d, FinishProbe(j), d')
    requires s.bridge.buildResult.Some? && (s.probers[j].pendingIds == {} <==> s.bridge.pending == map[])
    requires LeftToProbe(s, d) == multiset{} && SumRows(d.probeInput) == multiset{}
    ensures Worth(g, Apply(s, FinishProbe(j)), d', o) + Due(g, d, FinishProbe(j), o)
         == Worth(g, s, d, o) + Paid(g, d, FinishProbe(j), o)
  {
    var t := Apply(s, FinishProbe(j));
    if s.bridge.pending == map[] {
      FinalAlgebra(g, s, d, t, d', o);
    } else {
      assert s.bridge.pending.Keys != {};
      RestoreAlgebra(g, s, d, t, d', First(s.bridge.pending.Keys), o);
    }
  }

  lemma FinishProbeMovesWorth(g: Setting, s: Protocol, d: JoinData, j: nat, d': JoinData, o: OutRow)
    requires DataFits(g, s, d) && Enabled(s, FinishProbe(j)) && DataStep(g, s, d, FinishProbe(j), d')
    ensures Worth(g, Apply(s, FinishProbe(j)), d', o) + Due(g, d, FinishProbe(j), o)
         == Worth(g, s, d, o) + Paid(g, d, FinishProbe(j), o)
  {
    RoundEndFacts(g, s, d, j);
    RoundEndMovesWorth(g, s, d, j, d', o);
  }

  /** With the probe over, a round owes its build-side rows only. */
  lemma ProbeOverWorth(g: Setting, s: Protocol, d: JoinData, o: OutRow)
    requires s.bridge.buildResult.Some? && LeftToProbe(s, d) == multiset{}
    ensures RoundJoin(g, s, d, o) == BuildPart(g.jt, d.probed, multiset(d.table), o)
    ensures forall id :: ProbeRowsOf(g, s, d, id) == SpilledRows(d.probeSpilled, id)
  {
    var none: multiset<Row> := multiset{};
    assert Keep(g, none, CurrentSpill(s)) == none;
    assert d.probed + none == d.probed;
    forall id
      ensures ProbeRowsOf(g, s, d, id) == SpilledRows(d.probeSpilled, id)
    {
      assert Part(g, none, id) == none;
    }
  }

  lemma FinalAlgebra(g: Setting, s: Protocol, d: JoinData, t: Protocol, d': JoinData, o: OutRow)
    requires t.bridge == s.bridge && s.bridge.buildResult.Some? && s.bridge.pending == map[]
    requires LeftToProbe(s, d) == multiset{}
    requires d' == d.(table := [], flags := [], probed := multiset{}, out := d'.out)
    ensures Worth(g, t, d', o) + d.out[o] + BuildPart(g.jt, d.probed, multiset(d.table), o)
         == Worth(g, s, d, o) + d'.out[o]
  {
    assert s.bridge.pending.Keys == {};
    assert LeftToProbe(t, d') == multiset{};
    ProbeOverWorth(g, s, d, o);
    ProbeOverWorth(g, t, d', o);
  }

  ghost predicate Restored(
    g: Setting, s: Protocol, d: JoinData, t: Protocol, d': JoinData, id: SpillPartitionId)
  {
    && s.bridge.buildResult.Some? && LeftToProbe(s, d) == multiset{} && SumRows(d.probeInput) == multiset{}
    && id in s.bridge.pending
    && t.bridge.buildResult.None? && t.bridge.restoringId == Some(id)
    && t.bridge.pending.Keys == s.bridge.pending.Keys - {id}
    && d' == d.(table := [], flags := [], probed := multiset{}, out := d'.out,
                buildInput := Spilled(d.builtSpilled, id), builtSpilled := d.builtSpilled - {id})
  }

  lemma RestoreAlgebra(
      g: Setting, s: Protocol, d: JoinData, t: Protocol, d': JoinData, id: SpillPartitionId, o: OutRow)
    requires Restored(g, s, d, t, d', id)
    ensures Worth(g, t, d', o) + d.out[o] + BuildPart(g.jt, d.probed, multiset(d.table), o)
         == Worth(g, s, d, o) + d'.out[o]
  {
    ProbeOverWorth(g, s, d, o);
    assert LeftToProbe(t, d') == SpilledRows(d.probeSpilled, id);
    RestorePending(g, s, d, t, d', id, o);
  }

  lemma RestorePending(
      g: Setting, s: Protocol, d: JoinData, t: Protocol, d': JoinData, id: SpillPartitionId, o: OutRow)
    requires Restored(g, s, d, t, d', id)
    ensures Sum(s.bridge.pending.Keys, PendingJoin(g, s, d, o))
         == JoinCount(g.jt, SpilledRows(d.probeSpilled, id), d'.buildInput, o)
            + Sum(t.bridge.pending.Keys, PendingJoin(g, t, d', o))
  {
    ProbeOverWorth(g, s, d, o);
    SumRemove(s.bridge.pending.Keys, PendingJoin(g, s, d, o), id);
    forall other | other in t.bridge.pending.Keys
      ensures PendingJoin(g, s, d, o)(other) == PendingJoin(g, t, d', o)(other)
    {
      assert Spilled(d'.builtSpilled, other) == Spilled(d.builtSpilled, other);
      assert ProbeRowsOf(g, t, d', other) == SpilledRows(d.probeSpilled, other);
    }
    SumEqual(t.bridge.pending.Keys, PendingJoin(g, s, d, o), PendingJoin(g, t, d', o));
  }

  /** Every step conserves, for every output row, the number of times it has been emitted plus the
      number of times it is still owed by the current round and the pending partitions, but for what the
      last prober of a round may fail to report. */
  lemma StepMovesWorth(g: Setting, s: Protocol, d: JoinData, step: Step, d': JoinData, o: OutRow)
    requires DataFits(g, s, d) && Enabled(s, step) && DataStep(g, s, d, step, d')
    ensures Worth(g, Apply(s, step), d', o) + Due(g, d, step, o) == Worth(g, s, d, o) + Paid(g, d, step, o)
  {
    match step
    case FinishBuild(i, spilled, nulls) =>
      if LastToBuild(s, i) {
        PublishKeepsWorth(g, s, d, i, spilled, nulls, d', o);
      } else {
        SameWorth(g, s, d, Apply(s, step), d', o);
      }
    case FinishBuildNullKeys(i) =>
    case PollBuild(i) => SameWorth(g, s, d, Apply(s, step), d', o);
    case PollProbe(j) => TakeTableKeepsWorth(g, s, d, j, d', o);
    case FinishInput(j) => FinishInputKeepsWorth(g, s, d, j, d', o);
    case FinishProbe(j) => FinishProbeMovesWorth(g, s, d, j, d', o);
  }

  // ------------------------------------------------------------------------------------------------
  // The rows stay in step with the protocol
  // ------------------------------------------------------------------------------------------------

  lemma ProbersFitAfterUpdate(s: Protocol, d: JoinData, t: Protocol, d': JoinData, j: nat)
    requires Sized(s, d) && ProbersFit(s, d) && j < |s.probers| == |t.probers| && Sized(t, d')
    requires t.probers == s.probers[j := t.probers[j]] && d'.probeInput == d.probeInput[j := d'.probeInput[j]]
    requires d'.probeSpilled == d.probeSpilled[j := d'.probeSpilled[j]]
    requires ProberFitsRows(t.probers[j], d'.probeInput[j], d'.probeSpilled[j])
    ensures ProbersFit(t, d')
  {
    forall k | 0 <= k < |t.probers|
      ensures ProberFitsRows(t.probers[k], d'.probeInput[k], d'.probeSpilled[k])
    {
      assert ProberFitsRows(s.probers[k], d.probeInput[k], d.probeSpilled[k]);
    }
  }

  /** Probers that wait have been given rows of the same partitions, whether they wait or are woken. */
  lemma ProbersFitWhileWaiting(s: Protocol, d: JoinData, t: Protocol, d': JoinData)
    requires Sized(s, d) && ProbersFit(s, d) && Sized(t, d') && |t.probers| == |s.probers|
    requires d'.probeInput == d.probeInput && d'.probeSpilled == d.probeSpilled
    requires forall j :: 0 <= j < |s.probers| ==>
               && t.probers[j].pendingIds == s.probers[j].pendingIds
               && (InputOver(t.probers[j]) ==> InputOver(s.probers[j]))
    ensures ProbersFit(t, d')
  {
    forall k | 0 <= k < |t.probers|
      ensures ProberFitsRows(t.probers[k], d'.probeInput[k], d'.probeSpilled[k])
    {
      assert ProberFitsRows(s.probers[k], d.probeInput[k], d.probeSpilled[k]);
    }
  }

  lemma FreshTableFits(g: Setting, d': JoinData, stored: multiset<Row>)
    requires IsTable(g.jt, stored, d'.table) && d'.flags == NoFlags(d'.table) && d'.probed == multiset{}
    ensures TableFits(g, d')
  {
  }

  lemma PublishedKeys(g: Setting, d: JoinData, ids: set<SpillPartitionId>, d': JoinData)
    requires TablePublished(g, d, ids, d') && d.probed == multiset{}
    ensures d'.builtSpilled.Keys == d.builtSpilled.Keys + ids && |d'.flags| == |d'.table| && TableFits(g, d')
  {
    FreshTableFits(g, d', Keep(g, ActiveRows(g.jt, d.buildInput), ids));
  }

  lemma PublishedFits(g: Setting, s: Protocol, d: JoinData, t: Protocol, d': JoinData)
    requires Sized(s, d) && SettingFits(g, s) && d.builtSpilled.Keys == s.bridge.pending.Keys && TableFits(g, d')
    requires t.config == s.config && t.bridge.buildResult.Some? && d'.builtSpilled.Keys == t.bridge.pending.Keys
    requires Sized(t, d') && ProbersFit(t, d') && !AllProbersDone(t)
    ensures RowsFit(g, t, d')
  {
  }

  lemma PublishKeepsFit(
      g: Setting, s: Protocol, d: JoinData, i: nat, spilled: SpillPartitionSet, nulls: bool, d': JoinData)
    requires DataFits(g, s, d) && Enabled(s, FinishBuild(i, spilled, nulls)) && LastToBuild(s, i)
    requires DataStep(g, s, d, FinishBuild(i, spilled, nulls), d')
    ensures RowsFit(g, Apply(s, FinishBuild(i, spilled, nulls)), d')
  {
    PublishFacts(g, s, d, i, spilled, nulls);
    DataStepPublishes(g, s, d, i, spilled, nulls, d');
    PublishedKeys(g, d, spilled.Keys, d');
    WaitersFitAfterPublish(s, d, i, spilled, nulls, d');
    PublishedFits(g, s, d, Apply(s, FinishBuild(i, spilled, nulls)), d');
  }

  lemma WaitersFitAfterPublish(s: Protocol, d: JoinData, i: nat, spilled: SpillPartitionSet, nulls: bool, d': JoinData)
    requires Inv(s) && Sized(s, d) && ProbersFit(s, d)
    requires Enabled(s, FinishBuild(i, spilled, nulls)) && LastToBuild(s, i)
    requires Sized(s, d') && d'.probeInput == d.probeInput && d'.probeSpilled == d.probeSpilled
    ensures var t := Apply(s, FinishBuild(i, spilled, nulls));
            Sized(t, d') && ProbersFit(t, d') && !AllProbersDone(t)
  {
    var t := Apply(s, FinishBuild(i, spilled, nulls));
    assert BuildPhase(s);
    ProbersFitWhileWaiting(s, d, t, d');
    assert t.probers[0].phase != ProbeDone;
  }

  lemma LastProberLeft(g: Setting, s: Protocol, j: nat)
    requires s.config.Valid() && Enabled(s, FinishInput(j)) && s.config.needLastProbe
    ensures !AllProbersDone(Apply(s, FinishInput(j)))
  {
    var t := Apply(s, FinishInput(j));
    if LastToProbe(s, j) {
      assert t.probers[j].phase == LastProber;
    } else {
      var k :| 0 <= k < |s.probers| && k != j && s.probers[k].phase !in {AtProbeBarrier, ProbeDone};
      assert t.probers[k].phase != ProbeDone;
    }
  }

  lemma ProbedFits(g: Setting, s: Protocol, d: JoinData, j: nat, ids: set<SpillPartitionId>, d': JoinData)
    requires s.config.Valid() && Enabled(s, FinishInput(j)) && s.probers[j].inputIds == ids
    requires Sized(s, d) && Sized(s, d') && ProbersFit(s, d) && RowsProbed(g, d, j, ids, d')
    ensures ProbersFit(Apply(s, FinishInput(j)), d')
  {
    var t := Apply(s, FinishInput(j));
    assert ProberFitsRows(s.probers[j], d.probeInput[j], d.probeSpilled[j]);
    assert d'.probeSpilled[j].Keys == t.probers[j].pendingIds;
    ProbersFitAfterUpdate(s, d, t, d', j);
  }

  lemma FinishInputKeepsTable(g: Setting, s: Protocol, d: JoinData, j: nat, d': JoinData)
    requires s.config.Valid() && Enabled(s, FinishInput(j)) && SettingFits(g, s) && s.bridge.buildResult.Some?
    ensures TableGone(g, Apply(s, FinishInput(j)), d')
  {
    if NeedLastProbe(g.jt) {
      LastProberLeft(g, s, j);
    }
  }

  lemma FinishInputKeepsFit(g: Setting, s: Protocol, d: JoinData, j: nat, d': JoinData)
    requires DataFits(g, s, d) && Enabled(s, FinishInput(j)) && DataStep(g, s, d, FinishInput(j), d')
    ensures RowsFit(g, Apply(s, FinishInput(j)), d')
  {
    ProbingFacts(g, s, d, j);
    DataStepProbes(g, s, d, j, d');
    ProbedFits(g, s, d, j, CurrentSpill(s), d');
    FinishInputKeepsTable(g, s, d, j, d');
  }

  /** A builder that reaches the barrier or asks for input touches no rows. */
  lemma BuilderKeepsFit(g: Setting, s: Protocol, d: JoinData, step: Step, d': JoinData)
    requires s.config.Valid() && RowsFit(g, s, d) && Enabled(s, step) && DataStep(g, s, d, step, d')
    requires step.PollBuild? || (step.FinishBuild? && !LastToBuild(s, step.builder))
    ensures RowsFit(g, Apply(s, step), d')
  {
    var t := Apply(s, step);
    assert t.probers == s.probers && t.bridge.pending == s.bridge.pending;
    assert t.bridge.buildResult == s.bridge.buildResult;
  }

  lemma PollProbeKeepsFit(g: Setting, s: Protocol, d: JoinData, j: nat, d': JoinData)
    requires s.config.Valid() && RowsFit(g, s, d) && Enabled(s, PollProbe(j)) && DataStep(g, s, d, PollProbe(j), d')
    ensures RowsFit(g, Apply(s, PollProbe(j)), d')
  {
    var t := Apply(s, PollProbe(j));
    assert ProberFitsRows(s.probers[j], d.probeInput[j], d.probeSpilled[j]);
    assert d'.probeSpilled[j].Keys == t.probers[j].pendingIds;
    ProbersFitAfterUpdate(s, d, t, d', j);
    assert t.probers[j].phase != ProbeDone;
  }

  lemma NoTableFits(g: Setting, d': JoinData)
    requires d'.table == [] && d'.flags == [] && d'.probed == multiset{}
    ensures TableFits(g, d')
  {
  }

  lemma RoundEndFits(g: Setting, s: Protocol, d: JoinData, j: nat, d': JoinData)
    requires s.config.Valid() && RowsFit(g, s, d) && Enabled(s, FinishProbe(j)) && DataStep(g, s, d, FinishProbe(j), d')
    requires s.probers[j].pendingIds == {} <==> s.bridge.pending == map[]
    ensures RowsFit(g, Apply(s, FinishProbe(j)), d')
  {
    var t := Apply(s, FinishProbe(j));
    NoTableFits(g, d');
    ProbersFitWhileWaiting(s, d, t, d');
    if s.bridge.pending != map[] {
      assert s.bridge.pending.Keys != {};
      assert d'.builtSpilled.Keys == t.bridge.pending.Keys;
    }
  }

  lemma FinishProbeKeepsFit(g: Setting, s: Protocol, d: JoinData, j: nat, d': JoinData)
    requires DataFits(g, s, d) && Enabled(s, FinishProbe(j)) && DataStep(g, s, d, FinishProbe(j), d')
    ensures RowsFit(g, Apply(s, FinishProbe(j)), d')
  {
    assert ProbePhase(s) && ProberFits(s, s.probers[j]);
    RoundEndFits(g, s, d, j, d');
  }

  lemma StepKeepsFit(g: Setting, s: Protocol, d: JoinData, step: Step, d': JoinData)
    requires DataFits(g, s, d) && Enabled(s, step) && DataStep(g, s, d, step, d')
    ensures DataFits(g, Apply(s, step), d')
  {
    StepKeepsProtocol(s, step);
    match step
    case FinishBuild(i, spilled, nulls) =>
      if LastToBuild(s, i) {
        PublishKeepsFit(g, s, d, i, spilled, nulls, d');
      } else {
        BuilderKeepsFit(g, s, d, step, d');
      }
    case FinishBuildNullKeys(i) =>
    case PollBuild(i) => BuilderKeepsFit(g, s, d, step, d');
    case PollProbe(j) => PollProbeKeepsFit(g, s, d, j, d');
    case FinishInput(j) => FinishInputKeepsFit(g, s, d, j, d');
    case FinishProbe(j) => FinishProbeKeepsFit(g, s, d, j, d');
  }

  // ------------------------------------------------------------------------------------------------
  // Whole runs
  // ------------------------------------------------------------------------------------------------

  /** A run of the protocol with the rows that it moves. */
  datatype DataRun = DataRun(states: seq<Protocol>, steps: seq<Step>, data: seq<JoinData>)

  ghost predicate DataStepAt(g: Setting, run: DataRun, k: nat) {
    && StepAt(run.states, run.steps, k) && k + 1 < |run.data|
    && Sized(run.states[k], run.data[k])
    && DataStep(g, run.states[k], run.data[k], run.steps[k], run.data[k + 1])
  }

  ghost predicate IsDataRun(g: Setting, run: DataRun, left: multiset<Row>, right: multiset<Row>) {
    && IsRun(run.states, run.steps)
    && SettingFits(g, run.states[0])
    && |run.data| == |run.states|
    && InitData(run.states[0], run.data[0], left, right)
    && forall k: nat :: k < |run.steps| ==> DataStepAt(g, run, k)
  }

  lemma InitFits(g: Setting, s: Protocol, d: JoinData, left: multiset<Row>, right: multiset<Row>)
    requires IsInit(s) && SettingFits(g, s) && InitData(s, d, left, right)
    ensures DataFits(g, s, d)
  {
    InitInv(s);
    NoTableFits(g, d);
  }

  lemma {:induction false} RunKeepsFit(g: Setting, run: DataRun, left: multiset<Row>, right: multiset<Row>, n: nat)
    requires IsDataRun(g, run, left, right) && n <= |run.steps|
    ensures DataFits(g, run.states[n], run.data[n])
  {
    if n == 0 {
      InitFits(g, run.states[0], run.data[0], left, right);
    } else {
      RunKeepsFit(g, run, left, right, n - 1);
      assert DataStepAt(g, run, n - 1);
      StepKeepsFit(g, run.states[n - 1], run.data[n - 1], run.steps[n - 1], run.data[n]);
    }
  }

  ghost function WorthAt(g: Setting, run: DataRun, k: nat, o: OutRow): nat
    requires k < |run.states| && k < |run.data|
  {
    Worth(g, run.states[k], run.data[k], o)
  }

  /** Step `k` of the run is blind. */
  ghost predicate BlindAt(g: Setting, run: DataRun, k: nat) {
    k < |run.steps| && k < |run.data| && BlindStep(g, run.data[k], run.steps[k])
  }

  lemma WorthMoves(g: Setting, run: DataRun, left: multiset<Row>, right: multiset<Row>, k: nat, o: OutRow)
    requires IsDataRun(g, run, left, right) && k < |run.steps|
    ensures TableFits(g, run.data[k]) && (run.steps[k].FinishProbe? ==> run.steps[k].prober < |run.data[k].noInput|)
    ensures WorthAt(g, run, k + 1, o) + Due(g, run.data[k], run.steps[k], o)
         == WorthAt(g, run, k, o) + Paid(g, run.data[k], run.steps[k], o)
  {
    RunKeepsFit(g, run, left, right, k);
    assert DataStepAt(g, run, k);
    StepMovesWorth(g, run.states[k], run.data[k], run.steps[k], run.data[k + 1], o);
  }

  /** Emitted plus owed is unchanged by every step that is not blind. */
  lemma StepKeepsWorth(g: Setting, run: DataRun, left: multiset<Row>, right: multiset<Row>, k: nat, o: OutRow)
    requires IsDataRun(g, run, left, right) && k < |run.steps| && !BlindAt(g, run, k)
    ensures WorthAt(g, run, k + 1, o) == WorthAt(g, run, k, o)
  {
    WorthMoves(g, run, left, right, k, o);
    PaysUnlessBlind(g, run.data[k], run.steps[k], o);
  }

  lemma StepGainsNoMatch(g: Setting, run: DataRun, left: multiset<Row>, right: multiset<Row>, k: nat, o: OutRow)
    requires IsDataRun(g, run, left, right) && k < |run.steps| && o.matched == Some(true)
    ensures WorthAt(g, run, k + 1, o) <= WorthAt(g, run, k, o)
  {
    WorthMoves(g, run, left, right, k, o);
    PaysNoMore(g, run.data[k], run.steps[k], o);
  }

  lemma InitWorthAt(g: Setting, run: DataRun, left: multiset<Row>, right: multiset<Row>, o: OutRow)
    requires IsDataRun(g, run, left, right)
    ensures WorthAt(g, run, 0, o) == JoinCount(g.jt, left, right, o)
  {
    InitWorth(g, run.states[0], run.data[0], left, right, o);
  }

  lemma {:induction false} RunKeepsWorth(
      g: Setting, run: DataRun, left: multiset<Row>, right: multiset<Row>, n: nat, o: OutRow)
    requires IsDataRun(g, run, left, right) && n <= |run.steps|
    requires forall k: nat :: k < n ==> !BlindAt(g, run, k)
    ensures WorthAt(g, run, n, o) == JoinCount(g.jt, left, right, o)
  {
    if n == 0 {
      InitWorthAt(g, run, left, right, o);
    } else {
      RunKeepsWorth(g, run, left, right, n - 1, o);
      StepKeepsWorth(g, run, left, right, n - 1, o);
    }
  }

  ghost function WorthOver(g: Setting, run: DataRun, o: OutRow): nat -> nat {
    (k: nat) => if k < |run.states| && k < |run.data| then WorthAt(g, run, k, o) else 0
  }

  lemma {:induction false} FallsOver(f: nat -> nat, m: nat, n: nat)
    requires m <= n && forall k: nat :: m <= k < n ==> Falls(f, k)
    ensures f(n) <= f(m)
  {
    if n == m {
    } else {
      FallsOver(f, m, n - 1);
      assert Falls(f, n - 1);
    }
  }

  ghost predicate Falls(f: nat -> nat, k: nat) {
    f(k + 1) <= f(k)
  }

  /** Between two moments of a run no match is gained. */
  lemma RunGainsNoMatch(
      g: Setting, run: DataRun, left: multiset<Row>, right: multiset<Row>, m: nat, n: nat, o: OutRow)
    requires IsDataRun(g, run, left, right) && m <= n <= |run.steps| && o.matched == Some(true)
    ensures WorthAt(g, run, n, o) <= WorthAt(g, run, m, o)
  {
    forall k: nat | m <= k < n
      ensures Falls(WorthOver(g, run, o), k)
    {
      StepGainsNoMatch(g, run, left, right, k, o);
    }
    FallsOver(WorthOver(g, run, o), m, n);
  }

  /** At rest nothing is owed any more. */
  lemma NothingOwed(g: Setting, run: DataRun, left: multiset<Row>, right: multiset<Row>, o: OutRow)
    requires IsDataRun(g, run, left, right) && AtRest(run.states[|run.steps|])
    ensures WorthAt(g, run, |run.steps|, o) == run.data[|run.steps|].out[o]
  {
    var n := |run.steps|;
    EveryRunIsGood(run.states, run.steps);
    RunKeepsFit(g, run, left, right, n);
    NothingOwedAtEnd(g, run.states[n], run.data[n], o);
  }

  lemma NothingOwedAtEnd(g: Setting, s: Protocol, d: JoinData, o: OutRow)
    requires DataFits(g, s, d) && AllDone(s)
    ensures Worth(g, s, d, o) == d.out[o]
  {
    assert s.builders[0].phase == BuildDone;
    assert ProbePhase(s);
    ProbeOver(g, s, d);
    ProbeOverWorth(g, s, d, o);
    assert s.bridge.pending.Keys == {};
    NoBuildPart(g.jt, d.probed, d.table, o);
  }

  lemma NoBuildPart(jt: JoinType, probed: multiset<Row>, table: seq<Row>, o: OutRow)
    requires NeedLastProbe(jt) ==> table == []
    ensures BuildPart(jt, probed, multiset(table), o) == 0
  {
  }

  /** Spilling preserves the join: whatever the builders spill, at whatever level, and however the
      builders and probers interleave, a run that has come to its end has emitted each output row as
      often as the plain join of all probe rows with all build rows contains it. The one exception is a
      right semi project join whose last prober has had no row of its own. */
  lemma SpillingPreservesJoin(g: Setting, run: DataRun, left: multiset<Row>, right: multiset<Row>, o: OutRow)
    requires IsDataRun(g, run, left, right) && AtRest(run.states[|run.steps|])
    requires g.jt == RightSemiProject ==> forall k: nat :: k < |run.steps| ==> !BlindAt(g, run, k)
    ensures run.data[|run.steps|].out[o] == JoinCount(g.jt, left, right, o)
  {
    RunKeepsWorth(g, run, left, right, |run.steps|, o);
    NothingOwed(g, run, left, right, o);
  }

  /** The exception is exact: a blind step loses a match for good, so the output is the join if and only if
      no round was ended by a prober without input on a table with a matched row. */
  lemma SpillingPreservesJoinIff(g: Setting, run: DataRun, left: multiset<Row>, right: multiset<Row>)
    requires IsDataRun(g, run, left, right) && AtRest(run.states[|run.steps|])
    ensures (forall o :: run.data[|run.steps|].out[o] == JoinCount(g.jt, left, right, o))
       <==> (forall k: nat :: k < |run.steps| ==> !BlindAt(g, run, k))
  {
    if k: nat :| k < |run.steps| && BlindAt(g, run, k) {
      var first := FirstBlind(g, run, k);
      BlindLoses(g, run, left, right, first);
    } else {
      forall o
        ensures run.data[|run.steps|].out[o] == JoinCount(g.jt, left, right, o)
      {
        SpillingPreservesJoin(g, run, left, right, o);
      }
    }
  }

  lemma {:induction false} FirstBlind(g: Setting, run: DataRun, k: nat) returns (first: nat)
    requires BlindAt(g, run, k)
    ensures first <= k && BlindAt(g, run, first) && forall i: nat :: i < first ==> !BlindAt(g, run, i)
  {
    if i: nat :| i < k && BlindAt(g, run, i) {
      first := FirstBlind(g, run, i);
    } else {
      first := k;
    }
  }

  lemma BlindLoses(g: Setting, run: DataRun, left: multiset<Row>, right: multiset<Row>, k: nat)
    requires IsDataRun(g, run, left, right) && AtRest(run.states[|run.steps|])
    requires BlindAt(g, run, k) && forall i: nat :: i < k ==> !BlindAt(g, run, i)
    ensures exists o :: run.data[|run.steps|].out[o] < JoinCount(g.jt, left, right, o)
  {
    RunKeepsFit(g, run, left, right, k);
    var o := BlindPaysLess(g, run.data[k], run.steps[k]);
    RunKeepsWorth(g, run, left, right, k, o);
    WorthMoves(g, run, left, right, k, o);
    RunGainsNoMatch(g, run, left, right, k + 1, |run.steps|, o);
    NothingOwed(g, run, left, right, o);
  }
}
