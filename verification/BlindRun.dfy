/** A run of a right semi project join that loses a match: one builder with one row, and two probers of which
    the first has a matching row and the second, which has none, is the last. */
module BlindRuns {
  import opened Options
  import opened Powers
  import opened SpillPartitions
  import opened JoinBridges
  import opened JoinProtocols
  import opened JoinSpecs
  import opened JoinCuts
  import opened BuildSpills
  import opened HashProbes
  import opened SpillJoins

  ghost predicate BlindSetting(g: Setting, row: Row) {
    g.jt == RightSemiProject && 1 <= g.numBits <= 64 && !HasNull(row.key)
  }

  // ------------------------------------------------------------------------------------------------
  // The protocol
  // ------------------------------------------------------------------------------------------------

  ghost function BlindState(g: Setting, built: bool, builder: BuilderState, probers: seq<ProberState>): Protocol {
    var result := if built then Some(HashBuildResult(false, Some(0), None, {})) else None;
    Protocol(JoinConfig(0, g.numBits, 0, true, false, false), BridgeState(true, 1, result, None, [], map[], []),
             [builder], probers, if built then 1 else 0)
  }

  /** The probers take the table, the first reads its row and is done, the second is the last. */
  ghost function BlindStates(g: Setting): seq<Protocol> {
    var need, probing := ProberState(NeedTable, {}, {}, 0), ProberState(Probing, {}, {}, 1);
    var last, done := ProberState(LastProber, {}, {}, 1), ProberState(ProbeDone, {}, {}, 1);
    var polling := BuilderState(Polling, 1);
    [BlindState(g, false, BuilderState(Building, 1), [need, need]),
     BlindState(g, true, polling, [need, need]),
     BlindState(g, true, polling, [probing, need]),
     BlindState(g, true, polling, [probing, probing]),
     BlindState(g, true, polling, [done, probing]),
     BlindState(g, true, polling, [done, last]),
     BlindState(g, true, polling, [done, done]),
     BlindState(g, true, BuilderState(BuildDone, 1), [done, done])]
  }

  function BlindSteps(): seq<Step> {
    [FinishBuild(0, map[], false), PollProbe(0), PollProbe(1), FinishInput(0), FinishInput(1), FinishProbe(1),
     PollBuild(0)]
  }

  lemma BlindPublish(g: Setting)
    requires 1 <= g.numBits <= 64
    ensures StepAt(BlindStates(g), BlindSteps(), 0)
  {
    var s, t := BlindStates(g)[0], BlindStates(g)[1];
    var spilled: SpillPartitionSet := map[];
    assert LastToBuild(s, 0);
    assert s.bridge.pending + spilled == map[] && spilled.Keys == {};
    assert WithTable(s.bridge, 0, spilled, false) == t.bridge;
    assert LeaveBuildBarrier(s.builders) == t.builders && WakeProbers(s.probers, []) == t.probers;
  }

  lemma BlindInput(g: Setting)
    requires 1 <= g.numBits <= 64
    ensures StepAt(BlindStates(g), BlindSteps(), 3) && StepAt(BlindStates(g), BlindSteps(), 4)
  {
    var s := BlindStates(g)[3];
    assert s.probers[1].phase == Probing;
    assert !LastToProbe(s, 0) && LastToProbe(BlindStates(g)[4], 1);
  }

  lemma BlindStatesStep(g: Setting, k: nat)
    requires 1 <= g.numBits <= 64 && k < 7
    ensures StepAt(BlindStates(g), BlindSteps(), k)
  {
    if k == 0 {
      BlindPublish(g);
    } else if 3 <= k <= 4 {
      BlindInput(g);
    } else {
      assert Apply(BlindStates(g)[k], BlindSteps()[k]) == BlindStates(g)[k + 1];
    }
  }

  lemma BlindStatesRun(g: Setting)
    requires 1 <= g.numBits <= 64
    ensures IsRun(BlindStates(g), BlindSteps()) && AtRest(BlindStates(g)[7])
  {
    forall k: nat | k < 7
      ensures StepAt(BlindStates(g), BlindSteps(), k)
    {
      BlindStatesStep(g, k);
    }
  }

  // ------------------------------------------------------------------------------------------------
  // The builder
  // ------------------------------------------------------------------------------------------------

  ghost function OneBuilder(g: Setting, op: Op): BuildGroup {
    BuildGroup(RightSemiProject, RoundAt(g, 0), Pow2(g.numBits), [op], false, {})
  }

  ghost function NoRows(): BuilderRows {
    BuilderRows(multiset{}, map[])
  }

  ghost function OneRow(g: Setting, row: Row): BuilderRows {
    Accept(RoundAt(g, 0), NoRows(), multiset{row})
  }

  /** The builder reads its row, stores it and stops. */
  ghost function BlindGroups(g: Setting, row: Row): seq<BuildGroup> {
    var rows := multiset{row};
    [OneBuilder(g, Op(Running, NoRows(), multiset{}, multiset{})),
     OneBuilder(g, Op(Holding(rows), NoRows(), rows, multiset{})),
     OneBuilder(g, Op(Running, OneRow(g, row), rows, rows)),
     OneBuilder(g, Op(Stopped, OneRow(g, row), rows, rows))]
  }

  function BlindGroupSteps(row: Row): seq<GroupStep> {
    [Read(0, multiset{row}), Fits(0), Stop(0, {})]
  }

  lemma BlindGroupStep(g: Setting, row: Row, k: nat)
    requires BlindSetting(g, row) && k < 3
    ensures GroupStepAt(BlindGroups(g, row), BlindGroupSteps(row), k)
  {
    var rows: multiset<Row> := multiset{row};
    assert multiset{} + rows == rows && ActiveRows(RightSemiProject, rows) == rows;
    assert BlindGroups(g, row)[k + 1].ops == GroupApply(BlindGroups(g, row)[k], BlindGroupSteps(row)[k]).ops;
  }

  lemma NumbersFit(g: Setting)
    requires 1 <= g.numBits <= 64
    ensures NumbersBelow(RoundAt(g, 0), Pow2(g.numBits))
  {
  }

  lemma BlindGroupRuns(g: Setting, row: Row)
    requires BlindSetting(g, row)
    ensures IsGroupRun(BlindGroups(g, row), BlindGroupSteps(row))
  {
    NumbersFit(g);
    forall k: nat | k < 3
      ensures GroupStepAt(BlindGroups(g, row), BlindGroupSteps(row), k)
    {
      BlindGroupStep(g, row, k);
    }
  }

  lemma BlindGroupBuilds(g: Setting, row: Row)
    requires BlindSetting(g, row)
    ensures BuildsRound(g, 0, multiset{row}, {}, BlindGroups(g, row), BlindGroupSteps(row))
    ensures AllTables(BlindGroups(g, row)[3].ops) == multiset{row}
  {
    BlindGroupRuns(g, row);
    assert BlindGroups(g, row)[3].ops[1..] == [];
    assert AllRead(BlindGroups(g, row)[3].ops) == multiset{row} + multiset{};
    assert Keep(g, multiset{row}, IdsOf(0, {})) == multiset{row};
    GroupBuildsTheRound(g, 0, multiset{row}, {}, BlindGroups(g, row), BlindGroupSteps(row));
  }

  // ------------------------------------------------------------------------------------------------
  // The rows
  // ------------------------------------------------------------------------------------------------

  ghost function BlindStart(row: Row): JoinData {
    var none: multiset<Row> := multiset{};
    JoinData(multiset{row}, [], [], map[], [multiset{row}, none], [map[], map[]], [true, true], none, multiset{})
  }

  ghost function BlindBuilt(row: Row): JoinData {
    BlindStart(row).(buildInput := multiset{}, table := [row], flags := [false])
  }

  lemma BlindPublishes(g: Setting, row: Row)
    requires BlindSetting(g, row)
    ensures StepAt(BlindStates(g), BlindSteps(), 0)
    ensures DataStep(g, BlindStates(g)[0], BlindStart(row), BlindSteps()[0], BlindBuilt(row))
  {
    var s, d, d' := BlindStates(g)[0], BlindStart(row), BlindBuilt(row);
    var spilled: SpillPartitionSet := map[];
    BlindPublish(g);
    BlindGroupBuilds(g, row);
    assert NumbersOf(spilled.Keys) == {};
    assert NoFlags([row]) == [false];
    assert d.builtSpilled + BuiltFiles(BlindGroups(g, row)[3].ops, spilled.Keys) == map[];
    assert RoundBuilt(g, s, d, spilled, BlindGroups(g, row), BlindGroupSteps(row), d');
  }

  lemma NothingSpilled(g: Setting, input: seq<Row>)
    ensures Picked(input, InMemory(RoundAt(g, SpillOffset({})), NumbersOf({})), |input|) == input
  {
    var none: set<SpillPartitionId> := {};
    assert NumbersOf(none) == {};
    AllInMemory(input, RoundAt(g, SpillOffset({})), |input|);
    assert input[..|input|] == input;
  }

  /** The first prober matches the row of the table. */
  lemma BlindFirstReads(g: Setting, row: Row)
    requires BlindSetting(g, row)
    ensures var first := AfterInput(g, BlindBuilt(row), 0, {}, [row]);
            && first.flags == [true] && first.table == [row] && first.noInput[1]
            && first.probeInput == [multiset{}, multiset{}] && |first.probeSpilled| == |first.noInput| == 2
  {
    NothingSpilled(g, [row]);
    assert FlagAll(RightSemiProject, [row], [false], [row], 0) == [false];
    assert Flag(RightSemiProject, [row], [false], row) == [true];
  }

  /** The second prober has nothing to read. */
  lemma BlindSecondReads(g: Setting, first: JoinData)
    requires g.jt == RightSemiProject && |first.table| == 1 && first.flags == [true]
    requires |first.probeInput| == |first.probeSpilled| == |first.noInput| == 2 && first.noInput[1]
    ensures var second := AfterInput(g, first, 1, {}, []);
            && second.flags == [true] && second.table == first.table && second.noInput[1]
            && |second.probeInput| == |second.probeSpilled| == |second.noInput| == 2
  {
    NothingSpilled(g, []);
  }

  // ------------------------------------------------------------------------------------------------
  // Steps of any run
  // ------------------------------------------------------------------------------------------------

  ghost predicate StepSized(run: DataRun, k: nat) {
    StepAt(run.states, run.steps, k) && k + 1 < |run.data| && Sized(run.states[k], run.data[k])
  }

  /** A step that moves no rows. */
  lemma SameRowsStep(g: Setting, run: DataRun, k: nat)
    requires StepSized(run, k) && run.data[k + 1] == run.data[k]
    requires run.steps[k].PollBuild? || run.steps[k].PollProbe?
    requires run.steps[k].PollProbe? ==> CurrentId(run.states[k]).None?
    ensures DataStepAt(g, run, k)
  {
  }

  lemma ReadStep(g: Setting, run: DataRun, k: nat, j: nat, input: seq<Row>)
    requires StepSized(run, k) && run.steps[k] == FinishInput(j) && run.states[k].probers[j].inputIds == {}
    requires multiset(input) == run.data[k].probeInput[j] && run.data[k + 1] == AfterInput(g, run.data[k], j, {}, input)
    ensures DataStepAt(g, run, k)
  {
    assert InputProbed(g, run.data[k], j, {}, input, run.data[k + 1]);
  }

  lemma EndStep(g: Setting, run: DataRun, k: nat, j: nat)
    requires StepSized(run, k) && run.steps[k] == FinishProbe(j) && run.states[k].probers[j].pendingIds == {}
    requires run.data[k + 1] == AfterProbe(g, run.data[k], j)
    ensures DataStepAt(g, run, k)
  {
  }

  // ------------------------------------------------------------------------------------------------
  // The run
  // ------------------------------------------------------------------------------------------------

  lemma BlindInit(g: Setting, row: Row)
    requires BlindSetting(g, row)
    ensures InitData(BlindStates(g)[0], BlindStart(row), multiset{row}, multiset{row})
    ensures SettingFits(g, BlindStates(g)[0])
  {
    var none: multiset<Row> := multiset{};
    assert [multiset{row}, none][1..] == [none] && [none][1..] == [];
    assert SumRows([none]) == none;
  }

  lemma FromSeven(p: nat -> bool)
    requires p(0) && p(1) && p(2) && p(3) && p(4) && p(5) && p(6)
    ensures forall k: nat :: k < 7 ==> p(k)
  {
  }

  ghost function StepOf(g: Setting, run: DataRun): nat -> bool {
    (k: nat) => DataStepAt(g, run, k)
  }

  /** What the steps need to know of the states. */
  lemma BlindStatesFacts(g: Setting)
    requires 1 <= g.numBits <= 64
    ensures var states := BlindStates(g);
            && |states| == 8 && (forall k :: 0 <= k < 8 ==> |states[k].probers| == 2)
            && CurrentId(states[1]).None? && CurrentId(states[2]).None?
            && states[3].probers[0].inputIds == {} && states[4].probers[1].inputIds == {}
            && states[5].probers[1].pendingIds == {}
  {
  }

  /** The rows after the probers' inputs and after the last prober. */
  ghost predicate BlindInputs(g: Setting, row: Row, first: JoinData, second: JoinData, ended: JoinData) {
    && BlindSetting(g, row) && TwoProbers(first) && TwoProbers(second) && first.probeInput[1] == multiset{}
    && first == AfterInput(g, BlindBuilt(row), 0, {}, [row])
    && second == AfterInput(g, first, 1, {}, [])
    && ended == AfterProbe(g, second, 1)
  }

  /** The rows after each step. */
  ghost function BlindRows(row: Row, first: JoinData, second: JoinData, ended: JoinData): seq<JoinData> {
    var built := BlindBuilt(row);
    [BlindStart(row), built, built, built, first, second, ended, ended]
  }

  ghost predicate TwoProbers(d: JoinData) {
    |d.probeInput| == |d.probeSpilled| == |d.noInput| == 2 && |d.flags| == |d.table|
  }

  lemma BlindStepSized(g: Setting, run: DataRun, k: nat)
    requires 1 <= g.numBits <= 64 && run.states == BlindStates(g) && run.steps == BlindSteps() && |run.data| == 8
    requires k < 7 && TwoProbers(run.data[k])
    ensures StepSized(run, k)
  {
    BlindStatesStep(g, k);
    BlindStatesFacts(g);
  }

  lemma BlindSameSteps(g: Setting, run: DataRun)
    requires 1 <= g.numBits <= 64 && run.states == BlindStates(g) && run.steps == BlindSteps() && |run.data| == 8
    requires TwoProbers(run.data[1]) && TwoProbers(run.data[6])
    requires run.data[3] == run.data[2] == run.data[1] && run.data[7] == run.data[6]
    ensures DataStepAt(g, run, 1) && DataStepAt(g, run, 2) && DataStepAt(g, run, 6)
  {
    BlindStatesFacts(g);
    BlindStepSized(g, run, 1);
    BlindStepSized(g, run, 2);
    BlindStepSized(g, run, 6);
    SameRowsStep(g, run, 1);
    SameRowsStep(g, run, 2);
    SameRowsStep(g, run, 6);
  }

  lemma EndedHasTwo(g: Setting, second: JoinData)
    requires TwoProbers(second)
    ensures TwoProbers(AfterProbe(g, second, 1))
  {
  }

  lemma BlindReadSteps(g: Setting, row: Row, run: DataRun, first: JoinData, second: JoinData, ended: JoinData)
    requires BlindInputs(g, row, first, second, ended)
    requires run == DataRun(BlindStates(g), BlindSteps(), BlindRows(row, first, second, ended))
    ensures DataStepAt(g, run, 3) && DataStepAt(g, run, 4)
  {
    BlindStatesFacts(g);
    BlindStepSized(g, run, 3);
    BlindStepSized(g, run, 4);
    ReadStep(g, run, 3, 0, [row]);
    ReadStep(g, run, 4, 1, []);
  }

  lemma BlindEndStep(g: Setting, row: Row, run: DataRun, first: JoinData, second: JoinData, ended: JoinData)
    requires BlindInputs(g, row, first, second, ended)
    requires run == DataRun(BlindStates(g), BlindSteps(), BlindRows(row, first, second, ended))
    ensures DataStepAt(g, run, 5)
  {
    BlindStatesFacts(g);
    BlindStepSized(g, run, 5);
    EndStep(g, run, 5, 1);
  }

  lemma BlindFirstStep(g: Setting, row: Row, run: DataRun)
    requires BlindSetting(g, row) && run.states == BlindStates(g) && run.steps == BlindSteps() && |run.data| == 8
    requires run.data[0] == BlindStart(row) && run.data[1] == BlindBuilt(row)
    ensures DataStepAt(g, run, 0)
  {
    BlindStepSized(g, run, 0);
    BlindPublishes(g, row);
  }

  lemma BlindPlainSteps(g: Setting, row: Row, run: DataRun, first: JoinData, second: JoinData, ended: JoinData)
    requires BlindSetting(g, row) && TwoProbers(ended)
    requires run == DataRun(BlindStates(g), BlindSteps(), BlindRows(row, first, second, ended))
    ensures DataStepAt(g, run, 0) && DataStepAt(g, run, 1) && DataStepAt(g, run, 2) && DataStepAt(g, run, 6)
  {
    BlindFirstStep(g, row, run);
    BlindSameSteps(g, run);
  }

  lemma BlindDataSteps(
      g: Setting, row: Row, run: DataRun, first: JoinData, second: JoinData, ended: JoinData, k: nat)
    requires BlindInputs(g, row, first, second, ended) && k < 7
    requires run == DataRun(BlindStates(g), BlindSteps(), BlindRows(row, first, second, ended))
    ensures StepOf(g, run)(k)
  {
    EndedHasTwo(g, second);
    BlindPlainSteps(g, row, run, first, second, ended);
    BlindReadSteps(g, row, run, first, second, ended);
    BlindEndStep(g, row, run, first, second, ended);
    FromSeven(StepOf(g, run));
  }

  lemma RunFromSteps(g: Setting, run: DataRun, left: multiset<Row>, right: multiset<Row>)
    requires IsRun(run.states, run.steps) && SettingFits(g, run.states[0]) && |run.data| == |run.states|
    requires InitData(run.states[0], run.data[0], left, right)
    requires forall k: nat :: k < |run.steps| ==> StepOf(g, run)(k)
    ensures IsDataRun(g, run, left, right)
  {
    forall k: nat | k < |run.steps|
      ensures DataStepAt(g, run, k)
    {
      assert StepOf(g, run)(k);
    }
  }

  lemma BlindIsDataRun(g: Setting, row: Row, run: DataRun, first: JoinData, second: JoinData, ended: JoinData)
    requires BlindInputs(g, row, first, second, ended)
    requires run == DataRun(BlindStates(g), BlindSteps(), BlindRows(row, first, second, ended))
    ensures IsDataRun(g, run, multiset{row}, multiset{row})
  {
    BlindStatesRun(g);
    BlindInit(g, row);
    forall k: nat | k < 7
      ensures StepOf(g, run)(k)
    {
      BlindDataSteps(g, row, run, first, second, ended, k);
    }
    RunFromSteps(g, run, multiset{row}, multiset{row});
  }

  lemma BlindLosesMatch(g: Setting, run: DataRun, rows: multiset<Row>, second: JoinData)
    requires IsDataRun(g, run, rows, rows) && AtRest(run.states[|run.steps|]) && run.steps == BlindSteps()
    requires run.data[5] == second && g.jt == RightSemiProject && |second.noInput| == 2 && second.noInput[1]
    requires second.flags == [true]
    ensures exists o :: run.data[|run.steps|].out[o] != JoinCount(g.jt, rows, rows, o)
  {
    assert second.flags[0];
    assert BlindAt(g, run, 5);
    SpillingPreservesJoinIff(g, run, rows, rows);
  }

  lemma MakeBlindRows(g: Setting, row: Row) returns (first: JoinData, second: JoinData, ended: JoinData)
    requires BlindSetting(g, row)
    ensures BlindInputs(g, row, first, second, ended) && second.flags == [true] && second.noInput[1]
  {
    BlindFirstReads(g, row);
    first := AfterInput(g, BlindBuilt(row), 0, {}, [row]);
    BlindSecondReads(g, first);
    second := AfterInput(g, first, 1, {}, []);
    ended := AfterProbe(g, second, 1);
  }

  /** The second prober has had no row and reports the match of the first as none: the join loses it. */
  lemma BlindRunExists(g: Setting, row: Row) returns (run: DataRun)
    requires BlindSetting(g, row)
    ensures IsDataRun(g, run, multiset{row}, multiset{row}) && AtRest(run.states[|run.steps|])
    ensures exists o :: run.data[|run.steps|].out[o] != JoinCount(g.jt, multiset{row}, multiset{row}, o)
  {
    var first, second, ended := MakeBlindRows(g, row);
    run := DataRun(BlindStates(g), BlindSteps(), BlindRows(row, first, second, ended));
    BlindIsDataRun(g, row, run, first, second, ended);
    BlindStatesRun(g);
    BlindLosesMatch(g, run, multiset{row}, second);
  }
}
