/** A join with its rows can always go on, and every choice of partitions that have rows can be spilled. */
module SpillProgresses {
  import opened Options
  import opened Powers
  import opened SpillPartitions
  import opened JoinBridges
  import opened JoinProtocols
  import opened JoinSpecs
  import opened JoinCuts
  import opened BuildSpills
  import opened HashProbes
  import opened SpillJoins

  // ------------------------------------------------------------------------------------------------
  // A run of the group of builders, for any choice of partitions
  // ------------------------------------------------------------------------------------------------

  lemma GroupExtends(groups: seq<BuildGroup>, steps: seq<GroupStep>, step: GroupStep)
    returns (groups': seq<BuildGroup>, steps': seq<GroupStep>)
    requires IsGroupRun(groups, steps) && GroupEnabled(groups[|steps|], step)
    ensures IsGroupRun(groups', steps') && groups'[0] == groups[0] && |steps'| == |steps| + 1
    ensures groups'[|steps'|] == GroupApply(groups[|steps|], step)
  {
    groups', steps' := groups + [GroupApply(groups[|steps|], step)], steps + [step];
    forall k: nat | k < |steps'|
      ensures GroupStepAt(groups', steps', k)
    {
      if k < |steps| {
        assert GroupStepAt(groups, steps, k);
      }
    }
  }

  /** Builders 1 to `k` have stopped, no builder but the first has read anything, and none waits. */
  ghost predicate FirstOnly(g: BuildGroup, k: nat) {
    && !g.needSpill && k < |g.ops|
    && forall i :: 1 <= i < |g.ops| ==>
         g.ops[i].read == multiset{} && g.ops[i].phase == if i <= k then Stopped else Running
  }

  /** Only the first builder is left; it has read `rows`. */
  ghost predicate OneLeft(g: BuildGroup, rows: multiset<Row>) {
    && |g.ops| >= 1 && FirstOnly(g, |g.ops| - 1)
    && g.ops[0].read == rows && (g.ops[0].phase == Running || g.ops[0].phase.Holding?)
  }

  /** The group is of the same kind and size. */
  ghost predicate SameGroup(g: BuildGroup, g': BuildGroup) {
    g'.jt == g.jt && g'.r == g.r && |g'.ops| == |g.ops|
  }

  lemma {:induction false} StopOthers(groups: seq<BuildGroup>, steps: seq<GroupStep>, k: nat)
    returns (groups': seq<BuildGroup>, steps': seq<GroupStep>)
    requires IsGroupRun(groups, steps) && FirstOnly(groups[|steps|], k)
    ensures IsGroupRun(groups', steps') && groups'[0] == groups[0]
    ensures var g, g' := groups[|steps|], groups'[|steps'|];
            && SameGroup(g, g') && g'.spilled == g.spilled && g'.ops[0] == g.ops[0] && FirstOnly(g', |g'.ops| - 1)
    decreases |groups[|steps|].ops| - k
  {
    groups', steps' := groups, steps;
    if k + 1 < |groups[|steps|].ops| {
      groups', steps' := GroupExtends(groups, steps, Stop(k + 1, {}));
      groups', steps' := StopOthers(groups', steps', k + 1);
    }
  }

  lemma ReadStep(g: BuildGroup, read: multiset<Row>, batch: multiset<Row>)
    requires OneLeft(g, read) && g.ops[0].phase == Running
    ensures GroupEnabled(g, Read(0, batch))
    ensures var g' := GroupApply(g, Read(0, batch));
            && OneLeft(g', read + batch) && SameGroup(g, g') && g'.spilled == g.spilled
            && g'.ops[0].phase == Holding(batch) && g'.ops[0].rows == g.ops[0].rows
  {
  }

  lemma FitsStep(g: BuildGroup, read: multiset<Row>)
    requires OneLeft(g, read) && g.ops[0].phase.Holding?
    ensures GroupEnabled(g, Fits(0))
    ensures var g' := GroupApply(g, Fits(0));
            && OneLeft(g', read) && SameGroup(g, g') && g'.spilled == g.spilled && g'.ops[0].phase == Running
            && g'.ops[0].rows == Accept(g.r, g.ops[0].rows, ActiveRows(g.jt, g.ops[0].phase.batch))
  {
  }

  ghost predicate HasRowOf(r: Round, rows: multiset<Row>, n: nat) {
    exists row :: row in rows && r.number(row) == n
  }

  ghost predicate AllHaveRows(r: Round, rows: multiset<Row>, numbers: set<nat>) {
    forall n :: n in numbers ==> HasRowOf(r, rows, n)
  }

  lemma MayChooseThese(g: BuildGroup, numbers: set<nat>)
    requires |g.ops| >= 1 && numbers != {} && AllHaveRows(g.r, g.ops[0].rows.table, numbers)
    ensures MayChoose(g, numbers) && g.ops[0].rows.table != multiset{}
  {
    forall n | n in numbers
      ensures Spillable(g, n)
    {
      assert HasRowOf(g.r, g.ops[0].rows.table, n);
      var row :| row in g.ops[0].rows.table && g.r.number(row) == n;
    }
    var n :| n in numbers;
    assert HasRowOf(g.r, g.ops[0].rows.table, n);
  }

  lemma AskStep(g: BuildGroup, read: multiset<Row>, numbers: set<nat>)
    requires OneLeft(g, read) && g.ops[0].phase.Holding? && numbers != {} && g.spilled == {}
    requires AllHaveRows(g.r, g.ops[0].rows.table, numbers)
    ensures GroupEnabled(g, AskSpill(0, numbers))
    ensures var g' := GroupApply(g, AskSpill(0, numbers));
            OneLeft(g', read) && SameGroup(g, g') && g'.spilled == numbers && g'.ops[0].phase == Running
  {
    AskEnabled(g, read, numbers);
    SpillAllKeeps(g, read, numbers);
    var h, batch := SpillAll(g, numbers), g.ops[0].phase.batch;
    AskResult(h, read, AcceptBatch(g, h.ops[0], batch));
    assert GroupApply(g, AskSpill(0, numbers)) == h.(ops := h.ops[0 := AcceptBatch(g, h.ops[0], batch)]);
  }

  lemma AskEnabled(g: BuildGroup, read: multiset<Row>, numbers: set<nat>)
    requires OneLeft(g, read) && g.ops[0].phase.Holding? && numbers != {}
    requires AllHaveRows(g.r, g.ops[0].rows.table, numbers)
    ensures GroupEnabled(g, AskSpill(0, numbers)) && OthersWait(g, 0)
  {
    MayChooseThese(g, numbers);
  }

  lemma SpillAllKeeps(g: BuildGroup, read: multiset<Row>, numbers: set<nat>)
    requires OneLeft(g, read) && g.spilled == {}
    ensures var h := SpillAll(g, numbers);
            SameGroup(g, h) && h.spilled == numbers && FirstOnly(h, |h.ops| - 1) && h.ops[0].read == read
  {
  }

  lemma AskResult(h: BuildGroup, read: multiset<Row>, op: Op)
    requires |h.ops| >= 1 && FirstOnly(h, |h.ops| - 1) && op.read == read && op.phase == Running
    ensures OneLeft(h.(ops := h.ops[0 := op]), read)
  {
  }

  ghost function NewOp(): Op {
    Op(Running, BuilderRows(multiset{}, map[]), multiset{}, multiset{})
  }

  lemma AllStored(r: Round, rows: multiset<Row>)
    ensures Accept(r, BuilderRows(multiset{}, map[]), rows).table == rows
  {
    assert Select(rows, InMemory(r, {})) == rows;
  }

  /** The first builder reads the rows and stores them. */
  lemma StoreAll(groups: seq<BuildGroup>, steps: seq<GroupStep>, rows: multiset<Row>)
    returns (groups': seq<BuildGroup>, steps': seq<GroupStep>)
    requires IsGroupRun(groups, steps)
    requires var g := groups[|steps|];
             OneLeft(g, multiset{}) && g.ops[0] == NewOp() && g.spilled == {}
    ensures IsGroupRun(groups', steps') && groups'[0] == groups[0]
    ensures var g, g' := groups[|steps|], groups'[|steps'|];
            && SameGroup(g, g') && OneLeft(g', rows) && g'.spilled == {} && g'.ops[0].phase == Running
            && g'.ops[0].rows.table == ActiveRows(g.jt, rows)
  {
    var g := groups[|steps|];
    ReadStep(g, multiset{}, rows);
    groups', steps' := GroupExtends(groups, steps, Read(0, rows));
    assert multiset{} + rows == rows;
    FitsStep(groups'[|steps'|], rows);
    groups', steps' := GroupExtends(groups', steps', Fits(0));
    AllStored(g.r, ActiveRows(g.jt, rows));
  }

  /** With an empty batch in hand it makes the group spill. */
  lemma SpillSome(groups: seq<BuildGroup>, steps: seq<GroupStep>, rows: multiset<Row>, numbers: set<nat>)
    returns (groups': seq<BuildGroup>, steps': seq<GroupStep>)
    requires IsGroupRun(groups, steps) && numbers != {}
    requires var g := groups[|steps|];
             && OneLeft(g, rows) && g.spilled == {} && g.ops[0].phase == Running
             && AllHaveRows(g.r, g.ops[0].rows.table, numbers)
    ensures IsGroupRun(groups', steps') && groups'[0] == groups[0]
    ensures var g, g' := groups[|steps|], groups'[|steps'|];
            SameGroup(g, g') && OneLeft(g', rows) && g'.spilled == numbers && g'.ops[0].phase == Running
  {
    ReadStep(groups[|steps|], rows, multiset{});
    groups', steps' := GroupExtends(groups, steps, Read(0, multiset{}));
    assert rows + multiset{} == rows;
    AskStep(groups'[|steps'|], rows, numbers);
    groups', steps' := GroupExtends(groups', steps', AskSpill(0, numbers));
  }

  lemma {:induction false} NothingRead(ops: seq<Op>)
    requires forall i :: 0 <= i < |ops| ==> ops[i].read == multiset{}
    ensures AllRead(ops) == multiset{}
  {
    if ops == [] {
    } else {
      NothingRead(ops[1..]);
    }
  }

  lemma FirstReads(ops: seq<Op>)
    requires |ops| >= 1 && forall i :: 1 <= i < |ops| ==> ops[i].read == multiset{}
    ensures AllRead(ops) == ops[0].read
  {
    NothingRead(ops[1..]);
  }

  ghost function StartGroup(g: Setting, offset: nat, n: nat): BuildGroup {
    BuildGroup(g.jt, RoundAt(g, offset), Pow2(g.numBits), seq(n, i => NewOp()), false, {})
  }

  lemma StartIsInit(g: Setting, offset: nat, n: nat)
    requires n >= 1
    ensures IsGroupInit(StartGroup(g, offset, n)) && IsGroupRun([StartGroup(g, offset, n)], [])
  {
    forall row
      ensures RoundAt(g, offset).number(row) < Pow2(g.numBits)
    {
    }
  }

  /** Any partitions may be spilled that have rows. */
  lemma RoundCanBeBuilt(g: Setting, offset: nat, rows: multiset<Row>, numbers: set<nat>, n: nat)
    returns (groups: seq<BuildGroup>, steps: seq<GroupStep>)
    requires n >= 1 && AllHaveRows(RoundAt(g, offset), ActiveRows(g.jt, rows), numbers)
    ensures BuildsRound(g, offset, rows, numbers, groups, steps) && |groups[0].ops| == n
  {
    StartIsInit(g, offset, n);
    groups, steps := [StartGroup(g, offset, n)], [];
    groups, steps := StopOthers(groups, steps, 0);
    groups, steps := StoreAll(groups, steps, rows);
    if numbers != {} {
      groups, steps := SpillSome(groups, steps, rows, numbers);
    }
    groups, steps := GroupExtends(groups, steps, Stop(0, {}));
    FirstReads(groups[|steps|].ops);
  }

  // ------------------------------------------------------------------------------------------------
  // A next state of the rows
  // ------------------------------------------------------------------------------------------------

  lemma {:induction false} InSomeOrder(m: multiset<Row>) returns (rows: seq<Row>)
    ensures multiset(rows) == m
    decreases |m|
  {
    rows := [];
    if m != multiset{} {
      var x :| x in m;
      rows := InSomeOrder(m - multiset{x});
      rows := rows + [x];
    }
  }

  lemma {:induction false} OnePerKey(stored: multiset<Row>) returns (table: seq<Row>)
    ensures DistinctKeys(table) && multiset(table) <= stored && Keys(multiset(table)) == Keys(stored)
    decreases |stored|
  {
    table := [];
    if stored != multiset{} {
      var x :| x in stored;
      var rest := stored - multiset{x};
      table := OnePerKey(rest);
      KeysOfMore(rest, x, stored);
      if x.key !in Keys(rest) {
        KeysOfMore(multiset(table), x, multiset(table + [x]));
        NewKey(table, x);
        table := table + [x];
      }
    }
  }

  lemma KeysOfMore(rest: multiset<Row>, x: Row, m: multiset<Row>)
    requires m == rest + multiset{x}
    ensures Keys(m) == Keys(rest) + {x.key}
  {
    forall key | key in Keys(rest) + {x.key}
      ensures key in Keys(m)
    {
      if key in Keys(rest) {
        var r :| r in rest && r.key == key;
        assert r in m;
      } else {
        assert x in m;
      }
    }
  }

  lemma NewKey(table: seq<Row>, x: Row)
    requires DistinctKeys(table) && x.key !in Keys(multiset(table))
    ensures DistinctKeys(table + [x])
  {
    forall i | 0 <= i < |table|
      ensures table[i].key != x.key
    {
      assert table[i] in multiset(table);
    }
  }

  lemma SomeTable(jt: JoinType, stored: multiset<Row>) returns (table: seq<Row>)
    ensures IsTable(jt, stored, table)
  {
    if DropsDuplicates(jt) {
      table := OnePerKey(stored);
    } else {
      table := InSomeOrder(stored);
    }
  }

  /** Every partition that is to be spilled has a row. */
  ghost predicate PartitionsFilled(g: Setting, s: Protocol, d: JoinData, spilled: SpillPartitionSet) {
    AllHaveRows(RoundAt(g, RoundOffset(s)), ActiveRows(g.jt, d.buildInput), NumbersOf(spilled.Keys))
  }

  lemma FilledCanBeSpilled(g: Setting, s: Protocol, d: JoinData, spilled: SpillPartitionSet)
    returns (groups: seq<BuildGroup>, groupSteps: seq<GroupStep>, d': JoinData)
    requires |s.builders| >= 1 && PartitionsFilled(g, s, d, spilled)
    ensures RoundBuilt(g, s, d, spilled, groups, groupSteps, d')
  {
    groups, groupSteps :=
      RoundCanBeBuilt(g, RoundOffset(s), d.buildInput, NumbersOf(spilled.Keys), |s.builders|);
    var ops := groups[|groupSteps|].ops;
    var table := SomeTable(g.jt, AllTables(ops));
    d' := d.(buildInput := multiset{}, table := table, flags := NoFlags(table),
             builtSpilled := d.builtSpilled + BuiltFiles(ops, spilled.Keys));
  }

  lemma SpilledIsFilled(
      g: Setting, s: Protocol, d: JoinData, spilled: SpillPartitionSet,
      groups: seq<BuildGroup>, groupSteps: seq<GroupStep>, d': JoinData)
    requires RoundBuilt(g, s, d, spilled, groups, groupSteps, d')
    ensures PartitionsFilled(g, s, d, spilled)
  {
    var offset, active := RoundOffset(s), ActiveRows(g.jt, d.buildInput);
    GroupBuildsTheRound(g, offset, d.buildInput, NumbersOf(spilled.Keys), groups, groupSteps);
    forall n | n in NumbersOf(spilled.Keys)
      ensures HasRowOf(RoundAt(g, offset), active, n)
    {
      var part := Part(g, active, SpillPartitionId(offset, n));
      assert part != multiset{};
      var row :| row in part;
      assert row in active && RoundAt(g, offset).number(row) == n;
    }
  }

  /** The last builder can end the round with these partitions spilled exactly if each of them has a row. */
  lemma BuildCanEndIff(g: Setting, s: Protocol, d: JoinData, i: nat, spilled: SpillPartitionSet, nulls: bool)
    requires s.config.Valid() && Sized(s, d) && Enabled(s, FinishBuild(i, spilled, nulls)) && LastToBuild(s, i)
    ensures (exists d' :: DataStep(g, s, d, FinishBuild(i, spilled, nulls), d')) <==> PartitionsFilled(g, s, d, spilled)
  {
    var step := FinishBuild(i, spilled, nulls);
    if d' :| DataStep(g, s, d, step, d') {
      var groups, groupSteps :| RoundBuilt(g, s, d, spilled, groups, groupSteps, d');
      SpilledIsFilled(g, s, d, spilled, groups, groupSteps, d');
    }
    if PartitionsFilled(g, s, d, spilled) {
      var groups, groupSteps, d' := FilledCanBeSpilled(g, s, d, spilled);
      assert DataStep(g, s, d, step, d');
    }
  }

  /** Every other step has a next state of the rows, and so has this one. */
  lemma StepHasRows(g: Setting, s: Protocol, d: JoinData, step: Step) returns (d': JoinData)
    requires s.config.Valid() && Sized(s, d) && Enabled(s, step)
    requires step.FinishBuild? && LastToBuild(s, step.builder) ==> PartitionsFilled(g, s, d, step.spilled)
    ensures DataStep(g, s, d, step, d')
  {
    d' := d;
    match step
    case FinishBuild(i, spilled, nulls) =>
      if LastToBuild(s, i) {
        BuildCanEndIff(g, s, d, i, spilled, nulls);
        d' :| DataStep(g, s, d, step, d');
      }
    case FinishBuildNullKeys(_) =>
    case PollBuild(_) =>
    case PollProbe(j) =>
      if s.bridge.buildResult.Some? && s.bridge.buildResult.value.restoredPartitionId.Some? {
        var id := s.bridge.buildResult.value.restoredPartitionId.value;
        d' := d.(probeInput := d.probeInput[j := d.probeInput[j] + Spilled(d.probeSpilled[j], id)],
                 probeSpilled := d.probeSpilled[j := d.probeSpilled[j] - {id}]);
      }
    case FinishInput(j) =>
      var input := InSomeOrder(d.probeInput[j]);
      d' := AfterInput(g, d, j, s.probers[j].inputIds, input);
      assert InputProbed(g, d, j, s.probers[j].inputIds, input, d');
    case FinishProbe(j) =>
      d' := AfterProbe(g, d, j);
      if s.probers[j].pendingIds != {} && s.bridge.pending != map[] {
        assert s.bridge.pending.Keys != {};
        var id := First(s.bridge.pending.Keys);
        d' := d'.(buildInput := Spilled(d.builtSpilled, id), builtSpilled := d.builtSpilled - {id});
      }
  }

  /** A join that is not at rest can go on, with its rows. */
  lemma JoinCanGoOn(g: Setting, s: Protocol, d: JoinData) returns (step: Step, d': JoinData)
    requires DataFits(g, s, d) && !AtRest(s)
    ensures Enabled(s, step) && DataStep(g, s, d, step, d')
  {
    step :| Enabled(s, step);
    if step.FinishBuild? {
      step := FinishBuild(step.builder, map[], step.hasNullKeys);
    }
    d' := StepHasRows(g, s, d, step);
  }

  // ------------------------------------------------------------------------------------------------
  // Runs to the end
  // ------------------------------------------------------------------------------------------------

  ghost predicate Extends(longer: DataRun, run: DataRun) {
    && |run.states| <= |longer.states| && longer.states[..|run.states|] == run.states
    && |run.steps| <= |longer.steps| && longer.steps[..|run.steps|] == run.steps
    && |run.data| <= |longer.data| && longer.data[..|run.data|] == run.data
  }

  ghost function OneMore(run: DataRun, t: Protocol, step: Step, d: JoinData): DataRun {
    DataRun(run.states + [t], run.steps + [step], run.data + [d])
  }

  lemma SameStepAt(g: Setting, run: DataRun, t: Protocol, step: Step, d: JoinData, k: nat)
    requires |run.states| == |run.steps| + 1 && |run.data| == |run.states| && k < |run.steps| && DataStepAt(g, run, k)
    ensures DataStepAt(g, OneMore(run, t, step, d), k)
  {
    var more := OneMore(run, t, step, d);
    assert more.states[k] == run.states[k] && more.states[k + 1] == run.states[k + 1] && more.steps[k] == run.steps[k];
    assert more.data[k] == run.data[k] && more.data[k + 1] == run.data[k + 1];
  }

  lemma LastStepAt(g: Setting, run: DataRun, step: Step, d: JoinData)
    requires |run.states| == |run.steps| + 1 && |run.data| == |run.states|
    requires var s := run.states[|run.steps|];
             && s.config.Valid() && Enabled(s, step) && Sized(s, run.data[|run.steps|])
             && DataStep(g, s, run.data[|run.steps|], step, d)
    ensures DataStepAt(g, OneMore(run, Apply(run.states[|run.steps|], step), step, d), |run.steps|)
  {
    var n, s := |run.steps|, run.states[|run.steps|];
    var more := OneMore(run, Apply(s, step), step, d);
    assert more.states[n] == s && more.states[n + 1] == Apply(s, step) && more.steps[n] == step;
    assert more.data[n] == run.data[n] && more.data[n + 1] == d;
  }

  lemma StepsOfMore(g: Setting, run: DataRun, t: Protocol, step: Step, d: JoinData)
    requires |run.states| == |run.steps| + 1 && |run.data| == |run.states|
    requires forall k: nat :: k < |run.steps| ==> DataStepAt(g, run, k)
    requires DataStepAt(g, OneMore(run, t, step, d), |run.steps|)
    ensures forall k: nat :: k <= |run.steps| ==> DataStepAt(g, OneMore(run, t, step, d), k)
  {
    forall k: nat | k < |run.steps|
      ensures DataStepAt(g, OneMore(run, t, step, d), k)
    {
      assert DataStepAt(g, run, k);
      SameStepAt(g, run, t, step, d, k);
    }
  }

  lemma RunExtends(g: Setting, run: DataRun, left: multiset<Row>, right: multiset<Row>, step: Step, d: JoinData)
    requires IsDataRun(g, run, left, right)
    requires var s := run.states[|run.steps|];
             && s.config.Valid() && Enabled(s, step) && Sized(s, run.data[|run.steps|])
             && DataStep(g, s, run.data[|run.steps|], step, d)
    ensures IsDataRun(g, OneMore(run, Apply(run.states[|run.steps|], step), step, d), left, right)
  {
    var t := Apply(run.states[|run.steps|], step);
    LastStepAt(g, run, step, d);
    StepsOfMore(g, run, t, step, d);
    RunOfSteps(g, OneMore(run, t, step, d), left, right);
  }

  lemma RunOfSteps(g: Setting, run: DataRun, left: multiset<Row>, right: multiset<Row>)
    requires |run.states| == |run.steps| + 1 && |run.data| == |run.states| && IsInit(run.states[0])
    requires SettingFits(g, run.states[0]) && InitData(run.states[0], run.data[0], left, right)
    requires forall k: nat :: k < |run.steps| ==> DataStepAt(g, run, k)
    ensures IsDataRun(g, run, left, right)
  {
    forall k: nat | k < |run.steps|
      ensures StepAt(run.states, run.steps, k)
    {
      assert DataStepAt(g, run, k);
    }
  }

  lemma {:induction false} EndFrom(g: Setting, run: DataRun, left: multiset<Row>, right: multiset<Row>)
    returns (longer: DataRun)
    requires IsDataRun(g, run, left, right) && DataFits(g, run.states[|run.steps|], run.data[|run.steps|])
    ensures IsDataRun(g, longer, left, right) && Extends(longer, run) && AtRest(longer.states[|longer.steps|])
    decreases StepsLeft(run.states[|run.steps|])
  {
    var n := |run.steps|;
    var s, d := run.states[n], run.data[n];
    longer := run;
    if !AtRest(s) {
      var step, d' := JoinCanGoOn(g, s, d);
      RunExtends(g, run, left, right, step, d');
      StepsLeftFalls(s, step);
      StepKeepsFit(g, s, d, step, d');
      longer := EndFrom(g, OneMore(run, Apply(s, step), step, d'), left, right);
      StillExtends(longer, run, Apply(s, step), step, d');
    }
  }

  lemma StillExtends(longer: DataRun, run: DataRun, t: Protocol, step: Step, d: JoinData)
    requires Extends(longer, OneMore(run, t, step, d))
    ensures Extends(longer, run)
  {
    var more := OneMore(run, t, step, d);
    assert longer.states[..|run.states|] == more.states[..|run.states|];
    assert longer.steps[..|run.steps|] == more.steps[..|run.steps|];
    assert longer.data[..|run.data|] == more.data[..|run.data|];
  }

  /** Every run of a join with its rows can be continued to its end. */
  lemma RunCanEnd(g: Setting, run: DataRun, left: multiset<Row>, right: multiset<Row>) returns (longer: DataRun)
    requires IsDataRun(g, run, left, right)
    ensures IsDataRun(g, longer, left, right) && Extends(longer, run) && AtRest(longer.states[|longer.steps|])
  {
    RunKeepsFit(g, run, left, right, |run.steps|);
    longer := EndFrom(g, run, left, right);
  }

  lemma ExtendsFirst(longer: DataRun, run: DataRun)
    requires Extends(longer, run) && |run.states| >= 1 && |run.steps| >= 1 && |run.data| >= 1
    ensures |longer.states| >= 1 && |longer.steps| >= 1 && |longer.data| >= 1
    ensures longer.states[0] == run.states[0] && longer.steps[0] == run.steps[0] && longer.data[0] == run.data[0]
  {
    assert longer.states[..|run.states|][0] == longer.states[0] && longer.steps[..|run.steps|][0] == longer.steps[0];
    assert longer.data[..|run.data|][0] == longer.data[0];
  }

  lemma RunOfOneStep(
      g: Setting, s: Protocol, d: JoinData, left: multiset<Row>, right: multiset<Row>, step: Step, d': JoinData)
    returns (run: DataRun)
    requires IsInit(s) && SettingFits(g, s) && InitData(s, d, left, right)
    requires s.config.Valid() && Enabled(s, step) && Sized(s, d) && DataStep(g, s, d, step, d')
    ensures IsDataRun(g, run, left, right)
    ensures |run.steps| == 1 && run.states[0] == s && run.steps[0] == step && run.data[0] == d
  {
    var start := DataRun([s], [], [d]);
    RunExtends(g, start, left, right, step, d');
    run := OneMore(start, Apply(s, step), step, d');
  }

  /** One builder may spill any partitions that have rows, and the run goes on to its end. */
  lemma SpillingRunExists(
      g: Setting, s: Protocol, d: JoinData, left: multiset<Row>, right: multiset<Row>, spilled: SpillPartitionSet)
    returns (run: DataRun)
    requires IsInit(s) && SettingFits(g, s) && InitData(s, d, left, right) && |s.builders| == 1
    requires SpilledInRound(s, spilled) && PartitionsFilled(g, s, d, spilled)
    ensures IsDataRun(g, run, left, right) && run.states[0] == s && run.data[0] == d
    ensures |run.steps| >= 1 && run.steps[0] == FinishBuild(0, spilled, false) && AtRest(run.states[|run.steps|])
  {
    var step := FinishBuild(0, spilled, false);
    InitFits(g, s, d, left, right);
    var d' := StepHasRows(g, s, d, step);
    var one := RunOfOneStep(g, s, d, left, right, step, d');
    run := RunCanEnd(g, one, left, right);
    ExtendsFirst(run, one);
  }

  /** In particular the partition of any row of the build side. */
  lemma RowCanBeSpilled(
      g: Setting, s: Protocol, d: JoinData, left: multiset<Row>, right: multiset<Row>, row: Row)
    returns (run: DataRun)
    requires IsInit(s) && SettingFits(g, s) && InitData(s, d, left, right) && |s.builders| == 1
    requires row in ActiveRows(g.jt, right)
    ensures IsDataRun(g, run, left, right) && run.states[0] == s && run.data[0] == d && |run.steps| >= 1
    ensures run.steps[0].FinishBuild? && PartitionOf(g, s.config.startBit, row) in run.steps[0].spilled
    ensures AtRest(run.states[|run.steps|])
    ensures g.jt != RightSemiProject ==> forall o :: run.data[|run.steps|].out[o] == JoinCount(g.jt, left, right, o)
  {
    var id := PartitionOf(g, s.config.startBit, row);
    var spilled: SpillPartitionSet := map[id := SpillPartition(id, [0])];
    assert HasRowOf(RoundAt(g, s.config.startBit), ActiveRows(g.jt, right), id.number);
    assert NumbersOf(spilled.Keys) == {id.number};
    run := SpillingRunExists(g, s, d, left, right, spilled);
    if g.jt != RightSemiProject {
      forall o
        ensures run.data[|run.steps|].out[o] == JoinCount(g.jt, left, right, o)
      {
        SpillingPreservesJoin(g, run, left, right, o);
      }
    }
  }
}
