/** Null-aware left semi project and anti joins: IN and NOT IN in three-valued logic (section 8.4 of
    ISO/IEC 9075-2), without extra filter and without spilling. */
module NullAware {
  import opened Options
  import opened JoinSpecs
  import JoinBridges

  type Key = seq<Option<int>>

  datatype Truth = True | False | Unknown

  // ------------------------------------------------------------------------------------------------
  // The predicate of the standard
  // ------------------------------------------------------------------------------------------------

  /** Two row values are certainly different when some pair of columns is. */
  predicate Differs(l: Key, r: Key)
    requires |l| == |r|
  {
    exists i :: 0 <= i < |l| && l[i].Some? && r[i].Some? && l[i] != r[i]
  }

  function RowEquals(l: Key, r: Key): Truth
    requires |l| == |r|
  {
    if Differs(l, r) then False else if HasNull(l) || HasNull(r) then Unknown else True
  }

  /** `l IN (keys)`: an OR over the comparisons. */
  ghost function In(l: Key, keys: set<Key>): Truth
    requires forall r :: r in keys ==> |r| == |l|
  {
    if exists r :: r in keys && RowEquals(l, r) == True then True
    else if forall r :: r in keys ==> RowEquals(l, r) == False then False
    else Unknown
  }

  lemma EqualIffSame(l: Key, r: Key)
    requires |l| == |r|
    ensures RowEquals(l, r) == True <==> l == r && !HasNull(l)
    ensures RowEquals(l, r) == False <==> Differs(l, r)
  {
    if l != r && !HasNull(l) && !HasNull(r) {
      var i :| 0 <= i < |l| && l[i] != r[i];
      assert l[i] in l && r[i] in r;
    }
  }

  /** IN is true if some key is the same and has no null, and false if all keys are certainly different. */
  lemma InMeans(l: Key, keys: set<Key>)
    requires forall r :: r in keys ==> |r| == |l|
    ensures In(l, keys) == True <==> l in keys && !HasNull(l)
    ensures In(l, keys) == False <==> forall r :: r in keys ==> Differs(l, r)
  {
    forall r | r in keys
      ensures RowEquals(l, r) == True <==> l == r && !HasNull(l)
      ensures RowEquals(l, r) == False <==> Differs(l, r)
    {
      EqualIffSame(l, r);
    }
  }

  // ------------------------------------------------------------------------------------------------
  // Building
  // ------------------------------------------------------------------------------------------------

  /** One builder: `keys` are the distinct non-null keys of its table. */
  datatype Builder = Builder(keys: set<Key>, hasNullKeys: bool, stopped: bool)

  function NonNullKeys(batch: seq<Row>): set<Key> {
    set r | r in batch && !HasNull(r.key) :: r.key
  }

  predicate AnyNullKey(batch: seq<Row>) {
    exists i :: 0 <= i < |batch| && HasNull(batch[i].key)
  }

  /** One more batch for a builder: an anti join stops for good at the first null key. */
  function Fed(jt: JoinType, b: Builder, batch: seq<Row>): Builder {
    if b.stopped then b
    else
      var hasNullKeys := b.hasNullKeys || AnyNullKey(batch);
      if jt == Anti && hasNullKeys then Builder(b.keys, true, true)
      else Builder(b.keys + NonNullKeys(batch), hasNullKeys, false)
  }

  function FedAll(jt: JoinType, batches: seq<seq<Row>>): Builder {
    if batches == [] then Builder({}, false, false)
    else Fed(jt, FedAll(jt, batches[..|batches| - 1]), batches[|batches| - 1])
  }

  class NullAwareBuild {
    const jt: JoinType
    var keys: set<Key>
    var joinHasNullKeys: bool
    var noMoreInput: bool

    constructor (jt: JoinType)
      ensures State() == Builder({}, false, false) && this.jt == jt
    {
      this.jt := jt;
      keys, joinHasNullKeys, noMoreInput := {}, false, false;
    }

    ghost function State(): Builder
      reads this
    {
      Builder(keys, joinHasNullKeys, noMoreInput)
    }

    /** Rows with a null key are deselected and noted; the others go to the table. */
    method AddInput(batch: seq<Row>)
      requires !noMoreInput
      modifies this
      ensures State() == Fed(jt, old(State()), batch)
    {
      var selected: set<nat> := {};
      for i := 0 to |batch|
        invariant selected == set k: nat | k < i && !HasNull(batch[k].key)
        invariant joinHasNullKeys == (old(joinHasNullKeys) || exists k :: 0 <= k < i && HasNull(batch[k].key))
        invariant keys == old(keys) && !noMoreInput
      {
        if HasNull(batch[i].key) {
          joinHasNullKeys := true;
        } else {
          selected := selected + {i};
        }
      }
      if jt == Anti && joinHasNullKeys {
        noMoreInput := true;
        return;
      }
      for i := 0 to |batch|
        invariant keys == old(keys) + set k: nat | k < i && k in selected :: batch[k].key
        invariant joinHasNullKeys == (old(joinHasNullKeys) || AnyNullKey(batch)) && !noMoreInput
      {
        if i in selected {
          keys := keys + {batch[i].key};
        }
      }
      assert keys == old(keys) + NonNullKeys(batch);
    }
  }

  /** What the bridge hands to the probers. */
  datatype Published = AntiJoinHasNullKeys | Table(keys: set<Key>, hasNullKeys: bool)

  ghost function AllKeysOf(builders: seq<Builder>): set<Key> {
    set b, k | b in builders && k in b.keys :: k
  }

  ghost predicate AnyBuilderHasNulls(builders: seq<Builder>) {
    exists i :: 0 <= i < |builders| && builders[i].hasNullKeys
  }

  /** The last builder gathers its peers' tables, and stops looking once an anti join has a null key. */
  method FinishHashBuild(jt: JoinType, self: Builder, peers: seq<Builder>) returns (p: Published)
    ensures p.AntiJoinHasNullKeys? <==> jt == Anti && AnyBuilderHasNulls(peers + [self])
    ensures p.Table? ==> p.keys == AllKeysOf(peers + [self]) && (p.hasNullKeys <==> AnyBuilderHasNulls(peers + [self]))
  {
    var joinHasNullKeys := self.hasNullKeys;
    var keys: set<Key> := self.keys;
    ghost var all := peers + [self];
    assert all[|peers|] == self;
    if joinHasNullKeys && jt == Anti {
      return AntiJoinHasNullKeys;
    }
    for i := 0 to |peers|
      invariant joinHasNullKeys == (self.hasNullKeys || exists k :: 0 <= k < i && all[k].hasNullKeys)
      invariant jt == Anti ==> !joinHasNullKeys
      invariant keys == self.keys + AllKeysOf(peers[..i])
    {
      assert all[i] == peers[i];
      assert peers[..i + 1] == peers[..i] + [peers[i]];
      if peers[i].hasNullKeys {
        joinHasNullKeys := true;
        if jt == Anti {
          return AntiJoinHasNullKeys;
        }
      }
      keys := keys + peers[i].keys;
    }
    assert peers[..|peers|] == peers;
    assert keys == AllKeysOf(all);
    p := Table(keys, joinHasNullKeys);
  }

  // ------------------------------------------------------------------------------------------------
  // Probing
  // ------------------------------------------------------------------------------------------------

  /** What the engine answers for key `l` against the non-null keys of the table. */
  function Answer(l: Key, keys: set<Key>, buildSideHasNullKeys: bool): Truth {
    if keys == {} then (if buildSideHasNullKeys then Unknown else False)
    else if HasNull(l) then Unknown
    else if l in keys then True
    else if buildSideHasNullKeys then Unknown else False
  }

  /** `fillLeftSemiProjectMatchColumn`: a constant column for an empty table, a loop otherwise. */
  method FillMatchColumn(input: seq<Row>, keys: set<Key>, buildSideHasNullKeys: bool)
    returns (column: seq<Option<bool>>)
    ensures |column| == |input|
    ensures forall i :: 0 <= i < |input| ==>
              var answer := Answer(input[i].key, keys, buildSideHasNullKeys);
              && (column[i] == Some(true) <==> answer == True) && (column[i] == Some(false) <==> answer == False)
              && (column[i] == None <==> answer == Unknown)
  {
    if keys == {} {
      if buildSideHasNullKeys {
        column := seq(|input|, i => None);
      } else {
        column := seq(|input|, i => Some(false));
      }
      return;
    }
    column := [];
    for i := 0 to |input|
      invariant |column| == i
      invariant forall k :: 0 <= k < i ==>
        var answer := Answer(input[k].key, keys, buildSideHasNullKeys);
        && (column[k] == Some(true) <==> answer == True) && (column[k] == Some(false) <==> answer == False)
        && (column[k] == None <==> answer == Unknown)
    {
      if HasNull(input[i].key) {
        column := column + [None];
      } else {
        var hasMatch := input[i].key in keys;
        if !hasMatch && buildSideHasNullKeys {
          column := column + [None];
        } else {
          column := column + [Some(hasMatch)];
        }
      }
    }
  }

  /** The input rows of an anti join's output, in order. */
  ghost predicate IsAntiMapping(input: seq<Row>, keys: set<Key>, n: nat, mapping: seq<nat>)
    requires n <= |input|
  {
    && (forall k :: 0 <= k < |mapping| ==> mapping[k] < n && Answer(input[mapping[k]].key, keys, false) == False)
    && (forall j, k :: 0 <= j < k < |mapping| ==> mapping[j] < mapping[k])
    && (forall i: nat :: i < n && Answer(input[i].key, keys, false) == False ==> i in mapping)
  }

  /** `getOutput` of a null-aware anti join whose build side has no null keys. */
  method AntiRows(input: seq<Row>, keys: set<Key>) returns (mapping: seq<nat>)
    ensures IsAntiMapping(input, keys, |input|, mapping)
  {
    if keys == {} {
      mapping := seq(|input|, i => i);
      forall i: nat | i < |input|
        ensures i in mapping
      {
        assert mapping[i] == i;
      }
      return;
    }
    mapping := [];
    for i := 0 to |input|
      invariant IsAntiMapping(input, keys, i, mapping)
    {
      if !HasNull(input[i].key) && input[i].key !in keys {
        ghost var was := mapping;
        mapping := mapping + [i];
        assert forall k: nat :: k in was ==> k in mapping;
        assert mapping[|was|] == i;
      }
    }
  }

  // ------------------------------------------------------------------------------------------------
  // IN and NOT IN
  // ------------------------------------------------------------------------------------------------

  /** The keys of all rows given to a builder, read or not. */
  ghost function InputKeys(batches: seq<seq<Row>>): set<Key> {
    set batch, r | batch in batches && r in batch :: r.key
  }

  ghost function NonNull(keys: set<Key>): set<Key> {
    set k | k in keys && !HasNull(k)
  }

  ghost predicate SomeNull(keys: set<Key>) {
    exists k :: k in keys && HasNull(k)
  }

  lemma InputKeysStep(batches: seq<seq<Row>>, batch: seq<Row>)
    ensures InputKeys(batches + [batch]) == InputKeys(batches) + set r | r in batch :: r.key
  {
  }

  lemma BatchKeys(batch: seq<Row>)
    ensures var all := set r | r in batch :: r.key;
            NonNull(all) == NonNullKeys(batch) && (SomeNull(all) <==> AnyNullKey(batch))
  {
    var all := set r | r in batch :: r.key;
    if i :| 0 <= i < |batch| && HasNull(batch[i].key) {
      assert batch[i].key in all;
    }
  }

  /** A builder that did not stop has the non-null keys of all its input; one that stopped did so on a
      null key. Either way it knows exactly whether its input has null keys. */
  lemma {:induction false} FedKnows(jt: JoinType, batches: seq<seq<Row>>)
    ensures var b := FedAll(jt, batches);
            && (b.hasNullKeys <==> SomeNull(InputKeys(batches)))
            && (b.stopped <==> jt == Anti && b.hasNullKeys)
            && (!b.stopped ==> b.keys == NonNull(InputKeys(batches)))
  {
    if batches == [] {
    } else {
      var before, last := batches[..|batches| - 1], batches[|batches| - 1];
      FedKnows(jt, before);
      assert batches == before + [last];
      InputKeysStep(before, last);
      BatchKeys(last);
    }
  }

  ghost function AllInput(inputs: seq<seq<seq<Row>>>): set<Key> {
    set batches, k | batches in inputs && k in InputKeys(batches) :: k
  }

  ghost function Builders(jt: JoinType, inputs: seq<seq<seq<Row>>>): seq<Builder> {
    seq(|inputs|, i requires 0 <= i < |inputs| => FedAll(jt, inputs[i]))
  }

  lemma BuilderKnows(jt: JoinType, inputs: seq<seq<seq<Row>>>, i: nat)
    requires i < |inputs|
    ensures var b := Builders(jt, inputs)[i];
            && b in Builders(jt, inputs)
            && (b.hasNullKeys <==> SomeNull(InputKeys(inputs[i])))
            && (b.stopped <==> jt == Anti && b.hasNullKeys)
            && (!b.stopped ==> b.keys == NonNull(InputKeys(inputs[i])))
            && InputKeys(inputs[i]) <= AllInput(inputs)
  {
    FedKnows(jt, inputs[i]);
    assert inputs[i] in inputs;
  }

  /** A key of the whole input is in the input of some builder. */
  lemma WhoseKey(inputs: seq<seq<seq<Row>>>, k: Key) returns (i: nat)
    requires k in AllInput(inputs)
    ensures i < |inputs| && k in InputKeys(inputs[i])
  {
    var batches :| batches in inputs && k in InputKeys(batches);
    i :| 0 <= i < |inputs| && inputs[i] == batches;
  }

  lemma BuildersKnowNulls(jt: JoinType, inputs: seq<seq<seq<Row>>>)
    ensures AnyBuilderHasNulls(Builders(jt, inputs)) <==> SomeNull(AllInput(inputs))
  {
    var builders := Builders(jt, inputs);
    if k :| k in AllInput(inputs) && HasNull(k) {
      var i := WhoseKey(inputs, k);
      BuilderKnows(jt, inputs, i);
      assert builders[i].hasNullKeys;
    }
    if i :| 0 <= i < |builders| && builders[i].hasNullKeys {
      BuilderKnows(jt, inputs, i);
    }
  }

  lemma BuildersHaveKey(jt: JoinType, inputs: seq<seq<seq<Row>>>, k: Key)
    requires !(jt == Anti && SomeNull(AllInput(inputs)))
    ensures k in AllKeysOf(Builders(jt, inputs)) <==> k in NonNull(AllInput(inputs))
  {
    var builders := Builders(jt, inputs);
    if k in NonNull(AllInput(inputs)) {
      var i := WhoseKey(inputs, k);
      BuilderKnows(jt, inputs, i);
      assert k in builders[i].keys;
    }
    if k in AllKeysOf(builders) {
      var b :| b in builders && k in b.keys;
      var i :| 0 <= i < |builders| && builders[i] == b;
      BuilderKnows(jt, inputs, i);
    }
  }

  lemma BuildersKnow(jt: JoinType, inputs: seq<seq<seq<Row>>>)
    ensures AnyBuilderHasNulls(Builders(jt, inputs)) <==> SomeNull(AllInput(inputs))
    ensures !(jt == Anti && SomeNull(AllInput(inputs))) ==> AllKeysOf(Builders(jt, inputs)) == NonNull(AllInput(inputs))
  {
    BuildersKnowNulls(jt, inputs);
    if !(jt == Anti && SomeNull(AllInput(inputs))) {
      forall k
        ensures k in AllKeysOf(Builders(jt, inputs)) <==> k in NonNull(AllInput(inputs))
      {
        BuildersHaveKey(jt, inputs, k);
      }
    }
  }

  /** No null is in the way, or the standard is undecided too. */
  ghost predicate Decidable(l: Key, keys: set<Key>)
    requires forall r :: r in keys ==> |r| == |l|
  {
    keys == {} || (!HasNull(l) && !SomeNull(keys)) || exists r :: r in keys && !Differs(l, r)
  }

  /** The engine's answer when no null is in the way, or when the standard is undecided too, is the
      standard's; it is wrong in no other way than by answering unknown where every comparison is
      certainly false, which takes a key of several columns. */
  lemma AnswerIsInIff(l: Key, keys: set<Key>)
    requires forall r :: r in keys ==> |r| == |l|
    ensures Answer(l, NonNull(keys), SomeNull(keys)) == In(l, keys) <==> Decidable(l, keys)
    ensures Answer(l, NonNull(keys), SomeNull(keys)) != In(l, keys) ==> In(l, keys) == False
  {
    forall r | r in keys
      ensures !HasNull(l) && !HasNull(r) ==> (Differs(l, r) <==> l != r)
    {
      if !HasNull(l) && !HasNull(r) && l != r {
        var i :| 0 <= i < |l| && l[i] != r[i];
        assert l[i] in l && r[i] in r;
      }
    }
    if l in NonNull(keys) {
      assert RowEquals(l, l) == True;
    }
    if keys != {} {
      var r :| r in keys;
      if !HasNull(r) {
        assert r in NonNull(keys);
      }
    }
  }

  lemma OneColumnIsUndecided(l: Key, keys: set<Key>)
    requires |l| == 1 && forall r :: r in keys ==> |r| == 1
    ensures Decidable(l, keys)
  {
    if keys != {} {
      if HasNull(l) {
        assert l[0] == None;
        var r :| r in keys;
        assert !Differs(l, r);
      } else if r :| r in keys && HasNull(r) {
        assert r[0] == None;
        assert !Differs(l, r);
      }
    }
  }

  ghost predicate SameWidth(l: Key, inputs: seq<seq<seq<Row>>>) {
    forall r :: r in AllInput(inputs) ==> |r| == |l|
  }

  /** The match column is the standard's answer exactly where it is decidable, whatever the number of
      builders and batches. */
  lemma AnswersAreExactIff(jt: JoinType, inputs: seq<seq<seq<Row>>>, l: Key)
    requires jt != Anti && SameWidth(l, inputs)
    ensures var builders := Builders(jt, inputs);
            Answer(l, AllKeysOf(builders), AnyBuilderHasNulls(builders)) == In(l, AllInput(inputs))
            <==> Decidable(l, AllInput(inputs))
  {
    BuildersKnow(jt, inputs);
    AnswerIsInIff(l, AllInput(inputs));
  }

  /** An anti join returns no row but those for which NOT IN is true, and of these exactly the decidable
      ones, whatever the number of builders, the batches and the point at which a builder stopped. */
  lemma AntiAnswersAreExactIff(inputs: seq<seq<seq<Row>>>, l: Key)
    requires SameWidth(l, inputs)
    ensures var builders := Builders(Anti, inputs);
            !AnyBuilderHasNulls(builders) && Answer(l, AllKeysOf(builders), false) == False
            <==> In(l, AllInput(inputs)) == False && Decidable(l, AllInput(inputs))
  {
    BuildersKnow(Anti, inputs);
    AnswerIsInIff(l, AllInput(inputs));
  }

  /** A key of two columns: (1, null) is certainly not (2, 3), but the engine answers unknown. */
  lemma TwoColumnsDiffer()
    ensures var l: Key := [Some(1), None];
            var r: Key := [Some(2), Some(3)];
            Answer(l, NonNull({r}), SomeNull({r})) == Unknown && In(l, {r}) == False
  {
    var l: Key := [Some(1), None];
    var r: Key := [Some(2), Some(3)];
    assert l[0] != r[0];
    assert l[1] == None;
    assert r in NonNull({r});
  }

  /** The last builder publishes through the bridge what it has gathered, and a prober takes it. */
  method HandOver(bridge: JoinBridges.HashJoinBridge<set<Key>>, who: JoinBridges.Party, p: Published)
    returns (result: JoinBridges.HashBuildResult<set<Key>>)
    requires bridge.started && bridge.buildResult.None? && bridge.restoringId.None? && bridge.restoringShards == []
    modifies bridge
    ensures p.Table? ==> result.table == Some(p.keys) && (result.hasNullKeys <==> p.hasNullKeys)
    ensures p.AntiJoinHasNullKeys? ==> result.table == None && result.hasNullKeys
  {
    if p.Table? {
      var _, _ := bridge.SetHashTable(p.keys, map[], p.hasNullKeys);
    } else {
      var _, _ := bridge.SetAntiJoinHasNullKeys();
    }
    var taken := bridge.TableOrFuture(who);
    result := taken.value.value;
  }

  /** The whole null-aware left semi project join, through the bridge: three-valued IN where it is decidable,
      and elsewhere null where IN is false. */
  method LeftSemiProjectIn(
      bridge: JoinBridges.HashJoinBridge<set<Key>>, who: JoinBridges.Party, self: Builder, peers: seq<Builder>,
      input: seq<Row>, ghost inputs: seq<seq<seq<Row>>>)
    returns (column: seq<Option<bool>>)
    requires bridge.started && bridge.buildResult.None? && bridge.restoringId.None? && bridge.restoringShards == []
    requires peers + [self] == Builders(LeftSemiProject, inputs)
    requires forall i, r :: 0 <= i < |input| && r in AllInput(inputs) ==> |r| == |input[i].key|
    modifies bridge
    ensures |column| == |input|
    ensures forall i :: 0 <= i < |input| && Decidable(input[i].key, AllInput(inputs)) ==>
              && (column[i] == Some(true) <==> In(input[i].key, AllInput(inputs)) == True)
              && (column[i] == Some(false) <==> In(input[i].key, AllInput(inputs)) == False)
              && (column[i] == None <==> In(input[i].key, AllInput(inputs)) == Unknown)
    ensures forall i :: 0 <= i < |input| && !Decidable(input[i].key, AllInput(inputs)) ==>
              column[i] == None && In(input[i].key, AllInput(inputs)) == False
    ensures forall i :: 0 <= i < |input| ==>
              (column[i] == Some(true) <==> input[i].key in AllInput(inputs) && !HasNull(input[i].key))
  {
    var p := FinishHashBuild(LeftSemiProject, self, peers);
    var result := HandOver(bridge, who, p);
    column := FillMatchColumn(input, result.table.value, result.hasNullKeys);
    forall i | 0 <= i < |input|
      ensures RowAnswered(column[i], input[i].key, AllInput(inputs))
    {
      AnswerOfJoin(inputs, input[i].key, Answer(input[i].key, result.table.value, result.hasNullKeys), column[i]);
    }
  }

  /** What the match column is to say about one row. */
  ghost predicate RowAnswered(c: Option<bool>, l: Key, keys: set<Key>)
    requires forall r :: r in keys ==> |r| == |l|
  {
    && (if Decidable(l, keys) then
          && (c == Some(true) <==> In(l, keys) == True) && (c == Some(false) <==> In(l, keys) == False)
          && (c == None <==> In(l, keys) == Unknown)
        else c == None && In(l, keys) == False)
    && (c == Some(true) <==> l in keys && !HasNull(l))
  }

  lemma AnswerOfJoin(inputs: seq<seq<seq<Row>>>, l: Key, answer: Truth, c: Option<bool>)
    requires SameWidth(l, inputs)
    requires var builders := Builders(LeftSemiProject, inputs);
             answer == Answer(l, AllKeysOf(builders), AnyBuilderHasNulls(builders))
    requires (c == Some(true) <==> answer == True) && (c == Some(false) <==> answer == False)
    requires c == None <==> answer == Unknown
    ensures RowAnswered(c, l, AllInput(inputs))
  {
    BuildersKnow(LeftSemiProject, inputs);
    AnswerIsInIff(l, AllInput(inputs));
    InMeans(l, AllInput(inputs));
  }

  /** The whole null-aware anti join, through the bridge: in order, the rows for which NOT IN is true and
      decidable. */
  method AntiNotIn(
      bridge: JoinBridges.HashJoinBridge<set<Key>>, who: JoinBridges.Party, self: Builder, peers: seq<Builder>,
      input: seq<Row>, ghost inputs: seq<seq<seq<Row>>>)
    returns (mapping: seq<nat>)
    requires bridge.started && bridge.buildResult.None? && bridge.restoringId.None? && bridge.restoringShards == []
    requires peers + [self] == Builders(Anti, inputs)
    requires forall i, r :: 0 <= i < |input| && r in AllInput(inputs) ==> |r| == |input[i].key|
    modifies bridge
    ensures forall k :: 0 <= k < |mapping| ==> mapping[k] < |input|
    ensures forall j, k :: 0 <= j < k < |mapping| ==> mapping[j] < mapping[k]
    ensures forall i: nat :: i < |input| ==>
              (i in mapping <==>
                 In(input[i].key, AllInput(inputs)) == False && Decidable(input[i].key, AllInput(inputs)))
  {
    var p := FinishHashBuild(Anti, self, peers);
    forall i | 0 <= i < |input|
      ensures p.Table? && Answer(input[i].key, p.keys, false) == False
         <==> In(input[i].key, AllInput(inputs)) == False && Decidable(input[i].key, AllInput(inputs))
    {
      AntiAnswersAreExactIff(inputs, input[i].key);
    }
    var result := HandOver(bridge, who, p);
    if result.hasNullKeys {
      mapping := [];
    } else {
      mapping := AntiRows(input, result.table.value);
    }
  }

  /** On one key column every row is decidable: the joins are IN and NOT IN. */
  lemma OneColumnIsExact(inputs: seq<seq<seq<Row>>>, l: Key)
    requires |l| == 1 && SameWidth(l, inputs)
    ensures Decidable(l, AllInput(inputs))
  {
    OneColumnIsUndecided(l, AllInput(inputs));
  }
}
