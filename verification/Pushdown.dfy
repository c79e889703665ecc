/** Pushing filters on join keys up the pipeline, towards the scan. */
module Pushdowns {
  import opened Options
  import opened Sums
  import opened JoinSpecs

  /** Output column `output` is input column `input`, unchanged. */
  datatype Projection = Projection(input: nat, output: nat)

  /** A row of a pipeline, by channel. */
  type Record = seq<Option<int>>

  type Filter = Option<int> -> bool

  /** `run` is what the operator makes of its whole input. */
  datatype Operator = Operator(
    canAddDynamicFilter: bool, projections: seq<Projection>, run: seq<Record> -> seq<Record>)

  // ------------------------------------------------------------------------------------------------
  // The walk
  // ------------------------------------------------------------------------------------------------

  /** The first projection of the channel, if any. */
  function IdentityProjection(projections: seq<Projection>, outputChannel: nat): (r: Option<nat>)
    ensures r.None? <==> forall k :: 0 <= k < |projections| ==> projections[k].output != outputChannel
    ensures r.Some? ==> exists k :: 0 <= k < |projections| && projections[k] == Projection(r.value, outputChannel)
  {
    if projections == [] then None
    else if projections[0].output == outputChannel then Some(projections[0].input)
    else IdentityProjection(projections[1..], outputChannel)
  }

  lemma {:induction false} IdentityIsFirst(projections: seq<Projection>, k: nat)
    requires k < |projections| && forall j :: 0 <= j < k ==> projections[j].output != projections[k].output
    ensures IdentityProjection(projections, projections[k].output) == Some(projections[k].input)
  {
    if k == 0 {
    } else {
      IdentityIsFirst(projections[1..], k - 1);
    }
  }

  datatype Place = Place(index: nat, channel: nat)

  /** Where a filter on `channel` of the rows that enter operator `n` ends up: at the nearest operator
      upstream that computes the channel, or at the source. */
  function Landing(ops: seq<Operator>, n: nat, channel: nat): (p: Place)
    requires 1 <= n <= |ops|
    ensures p.index < n
  {
    if n == 1 then Place(0, channel)
    else
      var input := IdentityProjection(ops[n - 1].projections, channel);
      if input.None? then Place(n - 1, channel) else Landing(ops, n - 1, input.value)
  }

  /** The channels on the way from operator `n` up: `path[k]` is the channel of the rows that operator
      `n - 1 - k` returns, and each operator passed has the next one as its identity projection. */
  ghost predicate IsWalk(ops: seq<Operator>, n: nat, path: seq<nat>) {
    && 1 <= |path| <= n <= |ops|
    && forall k :: 0 <= k < |path| - 1 ==>
         IdentityProjection(ops[n - 1 - k].projections, path[k]) == Some(path[k + 1])
  }

  /** The walk ends at the source, or where the channel is not an identity projection. */
  ghost predicate WalksTo(ops: seq<Operator>, n: nat, channel: nat, path: seq<nat>, p: Place) {
    && IsWalk(ops, n, path) && path[0] == channel && p == Place(n - |path|, path[|path| - 1])
    && (p.index == 0 || IdentityProjection(ops[p.index].projections, p.channel).None?)
  }

  lemma {:induction false} LandingHasWalk(ops: seq<Operator>, n: nat, channel: nat) returns (path: seq<nat>)
    requires 1 <= n <= |ops|
    ensures WalksTo(ops, n, channel, path, Landing(ops, n, channel))
  {
    path := [channel];
    if n > 1 {
      var input := IdentityProjection(ops[n - 1].projections, channel);
      if input.Some? {
        var rest := LandingHasWalk(ops, n - 1, input.value);
        path := [channel] + rest;
        LongerWalk(ops, n, channel, rest);
      }
    }
  }

  lemma LongerWalk(ops: seq<Operator>, n: nat, channel: nat, rest: seq<nat>)
    requires 2 <= n <= |ops| && IsWalk(ops, n - 1, rest)
    requires IdentityProjection(ops[n - 1].projections, channel) == Some(rest[0])
    ensures IsWalk(ops, n, [channel] + rest)
  {
    var path := [channel] + rest;
    forall k | 0 <= k < |path| - 1
      ensures IdentityProjection(ops[n - 1 - k].projections, path[k]) == Some(path[k + 1])
    {
      if k > 0 {
        var i := k - 1;
        assert IdentityProjection(ops[n - 2 - i].projections, rest[i]) == Some(rest[i + 1]);
      }
    }
  }

  lemma ShorterWalk(ops: seq<Operator>, n: nat, path: seq<nat>)
    requires IsWalk(ops, n, path) && |path| > 1
    ensures IsWalk(ops, n - 1, path[1..]) && IdentityProjection(ops[n - 1].projections, path[0]) == Some(path[1])
  {
    var rest := path[1..];
    forall k | 0 <= k < |rest| - 1
      ensures IdentityProjection(ops[n - 2 - k].projections, rest[k]) == Some(rest[k + 1])
    {
      var i := k + 1;
      assert IdentityProjection(ops[n - 1 - i].projections, path[i]) == Some(path[i + 1]);
    }
  }

  lemma {:induction false} WalkLands(ops: seq<Operator>, n: nat, channel: nat, path: seq<nat>, p: Place)
    requires WalksTo(ops, n, channel, path, p)
    ensures p == Landing(ops, n, channel)
    decreases n
  {
    if |path| == 1 {
    } else {
      ShorterWalk(ops, n, path);
      WalkLands(ops, n - 1, path[1], path[1..], p);
    }
  }

  /** The landing place is where the walk goes, and nowhere else. */
  lemma LandingIff(ops: seq<Operator>, n: nat, channel: nat, p: Place)
    requires 1 <= n <= |ops|
    ensures p == Landing(ops, n, channel) <==> exists path :: WalksTo(ops, n, channel, path, p)
  {
    var path := LandingHasWalk(ops, n, channel);
    if path' :| WalksTo(ops, n, channel, path', p) {
      WalkLands(ops, n, channel, path', p);
    }
  }

  /** The operator at which the walk ends takes filters. */
  predicate Accepted(ops: seq<Operator>, n: nat, channel: nat)
    requires n < |ops|
  {
    n >= 1 && ops[Landing(ops, n, channel).index].canAddDynamicFilter
  }

  /** `canPushdownFilters`: the channels whose filters will be accepted. */
  method CanPushdownFilters(ops: seq<Operator>, n: nat, channels: seq<nat>) returns (supported: set<nat>)
    requires n < |ops|
    ensures forall c :: c in supported <==> c in channels && Accepted(ops, n, c)
  {
    supported := {};
    for i := 0 to |channels|
      invariant forall c :: c in supported <==> c in channels[..i] && Accepted(ops, n, c)
    {
      assert channels[..i + 1] == channels[..i] + [channels[i]];
      var channel := channels[i];
      var j := n - 1;
      while j >= 0
        invariant -1 <= j < n && (j < 0 ==> n == 0)
        invariant j >= 0 ==> Landing(ops, j + 1, channel) == Landing(ops, n, channels[i])
        invariant forall c :: c in supported <==> c in channels[..i] && Accepted(ops, n, c)
        decreases j
      {
        if j == 0 {
          if ops[j].canAddDynamicFilter {
            supported := supported + {channels[i]};
          }
          break;
        }
        var input := IdentityProjection(ops[j].projections, channel);
        if input.None? {
          if ops[j].canAddDynamicFilter {
            supported := supported + {channels[i]};
          }
          break;
        }
        channel := input.value;
        j := j - 1;
      }
    }
    assert channels[..|channels|] == channels;
  }

  /** The filters of one driver's operators, by place. */
  class Driver {
    const ops: seq<Operator>
    var installed: Installed

    constructor (ops: seq<Operator>)
      ensures this.ops == ops && installed == map[]
    {
      this.ops := ops;
      installed := map[];
    }

    /** One turn of `pushdownFilters`: it fails where the place does not take filters. */
    method PushdownFilter(n: nat, channel: nat, filter: Filter) returns (r: Result<Place>)
      requires 1 <= n < |ops|
      modifies this
      ensures r.CheckFailed? <==> !Accepted(ops, n, channel)
      ensures r.CheckFailed? ==> installed == old(installed)
      ensures r.Success? ==> r.value == Landing(ops, n, channel)
      ensures r.Success? ==> installed == Added(old(installed), r.value, filter)
    {
      var c := channel;
      var i := n - 1;
      while i > 0
        invariant 0 <= i < n && installed == old(installed)
        invariant Landing(ops, i + 1, c) == Landing(ops, n, channel)
      {
        var input := IdentityProjection(ops[i].projections, c);
        if input.None? {
          break;
        }
        c := input.value;
        i := i - 1;
      }
      if !ops[i].canAddDynamicFilter {
        return CheckFailed;
      }
      installed := Added(installed, Place(i, c), filter);
      r := Success(Place(i, c));
    }

    /** All filters of an operator, given as channels and filters. */
    method PushdownFilters(n: nat, channels: seq<nat>, filters: seq<Filter>) returns (r: Result<()>)
      requires n < |ops| && |filters| == |channels|
      modifies this
      ensures r.Success? <==> n == 0 || forall k :: 0 <= k < |channels| ==> Accepted(ops, n, channels[k])
      ensures r.Success? && n >= 1 ==> installed == AddedAll(old(installed), ops, n, channels, filters, |channels|)
      ensures n == 0 ==> installed == old(installed)
    {
      if n == 0 {
        return Success(());
      }
      for k := 0 to |channels|
        invariant installed == AddedAll(old(installed), ops, n, channels, filters, k)
        invariant forall j :: 0 <= j < k ==> Accepted(ops, n, channels[j])
      {
        var place := PushdownFilter(n, channels[k], filters[k]);
        if place.CheckFailed? {
          return CheckFailed;
        }
      }
      r := Success(());
    }

    /** What the prober does with a new table: it makes filters for the keys on supported channels only, the
        first such key where several read one channel, and installing them never trips a check. */
    method PushdownSupported(n: nat, keyChannels: seq<nat>, getFilter: nat -> Option<Filter>)
      returns (r: Result<()>, channels: seq<nat>, filters: seq<Filter>)
      requires n < |ops|
      modifies this
      ensures r.Success? && MadeInOrder(keyChannels, getFilter, |keyChannels|, channels, filters)
      ensures forall i :: 0 <= i < |keyChannels| && Accepted(ops, n, keyChannels[i]) && getFilter(i).Some? ==>
                keyChannels[i] in channels
      ensures n >= 1 ==> installed == AddedAll(old(installed), ops, n, channels, filters, |channels|)
    {
      var supported := CanPushdownFilters(ops, n, keyChannels);
      channels, filters := FirstFilters(keyChannels, getFilter, supported);
      r := PushdownFilters(n, channels, filters);
    }
  }

  /** Key `i` is the first of the keys on its channel for which a filter can be made. */
  ghost predicate FirstMade(keyChannels: seq<nat>, getFilter: nat -> Option<Filter>, i: nat) {
    && i < |keyChannels| && getFilter(i).Some?
    && forall j :: 0 <= j < i && keyChannels[j] == keyChannels[i] ==> getFilter(j).None?
  }

  /** Each channel has one filter, and it is that of the first key on the channel that makes one. */
  ghost predicate MadeInOrder(
    keyChannels: seq<nat>, getFilter: nat -> Option<Filter>, n: nat, channels: seq<nat>, filters: seq<Filter>)
  {
    && |channels| == |filters|
    && (forall j, k :: 0 <= j < k < |channels| ==> channels[j] != channels[k])
    && forall k :: 0 <= k < |channels| ==>
         exists i :: 0 <= i < n && FirstMade(keyChannels, getFilter, i)
                     && keyChannels[i] == channels[k] && getFilter(i) == Some(filters[k])
  }

  /** One filter per supported channel: that of the first key on it which makes one. */
  method FirstFilters(keyChannels: seq<nat>, getFilter: nat -> Option<Filter>, supported: set<nat>)
    returns (channels: seq<nat>, filters: seq<Filter>)
    ensures MadeInOrder(keyChannels, getFilter, |keyChannels|, channels, filters)
    ensures forall k :: 0 <= k < |channels| ==> channels[k] in supported
    ensures forall i :: 0 <= i < |keyChannels| && keyChannels[i] in supported && getFilter(i).Some? ==>
              keyChannels[i] in channels
  {
    channels, filters := [], [];
    for i := 0 to |keyChannels|
      invariant MadeInOrder(keyChannels, getFilter, i, channels, filters)
      invariant forall k :: 0 <= k < |channels| ==> channels[k] in supported
      invariant forall j :: 0 <= j < i && keyChannels[j] in supported && getFilter(j).Some? ==>
        keyChannels[j] in channels
    {
      if keyChannels[i] in supported && getFilter(i).Some? && keyChannels[i] !in channels {
        assert FirstMade(keyChannels, getFilter, i);
        channels := channels + [keyChannels[i]];
        filters := filters + [getFilter(i).value];
      }
    }
  }

  type Installed = map<Place, seq<Filter>>

  function Added(installed: Installed, place: Place, filter: Filter): Installed {
    installed[place := (if place in installed then installed[place] else []) + [filter]]
  }

  /** The first `k` filters, each added where its walk ends. */
  ghost function AddedAll(
    installed: Installed, ops: seq<Operator>, n: nat, channels: seq<nat>, filters: seq<Filter>, k: nat): Installed
    requires 1 <= n <= |ops| && k <= |channels| == |filters|
  {
    if k == 0 then installed
    else Added(AddedAll(installed, ops, n, channels, filters, k - 1), Landing(ops, n, channels[k - 1]), filters[k - 1])
  }

  // ------------------------------------------------------------------------------------------------
  // Filters on rows
  // ------------------------------------------------------------------------------------------------

  function Kept(rows: seq<Record>, p: Record -> bool): seq<Record> {
    if rows == [] then []
    else Kept(rows[..|rows| - 1], p) + if p(rows[|rows| - 1]) then [rows[|rows| - 1]] else []
  }

  predicate Passes(row: Record, channel: nat, f: Filter) {
    channel < |row| && f(row[channel])
  }

  function On(channel: nat, f: Filter): Record -> bool {
    (row: Record) => Passes(row, channel, f)
  }

  predicate PassesAll(row: Record, channel: nat, filters: seq<Filter>) {
    forall i :: 0 <= i < |filters| ==> Passes(row, channel, filters[i])
  }

  /** The row passes every filter that is installed at operator `k`. */
  ghost function At(installed: Installed, k: nat): Record -> bool {
    (row: Record) => forall c :: Place(k, c) in installed ==> PassesAll(row, c, installed[Place(k, c)])
  }

  /** The row passes the first `m` filters, each on its own channel. */
  ghost function OnAll(channels: seq<nat>, filters: seq<Filter>, m: nat): Record -> bool
    requires m <= |channels| == |filters|
  {
    (row: Record) => forall i :: 0 <= i < m ==> Passes(row, channels[i], filters[i])
  }

  lemma {:induction false} KeptSame(rows: seq<Record>, p: Record -> bool, q: Record -> bool)
    requires forall row :: p(row) == q(row)
    ensures Kept(rows, p) == Kept(rows, q)
  {
    if rows == [] {
    } else {
      KeptSame(rows[..|rows| - 1], p, q);
    }
  }

  lemma KeptNext(rows: seq<Record>, last: Record, p: Record -> bool)
    ensures Kept(rows + [last], p) == Kept(rows, p) + if p(last) then [last] else []
  {
    assert (rows + [last])[..|rows|] == rows;
  }

  lemma {:induction false} KeptTwice(rows: seq<Record>, p: Record -> bool, q: Record -> bool, both: Record -> bool)
    requires forall row :: both(row) == (p(row) && q(row))
    ensures Kept(Kept(rows, p), q) == Kept(rows, both)
  {
    if rows == [] {
    } else {
      var before, last := rows[..|rows| - 1], rows[|rows| - 1];
      KeptTwice(before, p, q, both);
      if p(last) {
        KeptNext(Kept(before, p), last, q);
      } else {
        assert Kept(rows, p) == Kept(before, p) + [] == Kept(before, p);
        assert Kept(rows, both) == Kept(before, both) + [] == Kept(before, both);
      }
    }
  }

  lemma FiltersCommute(rows: seq<Record>, p: Record -> bool, q: Record -> bool)
    ensures Kept(Kept(rows, p), q) == Kept(Kept(rows, q), p)
  {
    var both := (row: Record) => p(row) && q(row);
    KeptTwice(rows, p, q, both);
    KeptTwice(rows, q, p, both);
  }

  /** One more filter at operator `k` filters its output once more. */
  lemma AddedHere(installed: Installed, k: nat, channel: nat, f: Filter, rows: seq<Record>)
    ensures Kept(rows, At(Added(installed, Place(k, channel), f), k))
         == Kept(Kept(rows, At(installed, k)), On(channel, f))
  {
    forall row: Record
      ensures At(Added(installed, Place(k, channel), f), k)(row) == (At(installed, k)(row) && On(channel, f)(row))
    {
      AddedHereRow(installed, k, channel, f, row);
    }
    KeptTwice(rows, At(installed, k), On(channel, f), At(Added(installed, Place(k, channel), f), k));
  }

  lemma OneMoreFilter(row: Record, channel: nat, filters: seq<Filter>, f: Filter)
    ensures PassesAll(row, channel, filters + [f]) <==> PassesAll(row, channel, filters) && Passes(row, channel, f)
  {
    if PassesAll(row, channel, filters + [f]) {
      assert (filters + [f])[|filters|] == f;
      assert forall i :: 0 <= i < |filters| ==> (filters + [f])[i] == filters[i];
    }
  }

  lemma AddedHereRow(installed: Installed, k: nat, channel: nat, f: Filter, row: Record)
    ensures At(Added(installed, Place(k, channel), f), k)(row) <==> At(installed, k)(row) && On(channel, f)(row)
  {
    var place := Place(k, channel);
    var old_ := if place in installed then installed[place] else [];
    var added := Added(installed, place, f);
    OneMoreFilter(row, channel, old_, f);
    assert added[place] == old_ + [f];
    assert forall c: nat :: c != channel && Place(k, c) in added ==> added[Place(k, c)] == installed[Place(k, c)];
  }

  /** A filter elsewhere changes nothing here. */
  lemma AddedElsewhere(installed: Installed, k: nat, place: Place, f: Filter, rows: seq<Record>)
    requires place.index != k
    ensures Kept(rows, At(Added(installed, place, f), k)) == Kept(rows, At(installed, k))
  {
    KeptSame(rows, At(Added(installed, place, f), k), At(installed, k));
  }

  // ------------------------------------------------------------------------------------------------
  // A filter upstream is a filter here
  // ------------------------------------------------------------------------------------------------

  /** Filtering before the operator is filtering after it. */
  ghost predicate CommutesOn(op: Operator, input: nat, output: nat, rows: seq<Record>, f: Filter) {
    op.run(Kept(rows, On(input, f))) == Kept(op.run(rows), On(output, f))
  }

  ghost predicate Commutes(op: Operator, input: nat, output: nat) {
    forall rows, f :: CommutesOn(op, input, output, rows, f)
  }

  /** What operator `k` returns for the source's rows, with the filters that are installed. */
  ghost function Output(ops: seq<Operator>, installed: Installed, source: seq<Record>, k: nat): seq<Record>
    requires k < |ops|
    decreases k, 1
  {
    Kept(Unfiltered(ops, installed, source, k), At(installed, k))
  }

  /** The same without the filters of operator `k` itself. */
  ghost function Unfiltered(ops: seq<Operator>, installed: Installed, source: seq<Record>, k: nat): seq<Record>
    requires k < |ops|
    decreases k, 0
  {
    if k == 0 then source else ops[k].run(Output(ops, installed, source, k - 1))
  }

  /** Every operator that the walk passes commutes with filters on the channels that it passes. */
  ghost predicate SkippedCommute(ops: seq<Operator>, n: nat, channel: nat)
    requires 1 <= n <= |ops|
  {
    n > 1 ==>
      var input := IdentityProjection(ops[n - 1].projections, channel);
      input.Some? ==> Commutes(ops[n - 1], input.value, channel) && SkippedCommute(ops, n - 1, input.value)
  }

  lemma {:induction false} SameBelow(
      ops: seq<Operator>, installed: Installed, source: seq<Record>, place: Place, f: Filter, k: nat)
    requires k <= place.index && k < |ops|
    ensures Unfiltered(ops, Added(installed, place, f), source, k) == Unfiltered(ops, installed, source, k)
  {
    if k == 0 {
    } else {
      SameBelow(ops, installed, source, place, f, k - 1);
      AddedElsewhere(installed, k - 1, place, f, Unfiltered(ops, installed, source, k - 1));
    }
  }

  /** Where the walk ends, the filter is applied to the output. */
  lemma LandsHere(ops: seq<Operator>, installed: Installed, source: seq<Record>, k: nat, channel: nat, f: Filter)
    requires k < |ops|
    ensures Output(ops, Added(installed, Place(k, channel), f), source, k)
         == Kept(Output(ops, installed, source, k), On(channel, f))
  {
    SameBelow(ops, installed, source, Place(k, channel), f, k);
    AddedHere(installed, k, channel, f, Unfiltered(ops, installed, source, k));
  }

  /** Where the walk goes on, the filter comes through the operator and through its own filters. */
  lemma ComesThrough(
      ops: seq<Operator>, installed: Installed, source: seq<Record>, k: nat, input: nat, channel: nat,
      place: Place, f: Filter)
    requires 1 <= k < |ops| && place.index < k && Commutes(ops[k], input, channel)
    requires Output(ops, Added(installed, place, f), source, k - 1)
          == Kept(Output(ops, installed, source, k - 1), On(input, f))
    ensures Output(ops, Added(installed, place, f), source, k)
         == Kept(Output(ops, installed, source, k), On(channel, f))
  {
    var rows := Output(ops, installed, source, k - 1);
    assert CommutesOn(ops[k], input, channel, rows, f);
    AddedElsewhere(installed, k, place, f, Kept(ops[k].run(rows), On(channel, f)));
    FiltersCommute(ops[k].run(rows), On(channel, f), At(installed, k));
  }

  /** Installing one filter, whatever is installed already, filters the rows that enter operator `n`. */
  lemma {:induction false} InstallingIsFiltering(
      ops: seq<Operator>, installed: Installed, source: seq<Record>, n: nat, channel: nat, f: Filter)
    requires 1 <= n <= |ops| && SkippedCommute(ops, n, channel)
    ensures Output(ops, Added(installed, Landing(ops, n, channel), f), source, n - 1)
         == Kept(Output(ops, installed, source, n - 1), On(channel, f))
  {
    var input := IdentityProjection(ops[n - 1].projections, channel);
    if n == 1 || input.None? {
      LandsHere(ops, installed, source, n - 1, channel, f);
    } else {
      InstallingIsFiltering(ops, installed, source, n - 1, input.value, f);
      ComesThrough(ops, installed, source, n - 1, input.value, channel, Landing(ops, n - 1, input.value), f);
    }
  }

  ghost predicate AllSkippedCommute(ops: seq<Operator>, n: nat, channels: seq<nat>)
    requires 1 <= n <= |ops|
  {
    forall i :: 0 <= i < |channels| ==> SkippedCommute(ops, n, channels[i])
  }

  lemma KeptByOneMore(rows: seq<Record>, channels: seq<nat>, filters: seq<Filter>, m: nat)
    requires 0 < m <= |channels| == |filters|
    ensures Kept(Kept(rows, OnAll(channels, filters, m - 1)), On(channels[m - 1], filters[m - 1]))
         == Kept(rows, OnAll(channels, filters, m))
  {
    KeptTwice(rows, OnAll(channels, filters, m - 1), On(channels[m - 1], filters[m - 1]), OnAll(channels, filters, m));
  }

  lemma {:induction false} KeptByNone(rows: seq<Record>, p: Record -> bool)
    requires forall row :: p(row)
    ensures Kept(rows, p) == rows
  {
    if rows == [] {
    } else {
      KeptByNone(rows[..|rows| - 1], p);
      assert rows == rows[..|rows| - 1] + [rows[|rows| - 1]];
    }
  }

  /** Installing any number of filters, two at one place or one behind another, filters the rows that enter
      operator `n` by all of them, if every operator passed commutes with row filters. */
  lemma {:induction false} PushdownIsFilter(
      ops: seq<Operator>, installed: Installed, source: seq<Record>, n: nat,
      channels: seq<nat>, filters: seq<Filter>, m: nat)
    requires 1 <= n <= |ops| && m <= |channels| == |filters| && AllSkippedCommute(ops, n, channels)
    ensures Output(ops, AddedAll(installed, ops, n, channels, filters, m), source, n - 1)
         == Kept(Output(ops, installed, source, n - 1), OnAll(channels, filters, m))
  {
    var rows := Output(ops, installed, source, n - 1);
    if m == 0 {
      KeptByNone(rows, OnAll(channels, filters, 0));
    } else {
      PushdownIsFilter(ops, installed, source, n, channels, filters, m - 1);
      InstallingIsFiltering(
        ops, AddedAll(installed, ops, n, channels, filters, m - 1), source, n, channels[m - 1], filters[m - 1]);
      KeptByOneMore(rows, channels, filters, m);
    }
  }

  // ------------------------------------------------------------------------------------------------
  // The join result
  // ------------------------------------------------------------------------------------------------

  /** The key of a probe row, taken from its key channels. */
  function KeyOf(row: Record, keyChannels: seq<nat>): (key: seq<Option<int>>)
    ensures |key| == |keyChannels|
  {
    seq(|keyChannels|, i requires 0 <= i < |keyChannels| =>
      if keyChannels[i] < |row| then row[keyChannels[i]] else None)
  }

  function ProbeRow(row: Record, keyChannels: seq<nat>, payload: Record -> int): Row {
    Row(KeyOf(row, keyChannels), payload(row))
  }

  /** The probe side of the join; `payload` numbers the rest of a row. */
  ghost function ProbeRows(rows: seq<Record>, keyChannels: seq<nat>, payload: Record -> int): multiset<Row> {
    if rows == [] then multiset{}
    else
      ProbeRows(rows[..|rows| - 1], keyChannels, payload) + multiset{ProbeRow(rows[|rows| - 1], keyChannels, payload)}
  }

  /** The filter keeps every value that some build row has in this key column. */
  ghost predicate KeepsBuildValues(f: Filter, right: multiset<Row>, i: nat) {
    forall r :: r in right && i < |r.key| && r.key[i].Some? ==> f(r.key[i])
  }

  /** The filter is made from a key column that is read from this channel. */
  ghost predicate MadeFromKey(channel: nat, f: Filter, keyChannels: seq<nat>, right: multiset<Row>) {
    exists i :: 0 <= i < |keyChannels| && keyChannels[i] == channel && KeepsBuildValues(f, right, i)
  }

  ghost predicate AllFromKeys(channels: seq<nat>, filters: seq<Filter>, keyChannels: seq<nat>, right: multiset<Row>)
    requires |channels| == |filters|
  {
    forall k :: 0 <= k < |channels| ==> MadeFromKey(channels[k], filters[k], keyChannels, right)
  }

  /** The filters that the prober makes are made from keys, if each keeps the values of its own key column. */
  lemma SupportedFromKeys(
      keyChannels: seq<nat>, getFilter: nat -> Option<Filter>, channels: seq<nat>, filters: seq<Filter>,
      right: multiset<Row>)
    requires MadeInOrder(keyChannels, getFilter, |keyChannels|, channels, filters)
    requires forall i: nat :: i < |keyChannels| && getFilter(i).Some? ==>
               KeepsBuildValues(getFilter(i).value, right, i)
    ensures AllFromKeys(channels, filters, keyChannels, right)
  {
    forall k | 0 <= k < |channels|
      ensures MadeFromKey(channels[k], filters[k], keyChannels, right)
    {
      var i :| 0 <= i < |keyChannels| && FirstMade(keyChannels, getFilter, i)
               && keyChannels[i] == channels[k] && getFilter(i) == Some(filters[k]);
      assert KeepsBuildValues(filters[k], right, i);
    }
  }

  /** The build value is kept, so a probe row that is dropped has no match. */
  lemma DroppedHasNoMatch(
      row: Record, keyChannels: seq<nat>, payload: Record -> int, channel: nat, f: Filter, right: multiset<Row>, r: Row)
    requires MadeFromKey(channel, f, keyChannels, right) && r in right && !Passes(row, channel, f)
    ensures !Matches(ProbeRow(row, keyChannels, payload), r)
  {
    var i :| 0 <= i < |keyChannels| && keyChannels[i] == channel && KeepsBuildValues(f, right, i);
    var key := KeyOf(row, keyChannels);
    assert key[i] in key;
  }

  /** The join types for which dynamic filters are made. */
  predicate MakesFilters(jt: JoinType) {
    jt.Inner? || jt.LeftSemiFilter? || jt.RightSemiFilter? || jt.RightSemiProject?
  }

  lemma UnmatchedRowsMayGo(jt: JoinType, left: multiset<Row>, dropped: multiset<Row>, right: multiset<Row>, o: OutRow)
    requires MakesFilters(jt) && forall l, r :: l in dropped && r in right ==> !Matches(l, r)
    ensures JoinCount(jt, left + dropped, right, o) == JoinCount(jt, left, right, o)
  {
    var none: multiset<Row> := multiset{};
    assert right + none == right;
    JoinSplits(jt, left, right, dropped, none, o);
    if o.left.Some? && o.right.Some? {
      TimesZero(dropped[o.left.value]);
    }
  }

  /** Every row of `dropped` is without a match. */
  ghost predicate NoMatches(dropped: multiset<Row>, right: multiset<Row>) {
    forall l, r :: l in dropped && r in right ==> !Matches(l, r)
  }

  lemma OneMoreProbeRow(rows: seq<Record>, last: Record, keyChannels: seq<nat>, payload: Record -> int)
    ensures ProbeRows(rows + [last], keyChannels, payload)
         == ProbeRows(rows, keyChannels, payload) + multiset{ProbeRow(last, keyChannels, payload)}
  {
    assert (rows + [last])[..|rows|] == rows;
  }

  /** Each row that `p` drops is without a match. */
  ghost predicate DropsUnmatched(
    p: Record -> bool, keyChannels: seq<nat>, payload: Record -> int, right: multiset<Row>)
  {
    forall row, r :: r in right && !p(row) ==> !Matches(ProbeRow(row, keyChannels, payload), r)
  }

  lemma {:induction false} FilterDropsUnmatched(
      rows: seq<Record>, keyChannels: seq<nat>, payload: Record -> int, p: Record -> bool, right: multiset<Row>)
    returns (dropped: multiset<Row>)
    requires DropsUnmatched(p, keyChannels, payload, right)
    ensures ProbeRows(rows, keyChannels, payload) == ProbeRows(Kept(rows, p), keyChannels, payload) + dropped
    ensures NoMatches(dropped, right)
  {
    dropped := multiset{};
    if rows == [] {
    } else {
      var before, last := rows[..|rows| - 1], rows[|rows| - 1];
      dropped := FilterDropsUnmatched(before, keyChannels, payload, p, right);
      var kept := Kept(before, p);
      if p(last) {
        OneMoreProbeRow(kept, last, keyChannels, payload);
      } else {
        assert Kept(rows, p) == kept + [] == kept;
        dropped := dropped + multiset{ProbeRow(last, keyChannels, payload)};
      }
    }
  }

  lemma AllDropUnmatched(
      channels: seq<nat>, filters: seq<Filter>, keyChannels: seq<nat>, payload: Record -> int, right: multiset<Row>)
    requires |channels| == |filters| && AllFromKeys(channels, filters, keyChannels, right)
    ensures DropsUnmatched(OnAll(channels, filters, |channels|), keyChannels, payload, right)
  {
    forall row, r | r in right && !OnAll(channels, filters, |channels|)(row)
      ensures !Matches(ProbeRow(row, keyChannels, payload), r)
    {
      var k :| 0 <= k < |channels| && !Passes(row, channels[k], filters[k]);
      DroppedHasNoMatch(row, keyChannels, payload, channels[k], filters[k], right, r);
    }
  }

  /** Pushing all the filters that a join makes from its keys as far up as the walks go does not change the
      join, whatever other filters are installed, if every operator passed commutes with row filters. */
  lemma PushdownKeepsJoin(
      jt: JoinType, ops: seq<Operator>, installed: Installed, source: seq<Record>, n: nat, keyChannels: seq<nat>,
      payload: Record -> int, channels: seq<nat>, filters: seq<Filter>, right: multiset<Row>, o: OutRow)
    requires MakesFilters(jt) && 1 <= n <= |ops| && |channels| == |filters|
    requires AllSkippedCommute(ops, n, channels) && AllFromKeys(channels, filters, keyChannels, right)
    ensures var after := AddedAll(installed, ops, n, channels, filters, |channels|);
            var rows, filtered := Output(ops, installed, source, n - 1), Output(ops, after, source, n - 1);
            JoinCount(jt, ProbeRows(filtered, keyChannels, payload), right, o) ==
            JoinCount(jt, ProbeRows(rows, keyChannels, payload), right, o)
  {
    PushdownIsFilter(ops, installed, source, n, channels, filters, |channels|);
    AllDropUnmatched(channels, filters, keyChannels, payload, right);
    var rows, p := Output(ops, installed, source, n - 1), OnAll(channels, filters, |channels|);
    var dropped := FilterDropsUnmatched(rows, keyChannels, payload, p, right);
    UnmatchedRowsMayGo(jt, ProbeRows(Kept(rows, p), keyChannels, payload), dropped, right, o);
  }
}
