/** A limit, and what dynamic filters do when they are pushed through it. */
module Limits {
  import opened Options
  import opened Sums
  import opened JoinSpecs
  import opened Pushdowns

  /** At most the first `n`. */
  function Prefix(s: seq<Record>, n: nat): seq<Record> {
    if |s| <= n then s else s[..n]
  }

  /** What follows the first `n`. */
  function Suffix(s: seq<Record>, n: nat): seq<Record> {
    if |s| <= n then [] else s[n..]
  }

  /** The rows that the limit returns. */
  function Taken(rows: seq<Record>, offset: nat, count: nat): seq<Record> {
    Prefix(Suffix(rows, offset), count)
  }

  /** The rows behind them. */
  function Rest(rows: seq<Record>, offset: nat, count: nat): seq<Record> {
    Suffix(Suffix(rows, offset), count)
  }

  /** Row `i` of the limit's rows is row `offset + i`, up to the count or to the end. */
  lemma TakenMeans(rows: seq<Record>, offset: nat, count: nat)
    ensures |Taken(rows, offset, count)|
         == if |rows| <= offset then 0 else if |rows| - offset <= count then |rows| - offset else count
    ensures forall i :: 0 <= i < |Taken(rows, offset, count)| ==>
              offset + i < |rows| && Taken(rows, offset, count)[i] == rows[offset + i]
  {
  }

  lemma PrefixAndSuffix(s: seq<Record>, n: nat)
    ensures Prefix(s, n) + Suffix(s, n) == s
  {
  }

  // ------------------------------------------------------------------------------------------------
  // The operator, batch by batch
  // ------------------------------------------------------------------------------------------------

  /** All rows of the first `n` batches. */
  function Joined(batches: seq<seq<Record>>, n: nat): seq<Record>
    requires n <= |batches|
  {
    if n == 0 then [] else Joined(batches, n - 1) + batches[n - 1]
  }

  ghost predicate SoFar(
    rows: seq<Record>, offset: nat, count: nat, output: seq<Record>, remainingOffset: nat, remainingLimit: nat)
  {
    && output == Taken(rows, offset, count)
    && remainingOffset == offset - |Prefix(rows, offset)| && remainingLimit == count - |output|
  }

  class LimitOperator {
    var remainingOffset: nat
    var remainingLimit: nat
    var finished: bool

    ghost predicate Valid()
      reads this
    {
      finished <==> remainingLimit == 0
    }

    /** The plan node checks that the count is positive. */
    constructor (offset: nat, count: nat)
      requires count > 0
      ensures Valid() && !finished && remainingOffset == offset && remainingLimit == count
    {
      remainingOffset := offset;
      remainingLimit := count;
      finished := false;
    }

    /** `getOutput` for the next batch. */
    method GetOutput(input: seq<Record>) returns (output: seq<Record>)
      requires Valid() && !finished
      modifies this
      ensures Valid() && output == Taken(input, old(remainingOffset), old(remainingLimit))
      ensures remainingOffset == old(remainingOffset) - |Prefix(input, old(remainingOffset))|
      ensures remainingLimit == old(remainingLimit) - |output|
    {
      if remainingOffset >= |input| {
        remainingOffset := remainingOffset - |input|;
        return [];
      }
      if remainingOffset > 0 {
        var left := |input| - remainingOffset;
        var size := if left < remainingLimit then left else remainingLimit;
        output := input[remainingOffset..remainingOffset + size];
        remainingOffset := 0;
        remainingLimit := remainingLimit - size;
        if remainingLimit == 0 {
          finished := true;
        }
        return;
      }
      if remainingLimit <= |input| {
        finished := true;
      }
      if remainingLimit >= |input| {
        remainingLimit := remainingLimit - |input|;
        return input;
      }
      output := input[..remainingLimit];
      remainingLimit := 0;
    }

    method AddBatch(
        batch: seq<Record>, before: seq<Record>, ghost rows: seq<Record>, ghost offset: nat, ghost count: nat)
      returns (output: seq<Record>)
      requires Valid() && !finished && SoFar(rows, offset, count, before, remainingOffset, remainingLimit)
      modifies this
      ensures Valid() && SoFar(rows + batch, offset, count, output, remainingOffset, remainingLimit)
    {
      SoFarNext(rows, batch, offset, count, before, remainingOffset, remainingLimit);
      var more := GetOutput(batch);
      output := before + more;
    }

    /** The driver's loop: however the input is cut into batches, the rows from `offset` on come out, at
        most `count` of them. */
    method Drain(batches: seq<seq<Record>>) returns (output: seq<Record>)
      requires Valid()
      modifies this
      ensures output == Taken(Joined(batches, |batches|), old(remainingOffset), old(remainingLimit))
      ensures var rows := Joined(batches, |batches|);
              && |output| <= old(remainingLimit)
              && forall i :: 0 <= i < |output| ==>
                   old(remainingOffset) + i < |rows| && output[i] == rows[old(remainingOffset) + i]
    {
      output := [];
      ghost var offset, count := remainingOffset, remainingLimit;
      var k := 0;
      SoFarStart(offset, count);
      while k < |batches| && !finished
        invariant k <= |batches| && Valid()
        invariant SoFar(Joined(batches, k), offset, count, output, remainingOffset, remainingLimit)
      {
        output := AddBatch(batches[k], output, Joined(batches, k), offset, count);
        k := k + 1;
      }
      AllTaken(batches, k, offset, count, output, remainingOffset, remainingLimit);
      TakenMeans(Joined(batches, |batches|), offset, count);
    }
  }

  lemma SuffixFromStart(s: seq<Record>)
    ensures Suffix(s, 0) == s
  {
  }

  lemma SuffixOfSum(a: seq<Record>, b: seq<Record>, n: nat)
    ensures Suffix(a + b, n) == Suffix(a, n) + Suffix(b, n - |Prefix(a, n)|)
  {
    if |a + b| <= n {
    } else if |a| <= n {
      assert (a + b)[n..] == b[n - |a|..];
    } else {
      assert (a + b)[n..] == a[n..] + b;
      SuffixFromStart(b);
    }
  }

  lemma PrefixOfSum(a: seq<Record>, b: seq<Record>, n: nat)
    ensures Prefix(a + b, n) == Prefix(a, n) + Prefix(b, n - |Prefix(a, n)|)
  {
    if |a + b| <= n {
    } else if |a| <= n {
      assert (a + b)[..n] == a + b[..n - |a|];
    } else {
      assert (a + b)[..n] == a[..n];
    }
  }

  /** One more batch gives what is left of the limit. */
  lemma TakenInBatches(a: seq<Record>, b: seq<Record>, offset: nat, count: nat)
    ensures Taken(a + b, offset, count)
         == Taken(a, offset, count) + Taken(b, offset - |Prefix(a, offset)|, count - |Taken(a, offset, count)|)
    ensures |Prefix(a + b, offset)| == |Prefix(a, offset)| + |Prefix(b, offset - |Prefix(a, offset)|)|
  {
    SuffixOfSum(a, b, offset);
    PrefixOfSum(Suffix(a, offset), Suffix(b, offset - |Prefix(a, offset)|), count);
  }

  lemma SoFarNext(
      rows: seq<Record>, batch: seq<Record>, offset: nat, count: nat, output: seq<Record>,
      remainingOffset: nat, remainingLimit: nat)
    requires SoFar(rows, offset, count, output, remainingOffset, remainingLimit)
    ensures var more := Taken(batch, remainingOffset, remainingLimit);
            SoFar(rows + batch, offset, count, output + more,
                  remainingOffset - |Prefix(batch, remainingOffset)|, remainingLimit - |more|)
  {
    TakenInBatches(rows, batch, offset, count);
  }

  lemma FullStaysFull(a: seq<Record>, b: seq<Record>, offset: nat, count: nat)
    requires |Taken(a, offset, count)| == count
    ensures Taken(a + b, offset, count) == Taken(a, offset, count)
  {
    TakenInBatches(a, b, offset, count);
    var none := Taken(b, offset - |Prefix(a, offset)|, 0);
    assert none == [];
    assert Taken(a, offset, count) + none == Taken(a, offset, count);
  }

  /** Once the limit is reached, later batches do not matter. */
  lemma {:induction false} NoMoreTaken(batches: seq<seq<Record>>, k: nat, n: nat, offset: nat, count: nat)
    requires k <= n <= |batches| && (k == n || |Taken(Joined(batches, k), offset, count)| == count)
    ensures Taken(Joined(batches, n), offset, count) == Taken(Joined(batches, k), offset, count)
    decreases n
  {
    if k == n {
    } else {
      NoMoreTaken(batches, k, n - 1, offset, count);
      FullStaysFull(Joined(batches, n - 1), batches[n - 1], offset, count);
    }
  }

  lemma SoFarStart(offset: nat, count: nat)
    ensures SoFar([], offset, count, [], offset, count)
  {
  }

  lemma AllTaken(
      batches: seq<seq<Record>>, k: nat, offset: nat, count: nat, output: seq<Record>,
      remainingOffset: nat, remainingLimit: nat)
    requires k <= |batches| && (k == |batches| || remainingLimit == 0)
    requires SoFar(Joined(batches, k), offset, count, output, remainingOffset, remainingLimit)
    ensures output == Taken(Joined(batches, |batches|), offset, count)
  {
    NoMoreTaken(batches, k, |batches|, offset, count);
  }

  // ------------------------------------------------------------------------------------------------
  // When a limit commutes with a filter
  // ------------------------------------------------------------------------------------------------

  predicate AllPass(rows: seq<Record>, p: Record -> bool) {
    forall i :: 0 <= i < |rows| ==> p(rows[i])
  }

  predicate NonePass(rows: seq<Record>, p: Record -> bool) {
    forall i :: 0 <= i < |rows| ==> !p(rows[i])
  }

  lemma Associates(a: seq<Record>, b: seq<Record>, c: seq<Record>)
    ensures (a + b) + c == a + (b + c)
  {
  }

  lemma {:induction false} KeptOfSum(a: seq<Record>, b: seq<Record>, p: Record -> bool)
    ensures Kept(a + b, p) == Kept(a, p) + Kept(b, p)
  {
    if b == [] {
      assert a + b == a;
    } else {
      var before, last := b[..|b| - 1], b[|b| - 1];
      KeptOfSum(a, before, p);
      KeptNext(a + before, last, p);
      assert a + b == (a + before) + [last];
      Associates(Kept(a, p), Kept(before, p), if p(last) then [last] else []);
    }
  }

  lemma {:induction false} KeptSize(rows: seq<Record>, p: Record -> bool)
    ensures |Kept(rows, p)| <= |rows|
    ensures |Kept(rows, p)| == |rows| <==> AllPass(rows, p)
    ensures |Kept(rows, p)| == 0 <==> NonePass(rows, p)
  {
    if rows == [] {
    } else {
      var before, last := rows[..|rows| - 1], rows[|rows| - 1];
      KeptSize(before, p);
      assert rows == before + [last];
    }
  }

  /** How many of the rows that the limit skips the filter drops. */
  function DroppedAhead(rows: seq<Record>, offset: nat, p: Record -> bool): (n: nat)
  {
    KeptSize(Prefix(rows, offset), p);
    |Prefix(rows, offset)| - |Kept(Prefix(rows, offset), p)|
  }

  /** With the filter first, the limit skips rows that it took before, as many as were dropped ahead. */
  lemma FilteredFirst(rows: seq<Record>, offset: nat, count: nat, p: Record -> bool)
    ensures Taken(Kept(rows, p), offset, count)
         == Taken(Kept(Suffix(rows, offset), p), DroppedAhead(rows, offset, p), count)
  {
    var skipped, others := Prefix(rows, offset), Suffix(rows, offset);
    PrefixAndSuffix(rows, offset);
    KeptOfSum(skipped, others, p);
    assert Kept(rows, p) == Kept(skipped, p) + Kept(others, p);
    KeptSize(skipped, p);
    assert |skipped| == offset || others == [];
    SkipRest(Kept(skipped, p), Kept(others, p), |skipped|, offset);
  }

  lemma SkipRest(a: seq<Record>, b: seq<Record>, size: nat, n: nat)
    requires |a| <= size <= n && (size == n || b == [])
    ensures Suffix(a + b, n) == Suffix(b, size - |a|)
  {
    if b == [] {
    } else {
      SuffixOfSum(a, b, n);
      assert Suffix(a, n) + Suffix(b, n - |a|) == Suffix(b, n - |a|);
    }
  }

  lemma KeptSuffix(rows: seq<Record>, offset: nat, count: nat, p: Record -> bool)
    ensures Kept(Suffix(rows, offset), p) == Kept(Taken(rows, offset, count), p) + Kept(Rest(rows, offset, count), p)
  {
    PrefixAndSuffix(Suffix(rows, offset), count);
    KeptOfSum(Taken(rows, offset, count), Rest(rows, offset, count), p);
  }

  /** The first `m` of `kept`, and what is taken of it after `dropped` more are skipped, are the same. */
  predicate SameWindow(kept: seq<Record>, m: nat, dropped: nat, count: nat)
    requires m <= |kept|
  {
    || (dropped == 0 && (m == |kept| || m == count))
    || (m == 0 && (count == 0 || |kept| <= dropped))
    || (dropped + m <= |kept| && (dropped + m == |kept| || m == count)
        && forall i :: 0 <= i < m ==> kept[dropped + i] == kept[i])
  }

  lemma SameWindowIff(kept: seq<Record>, m: nat, dropped: nat, count: nat)
    requires m <= |kept| && m <= count
    ensures Taken(kept, dropped, count) == kept[..m] <==> SameWindow(kept, m, dropped, count)
  {
    var window := Taken(kept, dropped, count);
    if window == kept[..m] && m > 0 {
      forall i | 0 <= i < m
        ensures kept[dropped + i] == kept[i]
      {
        assert window[i] == kept[..m][i];
      }
    }
  }

  /** Either no skipped row is dropped, and then the limit takes all rows that there are, or the filter
      drops no row that the limit takes or keeps none behind them; or the filter drops all rows that the
      limit takes, and of those behind them it keeps no more than make up for the skipped rows that it
      drops; or the rows that are kept repeat with the distance by which the limit is moved. */
  ghost predicate LimitCommutes(rows: seq<Record>, offset: nat, count: nat, p: Record -> bool) {
    var taken, rest := Taken(rows, offset, count), Rest(rows, offset, count);
    var dropped, kept := DroppedAhead(rows, offset, p), Kept(taken, p) + Kept(rest, p);
    || (AllPass(Prefix(rows, offset), p) && (rest == [] || AllPass(taken, p) || NonePass(rest, p)))
    || (NonePass(taken, p) && (count == 0 || |Kept(rest, p)| <= dropped))
    || (dropped <= |Kept(rest, p)| && (dropped == |Kept(rest, p)| || AllPass(taken, p))
        && forall i :: 0 <= i < |Kept(taken, p)| ==> kept[dropped + i] == kept[i])
  }

  lemma WindowIffCommutes(rows: seq<Record>, offset: nat, count: nat, p: Record -> bool)
    ensures var kept := Kept(Taken(rows, offset, count), p);
            SameWindow(kept + Kept(Rest(rows, offset, count), p), |kept|, DroppedAhead(rows, offset, p), count)
            <==> LimitCommutes(rows, offset, count, p)
  {
    KeptSize(Prefix(rows, offset), p);
    KeptSize(Taken(rows, offset, count), p);
    KeptSize(Rest(rows, offset, count), p);
  }

  lemma LimitCommutesIff(rows: seq<Record>, offset: nat, count: nat, p: Record -> bool)
    ensures Taken(Kept(rows, p), offset, count) == Kept(Taken(rows, offset, count), p)
       <==> LimitCommutes(rows, offset, count, p)
  {
    var taken, rest := Taken(rows, offset, count), Rest(rows, offset, count);
    var dropped, kept := DroppedAhead(rows, offset, p), Kept(taken, p) + Kept(rest, p);
    FilteredFirst(rows, offset, count, p);
    KeptSuffix(rows, offset, count, p);
    KeptSize(taken, p);
    assert kept[..|Kept(taken, p)|] == Kept(taken, p);
    SameWindowIff(kept, |Kept(taken, p)|, dropped, count);
    WindowIffCommutes(rows, offset, count, p);
  }

  /** The operator of the pipeline: every column passes through it unchanged. */
  function Limit(offset: nat, count: nat, columns: nat): Operator {
    Operator(false, seq(columns, i requires 0 <= i < columns => Projection(i, i)),
             (rows: seq<Record>) => Taken(rows, offset, count))
  }

  /** When filtering a column before the limit is filtering it behind the limit. */
  lemma LimitCommutesOnIff(offset: nat, count: nat, columns: nat, channel: nat, rows: seq<Record>, f: Filter)
    ensures CommutesOn(Limit(offset, count, columns), channel, channel, rows, f)
       <==> LimitCommutes(rows, offset, count, On(channel, f))
  {
    LimitCommutesIff(rows, offset, count, On(channel, f));
  }

  /** A limit without an offset: it takes all rows that there are, or all rows that it takes pass, or none
      of the others does. */
  lemma PlainLimitCommutesIff(count: nat, columns: nat, channel: nat, rows: seq<Record>, f: Filter)
    ensures CommutesOn(Limit(0, count, columns), channel, channel, rows, f)
       <==> || |rows| <= count
            || (forall r :: r in rows[..count] ==> Passes(r, channel, f))
            || (forall r :: r in rows[count..] ==> !Passes(r, channel, f))
  {
    var p := On(channel, f);
    LimitCommutesIff(rows, 0, count, p);
    SuffixFromStart(rows);
    assert Prefix(rows, 0) == [];
    assert AllPass(Prefix(rows, 0), p) && DroppedAhead(rows, 0, p) == 0;
    KeptSize(Taken(rows, 0, count), p);
    KeptSize(Rest(rows, 0, count), p);
    if |rows| > count {
      assert Taken(rows, 0, count) == rows[..count] && Rest(rows, 0, count) == rows[count..];
      assert AllPass(rows[..count], p) <==> forall r :: r in rows[..count] ==> Passes(r, channel, f);
      assert NonePass(rows[count..], p) <==> forall r :: r in rows[count..] ==> !Passes(r, channel, f);
    }
  }

  function Copies(row: Record, n: nat): (rows: seq<Record>)
    ensures |rows| == n && forall i :: 0 <= i < n ==> rows[i] == row
  {
    seq(n, i => row)
  }

  lemma ThreeParts(a: seq<Record>, b: seq<Record>, c: seq<Record>)
    ensures var rows := a + b + c;
            && Prefix(rows, |a|) == a && Taken(rows, |a|, |b|) == b && Rest(rows, |a|, |b|) == c
  {
    var rows := a + b + c;
    assert rows[..|a|] == a && rows[|a|..] == b + c;
    assert (b + c)[..|b|] == b && (b + c)[|b|..] == c;
    assert Suffix(rows, |a|) == b + c;
  }

  lemma OneMoreTaken(rows: seq<Record>, offset: nat, count: nat, p: Record -> bool, last: Record)
    requires AllPass(Prefix(rows, offset), p) && NonePass(Taken(rows, offset, count), p)
    requires |Taken(rows, offset, count)| == count > 0 && Rest(rows, offset, count) == [last] && p(last)
    ensures !LimitCommutes(rows, offset, count, p)
  {
    KeptSize(Prefix(rows, offset), p);
    KeptSize([last], p);
    assert !p(Taken(rows, offset, count)[0]);
    assert p([last][0]);
  }

  /** No limit commutes with all filters: skip rows that pass, take rows that do not, and have one more
      that does. */
  lemma NoLimitCommutes(offset: nat, count: nat, columns: nat, channel: nat)
    requires count > 0
    ensures !Commutes(Limit(offset, count, columns), channel, channel)
  {
    var good, bad := seq(channel + 1, i => Some(1)), seq(channel + 1, i => None);
    var f: Filter := (v: Option<int>) => v == Some(1);
    var rows := Copies(good, offset) + Copies(bad, count) + [good];
    ThreeParts(Copies(good, offset), Copies(bad, count), [good]);
    OneMoreTaken(rows, offset, count, On(channel, f), good);
    LimitCommutesOnIff(offset, count, columns, channel, rows, f);
  }

  // ------------------------------------------------------------------------------------------------
  // A pipeline with a limit
  // ------------------------------------------------------------------------------------------------

  lemma PassesThrough(offset: nat, count: nat, columns: nat, channel: nat)
    requires channel < columns
    ensures IdentityProjection(Limit(offset, count, columns).projections, channel) == Some(channel)
  {
    assert Limit(offset, count, columns).projections[channel] == Projection(channel, channel);
  }

  /** Operator `k` has no filters. A limit takes none. */
  ghost predicate NothingAt(installed: Installed, k: nat) {
    forall c :: Place(k, c) !in installed
  }

  lemma OutputOfLimit(
      ops: seq<Operator>, installed: Installed, source: seq<Record>, k: nat, offset: nat, count: nat, columns: nat,
      rows: seq<Record>)
    requires 1 <= k < |ops| && ops[k] == Limit(offset, count, columns) && NothingAt(installed, k)
    requires Output(ops, installed, source, k - 1) == rows
    ensures Output(ops, installed, source, k) == Taken(rows, offset, count)
  {
    KeptByNone(Unfiltered(ops, installed, source, k), At(installed, k));
  }

  lemma LandsBefore(ops: seq<Operator>, n: nat, channel: nat, offset: nat, count: nat, columns: nat)
    requires 2 <= n <= |ops| && ops[n - 1] == Limit(offset, count, columns) && channel < columns
    ensures Landing(ops, n, channel) == Landing(ops, n - 1, channel)
  {
    PassesThrough(offset, count, columns, channel);
  }

  lemma NothingAdded(installed: Installed, place: Place, f: Filter, k: nat)
    requires NothingAt(installed, k) && place.index != k
    ensures NothingAt(Added(installed, place, f), k)
  {
  }

  /** The limit is operator `k`, no filter is at it, and the channels are columns of it. */
  ghost predicate LimitAt(
    ops: seq<Operator>, installed: Installed, k: nat, channels: seq<nat>, offset: nat, count: nat, columns: nat)
  {
    && k < |ops| && ops[k] == Limit(offset, count, columns) && NothingAt(installed, k)
    && forall i :: 0 <= i < |channels| ==> channels[i] < columns
  }

  /** Each walk from operator `n` ends where the walk from the operator before it ends. */
  ghost predicate LandBefore(ops: seq<Operator>, n: nat, channels: seq<nat>)
    requires 2 <= n <= |ops|
  {
    forall i :: 0 <= i < |channels| ==> Landing(ops, n, channels[i]) == Landing(ops, n - 1, channels[i])
  }

  /** Filters that pass the limit are installed before it. */
  lemma {:induction false} AddedBefore(
      ops: seq<Operator>, installed: Installed, n: nat, channels: seq<nat>, filters: seq<Filter>, m: nat)
    requires 2 <= n <= |ops| && m <= |channels| == |filters|
    requires NothingAt(installed, n - 1) && LandBefore(ops, n, channels)
    ensures AddedAll(installed, ops, n, channels, filters, m) == AddedAll(installed, ops, n - 1, channels, filters, m)
    ensures NothingAt(AddedAll(installed, ops, n, channels, filters, m), n - 1)
  {
    if m == 0 {
    } else {
      AddedBefore(ops, installed, n, channels, filters, m - 1);
      var before, place := AddedAll(installed, ops, n, channels, filters, m - 1), Landing(ops, n - 1, channels[m - 1]);
      NothingAdded(before, place, filters[m - 1], n - 1);
      assert AddedAll(installed, ops, n, channels, filters, m) == Added(before, place, filters[m - 1]);
    }
  }

  lemma AllLandBefore(
      ops: seq<Operator>, installed: Installed, n: nat, channels: seq<nat>, offset: nat, count: nat, columns: nat)
    requires 2 <= n <= |ops| && LimitAt(ops, installed, n - 1, channels, offset, count, columns)
    ensures LandBefore(ops, n, channels)
  {
    forall i | 0 <= i < |channels|
      ensures Landing(ops, n, channels[i]) == Landing(ops, n - 1, channels[i])
    {
      LandsBefore(ops, n, channels[i], offset, count, columns);
    }
  }

  /** The filters `p` are pushed through the limit that is operator `n - 1`: `after` is what is installed
      then. The operators before the limit commute with the filters. */
  ghost predicate PushedThrough(
    ops: seq<Operator>, installed: Installed, n: nat, channels: seq<nat>, filters: seq<Filter>,
    offset: nat, count: nat, columns: nat, after: Installed, p: Record -> bool)
  {
    && 2 <= n <= |ops| && |channels| == |filters|
    && LimitAt(ops, installed, n - 1, channels, offset, count, columns) && AllSkippedCommute(ops, n - 1, channels)
    && after == AddedAll(installed, ops, n, channels, filters, |channels|)
    && p == OnAll(channels, filters, |channels|)
  }

  /** What enters the limit once the filters are installed. */
  lemma FilteredBefore(
      ops: seq<Operator>, installed: Installed, source: seq<Record>, n: nat, channels: seq<nat>, filters: seq<Filter>,
      offset: nat, count: nat, columns: nat, after: Installed, p: Record -> bool)
    requires PushedThrough(ops, installed, n, channels, filters, offset, count, columns, after, p)
    ensures NothingAt(after, n - 1)
    ensures Output(ops, after, source, n - 2) == Kept(Output(ops, installed, source, n - 2), p)
  {
    AllLandBefore(ops, installed, n, channels, offset, count, columns);
    AddedBefore(ops, installed, n, channels, filters, |channels|);
    PushdownIsFilter(ops, installed, source, n - 1, channels, filters, |channels|);
  }

  /** What the limit returns, without the filters and with them. */
  lemma LimitOutputs(
      ops: seq<Operator>, installed: Installed, source: seq<Record>, n: nat, channels: seq<nat>, filters: seq<Filter>,
      offset: nat, count: nat, columns: nat, after: Installed, p: Record -> bool)
    requires PushedThrough(ops, installed, n, channels, filters, offset, count, columns, after, p)
    ensures var rows := Output(ops, installed, source, n - 2);
            && Output(ops, installed, source, n - 1) == Taken(rows, offset, count)
            && Output(ops, after, source, n - 1) == Taken(Kept(rows, p), offset, count)
  {
    var rows := Output(ops, installed, source, n - 2);
    FilteredBefore(ops, installed, source, n, channels, filters, offset, count, columns, after, p);
    OutputOfLimit(ops, installed, source, n - 1, offset, count, columns, rows);
    OutputOfLimit(ops, after, source, n - 1, offset, count, columns, Kept(rows, p));
  }

  /** Any number of filters, pushed through a limit at the end of a pipeline, filter what the limit returns
      if and only if the limit commutes with them on the rows that enter it. */
  lemma PushdownThroughLimitIff(
      ops: seq<Operator>, installed: Installed, source: seq<Record>, n: nat, channels: seq<nat>, filters: seq<Filter>,
      offset: nat, count: nat, columns: nat, after: Installed, p: Record -> bool)
    requires PushedThrough(ops, installed, n, channels, filters, offset, count, columns, after, p)
    ensures Output(ops, after, source, n - 1) == Kept(Output(ops, installed, source, n - 1), p)
       <==> LimitCommutes(Output(ops, installed, source, n - 2), offset, count, p)
  {
    LimitOutputs(ops, installed, source, n, channels, filters, offset, count, columns, after, p);
    LimitCommutesIff(Output(ops, installed, source, n - 2), offset, count, p);
  }

  // ------------------------------------------------------------------------------------------------
  // The join behind a limit
  // ------------------------------------------------------------------------------------------------

  ghost predicate SameJoin(jt: JoinType, a: multiset<Row>, b: multiset<Row>, right: multiset<Row>) {
    forall o :: JoinCount(jt, a, right, o) == JoinCount(jt, b, right, o)
  }

  /** Rows of the probe side count if they have a match, and for the right semi joins it only matters which
      build rows are matched. */
  ghost predicate SameMatches(jt: JoinType, a: multiset<Row>, b: multiset<Row>, right: multiset<Row>) {
    if jt.Inner? || jt.LeftSemiFilter? then forall l :: MatchedByRight(l, right) ==> a[l] == b[l]
    else forall r :: r in right ==> (MatchedByLeft(r, a) <==> MatchedByLeft(r, b))
  }

  lemma {:induction false} TimesCancels(a: nat, b: nat, c: nat)
    requires c > 0 && Times(a, c) == Times(b, c)
    ensures a == b
  {
    if a == 0 || b == 0 {
    } else {
      TimesCancels(a - 1, b - 1, c);
    }
  }

  lemma SamePairs(jt: JoinType, a: multiset<Row>, b: multiset<Row>, right: multiset<Row>, l: Row)
    requires (jt.Inner? || jt.LeftSemiFilter?) && SameJoin(jt, a, b, right) && MatchedByRight(l, right)
    ensures a[l] == b[l]
  {
    if jt.Inner? {
      var r :| r in right && Matches(l, r);
      var o := OutRow(Some(l), Some(r), None);
      assert JoinCount(jt, a, right, o) == JoinCount(jt, b, right, o);
      TimesCancels(a[l], b[l], right[r]);
    } else {
      var o := OutRow(Some(l), None, None);
      assert JoinCount(jt, a, right, o) == JoinCount(jt, b, right, o);
    }
  }

  lemma SameBuildRows(jt: JoinType, a: multiset<Row>, b: multiset<Row>, right: multiset<Row>, r: Row)
    requires (jt.RightSemiFilter? || jt.RightSemiProject?) && SameJoin(jt, a, b, right) && r in right
    ensures MatchedByLeft(r, a) <==> MatchedByLeft(r, b)
  {
    var flag := if jt.RightSemiFilter? then None else Some(true);
    var o := OutRow(None, Some(r), flag);
    assert JoinCount(jt, a, right, o) == JoinCount(jt, b, right, o);
  }

  lemma SameJoinIff(jt: JoinType, a: multiset<Row>, b: multiset<Row>, right: multiset<Row>)
    requires MakesFilters(jt)
    ensures SameJoin(jt, a, b, right) <==> SameMatches(jt, a, b, right)
  {
    if SameJoin(jt, a, b, right) {
      if jt.Inner? || jt.LeftSemiFilter? {
        forall l | MatchedByRight(l, right)
          ensures a[l] == b[l]
        {
          SamePairs(jt, a, b, right, l);
        }
      } else {
        forall r | r in right
          ensures MatchedByLeft(r, a) <==> MatchedByLeft(r, b)
        {
          SameBuildRows(jt, a, b, right, r);
        }
      }
    }
    if SameMatches(jt, a, b, right) {
      forall o
        ensures JoinCount(jt, a, right, o) == JoinCount(jt, b, right, o)
      {
        SameCounts(jt, a, b, right, o);
      }
    }
  }

  lemma SameCounts(jt: JoinType, a: multiset<Row>, b: multiset<Row>, right: multiset<Row>, o: OutRow)
    requires MakesFilters(jt) && SameMatches(jt, a, b, right)
    ensures JoinCount(jt, a, right, o) == JoinCount(jt, b, right, o)
  {
    if jt.Inner? && o.left.Some? && o.right.Some? {
      var l, r := o.left.value, o.right.value;
      if r in right && Matches(l, r) {
        assert MatchedByRight(l, right) && a[l] == b[l];
      } else if r !in right {
        TimesZero(a[l]);
        TimesZero(b[l]);
      }
    }
  }

  /** Rows that the limit returned and the filter keeps, but that the limit now skips. */
  ghost function LostRows(rows: seq<Record>, offset: nat, count: nat, p: Record -> bool): seq<Record> {
    Prefix(Kept(Taken(rows, offset, count), p), DroppedAhead(rows, offset, p))
  }

  /** Rows that the limit returned and still returns. */
  ghost function StillTaken(rows: seq<Record>, offset: nat, count: nat, p: Record -> bool): seq<Record> {
    Taken(Kept(Taken(rows, offset, count), p), DroppedAhead(rows, offset, p), count)
  }

  /** Rows that the limit returns only now. */
  ghost function NewRows(rows: seq<Record>, offset: nat, count: nat, p: Record -> bool): seq<Record> {
    TakenBehind(Kept(Taken(rows, offset, count), p), Kept(Rest(rows, offset, count), p),
                DroppedAhead(rows, offset, p), count)
  }

  /** What is taken of `b` when `a` comes before it. */
  function TakenBehind(a: seq<Record>, b: seq<Record>, offset: nat, count: nat): seq<Record> {
    Taken(b, offset - |Prefix(a, offset)|, count - |Taken(a, offset, count)|)
  }

  lemma TakenBefore(rows: seq<Record>, offset: nat, count: nat, p: Record -> bool)
    ensures Kept(Taken(rows, offset, count), p)
         == LostRows(rows, offset, count, p) + StillTaken(rows, offset, count, p)
  {
    var taken, dropped := Taken(rows, offset, count), DroppedAhead(rows, offset, p);
    KeptSize(taken, p);
    assert Prefix(Suffix(Kept(taken, p), dropped), count) == Suffix(Kept(taken, p), dropped);
    PrefixAndSuffix(Kept(taken, p), dropped);
  }

  lemma TakenNow(rows: seq<Record>, offset: nat, count: nat, p: Record -> bool)
    ensures Taken(Kept(rows, p), offset, count)
         == StillTaken(rows, offset, count, p) + NewRows(rows, offset, count, p)
  {
    FilteredFirst(rows, offset, count, p);
    KeptSuffix(rows, offset, count, p);
    TakenOfTwo(Kept(Taken(rows, offset, count), p), Kept(Rest(rows, offset, count), p),
               Kept(Suffix(rows, offset), p), DroppedAhead(rows, offset, p), count);
  }

  lemma TakenOfTwo(a: seq<Record>, b: seq<Record>, both: seq<Record>, offset: nat, count: nat)
    requires both == a + b
    ensures Taken(both, offset, count) == Taken(a, offset, count) + TakenBehind(a, b, offset, count)
  {
    TakenInBatches(a, b, offset, count);
  }

  /** How often row `x` is the image of one of the first `n`. */
  ghost function Images(rows: seq<Record>, g: Record -> Row, x: Row, n: nat): nat
    requires n <= |rows|
  {
    if n == 0 then 0 else Images(rows, g, x, n - 1) + if g(rows[n - 1]) == x then 1 else 0
  }

  lemma {:induction false} ImagesOfPrefix(a: seq<Record>, c: seq<Record>, g: Record -> Row, x: Row, n: nat)
    requires n <= |a| && n <= |c| && forall i :: 0 <= i < n ==> c[i] == a[i]
    ensures Images(c, g, x, n) == Images(a, g, x, n)
  {
    if n == 0 {
    } else {
      ImagesOfPrefix(a, c, g, x, n - 1);
    }
  }

  lemma {:induction false} ImagesOfSum(
      a: seq<Record>, b: seq<Record>, c: seq<Record>, g: Record -> Row, x: Row, n: nat)
    requires c == a + b && n <= |b|
    ensures Images(c, g, x, |a| + n) == Images(a, g, x, |a|) + Images(b, g, x, n)
  {
    if n == 0 {
      ImagesOfPrefix(a, c, g, x, |a|);
    } else {
      ImagesOfSum(a, b, c, g, x, n - 1);
      assert c[|a| + n - 1] == b[n - 1];
    }
  }

  lemma {:induction false} ProbeRowsAreImages(
      rows: seq<Record>, keyChannels: seq<nat>, payload: Record -> int, g: Record -> Row, x: Row)
    requires forall row :: g(row) == ProbeRow(row, keyChannels, payload)
    ensures ProbeRows(rows, keyChannels, payload)[x] == Images(rows, g, x, |rows|)
  {
    if rows == [] {
    } else {
      var before := rows[..|rows| - 1];
      ProbeRowsAreImages(before, keyChannels, payload, g, x);
      ImagesOfPrefix(before, rows, g, x, |before|);
    }
  }

  lemma ProbeRowsOfSum(a: seq<Record>, b: seq<Record>, keyChannels: seq<nat>, payload: Record -> int)
    ensures ProbeRows(a + b, keyChannels, payload)
         == ProbeRows(a, keyChannels, payload) + ProbeRows(b, keyChannels, payload)
  {
    forall x
      ensures ProbeRows(a + b, keyChannels, payload)[x]
           == ProbeRows(a, keyChannels, payload)[x] + ProbeRows(b, keyChannels, payload)[x]
    {
      CountOfSum(a, b, keyChannels, payload, x);
    }
  }

  lemma CountOfSum(a: seq<Record>, b: seq<Record>, keyChannels: seq<nat>, payload: Record -> int, x: Row)
    ensures ProbeRows(a + b, keyChannels, payload)[x]
         == ProbeRows(a, keyChannels, payload)[x] + ProbeRows(b, keyChannels, payload)[x]
  {
    var g := (row: Record) => ProbeRow(row, keyChannels, payload);
    ImagesOfSum(a, b, a + b, g, x, |b|);
    ProbeRowsAreImages(a, keyChannels, payload, g, x);
    ProbeRowsAreImages(b, keyChannels, payload, g, x);
    ProbeRowsAreImages(a + b, keyChannels, payload, g, x);
  }

  /** The rows that are lost count like those that are new: each row with a match is lost as often as it is
      new, or, for the right semi joins, the build rows that the lost or the new rows match stay matched. */
  ghost predicate LostLikeNew(
    jt: JoinType, lost: multiset<Row>, still: multiset<Row>, added: multiset<Row>, right: multiset<Row>)
  {
    if jt.Inner? || jt.LeftSemiFilter? then forall l :: MatchedByRight(l, right) ==> lost[l] == added[l]
    else forall r :: r in right ==>
           && (MatchedByLeft(r, lost) ==> MatchedByLeft(r, still) || MatchedByLeft(r, added))
           && (MatchedByLeft(r, added) ==> MatchedByLeft(r, still) || MatchedByLeft(r, lost))
  }

  lemma MatchedByEither(r: Row, a: multiset<Row>, b: multiset<Row>)
    ensures MatchedByLeft(r, a + b) <==> MatchedByLeft(r, a) || MatchedByLeft(r, b)
  {
    if MatchedByLeft(r, a) {
      var l :| l in a && Matches(l, r);
      assert l in a + b;
    } else if MatchedByLeft(r, b) {
      var l :| l in b && Matches(l, r);
      assert l in a + b;
    }
  }

  lemma CommonRowsCancel(
      jt: JoinType, lost: multiset<Row>, still: multiset<Row>, added: multiset<Row>, right: multiset<Row>)
    ensures SameMatches(jt, lost + still, still + added, right) <==> LostLikeNew(jt, lost, still, added, right)
  {
    if jt.Inner? || jt.LeftSemiFilter? {
      assert forall l :: (lost + still)[l] == lost[l] + still[l] && (still + added)[l] == still[l] + added[l];
    } else {
      forall r
        ensures MatchedByLeft(r, lost + still) <==> MatchedByLeft(r, lost) || MatchedByLeft(r, still)
        ensures MatchedByLeft(r, still + added) <==> MatchedByLeft(r, still) || MatchedByLeft(r, added)
      {
        MatchedByEither(r, lost, still);
        MatchedByEither(r, still, added);
      }
    }
  }

  /** Unmatched rows of the probe side may be left out of the comparison. */
  lemma SameWithoutUnmatched(
      jt: JoinType, a: multiset<Row>, dropped: multiset<Row>, b: multiset<Row>, right: multiset<Row>)
    requires MakesFilters(jt) && NoMatches(dropped, right)
    ensures SameJoin(jt, a + dropped, b, right) <==> SameJoin(jt, a, b, right)
  {
    forall o
      ensures JoinCount(jt, a + dropped, right, o) == JoinCount(jt, a, right, o)
    {
      UnmatchedRowsMayGo(jt, a, dropped, right, o);
    }
  }

  /** A filter that drops unmatched rows only, before a limit instead of behind it, leaves the join as it is
      if and only if the rows that the limit loses count like those that it newly takes. */
  lemma LimitKeepsJoinIff(
      jt: JoinType, rows: seq<Record>, offset: nat, count: nat, p: Record -> bool,
      keyChannels: seq<nat>, payload: Record -> int, right: multiset<Row>)
    requires MakesFilters(jt) && DropsUnmatched(p, keyChannels, payload, right)
    ensures SameJoin(jt, ProbeRows(Taken(rows, offset, count), keyChannels, payload),
                     ProbeRows(Taken(Kept(rows, p), offset, count), keyChannels, payload), right)
       <==> LostLikeNew(jt, ProbeRows(LostRows(rows, offset, count, p), keyChannels, payload),
                        ProbeRows(StillTaken(rows, offset, count, p), keyChannels, payload),
                        ProbeRows(NewRows(rows, offset, count, p), keyChannels, payload), right)
  {
    var lost, still := LostRows(rows, offset, count, p), StillTaken(rows, offset, count, p);
    var added := NewRows(rows, offset, count, p);
    TakenBefore(rows, offset, count, p);
    TakenNow(rows, offset, count, p);
    var dropped := FilterDropsUnmatched(Taken(rows, offset, count), keyChannels, payload, p, right);
    ProbeRowsOfSum(lost, still, keyChannels, payload);
    ProbeRowsOfSum(still, added, keyChannels, payload);
    var l, s := ProbeRows(lost, keyChannels, payload), ProbeRows(still, keyChannels, payload);
    var n := ProbeRows(added, keyChannels, payload);
    SameWithoutUnmatched(jt, l + s, dropped, s + n, right);
    SameJoinIff(jt, l + s, s + n, right);
    CommonRowsCancel(jt, l, s, n, right);
  }

  /** No newly taken row has a match, or none that makes a difference. */
  ghost predicate NewRowsDoNotCount(jt: JoinType, still: multiset<Row>, added: multiset<Row>, right: multiset<Row>) {
    if jt.Inner? || jt.LeftSemiFilter? then NoMatches(added, right)
    else forall r :: r in right && MatchedByLeft(r, added) ==> MatchedByLeft(r, still)
  }

  lemma NoneLost(jt: JoinType, still: multiset<Row>, added: multiset<Row>, right: multiset<Row>)
    ensures LostLikeNew(jt, multiset{}, still, added, right) <==> NewRowsDoNotCount(jt, still, added, right)
  {
    if jt.Inner? || jt.LeftSemiFilter? {
      if LostLikeNew(jt, multiset{}, still, added, right) {
        forall l, r | l in added && r in right
          ensures !Matches(l, r)
        {
          assert Matches(l, r) ==> MatchedByRight(l, right);
        }
      }
    }
  }

  /** If the filter drops no row that the limit skips, as without an offset, then no row is lost: the join
      stays as it is exactly when no row that the limit newly takes has a match, or, for the right semi
      joins, when the build rows that such a row matches were matched already. */
  lemma NewRowsDecide(
      jt: JoinType, rows: seq<Record>, offset: nat, count: nat, p: Record -> bool,
      keyChannels: seq<nat>, payload: Record -> int, right: multiset<Row>)
    requires MakesFilters(jt) && DropsUnmatched(p, keyChannels, payload, right) && AllPass(Prefix(rows, offset), p)
    ensures var added := ProbeRows(NewRows(rows, offset, count, p), keyChannels, payload);
            var still := ProbeRows(StillTaken(rows, offset, count, p), keyChannels, payload);
            SameJoin(jt, ProbeRows(Taken(rows, offset, count), keyChannels, payload),
                     ProbeRows(Taken(Kept(rows, p), offset, count), keyChannels, payload), right)
            <==> NewRowsDoNotCount(jt, still, added, right)
  {
    KeptSize(Prefix(rows, offset), p);
    assert LostRows(rows, offset, count, p) == [];
    LimitKeepsJoinIff(jt, rows, offset, count, p, keyChannels, payload, right);
    NoneLost(jt, ProbeRows(StillTaken(rows, offset, count, p), keyChannels, payload),
             ProbeRows(NewRows(rows, offset, count, p), keyChannels, payload), right);
  }

  /** The same for a join behind a pipeline that ends with a limit, with the filters that the join makes
      from its keys. */
  lemma JoinBehindLimitIff(
      jt: JoinType, ops: seq<Operator>, installed: Installed, source: seq<Record>, n: nat,
      channels: seq<nat>, filters: seq<Filter>, offset: nat, count: nat, columns: nat, after: Installed,
      p: Record -> bool, keyChannels: seq<nat>, payload: Record -> int, right: multiset<Row>)
    requires MakesFilters(jt)
    requires PushedThrough(ops, installed, n, channels, filters, offset, count, columns, after, p)
    requires AllFromKeys(channels, filters, keyChannels, right)
    ensures var rows := Output(ops, installed, source, n - 2);
            SameJoin(jt, ProbeRows(Output(ops, installed, source, n - 1), keyChannels, payload),
                     ProbeRows(Output(ops, after, source, n - 1), keyChannels, payload), right)
            <==> LostLikeNew(jt, ProbeRows(LostRows(rows, offset, count, p), keyChannels, payload),
                             ProbeRows(StillTaken(rows, offset, count, p), keyChannels, payload),
                             ProbeRows(NewRows(rows, offset, count, p), keyChannels, payload), right)
  {
    LimitOutputs(ops, installed, source, n, channels, filters, offset, count, columns, after, p);
    AllDropUnmatched(channels, filters, keyChannels, payload, right);
    LimitKeepsJoinIff(jt, Output(ops, installed, source, n - 2), offset, count, p, keyChannels, payload, right);
  }

  // ------------------------------------------------------------------------------------------------
  // A join that changes
  // ------------------------------------------------------------------------------------------------

  function Scan(): Operator {
    Operator(true, [], (rows: seq<Record>) => rows)
  }

  function Only(value: int): Filter {
    (v: Option<int>) => v == Some(value)
  }

  lemma OneProbeRow(row: Record, payload: Record -> int)
    ensures ProbeRows([row], [0], payload) == multiset{ProbeRow(row, [0], payload)}
  {
    OneMoreProbeRow([], row, [0], payload);
  }

  lemma OnePair(l: Row, r: Row)
    requires !HasNull(r.key)
    ensures var o := OutRow(Some(r), Some(r), None);
            JoinCount(Inner, multiset{l}, multiset{r}, o) == if l == r then 1 else 0
  {
    TimesIsProduct(1, 1);
  }

  lemma TwoIsMade(two: Row)
    requires two.key == [Some(2)]
    ensures AllFromKeys([0], [Only(2)], [0], multiset{two})
  {
    assert KeepsBuildValues(Only(2), multiset{two}, 0);
    assert [0][0] == 0 && MadeFromKey(0, Only(2), [0], multiset{two});
  }

  lemma LimitedJoin(row: Record, two: Row, payload: Record -> int, rows: seq<Record>)
    requires two.key == [Some(2)] && rows == [row] && two.payload == payload(row)
    ensures var o := OutRow(Some(two), Some(two), None);
            JoinCount(Inner, ProbeRows(rows, [0], payload), multiset{two}, o) ==
            if KeyOf(row, [0]) == two.key then 1 else 0
  {
    OneProbeRow(row, payload);
    OnePair(ProbeRow(row, [0], payload), two);
  }

  lemma OneAndTwo(source: seq<Record>, p: Record -> bool)
    requires source == [[Some(1)], [Some(2)]] && p == OnAll([0], [Only(2)], 1)
    ensures Taken(source, 0, 1) == [[Some(1)]] && Taken(Kept(source, p), 0, 1) == [[Some(2)]]
  {
    assert Passes([Some(2)], 0, [Only(2)][0]) && !Passes([Some(1)], 0, [Only(2)][0]);
    assert p([Some(2)]) && !p([Some(1)]);
    KeptNext([], [Some(1)], p);
    KeptNext([[Some(1)]], [Some(2)], p);
    assert source == [[Some(1)]] + [[Some(2)]] && [[Some(1)]] == [] + [[Some(1)]];
  }

  lemma ScanThenLimit(f: Filter)
    ensures var ops := [Scan(), Limit(0, 1, 1)];
            && Landing(ops, 2, 0) == Place(0, 0) && ops[0].canAddDynamicFilter
            && PushedThrough(ops, map[], 2, [0], [f], 0, 1, 1, AddedAll(map[], ops, 2, [0], [f], 1), OnAll([0], [f], 1))
  {
    LandsBefore([Scan(), Limit(0, 1, 1)], 2, 0, 0, 1, 1);
  }

  lemma ScanOutput(ops: seq<Operator>, source: seq<Record>)
    requires |ops| >= 1
    ensures Output(ops, map[], source, 0) == source
  {
    KeptByNone(source, At(map[], 0));
  }

  /** What the limit of one row returns, without the filter and with it. */
  lemma OneRowOutputs(ops: seq<Operator>, source: seq<Record>, after: Installed)
    requires ops == [Scan(), Limit(0, 1, 1)] && source == [[Some(1)], [Some(2)]]
    requires after == AddedAll(map[], ops, 2, [0], [Only(2)], 1)
    ensures Output(ops, map[], source, 1) == [[Some(1)]] && Output(ops, after, source, 1) == [[Some(2)]]
  {
    var p := OnAll([0], [Only(2)], 1);
    ScanThenLimit(Only(2));
    LimitOutputs(ops, map[], source, 2, [0], [Only(2)], 0, 1, 1, after, p);
    ScanOutput(ops, source);
    OneAndTwo(source, p);
  }

  lemma KeysOfOneAndTwo()
    ensures KeyOf([Some(1)], [0]) != [Some(2)] && KeyOf([Some(2)], [0]) == [Some(2)]
  {
    assert KeyOf([Some(1)], [0])[0] == Some(1);
  }

  /** The walk passes a limit: the limit then takes another row, and the join of the pipeline changes. Here
      a scan of the values 1 and 2 is limited to one row and the build side has the value 2 only. */
  lemma LimitChangesJoin() returns (ops: seq<Operator>, source: seq<Record>, right: multiset<Row>, o: OutRow)
    ensures ops == [Scan(), Limit(0, 1, 1)] && ops[Landing(ops, 2, 0).index].canAddDynamicFilter
    ensures AllFromKeys([0], [Only(2)], [0], right)
    ensures var after := AddedAll(map[], ops, 2, [0], [Only(2)], 1);
            var rows, filtered := Output(ops, map[], source, 1), Output(ops, after, source, 1);
            && JoinCount(Inner, ProbeRows(rows, [0], row => 0), right, o) == 0
            && JoinCount(Inner, ProbeRows(filtered, [0], row => 0), right, o) == 1
  {
    var two := Row([Some(2)], 0);
    ops, source, right, o :=
      [Scan(), Limit(0, 1, 1)], [[Some(1)], [Some(2)]], multiset{two}, OutRow(Some(two), Some(two), None);
    var after := AddedAll(map[], ops, 2, [0], [Only(2)], 1);
    ScanThenLimit(Only(2));
    TwoIsMade(two);
    OneRowOutputs(ops, source, after);
    KeysOfOneAndTwo();
    LimitedJoin([Some(1)], two, row => 0, Output(ops, map[], source, 1));
    LimitedJoin([Some(2)], two, row => 0, Output(ops, after, source, 1));
  }
}
