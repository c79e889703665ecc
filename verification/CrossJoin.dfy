/** The cross join: probe rows against build vectors, in batches. */
module CrossJoins {
  import opened Options
  import opened Sums

  /** The rows of one probe row with one build vector. */
  function RowWith<L, R>(l: L, vec: seq<R>): (rows: seq<(L, R)>)
    ensures |rows| == |vec|
  {
    seq(|vec|, k requires 0 <= k < |vec| => (l, vec[k]))
  }

  /** The probe rows from `lo` up to and without `hi` with one build vector. */
  function RowsWith<L, R>(input: seq<L>, vec: seq<R>, lo: nat, hi: nat): seq<(L, R)>
    requires lo <= hi <= |input|
    decreases hi
  {
    if lo == hi then [] else RowsWith(input, vec, lo, hi - 1) + RowWith(input[hi - 1], vec)
  }

  /** The product with the first `n` build vectors, ordered by build vector, then probe row. */
  function Product<L, R>(input: seq<L>, build: seq<seq<R>>, n: nat): seq<(L, R)>
    requires n <= |build|
  {
    if n == 0 then [] else Product(input, build, n - 1) + RowsWith(input, build[n - 1], 0, |input|)
  }

  /** The rows of a build vector come one probe row after the other, and in it one build row after the other. */
  lemma {:induction false} RowsWithAt<L, R>(input: seq<L>, vec: seq<R>, i: nat, hi: nat, k: nat)
    requires i < hi <= |input| && k < |vec|
    ensures var at := |RowsWith(input, vec, 0, i)| + k;
            at < |RowsWith(input, vec, 0, hi)| && RowsWith(input, vec, 0, hi)[at] == (input[i], vec[k])
    decreases hi
  {
    if hi == i + 1 {
    } else {
      RowsWithAt(input, vec, i, hi - 1, k);
    }
  }

  /** And the build vectors come one after the other. */
  lemma {:induction false} ProductAt<L, R>(input: seq<L>, build: seq<seq<R>>, v: nat, n: nat, i: nat, k: nat)
    requires v < n <= |build| && i < |input| && k < |build[v]|
    ensures var at := |Product(input, build, v)| + |RowsWith(input, build[v], 0, i)| + k;
            at < |Product(input, build, n)| && Product(input, build, n)[at] == (input[i], build[v][k])
    decreases n
  {
    if n == v + 1 {
      RowsWithAt(input, build[v], i, |input|, k);
    } else {
      ProductAt(input, build, v, n - 1, i, k);
    }
  }

  function Flat<R>(build: seq<seq<R>>, n: nat): seq<R>
    requires n <= |build|
  {
    if n == 0 then [] else Flat(build, n - 1) + build[n - 1]
  }

  /** How often `x` is among the first `n` elements. */
  function Count<T(==)>(s: seq<T>, n: nat, x: T): nat
    requires n <= |s|
  {
    if n == 0 then 0 else Count(s, n - 1, x) + if s[n - 1] == x then 1 else 0
  }

  lemma {:induction false} CountIs<T>(s: seq<T>, n: nat, x: T)
    requires n <= |s|
    ensures Count(s, n, x) == multiset(s[..n])[x]
  {
    if n == 0 {
    } else {
      CountIs(s, n - 1, x);
      assert s[..n] == s[..n - 1] + [s[n - 1]];
    }
  }

  lemma {:induction false} CountPrefix<T>(a: seq<T>, b: seq<T>, n: nat, x: T)
    requires n <= |a|
    ensures Count(a + b, n, x) == Count(a, n, x)
  {
    if n == 0 {
    } else {
      CountPrefix(a, b, n - 1, x);
    }
  }

  lemma {:induction false} CountAppend<T>(a: seq<T>, b: seq<T>, n: nat, x: T)
    requires n <= |b|
    ensures Count(a + b, |a| + n, x) == Count(a, |a|, x) + Count(b, n, x)
  {
    if n == 0 {
      CountPrefix(a, b, |a|, x);
    } else {
      CountAppend(a, b, n - 1, x);
      assert (a + b)[|a| + n - 1] == b[n - 1];
    }
  }

  lemma CountBoth<T>(a: seq<T>, b: seq<T>, x: T)
    ensures Count(a + b, |a + b|, x) == Count(a, |a|, x) + Count(b, |b|, x)
  {
    CountAppend(a, b, |b|, x);
  }

  lemma {:induction false} RowCounts<L, R>(row: L, vec: seq<R>, n: nat, l: L, r: R)
    requires n <= |vec|
    ensures Count(RowWith(row, vec), n, (l, r)) == if row == l then Count(vec, n, r) else 0
  {
    if n == 0 {
    } else {
      RowCounts(row, vec, n - 1, l, r);
      assert RowWith(row, vec)[n - 1] == (row, vec[n - 1]);
    }
  }

  lemma {:induction false} RowsCounts<L, R>(input: seq<L>, vec: seq<R>, n: nat, l: L, r: R)
    requires n <= |input|
    ensures var rows := RowsWith(input, vec, 0, n);
            Count(rows, |rows|, (l, r)) == Times(Count(input, n, l), Count(vec, |vec|, r))
  {
    if n == 0 {
    } else {
      RowsCounts(input, vec, n - 1, l, r);
      RowCounts(input[n - 1], vec, |vec|, l, r);
      CountBoth(RowsWith(input, vec, 0, n - 1), RowWith(input[n - 1], vec), (l, r));
    }
  }

  lemma TimesBoth(m: nat, a: nat, b: nat, p: nat, q: nat)
    requires p == Times(m, a) && q == Times(m, b)
    ensures p + q == Times(m, a + b)
  {
    TimesAddRight(m, a, b);
  }

  lemma {:induction false} ProductTimes<L, R>(input: seq<L>, build: seq<seq<R>>, n: nat, l: L, r: R)
    requires n <= |build|
    ensures var product, flat := Product(input, build, n), Flat(build, n);
            Count(product, |product|, (l, r)) == Times(Count(input, |input|, l), Count(flat, |flat|, r))
  {
    if n == 0 {
      TimesZero(Count(input, |input|, l));
    } else {
      var product, flat, vec := Product(input, build, n - 1), Flat(build, n - 1), build[n - 1];
      var rows := RowsWith(input, vec, 0, |input|);
      ProductTimes(input, build, n - 1, l, r);
      RowsCounts(input, vec, |input|, l, r);
      CountBoth(product, rows, (l, r));
      CountBoth(flat, vec, r);
      TimesBoth(Count(input, |input|, l), Count(flat, |flat|, r), Count(vec, |vec|, r),
                Count(product, |product|, (l, r)), Count(rows, |rows|, (l, r)));
    }
  }

  lemma CountAll<T>(s: seq<T>, x: T)
    ensures Count(s, |s|, x) == multiset(s)[x]
  {
    CountIs(s, |s|, x);
    assert s[..|s|] == s;
  }

  /** The product has every pair as often as it should. */
  lemma ProductCounts<L, R>(input: seq<L>, build: seq<seq<R>>, n: nat, l: L, r: R)
    requires n <= |build|
    ensures multiset(Product(input, build, n))[(l, r)] == multiset(input)[l] * multiset(Flat(build, n))[r]
  {
    ProductTimes(input, build, n, l, r);
    CountAll(Product(input, build, n), (l, r));
    CountAll(input, l);
    CountAll(Flat(build, n), r);
    TimesIsProduct(multiset(input)[l], multiset(Flat(build, n))[r]);
  }

  lemma {:induction false} RowsAppend<L, R>(input: seq<L>, vec: seq<R>, lo: nat, mid: nat, hi: nat)
    requires lo <= mid <= hi <= |input|
    ensures RowsWith(input, vec, lo, mid) + RowsWith(input, vec, mid, hi) == RowsWith(input, vec, lo, hi)
  {
    if mid == hi {
    } else {
      RowsAppend(input, vec, lo, mid, hi - 1);
      var a, b, c := RowsWith(input, vec, lo, mid), RowsWith(input, vec, mid, hi - 1), RowWith(input[hi - 1], vec);
      assert a + (b + c) == (a + b) + c;
    }
  }

  lemma {:induction false} RowsSize<L, R>(input: seq<L>, vec: seq<R>, lo: nat, hi: nat)
    requires lo <= hi <= |input|
    ensures |RowsWith(input, vec, lo, hi)| == (hi - lo) * |vec|
  {
    if lo == hi {
    } else {
      RowsSize(input, vec, lo, hi - 1);
      assert (hi - lo) * |vec| == (hi - 1 - lo) * |vec| + |vec|;
    }
  }

  /** How many probe rows go into one output batch. */
  function ProbeCount(buildSize: nat, batchSize: nat, left: nat): (n: nat)
    requires buildSize >= 1 && batchSize >= 1
    ensures left >= 1 ==> 1 <= n <= left
    ensures n == 1 || n * buildSize <= batchSize
  {
    if buildSize > batchSize then 1
    else
      var fit := batchSize / buildSize;
      FitsInBatch(buildSize, batchSize, left);
      if fit < left then fit else left
  }

  /** The rows of a batch exist exactly if there are rows left or the build vector fits into a batch. So the
      loop relies on the driver, which checks that no operator is given an empty vector. */
  lemma ProbeCountFitsIff(buildSize: nat, batchSize: nat, left: nat)
    requires buildSize >= 1 && batchSize >= 1
    ensures ProbeCount(buildSize, batchSize, left) <= left <==> left >= 1 || buildSize <= batchSize
  {
    if buildSize <= batchSize {
      FitsInBatch(buildSize, batchSize, left);
    }
  }

  lemma FitsInBatch(buildSize: nat, batchSize: nat, left: nat)
    requires 1 <= buildSize <= batchSize
    ensures batchSize / buildSize >= 1 && batchSize / buildSize * buildSize <= batchSize
    ensures left <= batchSize / buildSize ==> left * buildSize <= batchSize
  {
    var fit := batchSize / buildSize;
    assert batchSize == buildSize * fit + batchSize % buildSize;
    if left <= fit {
      assert left * buildSize <= fit * buildSize;
    }
  }

  class CrossJoinProbe<L, R> {
    const build: seq<seq<R>>
    const outputBatchSize: nat
    var input: Option<seq<L>>
    var probeRow: nat
    var buildIndex: nat

    /** What has been returned for the current input. */
    ghost var returned: seq<(L, R)>

    ghost predicate Valid()
      reads this
    {
      && outputBatchSize >= 1 && |build| >= 1 && (forall k :: 0 <= k < |build| ==> |build[k]| >= 1)
      && (input.Some? ==>
            && probeRow < |input.value| && buildIndex < |build|
            && returned == Product(input.value, build, buildIndex)
               + RowsWith(input.value, build[buildIndex], 0, probeRow))
      && (input.None? ==> probeRow == 0 && buildIndex == 0)
    }

    constructor (build: seq<seq<R>>, outputBatchSize: nat)
      requires outputBatchSize >= 1 && |build| >= 1 && forall k :: 0 <= k < |build| ==> |build[k]| >= 1
      ensures Valid() && input.None? && this.build == build && this.outputBatchSize == outputBatchSize
    {
      this.build, this.outputBatchSize := build, outputBatchSize;
      input, probeRow, buildIndex, returned := None, 0, 0, [];
    }

    /** The driver passes on no empty vector. */
    method AddInput(rows: seq<L>)
      requires Valid() && input.None? && |rows| > 0
      modifies this
      ensures Valid() && input == Some(rows) && returned == [] && probeRow == 0 && buildIndex == 0
    {
      input, returned := Some(rows), [];
      assert Product(rows, build, 0) == [] && RowsWith(rows, build[0], 0, 0) == [];
    }

    /** The rows of one batch: each probe row is repeated for the whole build vector. */
    method FillOutput(rows: seq<L>, vec: seq<R>, first: nat, count: nat) returns (output: seq<(L, R)>)
      requires first + count <= |rows|
      ensures output == RowsWith(rows, vec, first, first + count)
    {
      var probeIndices: seq<nat>, buildIndices: seq<nat> := [], [];
      output := [];
      for i := 0 to count
        invariant |probeIndices| == |buildIndices|
        invariant forall k :: 0 <= k < |probeIndices| ==> probeIndices[k] < |rows| && buildIndices[k] < |vec|
        invariant Joined(rows, vec, probeIndices, buildIndices) == RowsWith(rows, vec, first, first + i)
      {
        var p: seq<nat>, b: seq<nat> := seq(|vec|, k => first + i), seq(|vec|, k requires 0 <= k => k);
        assert Joined(rows, vec, probeIndices + p, buildIndices + b)
            == Joined(rows, vec, probeIndices, buildIndices) + RowWith(rows[first + i], vec);
        probeIndices, buildIndices := probeIndices + p, buildIndices + b;
      }
      output := Joined(rows, vec, probeIndices, buildIndices);
    }

    /** One output batch. It is not empty and no larger than it has to be; the batches of one input make up
        its product with all build vectors. */
    method GetOutput() returns (output: Option<seq<(L, R)>>)
      requires Valid()
      modifies this
      ensures Valid() && (output.None? <==> old(input).None?)
      ensures output.None? ==> returned == old(returned)
      ensures output.Some? ==>
        && returned == old(returned) + output.value
        && 1 <= |output.value| && (|output.value| <= outputBatchSize || |output.value| == |build[old(buildIndex)]|)
        && (input.None? ==> returned == Product(old(input).value, build, |build|))
        && (input.Some? ==>
              && input == old(input)
              && (buildIndex > old(buildIndex) || (buildIndex == old(buildIndex) && probeRow > old(probeRow))))
    {
      if input.None? {
        return None;
      }
      var rows, vec := input.value, build[buildIndex];
      var probeCount := ProbeCount(|vec|, outputBatchSize, |rows| - probeRow);
      var batch := FillOutput(rows, vec, probeRow, probeCount);
      RowsSize(rows, vec, probeRow, probeRow + probeCount);
      Progress(rows, build, buildIndex, probeRow, probeCount, batch);
      returned := returned + batch;
      probeRow := probeRow + probeCount;
      if probeRow == |rows| {
        probeRow := 0;
        buildIndex := buildIndex + 1;
        if buildIndex == |build| {
          buildIndex := 0;
          input := None;
        }
      }
      output := Some(batch);
    }
  }

  function Joined<L, R>(rows: seq<L>, vec: seq<R>, probeIndices: seq<nat>, buildIndices: seq<nat>): seq<(L, R)>
    requires |probeIndices| == |buildIndices|
    requires forall k :: 0 <= k < |probeIndices| ==> probeIndices[k] < |rows| && buildIndices[k] < |vec|
  {
    seq(|probeIndices|, k requires 0 <= k < |probeIndices| => (rows[probeIndices[k]], vec[buildIndices[k]]))
  }

  lemma Progress<L, R>(
      rows: seq<L>, build: seq<seq<R>>, buildIndex: nat, probeRow: nat, count: nat, batch: seq<(L, R)>)
    requires buildIndex < |build| && probeRow + count <= |rows|
    requires batch == RowsWith(rows, build[buildIndex], probeRow, probeRow + count)
    ensures var before := Product(rows, build, buildIndex) + RowsWith(rows, build[buildIndex], 0, probeRow);
            && before + batch == Product(rows, build, buildIndex)
               + RowsWith(rows, build[buildIndex], 0, probeRow + count)
            && (probeRow + count == |rows| ==> before + batch == Product(rows, build, buildIndex + 1))
  {
    RowsAppend(rows, build[buildIndex], 0, probeRow, probeRow + count);
    var a, b := Product(rows, build, buildIndex), RowsWith(rows, build[buildIndex], 0, probeRow);
    assert (a + b) + batch == a + (b + batch);
  }

  /** One input from beginning to end. */
  method CrossJoin<L, R>(input: seq<L>, build: seq<seq<R>>, outputBatchSize: nat) returns (output: seq<(L, R)>)
    requires |input| > 0 && outputBatchSize >= 1 && |build| >= 1 && forall k :: 0 <= k < |build| ==> |build[k]| >= 1
    ensures output == Product(input, build, |build|)
  {
    var probe := new CrossJoinProbe(build, outputBatchSize);
    probe.AddInput(input);
    output := [];
    while probe.input.Some?
      invariant probe.Valid() && fresh(probe) && probe.build == build && output == probe.returned
      invariant if probe.input.Some? then probe.input.value == input else output == Product(input, build, |build|)
      decreases if probe.input.Some? then 1 else 0, |build| - probe.buildIndex, |input| - probe.probeRow
    {
      var batch := probe.GetOutput();
      output := output + batch.value;
    }
  }
}
