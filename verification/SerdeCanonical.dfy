/** The form in which a value is written: rows as wide as their type, maps in key order. */
module SerdeCanonicals {
  import opened SerdeValues
  import opened SerdeOrders

  /** A non-null value as a vector may hold it: rows may lack children, at the end or anywhere, and maps are
      in any order. */
  ghost predicate RawType(v: Value, t: Type)
    decreases t, 0
  {
    match t
    case IntType(_) => HasType(v, t)
    case StringType => HasType(v, t)
    case RowType(fields) =>
      && v.RowValue? && |v.fields| <= |fields|
      && forall i :: 0 <= i < |v.fields| ==> NoValue(v.fields[i]) || RawType(v.fields[i], fields[i])
    case ArrayType(element) => v.ArrayValue? && AllRaw(v.elements, element)
    case MapType(key, value) => v.MapValue? && |v.keys| == |v.values| && AllRaw(v.keys, key) && AllRaw(v.values, value)
  }

  /** Null, or a child that is not there. */
  predicate NoValue(v: Value) {
    v.Null? || v.Absent?
  }

  ghost predicate AllRaw(vs: seq<Value>, t: Type)
    decreases t, 1
  {
    |vs| < MAX_SIZE && forall i :: 0 <= i < |vs| ==> vs[i] == Null || RawType(vs[i], t)
  }

  function Canonical(v: Value, t: Type): (c: Value)
    requires RawType(v, t)
    ensures HasType(c, t)
    decreases t, 0
  {
    match t
    case IntType(_) => v
    case StringType => v
    case RowType(fields) =>
      RowValue(seq(|fields|, i requires 0 <= i < |fields| =>
        if i < |v.fields| && !NoValue(v.fields[i]) then Canonical(v.fields[i], fields[i]) else Null))
    case ArrayType(element) => ArrayValue(CanonicalAll(v.elements, element))
    case MapType(key, value) =>
      var keys, values := CanonicalAll(v.keys, key), CanonicalAll(v.values, value);
      var indices := SortedKeyIndices(keys, key, |keys|);
      MapValue(Permuted(keys, indices), Permuted(values, indices))
  }

  function CanonicalAll(vs: seq<Value>, t: Type): (cs: seq<Value>)
    requires AllRaw(vs, t)
    ensures |cs| == |vs| && AllHaveType(cs, t)
    decreases t, 1
  {
    seq(|vs|, i requires 0 <= i < |vs| => if vs[i] == Null then Null else Canonical(vs[i], t))
  }

  function Permuted<T>(vs: seq<T>, indices: seq<nat>): (ps: seq<T>)
    requires forall i :: 0 <= i < |indices| ==> indices[i] < |vs|
    ensures |ps| == |indices| && forall i :: 0 <= i < |ps| ==> ps[i] == vs[indices[i]]
  {
    seq(|indices|, i requires 0 <= i < |indices| => vs[indices[i]])
  }

  const DEFAULT_FLAGS := CompareFlags(true, true, false)

  ghost predicate InRange(indices: seq<nat>, n: nat) {
    forall i :: 0 <= i < |indices| ==> indices[i] < n
  }

  function Insert(indices: seq<nat>, k: nat, keys: seq<Value>, t: Type): (r: seq<nat>)
    requires AllHaveType(keys, t) && InRange(indices, k + 1) && k < |keys|
    ensures |r| == |indices| + 1 && InRange(r, k + 1)
  {
    if indices == [] then [k]
    else
      var last := indices[|indices| - 1];
      if OrderNullable(keys[last], keys[k], t, DEFAULT_FLAGS) <= 0 then indices + [k]
      else Insert(indices[..|indices| - 1], k, keys, t) + [last]
  }

  /** The first `n` positions, ordered by key. */
  function SortedKeyIndices(keys: seq<Value>, t: Type, n: nat): (r: seq<nat>)
    requires AllHaveType(keys, t) && n <= |keys|
    ensures |r| == n && InRange(r, n)
  {
    if n == 0 then [] else Insert(SortedKeyIndices(keys, t, n - 1), n - 1, keys, t)
  }

  /** A value with complete rows and maps in any order is a raw value. */
  lemma {:induction false} HasTypeIsRaw(v: Value, t: Type)
    requires HasType(v, t)
    ensures RawType(v, t)
    decreases t, 0
  {
    match t
    case IntType(_) =>
    case StringType =>
    case RowType(fields) =>
      forall i | 0 <= i < |fields| && v.fields[i] != Null
        ensures RawType(v.fields[i], fields[i])
      {
        HasTypeIsRaw(v.fields[i], fields[i]);
      }
    case ArrayType(element) => AllTypedIsRaw(v.elements, element);
    case MapType(key, value) =>
      AllTypedIsRaw(v.keys, key);
      AllTypedIsRaw(v.values, value);
  }

  lemma {:induction false} AllTypedIsRaw(vs: seq<Value>, t: Type)
    requires AllHaveType(vs, t)
    ensures AllRaw(vs, t)
    decreases t, 1
  {
    forall i | 0 <= i < |vs| && vs[i] != Null
      ensures RawType(vs[i], t)
    {
      HasTypeIsRaw(vs[i], t);
    }
  }

  // ------------------------------------------------------------------------------------------------
  // The indices are a sorted permutation
  // ------------------------------------------------------------------------------------------------

  lemma {:induction false} InsertPermutes(indices: seq<nat>, k: nat, keys: seq<Value>, t: Type)
    requires AllHaveType(keys, t) && InRange(indices, k + 1) && k < |keys|
    ensures multiset(Insert(indices, k, keys, t)) == multiset(indices) + multiset{k}
  {
    if indices == [] {
    } else {
      var rest, last := indices[..|indices| - 1], indices[|indices| - 1];
      assert indices == rest + [last];
      InsertPermutes(rest, k, keys, t);
    }
  }

  lemma CountAfter(before: seq<nat>, last: nat, after: seq<nat>, k: nat)
    requires multiset(after) == multiset(before) + multiset{last}
    ensures multiset(after)[k] == multiset(before)[k] + if k == last then 1 else 0
  {
  }

  /** Each step adds the next index. */
  ghost predicate AddsIndex(f: nat -> seq<nat>, i: nat) {
    multiset(f(i + 1)) == multiset(f(i)) + multiset{i}
  }

  lemma {:induction false} IndicesByStep(f: nat -> seq<nat>, n: nat, k: nat)
    requires f(0) == [] && forall i: nat :: i < n ==> AddsIndex(f, i)
    ensures multiset(f(n))[k] == if k < n then 1 else 0
  {
    if n == 0 {
    } else {
      IndicesByStep(f, n - 1, k);
      assert AddsIndex(f, n - 1);
      CountAfter(f(n - 1), n - 1, f(n), k);
    }
  }

  ghost function IndicesUpTo(keys: seq<Value>, t: Type): nat -> seq<nat>
    requires AllHaveType(keys, t)
  {
    (n: nat) => if n <= |keys| then SortedKeyIndices(keys, t, n) else []
  }

  lemma SortedStep(keys: seq<Value>, t: Type, i: nat)
    requires AllHaveType(keys, t) && i < |keys|
    ensures multiset(SortedKeyIndices(keys, t, i + 1)) == multiset(SortedKeyIndices(keys, t, i)) + multiset{i}
  {
    InsertPermutes(SortedKeyIndices(keys, t, i), i, keys, t);
  }

  lemma IndexAdded(keys: seq<Value>, t: Type, i: nat)
    requires AllHaveType(keys, t) && i < |keys|
    ensures AddsIndex(IndicesUpTo(keys, t), i)
  {
    SortedStep(keys, t, i);
  }

  lemma EveryIndexOnce(keys: seq<Value>, t: Type, n: nat, k: nat)
    requires AllHaveType(keys, t) && n <= |keys|
    ensures multiset(SortedKeyIndices(keys, t, n))[k] == if k < n then 1 else 0
  {
    var f := IndicesUpTo(keys, t);
    forall i: nat | i < n
      ensures AddsIndex(f, i)
    {
      IndexAdded(keys, t, i);
    }
    IndicesByStep(f, n, k);
  }

  /** The key at position `i` does not come after the key at position `j`. */
  ghost predicate KeyUpTo(keys: seq<Value>, t: Type, i: nat, j: nat) {
    i < |keys| && j < |keys| && AllHaveType(keys, t) && OrderNullable(keys[i], keys[j], t, DEFAULT_FLAGS) <= 0
  }

  ghost predicate InKeyOrder(keys: seq<Value>, t: Type, indices: seq<nat>) {
    forall i, j :: 0 <= i < j < |indices| ==> KeyUpTo(keys, t, indices[i], indices[j])
  }

  lemma InsertLast(indices: seq<nat>, k: nat, keys: seq<Value>, t: Type)
    requires AllHaveType(keys, t) && InRange(indices, k + 1) && k < |keys| && InKeyOrder(keys, t, indices)
    requires indices != [] && KeyUpTo(keys, t, indices[|indices| - 1], k)
    ensures InKeyOrder(keys, t, indices + [k])
  {
    var last := indices[|indices| - 1];
    forall i | 0 <= i < |indices|
      ensures KeyUpTo(keys, t, indices[i], k)
    {
      if i < |indices| - 1 {
        assert KeyUpTo(keys, t, indices[i], last);
        NullableTransitive(keys[indices[i]], keys[last], keys[k], t, DEFAULT_FLAGS);
      }
    }
  }

  lemma {:induction false} InsertSorts(indices: seq<nat>, k: nat, keys: seq<Value>, t: Type)
    requires AllHaveType(keys, t) && InRange(indices, k + 1) && k < |keys| && InKeyOrder(keys, t, indices)
    ensures InKeyOrder(keys, t, Insert(indices, k, keys, t))
  {
    if indices == [] {
    } else {
      var rest, last := indices[..|indices| - 1], indices[|indices| - 1];
      if OrderNullable(keys[last], keys[k], t, DEFAULT_FLAGS) <= 0 {
        InsertLast(indices, k, keys, t);
      } else {
        InsertSorts(rest, k, keys, t);
        InsertPermutes(rest, k, keys, t);
        NullableAntisymmetric(keys[last], keys[k], t, DEFAULT_FLAGS);
        StaysLast(keys, t, rest, k, last, Insert(rest, k, keys, t));
      }
    }
  }

  lemma StaysLast(keys: seq<Value>, t: Type, rest: seq<nat>, k: nat, last: nat, r: seq<nat>)
    requires multiset(r) == multiset(rest) + multiset{k}
    requires KeyUpTo(keys, t, k, last) && InKeyOrder(keys, t, rest + [last]) && InKeyOrder(keys, t, r)
    ensures InKeyOrder(keys, t, r + [last])
  {
    forall i | 0 <= i < |r|
      ensures KeyUpTo(keys, t, r[i], last)
    {
      assert r[i] in multiset(rest) + multiset{k};
      if r[i] != k {
        var j :| 0 <= j < |rest| && rest[j] == r[i];
        assert (rest + [last])[j] == r[i] && (rest + [last])[|rest|] == last;
      }
    }
  }

  lemma {:induction false} IndicesInKeyOrder(keys: seq<Value>, t: Type, n: nat)
    requires AllHaveType(keys, t) && n <= |keys|
    ensures InKeyOrder(keys, t, SortedKeyIndices(keys, t, n))
  {
    if n == 0 {
    } else {
      IndicesInKeyOrder(keys, t, n - 1);
      InsertSorts(SortedKeyIndices(keys, t, n - 1), n - 1, keys, t);
    }
  }

  // ------------------------------------------------------------------------------------------------
  // The order of a map's entries does not matter
  // ------------------------------------------------------------------------------------------------

  ghost function Entries(keys: seq<Value>, values: seq<Value>): (e: seq<(Value, Value)>)
    requires |keys| == |values|
    ensures |e| == |keys|
  {
    seq(|keys|, i requires 0 <= i < |keys| => (keys[i], values[i]))
  }

  ghost predicate KeysTyped(e: seq<(Value, Value)>, t: Type) {
    forall i :: 0 <= i < |e| ==> Nullable(e[i].0, t)
  }

  ghost predicate StrictlySorted(e: seq<(Value, Value)>, t: Type)
    requires KeysTyped(e, t)
  {
    forall i, j :: 0 <= i < j < |e| ==> OrderNullable(e[i].0, e[j].0, t, DEFAULT_FLAGS) < 0
  }

  /** The last entry of one sorted list is the last entry of the other. */
  lemma SameLast(a: seq<(Value, Value)>, b: seq<(Value, Value)>, t: Type)
    requires KeysTyped(a, t) && KeysTyped(b, t) && StrictlySorted(a, t) && StrictlySorted(b, t)
    requires multiset(a) == multiset(b) && a != [] && b != []
    ensures a[|a| - 1] == b[|b| - 1]
  {
    var x, y := a[|a| - 1], b[|b| - 1];
    assert x in multiset(b) && y in multiset(a);
    var i :| 0 <= i < |a| && a[i] == y;
    var j :| 0 <= j < |b| && b[j] == x;
    NullableAntisymmetric(x.0, y.0, t, DEFAULT_FLAGS);
  }

  function Without<T>(s: seq<T>, p: nat): seq<T>
    requires p < |s|
  {
    s[..p] + s[p + 1..]
  }

  lemma WithoutOne<T>(s: seq<T>, p: nat)
    requires p < |s|
    ensures multiset(Without(s, p)) + multiset{s[p]} == multiset(s)
  {
    assert s == s[..p] + [s[p]] + s[p + 1..];
  }

  lemma DropLast<T>(a: seq<T>, b: seq<T>)
    requires multiset(a) == multiset(b) && a != [] && b != [] && a[|a| - 1] == b[|b| - 1]
    ensures multiset(a[..|a| - 1]) == multiset(b[..|b| - 1])
  {
    WithoutOne(a, |a| - 1);
    WithoutOne(b, |b| - 1);
    assert Without(a, |a| - 1) == a[..|a| - 1] && Without(b, |b| - 1) == b[..|b| - 1];
    assert multiset(a[..|a| - 1]) == multiset(a) - multiset{a[|a| - 1]};
  }

  lemma PrefixSorted(a: seq<(Value, Value)>, t: Type)
    requires KeysTyped(a, t) && StrictlySorted(a, t) && a != []
    ensures KeysTyped(a[..|a| - 1], t) && StrictlySorted(a[..|a| - 1], t)
  {
  }

  lemma SameFromParts<T>(a: seq<T>, b: seq<T>)
    requires a != [] && b != [] && a[..|a| - 1] == b[..|b| - 1] && a[|a| - 1] == b[|b| - 1]
    ensures a == b
  {
    assert a == a[..|a| - 1] + [a[|a| - 1]] && b == b[..|b| - 1] + [b[|b| - 1]];
  }

  lemma {:induction false} SortedIsUnique(a: seq<(Value, Value)>, b: seq<(Value, Value)>, t: Type)
    requires KeysTyped(a, t) && KeysTyped(b, t) && StrictlySorted(a, t) && StrictlySorted(b, t)
    requires multiset(a) == multiset(b)
    ensures a == b
    decreases |a|
  {
    assert |multiset(a)| == |a| && |multiset(b)| == |b|;
    if a == [] {
    } else {
      SameLast(a, b, t);
      DropLast(a, b);
      PrefixSorted(a, t);
      PrefixSorted(b, t);
      SortedIsUnique(a[..|a| - 1], b[..|b| - 1], t);
      SameFromParts(a, b);
    }
  }

  ghost predicate DistinctValues(vs: seq<Value>) {
    forall i, j :: 0 <= i < j < |vs| ==> vs[i] != vs[j]
  }

  lemma TwiceInMultiset(s: seq<nat>, i: nat, j: nat)
    requires i < j < |s|
    ensures s[i] == s[j] ==> multiset(s)[s[i]] >= 2
  {
    assert s == s[..j] + [s[j]] + s[j + 1..];
    assert s[i] in s[..j];
  }

  lemma DistinctIndices(keys: seq<Value>, t: Type, i: nat, j: nat)
    requires AllHaveType(keys, t) && i < j < |keys|
    ensures SortedKeyIndices(keys, t, |keys|)[i] != SortedKeyIndices(keys, t, |keys|)[j]
  {
    var idx: seq<nat> := SortedKeyIndices(keys, t, |keys|);
    EveryIndexOnce(keys, t, |keys|, idx[i]);
    TwiceInMultiset(idx, i, j);
  }

  lemma SortedStrictly(keys: seq<Value>, values: seq<Value>, t: Type)
    requires AllHaveType(keys, t) && |keys| == |values| && DistinctValues(keys)
    ensures var idx := SortedKeyIndices(keys, t, |keys|);
            var e := Entries(Permuted(keys, idx), Permuted(values, idx));
            KeysTyped(e, t) && StrictlySorted(e, t)
  {
    var idx := SortedKeyIndices(keys, t, |keys|);
    IndicesInKeyOrder(keys, t, |keys|);
    forall i, j | 0 <= i < j < |idx|
      ensures OrderNullable(keys[idx[i]], keys[idx[j]], t, DEFAULT_FLAGS) < 0
    {
      DistinctIndices(keys, t, i, j);
      assert KeyUpTo(keys, t, idx[i], idx[j]);
      assert keys[idx[i]] != keys[idx[j]];
      NullableZero(keys[idx[i]], keys[idx[j]], t, DEFAULT_FLAGS);
    }
  }

  ghost predicate IsPermutation(indices: seq<nat>, n: nat) {
    |indices| == n && InRange(indices, n) && forall k: nat :: multiset(indices)[k] == if k < n then 1 else 0
  }

  lemma SmallerPermutation(indices: seq<nat>, n: nat, p: nat)
    requires IsPermutation(indices, n) && p < n && indices[p] == n - 1
    ensures IsPermutation(Without(indices, p), n - 1)
  {
    WithoutOne(indices, p);
    var others: seq<nat> := Without(indices, p);
    forall k: nat
      ensures multiset(others)[k] == if k < n - 1 then 1 else 0
    {
      CountAfter(others, n - 1, indices, k);
    }
    forall i | 0 <= i < |others|
      ensures others[i] < n - 1
    {
      assert others[i] in multiset(others);
      assert multiset(others)[others[i]] <= multiset(indices)[others[i]];
    }
  }

  lemma PermutedWithout<T>(vs: seq<T>, indices: seq<nat>, p: nat)
    requires InRange(indices, |vs|) && p < |indices|
    ensures InRange(Without(indices, p), |vs|) && Without(Permuted(vs, indices), p) == Permuted(vs, Without(indices, p))
  {
  }

  lemma PermutedStep<T>(vs: seq<T>, indices: seq<nat>, p: nat)
    requires InRange(indices, |vs|) && p < |indices| && InRange(Without(indices, p), |vs|)
    ensures multiset(Permuted(vs, indices)) == multiset(Permuted(vs, Without(indices, p))) + multiset{vs[indices[p]]}
  {
    WithoutOne(Permuted(vs, indices), p);
    PermutedWithout(vs, indices, p);
  }

  lemma LastIndex(indices: seq<nat>, n: nat) returns (p: nat)
    requires IsPermutation(indices, n) && n > 0
    ensures p < n && indices[p] == n - 1
  {
    var last: nat := n - 1;
    assert multiset(indices)[last] == 1;
    p :| 0 <= p < n && indices[p] == last;
  }

  lemma OneMoreOf<T>(vs: seq<T>, n: nat)
    requires 0 < n <= |vs|
    ensures multiset(vs[..n]) == multiset(vs[..n - 1]) + multiset{vs[n - 1]}
  {
    assert vs[..n] == vs[..n - 1] + [vs[n - 1]];
  }

  lemma {:induction false} PermutedKeeps<T>(vs: seq<T>, indices: seq<nat>, n: nat)
    requires n <= |vs| && IsPermutation(indices, n)
    ensures multiset(Permuted(vs, indices)) == multiset(vs[..n])
    decreases n
  {
    if n == 0 {
    } else {
      var p := LastIndex(indices, n);
      SmallerPermutation(indices, n, p);
      PermutedKeeps(vs, Without(indices, p), n - 1);
      PermutedStep(vs, indices, p);
      OneMoreOf(vs, n);
    }
  }

  lemma SortedEntries(keys: seq<Value>, values: seq<Value>, t: Type)
    requires AllHaveType(keys, t) && |keys| == |values|
    ensures var idx := SortedKeyIndices(keys, t, |keys|);
            multiset(Entries(Permuted(keys, idx), Permuted(values, idx))) == multiset(Entries(keys, values))
  {
    var idx: seq<nat> := SortedKeyIndices(keys, t, |keys|);
    forall k: nat
      ensures multiset(idx)[k] == if k < |keys| then 1 else 0
    {
      EveryIndexOnce(keys, t, |keys|, k);
    }
    var e := Entries(keys, values);
    PermutedKeeps(e, idx, |keys|);
    assert Permuted(e, idx) == Entries(Permuted(keys, idx), Permuted(values, idx));
    assert e[..|keys|] == e;
  }

  lemma EntriesAgree(a: seq<Value>, b: seq<Value>, c: seq<Value>, d: seq<Value>)
    requires |a| == |b| && |c| == |d| && Entries(a, b) == Entries(c, d)
    ensures a == c && b == d
  {
    forall i | 0 <= i < |a|
      ensures a[i] == c[i] && b[i] == d[i]
    {
      assert Entries(a, b)[i] == (a[i], b[i]) && Entries(c, d)[i] == (c[i], d[i]);
    }
    assert |a| == |Entries(a, b)| == |c|;
  }

  /** Two maps with the same entries, in whatever order, are written alike. */
  lemma MapOrderIrrelevant(m1: Value, m2: Value, key: Type, value: Type)
    requires RawType(m1, MapType(key, value)) && RawType(m2, MapType(key, value))
    requires var k1, k2 := CanonicalAll(m1.keys, key), CanonicalAll(m2.keys, key);
             && DistinctValues(k1) && DistinctValues(k2)
             && multiset(Entries(k1, CanonicalAll(m1.values, value)))
                == multiset(Entries(k2, CanonicalAll(m2.values, value)))
    ensures Canonical(m1, MapType(key, value)) == Canonical(m2, MapType(key, value))
  {
    var k1, v1 := CanonicalAll(m1.keys, key), CanonicalAll(m1.values, value);
    var k2, v2 := CanonicalAll(m2.keys, key), CanonicalAll(m2.values, value);
    var c1, c2 := Canonical(m1, MapType(key, value)), Canonical(m2, MapType(key, value));
    SortedStrictly(k1, v1, key);
    SortedStrictly(k2, v2, key);
    SortedEntries(k1, v1, key);
    SortedEntries(k2, v2, key);
    SortedIsUnique(Entries(c1.keys, c1.values), Entries(c2.keys, c2.values), key);
    EntriesAgree(c1.keys, c1.values, c2.keys, c2.values);
  }
}
