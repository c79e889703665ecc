/** Hashing encoded values: equal values hash equally, and the order of a map's entries is irrelevant. */
module SerdeHashes {
  import opened SerdeValues
  import opened SerdeOrders
  import opened SerdeCanonicals
  import opened SerdeStreams
  import opened SerdeCompares

  const TWO_64: nat := 0x1_0000_0000_0000_0000
  const NULL_HASH: nat := 1

  /** The hash functions of leaves, by width, and the mix of consecutive fields. */
  datatype Hashers = Hashers(ofInt: (int, nat) -> nat, ofString: seq<byte> -> nat, mix: (nat, nat) -> nat)

  function Mixed(upper: nat, lower: nat): nat {
    3860031 + (upper + lower) * 2779 + upper * lower * 2
  }

  /** In 64-bit arithmetic. */
  function CommutativeMix(upper: nat, lower: nat): nat {
    Mixed(upper, lower) % TWO_64
  }

  function Hash(v: Value, t: Type, h: Hashers): nat
    requires HasType(v, t)
    decreases t, 0
  {
    match t
    case IntType(width) => h.ofInt(v.num, width)
    case StringType => h.ofString(v.bytes)
    case RowType(fields) => HashFields(v, t, |fields|, h)
    case ArrayType(element) => HashArray(v.elements, element, NULL_HASH, h)
    case MapType(key, value) => HashArray(v.values, value, HashArray(v.keys, key, NULL_HASH, h), h)
  }

  function HashNullable(v: Value, t: Type, h: Hashers): nat
    requires Nullable(v, t)
    decreases t, 1
  {
    if v == Null then NULL_HASH else Hash(v, t, h)
  }

  function HashFields(v: Value, t: Type, n: nat, h: Hashers): nat
    requires t.RowType? && HasType(v, t) && n <= |t.fields|
    decreases t, 0, n
  {
    if n == 0 then NULL_HASH
    else
      var value := HashNullable(v.fields[n - 1], t.fields[n - 1], h);
      if n == 1 then value else h.mix(HashFields(v, t, n - 1, h), value)
  }

  function HashesOf(vs: seq<Value>, t: Type, h: Hashers): (xs: seq<nat>)
    requires AllHaveType(vs, t)
    ensures |xs| == |vs|
    decreases t, 2
  {
    seq(|vs|, i requires 0 <= i < |vs| => HashNullable(vs[i], t, h))
  }

  function MixAll(seed: nat, xs: seq<nat>, n: nat): nat
    requires n <= |xs|
  {
    if n == 0 then seed else CommutativeMix(MixAll(seed, xs, n - 1), xs[n - 1])
  }

  function HashArray(vs: seq<Value>, t: Type, seed: nat, h: Hashers): nat
    requires AllHaveType(vs, t)
    decreases t, 3
  {
    MixAll(seed, HashesOf(vs, t, h), |vs|)
  }

  // ------------------------------------------------------------------------------------------------
  // What is mixed, and in which order
  // ------------------------------------------------------------------------------------------------

  /** `g` mixes the hashes of consecutive fields: one alone as it is, each other into those before it. */
  ghost predicate MixesFields(h: Hashers, g: seq<nat> -> nat) {
    (forall x :: g([x]) == x) && forall s, x :: MixesLast(h, g, s, x)
  }

  ghost predicate MixesLast(h: Hashers, g: seq<nat> -> nat, s: seq<nat>, x: nat) {
    s != [] ==> g(s + [x]) == h.mix(g(s), x)
  }

  ghost function FieldHashes(v: Value, t: Type, n: nat, h: Hashers): (xs: seq<nat>)
    requires t.RowType? && HasType(v, t) && n <= |t.fields|
    ensures |xs| == n
  {
    seq(n, i requires 0 <= i < n => HashNullable(v.fields[i], t.fields[i], h))
  }

  /** The hash of a row mixes the hashes of all its fields, nulls included, in order. */
  lemma {:induction false} RowHashMeans(v: Value, t: Type, n: nat, h: Hashers, g: seq<nat> -> nat)
    requires t.RowType? && HasType(v, t) && 1 <= n <= |t.fields| && MixesFields(h, g)
    ensures HashFields(v, t, n, h) == g(FieldHashes(v, t, n, h))
  {
    if n == 1 {
      assert FieldHashes(v, t, 1, h) == [HashNullable(v.fields[0], t.fields[0], h)];
    } else {
      RowHashMeans(v, t, n - 1, h, g);
      var before, last := FieldHashes(v, t, n - 1, h), HashNullable(v.fields[n - 1], t.fields[n - 1], h);
      assert MixesLast(h, g, before, last);
      assert FieldHashes(v, t, n, h) == before + [last];
    }
  }

  ghost predicate MixesElements(seed: nat, g: seq<nat> -> nat) {
    g([]) == seed && forall s, x :: MixesNext(g, s, x)
  }

  ghost predicate MixesNext(g: seq<nat> -> nat, s: seq<nat>, x: nat) {
    g(s + [x]) == CommutativeMix(g(s), x)
  }

  /** The hash of an array mixes the hashes of all its elements into the seed, in order. */
  lemma {:induction false} ArrayHashMeans(seed: nat, xs: seq<nat>, n: nat, g: seq<nat> -> nat)
    requires n <= |xs| && MixesElements(seed, g)
    ensures MixAll(seed, xs, n) == g(xs[..n])
  {
    if n == 0 {
    } else {
      ArrayHashMeans(seed, xs, n - 1, g);
      assert MixesNext(g, xs[..n - 1], xs[n - 1]);
      assert xs[..n] == xs[..n - 1] + [xs[n - 1]];
    }
  }

  // ------------------------------------------------------------------------------------------------
  // Streams
  // ------------------------------------------------------------------------------------------------

  /** The hash of the encoded value, which is read to its end. */
  method HashStream(stream: ByteStream, t: Type, h: Hashers) returns (x: nat)
    requires Decode(t, stream.bytes).Some?
    modifies stream
    ensures var d := Decode(t, old(stream.bytes)).value;
            HasType(d.value, t) && x == Hash(d.value, t, h) && stream.bytes == d.rest
    decreases t, 1
  {
    DecodeHasType(t, stream.bytes);
    match t
    case IntType(width) =>
      var value := stream.ReadSigned(width);
      x := h.ofInt(value, width);
    case StringType =>
      var s := ReadString(stream);
      x := h.ofString(s);
    case RowType(_) =>
      x := HashRowStream(stream, t, h);
    case ArrayType(element) =>
      x := HashArrayStream(stream, element, NULL_HASH, h);
    case MapType(key, value) =>
      x := HashArrayStream(stream, key, NULL_HASH, h);
      x := HashArrayStream(stream, value, x, h);
  }

  method HashRowStream(stream: ByteStream, t: Type, h: Hashers) returns (x: nat)
    requires t.RowType? && Decode(t, stream.bytes).Some?
    modifies stream
    ensures var d := Decode(t, old(stream.bytes)).value;
            HasType(d.value, t) && x == Hash(d.value, t, h) && stream.bytes == d.rest
    decreases t, 0
  {
    ghost var v := Decode(t, stream.bytes).value.value;
    DecodeHasType(t, stream.bytes);
    var nulls := ReadNulls(stream, |t.fields|);
    ghost var bs := stream.bytes;
    x := NULL_HASH;
    for i := 0 to |t.fields|
      invariant AtField(t, nulls, bs, v.fields, i, stream.bytes)
      invariant x == HashFields(v, t, i, h)
    {
      FieldStep(t, nulls, bs, v.fields, i, stream.bytes);
      var value := HashNext(stream, t.fields[i], h, nulls[i], v.fields[i]);
      x := if i == 0 then value else h.mix(x, value);
    }
  }

  method HashArrayStream(stream: ByteStream, t: Type, seed: nat, h: Hashers) returns (x: nat)
    requires DecodeArray(t, stream.bytes).Some?
    modifies stream
    ensures var d := DecodeArray(t, old(stream.bytes)).value;
            AllHaveType(d.value, t) && x == HashArray(d.value, t, seed, h) && stream.bytes == d.rest
    decreases t, 4
  {
    ghost var vs := DecodeArray(t, stream.bytes).value.value;
    ArrayHasType(t, stream.bytes);
    var size := stream.ReadSigned(SIZE_BYTES);
    var nulls := ReadNulls(stream, size);
    x := HashElementsStream(stream, t, seed, h, nulls, vs);
  }

  method HashElementsStream(
      stream: ByteStream, t: Type, seed: nat, h: Hashers, nulls: seq<bool>, ghost vs: seq<Value>)
    returns (x: nat)
    requires AllHaveType(vs, t) && Remaining(t, nulls, stream.bytes, vs)
    modifies stream
    ensures x == HashArray(vs, t, seed, h) && stream.bytes == AfterElements(t, nulls, old(stream.bytes), vs)
    decreases t, 3
  {
    ghost var bs, hashes := stream.bytes, HashesOf(vs, t, h);
    x := seed;
    for i := 0 to |nulls|
      invariant AtElement(t, nulls, bs, vs, i, stream.bytes)
      invariant x == MixAll(seed, hashes, i)
    {
      ElementStep(t, nulls, bs, vs, i, stream.bytes);
      var value := HashNext(stream, t, h, nulls[i], vs[i]);
      assert hashes[i] == value;
      x := CommutativeMix(x, value);
    }
  }

  /** A field or an element, which may be null. */
  method HashNext(stream: ByteStream, t: Type, h: Hashers, isNull: bool, ghost v: Value) returns (x: nat)
    requires Nullable(v, t) && HoldsNext(t, isNull, stream.bytes, v)
    modifies stream
    ensures x == HashNullable(v, t, h) && stream.bytes == AfterValue(t, isNull, old(stream.bytes))
    decreases t, 2
  {
    x := NULL_HASH;
    if !isNull {
      x := HashStream(stream, t, h);
    }
  }

  // ------------------------------------------------------------------------------------------------
  // The mix of array elements does not depend on their order
  // ------------------------------------------------------------------------------------------------

  /** With the chosen constants the mix is a multiplication in disguise. */
  lemma MixIsProduct(upper: nat, lower: nat)
    ensures 2 * Mixed(upper, lower) + 2779 == (2 * upper + 2779) * (2 * lower + 2779)
  {
    assert (2 * upper + 2779) * (2 * lower + 2779) == 4 * (upper * lower) + 2 * 2779 * (upper + lower) + 2779 * 2779;
  }

  lemma MixedTwice(x: nat, a: nat, b: nat)
    ensures Mixed(Mixed(x, a), b) == Mixed(Mixed(x, b), a)
  {
    MixIsProduct(x, a);
    MixIsProduct(Mixed(x, a), b);
    MixIsProduct(x, b);
    MixIsProduct(Mixed(x, b), a);
    SwapFactors(2 * x + 2779, 2 * a + 2779, 2 * b + 2779);
  }

  lemma SwapFactors(p: nat, q: nat, r: nat)
    ensures (p * q) * r == (p * r) * q
  {
  }

  lemma WholeTurns(x: int, turns: int)
    ensures (x + TWO_64 * turns) % TWO_64 == x % TWO_64
  {
  }

  /** Reducing the accumulator before mixing changes nothing. */
  lemma MixReduced(x: nat, b: nat)
    ensures Mixed(x % TWO_64, b) % TWO_64 == Mixed(x, b) % TWO_64
  {
    var low, turns := x % TWO_64, x / TWO_64;
    var k := turns * (2779 + 2 * b);
    assert Mixed(x, b) == Mixed(low, b) + TWO_64 * k by {
      assert x == low + TWO_64 * turns;
      MixedSum(low, TWO_64 * turns, b);
      assert (TWO_64 * turns) * (2779 + 2 * b) == TWO_64 * k;
    }
    WholeTurns(Mixed(low, b), k);
  }

  lemma MixedSum(x: nat, y: nat, b: nat)
    ensures Mixed(x + y, b) == Mixed(x, b) + y * (2779 + 2 * b)
  {
    assert (x + y + b) * 2779 == (x + b) * 2779 + y * 2779;
    assert (x + y) * b * 2 == x * b * 2 + y * (2 * b);
  }

  /** The multiplier and the constant are chosen so that two elements may change places. */
  lemma MixInAnyOrder(x: nat, a: nat, b: nat)
    ensures CommutativeMix(CommutativeMix(x, a), b) == CommutativeMix(CommutativeMix(x, b), a)
  {
    MixReduced(Mixed(x, a), b);
    MixReduced(Mixed(x, b), a);
    MixedTwice(x, a, b);
  }

  lemma {:induction false} MixPrefix(seed: nat, xs: seq<nat>, ys: seq<nat>, n: nat)
    requires n <= |xs| && n <= |ys| && xs[..n] == ys[..n]
    ensures MixAll(seed, xs, n) == MixAll(seed, ys, n)
  {
    if n == 0 {
    } else {
      assert xs[..n - 1] == xs[..n][..n - 1] && ys[..n - 1] == ys[..n][..n - 1];
      assert xs[n - 1] == xs[..n][n - 1] && ys[n - 1] == ys[..n][n - 1];
      MixPrefix(seed, xs, ys, n - 1);
    }
  }

  /** An element may be mixed in last. */
  lemma {:induction false} MixLast(seed: nat, xs: seq<nat>, p: nat, n: nat)
    requires p < n <= |xs|
    ensures MixAll(seed, xs, n) == CommutativeMix(MixAll(seed, Without(xs, p), n - 1), xs[p])
  {
    var others := Without(xs, p);
    if p == n - 1 {
      assert xs[..p] == others[..p];
      MixPrefix(seed, xs, others, p);
    } else {
      MixLast(seed, xs, p, n - 1);
      assert others[n - 2] == xs[n - 1];
      MixInAnyOrder(MixAll(seed, others, n - 2), xs[p], xs[n - 1]);
    }
  }

  lemma SameElsewhere(xs: seq<nat>, ys: seq<nat>) returns (p: nat)
    requires multiset(xs) == multiset(ys) && xs != []
    ensures p < |ys| && ys[p] == xs[|xs| - 1] && multiset(xs[..|xs| - 1]) == multiset(Without(ys, p))
  {
    var last := xs[|xs| - 1];
    assert last in multiset(ys);
    p :| 0 <= p < |ys| && ys[p] == last;
    WithoutOne(ys, p);
    WithoutOne(xs, |xs| - 1);
    assert Without(xs, |xs| - 1) == xs[..|xs| - 1];
    assert multiset(xs[..|xs| - 1]) == multiset(xs) - multiset{last};
  }

  lemma {:induction false} MixUnordered(seed: nat, xs: seq<nat>, ys: seq<nat>)
    requires multiset(xs) == multiset(ys)
    ensures |xs| == |ys| && MixAll(seed, xs, |xs|) == MixAll(seed, ys, |ys|)
    decreases |xs|
  {
    assert |multiset(xs)| == |xs| && |multiset(ys)| == |ys|;
    if xs == [] {
    } else {
      var p := SameElsewhere(xs, ys);
      var rest := xs[..|xs| - 1];
      MixUnordered(seed, rest, Without(ys, p));
      MixPrefix(seed, xs, rest, |rest|);
      MixLast(seed, ys, p, |ys|);
    }
  }

  lemma {:induction false} HashesPermuted(vs: seq<Value>, t: Type, h: Hashers, indices: seq<nat>)
    requires AllHaveType(vs, t) && IsPermutation(indices, |vs|)
    ensures AllHaveType(Permuted(vs, indices), t)
    ensures multiset(HashesOf(Permuted(vs, indices), t, h)) == multiset(HashesOf(vs, t, h))
  {
    var hashes := HashesOf(vs, t, h);
    PermutedKeeps(hashes, indices, |vs|);
    assert HashesOf(Permuted(vs, indices), t, h) == Permuted(hashes, indices);
    assert hashes[..|vs|] == hashes;
  }

  /** Writing a map in key order does not change its hash: the vector need not be sorted to be hashed. */
  lemma MapHashIgnoresOrder(m: Value, key: Type, value: Type, h: Hashers)
    requires HasType(m, MapType(key, value))
    ensures var indices := SortedKeyIndices(m.keys, key, |m.keys|);
            var sorted := MapValue(Permuted(m.keys, indices), Permuted(m.values, indices));
            && HasType(sorted, MapType(key, value))
            && Hash(sorted, MapType(key, value), h) == Hash(m, MapType(key, value), h)
  {
    var indices: seq<nat> := SortedKeyIndices(m.keys, key, |m.keys|);
    forall k: nat
      ensures multiset(indices)[k] == if k < |m.keys| then 1 else 0
    {
      EveryIndexOnce(m.keys, key, |m.keys|, k);
    }
    HashesPermuted(m.keys, key, h, indices);
    HashesPermuted(m.values, value, h, indices);
    var keys, values := Permuted(m.keys, indices), Permuted(m.values, indices);
    MixUnordered(NULL_HASH, HashesOf(keys, key, h), HashesOf(m.keys, key, h));
    MixUnordered(HashArray(m.keys, key, NULL_HASH, h), HashesOf(values, value, h), HashesOf(m.values, value, h));
  }

  // ------------------------------------------------------------------------------------------------
  // Values in vectors
  // ------------------------------------------------------------------------------------------------

  /** `hashValueAt`: rows mix the children that they have, and maps are not sorted first. */
  ghost function HashVector(v: Value, t: Type, h: Hashers): nat
    requires RawType(v, t)
    decreases t, 0
  {
    match t
    case IntType(width) => h.ofInt(v.num, width)
    case StringType => h.ofString(v.bytes)
    case RowType(fields) => HashChildren(v, t, |v.fields|, h)
    case ArrayType(element) => HashVectorArray(v.elements, element, NULL_HASH, h)
    case MapType(key, value) => HashVectorArray(v.values, value, HashVectorArray(v.keys, key, NULL_HASH, h), h)
  }

  /** How many of the first `n` children are there. */
  ghost function Present(v: Value, n: nat): (k: nat)
    requires v.RowValue? && n <= |v.fields|
    ensures k <= n
  {
    if n == 0 then 0 else Present(v, n - 1) + if v.fields[n - 1].Absent? then 0 else 1
  }

  ghost function HashChild(v: Value, t: Type, h: Hashers): nat
    requires v == Null || RawType(v, t)
    decreases t, 1
  {
    if v == Null then NULL_HASH else HashVector(v, t, h)
  }

  /** Children that are not there are skipped, and the first that is there is not mixed. */
  ghost function HashChildren(v: Value, t: Type, n: nat, h: Hashers): nat
    requires t.RowType? && RawType(v, t) && n <= |v.fields|
    decreases t, 0, n
  {
    if n == 0 then NULL_HASH
    else if v.fields[n - 1].Absent? then HashChildren(v, t, n - 1, h)
    else
      var value := HashChild(v.fields[n - 1], t.fields[n - 1], h);
      if Present(v, n - 1) == 0 then value else h.mix(HashChildren(v, t, n - 1, h), value)
  }

  ghost function ChildHashes(v: Value, t: Type, n: nat, h: Hashers): (xs: seq<nat>)
    requires t.RowType? && RawType(v, t) && n <= |v.fields|
    ensures |xs| == Present(v, n)
  {
    if n == 0 then []
    else
      ChildHashes(v, t, n - 1, h)
      + if v.fields[n - 1].Absent? then [] else [HashChild(v.fields[n - 1], t.fields[n - 1], h)]
  }

  /** The hash of a row in a vector mixes the hashes of the children that are there, in order; it is that of
      null if there are none. */
  lemma {:induction false} VectorRowHashMeans(v: Value, t: Type, n: nat, h: Hashers, g: seq<nat> -> nat)
    requires t.RowType? && RawType(v, t) && n <= |v.fields| && MixesFields(h, g)
    ensures HashChildren(v, t, n, h) == if Present(v, n) == 0 then NULL_HASH else g(ChildHashes(v, t, n, h))
  {
    if n == 0 {
    } else {
      VectorRowHashMeans(v, t, n - 1, h, g);
      var before := ChildHashes(v, t, n - 1, h);
      if v.fields[n - 1].Absent? {
        assert ChildHashes(v, t, n, h) == before;
      } else {
        var last := HashChild(v.fields[n - 1], t.fields[n - 1], h);
        assert MixesLast(h, g, before, last);
        assert before == [] ==> before + [last] == [last];
      }
    }
  }

  ghost function VectorHashes(vs: seq<Value>, t: Type, h: Hashers): (xs: seq<nat>)
    requires AllRaw(vs, t)
    ensures |xs| == |vs|
    decreases t, 2
  {
    seq(|vs|, i requires 0 <= i < |vs| => HashChild(vs[i], t, h))
  }

  ghost function HashVectorArray(vs: seq<Value>, t: Type, seed: nat, h: Hashers): nat
    requires AllRaw(vs, t)
    decreases t, 3
  {
    MixAll(seed, VectorHashes(vs, t, h), |vs|)
  }

  /** No row, at any depth, lacks a child, unless its type has one field only. */
  ghost predicate Complete(v: Value, t: Type)
    requires RawType(v, t)
    decreases t, 0
  {
    match t
    case IntType(_) => true
    case StringType => true
    case RowType(fields) =>
      && (|fields| == 1 || HasAllChildren(v, fields))
      && forall i :: 0 <= i < |v.fields| ==> NoValue(v.fields[i]) || Complete(v.fields[i], fields[i])
    case ArrayType(element) => AllComplete(v.elements, element)
    case MapType(key, value) => AllComplete(v.keys, key) && AllComplete(v.values, value)
  }

  ghost predicate HasAllChildren(v: Value, fields: seq<Type>)
    requires v.RowValue?
  {
    |v.fields| == |fields| && forall i :: 0 <= i < |v.fields| ==> !v.fields[i].Absent?
  }

  ghost predicate AllComplete(vs: seq<Value>, t: Type)
    requires AllRaw(vs, t)
    decreases t, 1
  {
    forall i :: 0 <= i < |vs| ==> vs[i] == Null || Complete(vs[i], t)
  }

  lemma {:induction false} TypedIsComplete(v: Value, t: Type)
    requires HasType(v, t) && RawType(v, t)
    ensures Complete(v, t)
    decreases t, 0
  {
    match t
    case IntType(_) =>
    case StringType =>
    case RowType(fields) =>
      forall i | 0 <= i < |fields| && !NoValue(v.fields[i])
        ensures Complete(v.fields[i], fields[i])
      {
        TypedIsComplete(v.fields[i], fields[i]);
      }
    case ArrayType(element) => AllTypedComplete(v.elements, element);
    case MapType(key, value) =>
      AllTypedComplete(v.keys, key);
      AllTypedComplete(v.values, value);
  }

  lemma {:induction false} AllTypedComplete(vs: seq<Value>, t: Type)
    requires AllHaveType(vs, t) && AllRaw(vs, t)
    ensures AllComplete(vs, t)
    decreases t, 1
  {
    forall i | 0 <= i < |vs| && vs[i] != Null
      ensures Complete(vs[i], t)
    {
      TypedIsComplete(vs[i], t);
    }
  }

  lemma {:induction false} AllPresent(v: Value, n: nat)
    requires v.RowValue? && n <= |v.fields| && forall i :: 0 <= i < |v.fields| ==> !v.fields[i].Absent?
    ensures Present(v, n) == n
  {
    if n == 0 {
    } else {
      AllPresent(v, n - 1);
    }
  }

  /** Writing a value in canonical form, with every map at every depth in key order, does not change its
      hash, provided that no row with several fields lacks a child. */
  lemma {:induction false} CanonicalHash(v: Value, t: Type, h: Hashers)
    requires RawType(v, t) && Complete(v, t)
    ensures HashVector(v, t, h) == Hash(Canonical(v, t), t, h)
    decreases t, 0
  {
    match t
    case IntType(_) =>
    case StringType =>
    case RowType(fields) =>
      if HasAllChildren(v, fields) {
        CanonicalFieldsHash(v, t, |fields|, h);
      } else {
        OneFieldHash(v, t, h);
      }
    case ArrayType(element) => CanonicalHashes(v.elements, element, h);
    case MapType(key, value) =>
      CanonicalHashes(v.keys, key, h);
      CanonicalHashes(v.values, value, h);
      MapHashIgnoresOrder(MapValue(CanonicalAll(v.keys, key), CanonicalAll(v.values, value)), key, value, h);
  }

  lemma OneFieldHash(v: Value, t: Type, h: Hashers)
    requires t.RowType? && RawType(v, t) && |t.fields| == 1 && !HasAllChildren(v, t.fields)
    ensures HashVector(v, t, h) == Hash(Canonical(v, t), t, h)
  {
    assert HashFields(Canonical(v, t), t, 1, h) == NULL_HASH;
    assert HashChildren(v, t, |v.fields|, h) == NULL_HASH;
  }

  lemma CanonicalChildHash(v: Value, t: Type, c: Value, h: Hashers)
    requires v == Null || (RawType(v, t) && Complete(v, t))
    requires c == if v == Null then Null else Canonical(v, t)
    ensures HashChild(v, t, h) == HashNullable(c, t, h)
    decreases t, 1
  {
    if v != Null {
      CanonicalHash(v, t, h);
    }
  }

  lemma {:induction false} CanonicalFieldsHash(v: Value, t: Type, n: nat, h: Hashers)
    requires t.RowType? && RawType(v, t) && Complete(v, t) && HasAllChildren(v, t.fields) && n <= |v.fields|
    ensures HashChildren(v, t, n, h) == HashFields(Canonical(v, t), t, n, h)
    decreases t, 0, n
  {
    if n == 0 {
    } else {
      CanonicalFieldsHash(v, t, n - 1, h);
      CanonicalChildHash(v.fields[n - 1], t.fields[n - 1], Canonical(v, t).fields[n - 1], h);
      AllPresent(v, n - 1);
    }
  }

  lemma {:induction false} CanonicalHashes(vs: seq<Value>, t: Type, h: Hashers)
    requires AllRaw(vs, t) && AllComplete(vs, t)
    ensures VectorHashes(vs, t, h) == HashesOf(CanonicalAll(vs, t), t, h)
    decreases t, 2
  {
    forall i | 0 <= i < |vs|
      ensures VectorHashes(vs, t, h)[i] == HashesOf(CanonicalAll(vs, t), t, h)[i]
    {
      CanonicalChildHash(vs[i], t, CanonicalAll(vs, t)[i], h);
    }
  }

  /** A stored value that compares equal to a vector's value hashes like it. */
  method CompareAndHash(stored: ByteStream, again: ByteStream, r: Value, t: Type, f: CompareFlags, h: Hashers)
    returns (c: int, x: nat)
    requires stored != again && again.bytes == stored.bytes && Decode(t, stored.bytes).Some? && HasType(r, t)
    modifies stored, again
    ensures RawType(r, t)
    ensures c == 0 ==> x == HashVector(r, t, h)
    ensures f.equalsOnly ==> (c == 0 <==> Decode(t, old(stored.bytes)).value.value == Canonical(r, t))
  {
    c := CompareWithVector(stored, r, t, f);
    x := HashStream(again, t, h);
    if c == 0 {
      ZeroIsEqual(Decode(t, old(stored.bytes)).value.value, Canonical(r, t), t, f);
      TypedIsComplete(r, t);
      CanonicalHash(r, t, h);
    }
  }

  /** Two vector values whose stored forms compare equal hash equally, in whatever order each holds the
      entries of its maps. */
  lemma EqualValuesHashEqually(l: Value, r: Value, t: Type, f: CompareFlags, h: Hashers)
    requires RawType(l, t) && RawType(r, t) && Complete(l, t) && Complete(r, t)
    requires ValueAnswer(0, t, Canonical(l, t), Canonical(r, t), f)
    ensures HashVector(l, t, h) == HashVector(r, t, h)
  {
    ZeroIsEqual(Canonical(l, t), Canonical(r, t), t, f);
    CanonicalHash(l, t, h);
    CanonicalHash(r, t, h);
  }
}
