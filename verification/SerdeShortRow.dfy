/** Rows that lack children: when the hash of a vector's value is the hash of its stored form. */
module SerdeShortRows {
  import opened Residues
  import opened SerdeValues
  import opened SerdeOrders
  import opened SerdeCanonicals
  import opened SerdeHashes

  // ------------------------------------------------------------------------------------------------
  // How much is missing
  // ------------------------------------------------------------------------------------------------

  /** A row of `n` fields with `k` children: the nulls that are mixed into the stored hash only. */
  ghost function Skipped(n: nat, k: nat): nat
    requires k <= n
  {
    if n == 0 then 0 else if k == 0 then n - 1 else n - k
  }

  /** The sum of these over the rows of a value, at all depths. */
  ghost function Missing(v: Value, t: Type): nat
    requires RawType(v, t)
    decreases t, 0
  {
    match t
    case IntType(_) => 0
    case StringType => 0
    case RowType(fields) =>
      Skipped(|fields|, Present(v, |v.fields|)) + MissingFields(v, t, |v.fields|)
    case ArrayType(element) => MissingAll(v.elements, element, |v.elements|)
    case MapType(key, value) => MissingAll(v.keys, key, |v.keys|) + MissingAll(v.values, value, |v.values|)
  }

  ghost function MissingIn(v: Value, t: Type): nat
    requires NoValue(v) || RawType(v, t)
    decreases t, 1
  {
    if NoValue(v) then 0 else Missing(v, t)
  }

  ghost function MissingFields(v: Value, t: Type, n: nat): nat
    requires t.RowType? && RawType(v, t) && n <= |v.fields|
    decreases t, 0, n
  {
    if n == 0 then 0 else MissingFields(v, t, n - 1) + MissingIn(v.fields[n - 1], t.fields[n - 1])
  }

  ghost function MissingAll(vs: seq<Value>, t: Type, n: nat): nat
    requires AllRaw(vs, t) && n <= |vs|
    decreases t, 2, n
  {
    if n == 0 then 0 else MissingAll(vs, t, n - 1) + MissingIn(vs[n - 1], t)
  }

  lemma {:induction false} PresentIff(v: Value, n: nat)
    requires v.RowValue? && n <= |v.fields|
    ensures Present(v, n) == n <==> forall i :: 0 <= i < n ==> !v.fields[i].Absent?
  {
    if n == 0 {
    } else {
      PresentIff(v, n - 1);
    }
  }

  lemma NoneSkippedIff(v: Value, t: Type)
    requires t.RowType? && RawType(v, t)
    ensures Skipped(|t.fields|, Present(v, |v.fields|)) == 0 <==> |t.fields| == 1 || HasAllChildren(v, t.fields)
  {
    PresentIff(v, |v.fields|);
  }

  /** Nothing is missing in a complete value, and in no other. */
  lemma {:induction false} NothingMissingIff(v: Value, t: Type)
    requires RawType(v, t)
    ensures Missing(v, t) == 0 <==> Complete(v, t)
    decreases t, 0
  {
    match t
    case IntType(_) =>
    case StringType =>
    case RowType(fields) =>
      NoneSkippedIff(v, t);
      NoFieldMissingIff(v, t, |v.fields|);
    case ArrayType(element) => NoneMissingIff(v.elements, element, |v.elements|);
    case MapType(key, value) =>
      NoneMissingIff(v.keys, key, |v.keys|);
      NoneMissingIff(v.values, value, |v.values|);
  }

  lemma {:induction false} NoFieldMissingIff(v: Value, t: Type, n: nat)
    requires t.RowType? && RawType(v, t) && n <= |v.fields|
    ensures MissingFields(v, t, n) == 0
       <==> forall i :: 0 <= i < n ==> NoValue(v.fields[i]) || Complete(v.fields[i], t.fields[i])
    decreases t, 0, n
  {
    if n == 0 {
    } else {
      NoFieldMissingIff(v, t, n - 1);
      if !NoValue(v.fields[n - 1]) {
        NothingMissingIff(v.fields[n - 1], t.fields[n - 1]);
      }
    }
  }

  lemma {:induction false} NoneMissingIff(vs: seq<Value>, t: Type, n: nat)
    requires AllRaw(vs, t) && n <= |vs|
    ensures MissingAll(vs, t, n) == 0 <==> forall i :: 0 <= i < n ==> vs[i] == Null || Complete(vs[i], t)
    decreases t, 1, n
  {
    if n == 0 {
    } else {
      NoneMissingIff(vs, t, n - 1);
      if vs[n - 1] != Null {
        NothingMissingIff(vs[n - 1], t);
      }
    }
  }

  // ------------------------------------------------------------------------------------------------
  // Hash functions that count what is missing
  // ------------------------------------------------------------------------------------------------

  /** Up to this transformation the mix of array elements is a product. */
  function Factor(x: nat): nat {
    2 * x + 2779
  }

  /** The hash with factor one. */
  const UNIT: nat := TWO_64 - 1389

  /** A hash whose factor, times that of the hash of nulls, is five. */
  const FIVE_BY_NULL: nat := 0x7311_07A3_F260_4437

  /** Fields are mixed like array elements, and each mix brings one more factor. */
  function CountingMix(x: nat, y: nat): nat {
    CommutativeMix(CommutativeMix(x, y), FIVE_BY_NULL)
  }

  const COUNTING :=
    Hashers((x: int, width: nat) => UNIT, (s: seq<byte>) => UNIT, (x: nat, y: nat) => CountingMix(x, y))

  /** The stored hash has `d` factors of five more than the hash of the vector. */
  ghost predicate Ahead(stored: nat, vector: nat, d: nat) {
    Congruent(Factor(stored), Factor(vector) * Five(d))
  }

  lemma FactorOfMix(x: nat, y: nat)
    ensures Congruent(Factor(CommutativeMix(x, y)), Factor(x) * Factor(y))
  {
    var m := Mixed(x, y);
    MixIsProduct(x, y);
    assert m == m % TWO_64 + TWO_64 * (m / TWO_64);
    CongruentBy(Factor(m % TWO_64), Factor(m), -(m / TWO_64));
  }

  lemma NotAhead(x: nat)
    ensures Ahead(x, x, 0)
  {
    Same(Factor(x));
  }

  lemma AheadChain(a: nat, b: nat, c: nat, d: nat, e: nat)
    requires Ahead(a, b, d) && Ahead(b, c, e)
    ensures Ahead(a, c, d + e)
  {
    Scaled(Factor(b), Factor(c) * Five(e), Five(d));
    FiveOfSum(d, e);
    Reassociated(Factor(c), Five(e), Five(d));
    Chain(Factor(a), Factor(b) * Five(d), Factor(c) * Five(d + e));
  }

  lemma Reassociated(x: int, y: int, z: int)
    ensures (x * y) * z == x * (z * y)
  {
  }

  lemma Exchanged(a: int, b: int, c: int, d: int)
    ensures (a * b) * (c * d) == (a * c) * (b * d)
  {
  }

  /** What two hashes are ahead adds up in their mix. */
  lemma AheadMixed(s1: nat, v1: nat, d1: nat, s2: nat, v2: nat, d2: nat)
    requires Ahead(s1, v1, d1) && Ahead(s2, v2, d2)
    ensures Ahead(CommutativeMix(s1, s2), CommutativeMix(v1, v2), d1 + d2)
  {
    FactorOfMix(s1, s2);
    Products(Factor(s1), Factor(v1) * Five(d1), Factor(s2), Factor(v2) * Five(d2));
    Exchanged(Factor(v1), Five(d1), Factor(v2), Five(d2));
    FiveOfSum(d1, d2);
    var product := (Factor(v1) * Factor(v2)) * Five(d1 + d2);
    Chain(Factor(CommutativeMix(s1, s2)), Factor(s1) * Factor(s2), product);
    MixFromFactors(v1, v2, d1 + d2);
    Chain(Factor(CommutativeMix(s1, s2)), product, Factor(CommutativeMix(v1, v2)) * Five(d1 + d2));
  }

  lemma MixFromFactors(x: nat, y: nat, d: nat)
    ensures Congruent((Factor(x) * Factor(y)) * Five(d), Factor(CommutativeMix(x, y)) * Five(d))
  {
    FactorOfMix(x, y);
    Turned(Factor(CommutativeMix(x, y)), Factor(x) * Factor(y));
    Scaled(Factor(x) * Factor(y), Factor(CommutativeMix(x, y)), Five(d));
  }

  lemma Turned(a: int, b: int)
    requires Congruent(a, b)
    ensures Congruent(b, a)
  {
    var k :| a == b + Turns(k);
    CongruentBy(b, a, -k);
  }

  lemma AheadCounted(s1: nat, v1: nat, d1: nat, s2: nat, v2: nat, d2: nat)
    requires Ahead(s1, v1, d1) && Ahead(s2, v2, d2)
    ensures Ahead(CountingMix(s1, s2), CountingMix(v1, v2), d1 + d2)
  {
    AheadMixed(s1, v1, d1, s2, v2, d2);
    NotAhead(FIVE_BY_NULL);
    AheadMixed(CommutativeMix(s1, s2), CommutativeMix(v1, v2), d1 + d2, FIVE_BY_NULL, FIVE_BY_NULL, 0);
  }

  /** A null that is mixed in, on either side, is one factor of five. */
  lemma NullCounts(x: nat)
    ensures Ahead(CountingMix(x, NULL_HASH), x, 1) && Ahead(CountingMix(NULL_HASH, x), x, 1)
  {
    var fx, f := Factor(x), Factor(FIVE_BY_NULL);
    FactorOfMix(x, NULL_HASH);
    FactorOfMix(CommutativeMix(x, NULL_HASH), FIVE_BY_NULL);
    Scaled(Factor(CommutativeMix(x, NULL_HASH)), fx * 2781, f);
    Chain(Factor(CountingMix(x, NULL_HASH)), Factor(CommutativeMix(x, NULL_HASH)) * f, (fx * 2781) * f);
    FiveFactors(fx);
    assert Five(1) == 5;
    Chain(Factor(CountingMix(x, NULL_HASH)), (fx * 2781) * f, fx * 5);
    assert Mixed(x, NULL_HASH) == Mixed(NULL_HASH, x);
  }

  lemma FiveFactors(fx: nat)
    ensures Congruent((fx * 2781) * Factor(FIVE_BY_NULL), fx * 5)
  {
    var f := Factor(FIVE_BY_NULL);
    assert 2781 * f == 5 + TWO_65 * 1250;
    assert (fx * 2781) * f == fx * (2781 * f);
    assert fx * (5 + TWO_65 * 1250) == fx * 5 + TWO_65 * (1250 * fx);
    CongruentBy((fx * 2781) * f, fx * 5, 1250 * fx);
  }

  /** What two hashes are ahead adds up in the mix of `h`. */
  ghost predicate Adds(h: Hashers, s1: nat, v1: nat, d1: nat, s2: nat, v2: nat, d2: nat) {
    Ahead(s1, v1, d1) && Ahead(s2, v2, d2) ==> Ahead(h.mix(s1, s2), h.mix(v1, v2), d1 + d2)
  }

  ghost predicate NullAdds(h: Hashers, x: nat) {
    Ahead(h.mix(x, NULL_HASH), x, 1) && Ahead(h.mix(NULL_HASH, x), x, 1)
  }

  ghost predicate Counts(h: Hashers) {
    (forall s1, v1, d1, s2, v2, d2 :: Adds(h, s1, v1, d1, s2, v2, d2)) && forall x :: NullAdds(h, x)
  }

  lemma CountingCounts()
    ensures Counts(COUNTING)
  {
    forall s1, v1, d1, s2, v2, d2
      ensures Adds(COUNTING, s1, v1, d1, s2, v2, d2)
    {
      if Ahead(s1, v1, d1) && Ahead(s2, v2, d2) {
        AheadCounted(s1, v1, d1, s2, v2, d2);
      }
    }
    forall x
      ensures NullAdds(COUNTING, x)
    {
      NullCounts(x);
    }
  }

  // ------------------------------------------------------------------------------------------------
  // The stored hash is ahead by what is missing
  // ------------------------------------------------------------------------------------------------

  /** A field that is written as null for a child that is not there. */
  lemma AbsentStep(h: Hashers, s: nat, v: nat, n: nat, k: nat, e: nat)
    requires Counts(h) && 2 <= n && k < n && Ahead(s, v, Skipped(n - 1, k) + e)
    ensures Ahead(h.mix(s, NULL_HASH), v, Skipped(n, k) + e)
  {
    assert NullAdds(h, s);
    AheadChain(h.mix(s, NULL_HASH), s, v, 1, Skipped(n - 1, k) + e);
  }

  /** The first child that is there, behind fields without. */
  lemma FirstStep(h: Hashers, s: nat, n: nat, e: nat, stored: nat, vector: nat, d: nat)
    requires Counts(h) && 2 <= n && Ahead(s, NULL_HASH, Skipped(n - 1, 0) + e) && Ahead(stored, vector, d)
    ensures Ahead(h.mix(s, stored), vector, Skipped(n, 1) + e + d)
  {
    assert Adds(h, s, NULL_HASH, Skipped(n - 1, 0) + e, stored, vector, d);
    assert NullAdds(h, vector);
    AheadChain(h.mix(s, stored), h.mix(NULL_HASH, vector), vector, Skipped(n - 1, 0) + e + d, 1);
  }

  /** A child behind others. */
  lemma NextStep(h: Hashers, s: nat, v: nat, n: nat, k: nat, e: nat, stored: nat, vector: nat, d: nat)
    requires Counts(h) && 1 <= k < n && Ahead(s, v, Skipped(n - 1, k) + e) && Ahead(stored, vector, d)
    ensures Ahead(h.mix(s, stored), h.mix(v, vector), Skipped(n, k + 1) + e + d)
  {
    assert Adds(h, s, v, Skipped(n - 1, k) + e, stored, vector, d);
  }

  // The hashes `s` and `x` of the first fields as they are stored and as the vector has them, the number `k`
  // of children among these fields, and how much `e` is missing in the children.

  ghost predicate AbsentAt(h: Hashers, s: nat -> nat, x: nat -> nat, k: nat -> nat, e: nat -> nat, i: nat) {
    && s(i + 1) == (if i == 0 then NULL_HASH else h.mix(s(i), NULL_HASH))
    && x(i + 1) == x(i) && k(i + 1) == k(i) && e(i + 1) == e(i)
  }

  ghost predicate ChildAt(
    h: Hashers, s: nat -> nat, x: nat -> nat, k: nat -> nat, e: nat -> nat, i: nat, stored: nat, vector: nat, d: nat)
  {
    && Ahead(stored, vector, d)
    && s(i + 1) == (if i == 0 then stored else h.mix(s(i), stored))
    && x(i + 1) == (if k(i) == 0 then vector else h.mix(x(i), vector))
    && k(i + 1) == k(i) + 1 && e(i + 1) == e(i) + d
  }

  ghost predicate FieldAt(h: Hashers, s: nat -> nat, x: nat -> nat, k: nat -> nat, e: nat -> nat, i: nat) {
    || AbsentAt(h, s, x, k, e, i)
    || exists stored, vector, d :: ChildAt(h, s, x, k, e, i, stored, vector, d)
  }

  lemma {:induction false} FieldsCount(
      h: Hashers, s: nat -> nat, x: nat -> nat, k: nat -> nat, e: nat -> nat, n: nat)
    requires Counts(h) && s(0) == x(0) == NULL_HASH && k(0) == e(0) == 0
    requires forall i: nat :: i < n ==> FieldAt(h, s, x, k, e, i)
    ensures k(n) <= n && (k(n) == 0 ==> x(n) == NULL_HASH) && (n == 0 ==> e(n) == 0)
    ensures Ahead(s(n), x(n), Skipped(n, k(n)) + e(n))
  {
    if n == 0 {
      NotAhead(NULL_HASH);
    } else {
      var i: nat := n - 1;
      FieldsCount(h, s, x, k, e, i);
      assert FieldAt(h, s, x, k, e, i);
      if AbsentAt(h, s, x, k, e, i) {
        AbsentCounts(h, s(i), x(i), n, k(i), e(i));
      } else {
        var stored, vector, d :| ChildAt(h, s, x, k, e, i, stored, vector, d);
        ChildCounts(h, s(i), x(i), n, k(i), e(i), stored, vector, d);
      }
    }
  }

  lemma AbsentCounts(h: Hashers, s: nat, x: nat, n: nat, k: nat, e: nat)
    requires Counts(h) && k < n && Ahead(s, x, Skipped(n - 1, k) + e) && (n == 1 ==> e == 0 && x == NULL_HASH)
    ensures Ahead(if n == 1 then NULL_HASH else h.mix(s, NULL_HASH), x, Skipped(n, k) + e)
  {
    if n == 1 {
      NotAhead(NULL_HASH);
    } else {
      AbsentStep(h, s, x, n, k, e);
    }
  }

  lemma ChildCounts(h: Hashers, s: nat, x: nat, n: nat, k: nat, e: nat, stored: nat, vector: nat, d: nat)
    requires Counts(h) && k < n && Ahead(s, x, Skipped(n - 1, k) + e) && Ahead(stored, vector, d)
    requires (n == 1 ==> e == 0) && (k == 0 ==> x == NULL_HASH)
    ensures Ahead(if n == 1 then stored else h.mix(s, stored), if k == 0 then vector else h.mix(x, vector),
                  Skipped(n, k + 1) + (e + d))
  {
    if n == 1 {
    } else if k == 0 {
      FirstStep(h, s, n, e, stored, vector, d);
    } else {
      NextStep(h, s, x, n, k, e, stored, vector, d);
    }
  }

  /** The children among the first `n` fields. */
  ghost function Width(v: Value, n: nat): (m: nat)
    requires v.RowValue?
    ensures m <= n && m <= |v.fields|
  {
    if n <= |v.fields| then n else |v.fields|
  }

  ghost function StoredUpTo(v: Value, t: Type, h: Hashers): nat -> nat
    requires t.RowType? && RawType(v, t)
  {
    (n: nat) => if n <= |t.fields| then HashFields(Canonical(v, t), t, n, h) else 0
  }

  ghost function VectorUpTo(v: Value, t: Type, h: Hashers): nat -> nat
    requires t.RowType? && RawType(v, t)
  {
    (n: nat) => HashChildren(v, t, Width(v, n), h)
  }

  ghost function PresentUpTo(v: Value): nat -> nat
    requires v.RowValue?
  {
    (n: nat) => Present(v, Width(v, n))
  }

  ghost function MissingUpTo(v: Value, t: Type): nat -> nat
    requires t.RowType? && RawType(v, t)
  {
    (n: nat) => MissingFields(v, t, Width(v, n))
  }

  lemma {:induction false} HashesAhead(v: Value, t: Type, h: Hashers)
    requires RawType(v, t) && Counts(h)
    ensures Ahead(Hash(Canonical(v, t), t, h), HashVector(v, t, h), Missing(v, t))
    decreases t, 2
  {
    match t
    case IntType(_) => NotAhead(HashVector(v, t, h));
    case StringType => NotAhead(HashVector(v, t, h));
    case RowType(_) => RowAhead(v, t, h);
    case ArrayType(element) => ArrayAhead(v.elements, element, NULL_HASH, NULL_HASH, 0, h);
    case MapType(key, value) => MapAhead(v, key, value, h);
  }

  lemma ChildAhead(v: Value, t: Type, c: Value, h: Hashers)
    requires (v == Null || RawType(v, t)) && Counts(h)
    requires c == if v == Null then Null else Canonical(v, t)
    ensures Ahead(HashNullable(c, t, h), HashChild(v, t, h), MissingIn(v, t))
    decreases t, 3
  {
    if v == Null {
      NotAhead(NULL_HASH);
    } else {
      HashesAhead(v, t, h);
    }
  }

  lemma AbsentStored(v: Value, t: Type, i: nat, h: Hashers)
    requires t.RowType? && RawType(v, t) && i < |t.fields| && (i < |v.fields| ==> v.fields[i].Absent?)
    ensures HashFields(Canonical(v, t), t, i + 1, h)
         == if i == 0 then NULL_HASH else h.mix(HashFields(Canonical(v, t), t, i, h), NULL_HASH)
  {
    assert Canonical(v, t).fields[i] == Null;
  }

  lemma AbsentSkipped(v: Value, t: Type, i: nat, h: Hashers)
    requires t.RowType? && RawType(v, t) && i < |t.fields| && (i < |v.fields| ==> v.fields[i].Absent?)
    ensures var m, k := Width(v, i), Width(v, i + 1);
            && HashChildren(v, t, k, h) == HashChildren(v, t, m, h) && Present(v, k) == Present(v, m)
            && MissingFields(v, t, k) == MissingFields(v, t, m)
  {
    if i < |v.fields| {
      assert MissingIn(v.fields[i], t.fields[i]) == 0;
    } else {
      assert Width(v, i + 1) == Width(v, i);
    }
  }

  lemma AbsentField(v: Value, t: Type, i: nat, h: Hashers)
    requires t.RowType? && RawType(v, t) && i < |t.fields| && (i < |v.fields| ==> v.fields[i].Absent?)
    ensures AbsentAt(h, StoredUpTo(v, t, h), VectorUpTo(v, t, h), PresentUpTo(v), MissingUpTo(v, t), i)
  {
    NullIsStored(v, t, i, h, StoredUpTo(v, t, h));
    NothingIsMixed(v, t, i, h, VectorUpTo(v, t, h), PresentUpTo(v), MissingUpTo(v, t));
  }

  lemma NullIsStored(v: Value, t: Type, i: nat, h: Hashers, s: nat -> nat)
    requires t.RowType? && RawType(v, t) && i < |t.fields| && (i < |v.fields| ==> v.fields[i].Absent?)
    requires s == StoredUpTo(v, t, h)
    ensures s(i + 1) == if i == 0 then NULL_HASH else h.mix(s(i), NULL_HASH)
  {
    AbsentStored(v, t, i, h);
  }

  lemma NothingIsMixed(
      v: Value, t: Type, i: nat, h: Hashers, x: nat -> nat, k: nat -> nat, e: nat -> nat)
    requires t.RowType? && RawType(v, t) && i < |t.fields| && (i < |v.fields| ==> v.fields[i].Absent?)
    requires x == VectorUpTo(v, t, h) && k == PresentUpTo(v) && e == MissingUpTo(v, t)
    ensures x(i + 1) == x(i) && k(i + 1) == k(i) && e(i + 1) == e(i)
  {
    AbsentSkipped(v, t, i, h);
  }

  lemma PresentField(v: Value, t: Type, i: nat, h: Hashers, stored: nat, vector: nat, d: nat)
    requires t.RowType? && RawType(v, t) && i < |v.fields| && !v.fields[i].Absent? && Ahead(stored, vector, d)
    requires stored == HashNullable(Canonical(v, t).fields[i], t.fields[i], h)
    requires vector == HashChild(v.fields[i], t.fields[i], h) && d == MissingIn(v.fields[i], t.fields[i])
    ensures ChildAt(h, StoredUpTo(v, t, h), VectorUpTo(v, t, h), PresentUpTo(v), MissingUpTo(v, t), i,
                    stored, vector, d)
  {
    var s, x, k, e := StoredUpTo(v, t, h), VectorUpTo(v, t, h), PresentUpTo(v), MissingUpTo(v, t);
    assert Width(v, i) == i && Width(v, i + 1) == i + 1;
    assert s(i + 1) == if i == 0 then stored else h.mix(s(i), stored);
    assert x(i + 1) == if k(i) == 0 then vector else h.mix(x(i), vector);
    assert k(i + 1) == k(i) + 1 && e(i + 1) == e(i) + d;
  }

  lemma AnyField(v: Value, t: Type, i: nat, h: Hashers)
    requires t.RowType? && RawType(v, t) && i < |t.fields| && Counts(h)
    ensures FieldAt(h, StoredUpTo(v, t, h), VectorUpTo(v, t, h), PresentUpTo(v), MissingUpTo(v, t), i)
    decreases t, 0
  {
    if i < |v.fields| && !v.fields[i].Absent? {
      ChildAhead(v.fields[i], t.fields[i], Canonical(v, t).fields[i], h);
      PresentField(v, t, i, h, HashNullable(Canonical(v, t).fields[i], t.fields[i], h),
                   HashChild(v.fields[i], t.fields[i], h), MissingIn(v.fields[i], t.fields[i]));
    } else {
      AbsentField(v, t, i, h);
    }
  }

  lemma RowAhead(v: Value, t: Type, h: Hashers)
    requires t.RowType? && RawType(v, t) && Counts(h)
    ensures Ahead(Hash(Canonical(v, t), t, h), HashVector(v, t, h), Missing(v, t))
    decreases t, 1
  {
    var s, x, k, e := StoredUpTo(v, t, h), VectorUpTo(v, t, h), PresentUpTo(v), MissingUpTo(v, t);
    forall i: nat | i < |t.fields|
      ensures FieldAt(h, s, x, k, e, i)
    {
      AnyField(v, t, i, h);
    }
    FieldsCount(h, s, x, k, e, |t.fields|);
  }

  lemma MixStep(
      h: Hashers, xs: seq<nat>, ys: seq<nat>, stored: nat, vector: nat, n: nat, e: nat, d: nat)
    requires Counts(h) && 1 <= n <= |xs| && n <= |ys|
    requires Ahead(MixAll(stored, xs, n - 1), MixAll(vector, ys, n - 1), e) && Ahead(xs[n - 1], ys[n - 1], d)
    ensures Ahead(MixAll(stored, xs, n), MixAll(vector, ys, n), e + d)
  {
    AheadMixed(MixAll(stored, xs, n - 1), MixAll(vector, ys, n - 1), e, xs[n - 1], ys[n - 1], d);
  }

  lemma {:induction false} ElementsAhead(vs: seq<Value>, t: Type, stored: nat, vector: nat, d: nat, n: nat, h: Hashers)
    requires Counts(h) && AllRaw(vs, t) && n <= |vs| && Ahead(stored, vector, d)
    ensures Ahead(MixAll(stored, HashesOf(CanonicalAll(vs, t), t, h), n),
                  MixAll(vector, VectorHashes(vs, t, h), n), d + MissingAll(vs, t, n))
    decreases t, 4, n
  {
    if n == 0 {
    } else {
      ElementsAhead(vs, t, stored, vector, d, n - 1, h);
      ChildAhead(vs[n - 1], t, CanonicalAll(vs, t)[n - 1], h);
      MixStep(h, HashesOf(CanonicalAll(vs, t), t, h), VectorHashes(vs, t, h), stored, vector, n,
              d + MissingAll(vs, t, n - 1), MissingIn(vs[n - 1], t));
    }
  }

  /** The order in which a map is written does not matter. */
  lemma HashOfUnsorted(v: Value, key: Type, value: Type, h: Hashers)
    requires RawType(v, MapType(key, value))
    ensures Hash(Canonical(v, MapType(key, value)), MapType(key, value), h)
         == HashArray(CanonicalAll(v.values, value), value, HashArray(CanonicalAll(v.keys, key), key, NULL_HASH, h), h)
  {
    MapHashIgnoresOrder(MapValue(CanonicalAll(v.keys, key), CanonicalAll(v.values, value)), key, value, h);
  }

  lemma EntriesAhead(keys: seq<Value>, values: seq<Value>, key: Type, value: Type, h: Hashers)
    requires Counts(h) && AllRaw(keys, key) && AllRaw(values, value)
    ensures Ahead(HashArray(CanonicalAll(values, value), value,
                            HashArray(CanonicalAll(keys, key), key, NULL_HASH, h), h),
                  HashVectorArray(values, value, HashVectorArray(keys, key, NULL_HASH, h), h),
                  MissingAll(keys, key, |keys|) + MissingAll(values, value, |values|))
    decreases MapType(key, value), 0
  {
    ArrayAhead(keys, key, NULL_HASH, NULL_HASH, 0, h);
    ArrayAhead(values, value, HashArray(CanonicalAll(keys, key), key, NULL_HASH, h),
               HashVectorArray(keys, key, NULL_HASH, h), MissingAll(keys, key, |keys|), h);
  }

  lemma MapAhead(v: Value, key: Type, value: Type, h: Hashers)
    requires Counts(h) && RawType(v, MapType(key, value))
    ensures var t := MapType(key, value);
            Ahead(Hash(Canonical(v, t), t, h), HashVector(v, t, h), Missing(v, t))
    decreases MapType(key, value), 1
  {
    EntriesAhead(v.keys, v.values, key, value, h);
    HashOfUnsorted(v, key, value, h);
  }

  lemma ArrayAhead(vs: seq<Value>, t: Type, stored: nat, vector: nat, d: nat, h: Hashers)
    requires Counts(h) && AllRaw(vs, t) && (Ahead(stored, vector, d) || (stored == vector && d == 0))
    ensures Ahead(HashArray(CanonicalAll(vs, t), t, stored, h), HashVectorArray(vs, t, vector, h),
                 d + MissingAll(vs, t, |vs|))
    decreases t, 5
  {
    NotAhead(vector);
    ElementsAhead(vs, t, stored, vector, d, |vs|, h);
  }

  // ------------------------------------------------------------------------------------------------
  // The exact condition
  // ------------------------------------------------------------------------------------------------

  /** The vector's hash is the hash of what is stored. */
  ghost predicate HashesAgree(v: Value, t: Type, h: Hashers)
    requires RawType(v, t)
  {
    HashVector(v, t, h) == Hash(Canonical(v, t), t, h)
  }

  lemma OddFactor(x: nat)
    ensures Factor(x) % 2 == 1
  {
  }

  lemma SameIsNotAhead(stored: nat, vector: nat, d: nat)
    requires Ahead(stored, vector, d) && stored == vector && d < TWO_63
    ensures d == 0
  {
    OddFactor(vector);
    FiveIsNotOne(Factor(vector), d);
  }

  lemma CountingTells(v: Value, t: Type)
    requires RawType(v, t) && Missing(v, t) < TWO_63 && HashesAgree(v, t, COUNTING)
    ensures Missing(v, t) == 0
  {
    CountingCounts();
    HashesAhead(v, t, COUNTING);
    SameIsNotAhead(Hash(Canonical(v, t), t, COUNTING), HashVector(v, t, COUNTING), Missing(v, t));
  }

  /** A row that lacks a child is written with a null for it, and the null is mixed into the hash of the
      stream but not into the hash of the vector. So the two hashes are the same for every choice of hash
      functions if and only if, at every depth, no child is missing or the row has only one field. */
  lemma ShortRowHashIff(v: Value, t: Type)
    requires RawType(v, t) && Missing(v, t) < TWO_63
    ensures (forall h :: HashesAgree(v, t, h)) <==> Complete(v, t)
  {
    NothingMissingIff(v, t);
    if Complete(v, t) {
      forall h
        ensures HashesAgree(v, t, h)
      {
        CanonicalHash(v, t, h);
      }
    } else if HashesAgree(v, t, COUNTING) {
      CountingTells(v, t);
    }
  }

  // ------------------------------------------------------------------------------------------------
  // The mix of the code
  // ------------------------------------------------------------------------------------------------

  /** `bits::hashMix`. */
  function HashMix(upper: bv64, lower: bv64): bv64 {
    var a := (lower ^ upper) * 0x9ddf_ea08_eb38_2d69;
    var b := (upper ^ (a ^ (a >> 47))) * 0x9ddf_ea08_eb38_2d69;
    (b ^ (b >> 47)) * 0x9ddf_ea08_eb38_2d69
  }

  function MixOfCode(upper: nat, lower: nat): nat {
    HashMix((upper % TWO_64) as bv64, (lower % TWO_64) as bv64) as nat
  }

  lemma OneAndOne()
    ensures HashMix(1, 1) != 1
  {
  }

  lemma MixOfNulls()
    ensures MixOfCode(NULL_HASH, NULL_HASH) != NULL_HASH
  {
    OneAndOne();
    assert (NULL_HASH % TWO_64) as bv64 == 1;
  }

  /** The hash functions of leaves with the code's own mix. */
  function WithCodeMix(ofInt: (int, nat) -> nat, ofString: seq<byte> -> nat): Hashers {
    Hashers(ofInt, ofString, (x: nat, y: nat) => MixOfCode(x, y))
  }

  /** A row of two fields that has no child hashes to 1 in the vector, and to another value once it is
      stored, whatever the hash functions of leaves. */
  lemma EmptyRowHashes(v: Value, t: Type, ofInt: (int, nat) -> nat, ofString: seq<byte> -> nat)
    requires t.RowType? && |t.fields| == 2 && v == RowValue([])
    ensures RawType(v, t) && HashVector(v, t, WithCodeMix(ofInt, ofString)) == NULL_HASH
    ensures !HashesAgree(v, t, WithCodeMix(ofInt, ofString))
  {
    var h, c := WithCodeMix(ofInt, ofString), Canonical(v, t);
    MixOfNulls();
    assert HashFields(c, t, 1, h) == NULL_HASH;
    assert HashFields(c, t, 2, h) == MixOfCode(NULL_HASH, NULL_HASH);
  }
}
