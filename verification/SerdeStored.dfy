/** What is stored for a value of a vector, said without the form in which it is written. */
module SerdeStoredValues {
  import opened SerdeValues
  import opened SerdeOrders
  import opened SerdeCanonicals

  /** A child of a row, wherever the row ends. */
  function FieldOrAbsent(v: Value, i: nat): Value
    requires v.RowValue?
  {
    if i < |v.fields| then v.fields[i] else Absent
  }

  /** `w` is what is stored for `v`: the same leaf; each field of a row, with null for a child that is not
      there; each element of an array in its place; and the entries of a map in the order of the keys. */
  ghost predicate StoredAs(v: Value, t: Type, w: Value)
    requires RawType(v, t)
    decreases t, 0
  {
    match t
    case IntType(_) => w == v
    case StringType => w == v
    case RowType(fields) =>
      && w.RowValue? && |w.fields| == |fields|
      && forall i :: 0 <= i < |fields| ==> ChildStoredAs(FieldOrAbsent(v, i), fields[i], w.fields[i])
    case ArrayType(element) =>
      && w.ArrayValue? && |w.elements| == |v.elements|
      && forall i :: 0 <= i < |v.elements| ==> ChildStoredAs(v.elements[i], element, w.elements[i])
    case MapType(key, value) =>
      && w.MapValue? && |w.keys| == |w.values| == |v.keys| && KeysRise(w.keys, key)
      && exists p :: IsPermutation(p, |v.keys|) && ListStoredAs(v.keys, p, key, w.keys)
                     && ListStoredAs(v.values, p, value, w.values)
  }

  ghost predicate ChildStoredAs(v: Value, t: Type, w: Value)
    decreases t, 1
  {
    if NoValue(v) then w == Null else RawType(v, t) && StoredAs(v, t, w)
  }

  /** The values at the positions `p` are stored one after the other. */
  ghost predicate ListStoredAs(vs: seq<Value>, p: seq<nat>, t: Type, ws: seq<Value>)
    decreases t, 2
  {
    && |ws| == |p| == |vs| && InRange(p, |vs|)
    && forall i :: 0 <= i < |p| ==> ChildStoredAs(vs[p[i]], t, ws[i])
  }

  /** No key comes before the one in front of it. */
  ghost predicate KeysRise(keys: seq<Value>, t: Type) {
    AllHaveType(keys, t) && forall i, j :: 0 <= i < j < |keys| ==> !NullableBefore(keys[j], keys[i], t, DEFAULT_FLAGS)
  }

  // ------------------------------------------------------------------------------------------------
  // The written form is what is to be stored
  // ------------------------------------------------------------------------------------------------

  lemma {:induction false} CanonicalIsStored(v: Value, t: Type)
    requires RawType(v, t)
    ensures StoredAs(v, t, Canonical(v, t))
    decreases t, 0
  {
    match t
    case IntType(_) =>
    case StringType =>
    case RowType(fields) =>
      forall i | 0 <= i < |fields|
        ensures ChildStoredAs(FieldOrAbsent(v, i), fields[i], Canonical(v, t).fields[i])
      {
        if i < |v.fields| && !NoValue(v.fields[i]) {
          CanonicalIsStored(v.fields[i], fields[i]);
        }
      }
    case ArrayType(element) =>
      forall i | 0 <= i < |v.elements|
        ensures ChildStoredAs(v.elements[i], element, CanonicalAll(v.elements, element)[i])
      {
        ElementIsStored(v.elements, element, i);
      }
    case MapType(key, value) =>
      var keys := CanonicalAll(v.keys, key);
      var p: seq<nat> := SortedKeyIndices(keys, key, |keys|);
      SortedKeysRise(keys, key);
      SortedIsPermutation(keys, key);
      PermutedIsStored(v.keys, key, p);
      PermutedIsStored(v.values, value, p);
  }

  lemma ElementIsStored(vs: seq<Value>, t: Type, i: nat)
    requires AllRaw(vs, t) && i < |vs|
    ensures ChildStoredAs(vs[i], t, CanonicalAll(vs, t)[i])
    decreases t, 1
  {
    if vs[i] != Null {
      CanonicalIsStored(vs[i], t);
    }
  }

  lemma PermutedIsStored(vs: seq<Value>, t: Type, p: seq<nat>)
    requires AllRaw(vs, t) && |p| == |vs| && InRange(p, |vs|)
    ensures ListStoredAs(vs, p, t, Permuted(CanonicalAll(vs, t), p))
    decreases t, 2
  {
    forall i | 0 <= i < |p|
      ensures ChildStoredAs(vs[p[i]], t, Permuted(CanonicalAll(vs, t), p)[i])
    {
      ElementIsStored(vs, t, p[i]);
    }
  }

  lemma SortedIsPermutation(keys: seq<Value>, t: Type)
    requires AllHaveType(keys, t)
    ensures IsPermutation(SortedKeyIndices(keys, t, |keys|), |keys|)
  {
    forall k: nat
      ensures multiset(SortedKeyIndices(keys, t, |keys|))[k] == if k < |keys| then 1 else 0
    {
      EveryIndexOnce(keys, t, |keys|, k);
    }
  }

  lemma NotBefore(a: Value, b: Value, t: Type)
    requires Nullable(a, t) && Nullable(b, t)
    ensures OrderNullable(a, b, t, DEFAULT_FLAGS) <= 0 <==> !NullableBefore(b, a, t, DEFAULT_FLAGS)
  {
    NullableMeans(b, a, t, DEFAULT_FLAGS);
    NullableAntisymmetric(a, b, t, DEFAULT_FLAGS);
  }

  lemma SortedKeysRise(keys: seq<Value>, t: Type)
    requires AllHaveType(keys, t)
    ensures KeysRise(Permuted(keys, SortedKeyIndices(keys, t, |keys|)), t)
  {
    var p: seq<nat> := SortedKeyIndices(keys, t, |keys|);
    IndicesInKeyOrder(keys, t, |keys|);
    forall i, j | 0 <= i < j < |p|
      ensures !NullableBefore(keys[p[j]], keys[p[i]], t, DEFAULT_FLAGS)
    {
      InOrderIsNotBefore(keys, t, p, i, j);
    }
    PermutedTyped(keys, t, p);
  }

  lemma InOrderIsNotBefore(keys: seq<Value>, t: Type, p: seq<nat>, i: nat, j: nat)
    requires AllHaveType(keys, t) && InKeyOrder(keys, t, p) && InRange(p, |keys|) && i < j < |p|
    ensures !NullableBefore(keys[p[j]], keys[p[i]], t, DEFAULT_FLAGS)
  {
    assert KeyUpTo(keys, t, p[i], p[j]);
    NotBefore(keys[p[i]], keys[p[j]], t);
  }

  lemma PermutedTyped(vs: seq<Value>, t: Type, p: seq<nat>)
    requires AllHaveType(vs, t) && InRange(p, |vs|) && |p| == |vs|
    ensures AllHaveType(Permuted(vs, p), t)
  {
  }

  // ------------------------------------------------------------------------------------------------
  // What is in order is stored as it is
  // ------------------------------------------------------------------------------------------------

  /** Every map, at every depth, is in key order. */
  ghost predicate MapsInOrder(v: Value, t: Type)
    requires HasType(v, t)
    decreases t, 0
  {
    match t
    case IntType(_) => true
    case StringType => true
    case RowType(fields) => forall i :: 0 <= i < |fields| ==> v.fields[i] == Null || MapsInOrder(v.fields[i], fields[i])
    case ArrayType(element) => AllInOrder(v.elements, element)
    case MapType(key, value) => KeysRise(v.keys, key) && AllInOrder(v.keys, key) && AllInOrder(v.values, value)
  }

  ghost predicate AllInOrder(vs: seq<Value>, t: Type)
    requires AllHaveType(vs, t)
    decreases t, 1
  {
    forall i :: 0 <= i < |vs| ==> vs[i] == Null || MapsInOrder(vs[i], t)
  }

  function UpTo(n: nat): seq<nat> {
    seq(n, i requires 0 <= i => i)
  }

  lemma {:induction false} SortedAlready(keys: seq<Value>, t: Type, n: nat)
    requires KeysRise(keys, t) && n <= |keys|
    ensures SortedKeyIndices(keys, t, n) == UpTo(n)
  {
    if n == 0 {
    } else {
      SortedAlready(keys, t, n - 1);
      if n > 1 {
        NotBefore(keys[n - 2], keys[n - 1], t);
      }
      InsertedLast(UpTo(n - 1), n - 1, keys, t);
    }
  }

  lemma InsertedLast(indices: seq<nat>, k: nat, keys: seq<Value>, t: Type)
    requires AllHaveType(keys, t) && k < |keys| && indices == UpTo(k)
    requires k > 0 ==> OrderNullable(keys[k - 1], keys[k], t, DEFAULT_FLAGS) <= 0
    ensures Insert(indices, k, keys, t) == UpTo(k + 1)
  {
    assert UpTo(k) + [k] == UpTo(k + 1);
  }

  lemma {:induction false} CanonicalKeeps(v: Value, t: Type)
    requires HasType(v, t) && RawType(v, t) && MapsInOrder(v, t)
    ensures Canonical(v, t) == v
    decreases t, 0
  {
    match t
    case IntType(_) =>
    case StringType =>
    case RowType(fields) =>
      forall i | 0 <= i < |fields|
        ensures Canonical(v, t).fields[i] == v.fields[i]
      {
        if v.fields[i] != Null {
          CanonicalKeeps(v.fields[i], fields[i]);
        }
      }
      assert Canonical(v, t).fields == v.fields;
    case ArrayType(element) => CanonicalKeepsAll(v.elements, element);
    case MapType(key, value) =>
      CanonicalKeepsAll(v.keys, key);
      CanonicalKeepsAll(v.values, value);
      SortedAlready(v.keys, key, |v.keys|);
      assert Permuted(v.keys, UpTo(|v.keys|)) == v.keys && Permuted(v.values, UpTo(|v.keys|)) == v.values;
  }

  lemma {:induction false} CanonicalKeepsAll(vs: seq<Value>, t: Type)
    requires AllHaveType(vs, t) && AllRaw(vs, t) && AllInOrder(vs, t)
    ensures CanonicalAll(vs, t) == vs
    decreases t, 1
  {
    forall i | 0 <= i < |vs|
      ensures CanonicalAll(vs, t)[i] == vs[i]
    {
      if vs[i] != Null {
        CanonicalKeeps(vs[i], t);
      }
    }
  }

  /** A value with all children whose maps are in the order of their keys is stored as it is. */
  lemma StoredUnchanged(v: Value, t: Type)
    requires HasType(v, t) && MapsInOrder(v, t)
    ensures RawType(v, t) && Canonical(v, t) == v
  {
    HasTypeIsRaw(v, t);
    CanonicalKeeps(v, t);
  }
}
