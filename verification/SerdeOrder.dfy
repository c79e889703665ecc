/** The order of nested values that both byte-level comparisons implement. */
module SerdeOrders {
  import opened SerdeValues

  /** With `equalsOnly` only zero or non-zero matters. */
  datatype CompareFlags = CompareFlags(nullsFirst: bool, ascending: bool, equalsOnly: bool)

  function Sign(x: int): int {
    if x < 0 then -1 else if x == 0 then 0 else 1
  }

  function Flip(x: int, ascending: bool): int {
    if ascending then x else -x
  }

  /** Bytewise from position `i` on; a proper prefix comes first. */
  function OrderBytes(l: seq<byte>, r: seq<byte>, i: nat): (c: int)
    requires i <= |l| && i <= |r|
    ensures -1 <= c <= 1
    decreases |l| - i
  {
    if i == |l| || i == |r| then Sign(|l| - |r|)
    else if l[i] != r[i] then (if l[i] < r[i] then -1 else 1)
    else OrderBytes(l, r, i + 1)
  }

  ghost predicate Nullable(v: Value, t: Type) {
    v == Null || HasType(v, t)
  }

  function Order(l: Value, r: Value, t: Type, f: CompareFlags): int
    requires HasType(l, t) && HasType(r, t)
    decreases t, 0
  {
    match t
    case IntType(_) => Flip(Sign(l.num - r.num), f.ascending)
    case StringType => Flip(OrderBytes(l.bytes, r.bytes, 0), f.ascending)
    case RowType(_) => OrderFields(l, r, t, 0, f)
    case ArrayType(element) => OrderElements(l.elements, r.elements, element, 0, f)
    case MapType(key, value) =>
      var c := OrderElements(l.keys, r.keys, key, 0, f);
      if c != 0 then c else OrderElements(l.values, r.values, value, 0, f)
  }

  /** The place of nulls does not depend on the direction. */
  function OrderNullable(l: Value, r: Value, t: Type, f: CompareFlags): int
    requires Nullable(l, t) && Nullable(r, t)
    decreases t, 1
  {
    if l == Null && r == Null then 0
    else if l == Null then (if f.nullsFirst then -1 else 1)
    else if r == Null then (if f.nullsFirst then 1 else -1)
    else Order(l, r, t, f)
  }

  function OrderFields(l: Value, r: Value, t: Type, i: nat, f: CompareFlags): int
    requires t.RowType? && HasType(l, t) && HasType(r, t) && i <= |t.fields|
    decreases t, 0, |t.fields| - i
  {
    if i == |t.fields| then 0
    else
      var c := OrderNullable(l.fields[i], r.fields[i], t.fields[i], f);
      if c != 0 then c else OrderFields(l, r, t, i + 1, f)
  }

  function OrderElements(ls: seq<Value>, rs: seq<Value>, t: Type, i: nat, f: CompareFlags): int
    requires AllHaveType(ls, t) && AllHaveType(rs, t) && i <= |ls| && i <= |rs|
    decreases t, 2, |ls| - i
  {
    if i == |ls| || i == |rs| then Flip(Sign(|ls| - |rs|), f.ascending)
    else
      var c := OrderNullable(ls[i], rs[i], t, f);
      if c != 0 then c else OrderElements(ls, rs, t, i + 1, f)
  }

  // ------------------------------------------------------------------------------------------------
  // Antisymmetry
  // ------------------------------------------------------------------------------------------------

  lemma {:induction false} BytesAntisymmetric(l: seq<byte>, r: seq<byte>, i: nat)
    requires i <= |l| && i <= |r|
    ensures OrderBytes(l, r, i) == -OrderBytes(r, l, i)
    decreases |l| - i
  {
    if i < |l| && i < |r| && l[i] == r[i] {
      BytesAntisymmetric(l, r, i + 1);
    }
  }

  lemma {:induction false} Antisymmetric(l: Value, r: Value, t: Type, f: CompareFlags)
    requires HasType(l, t) && HasType(r, t)
    ensures Order(l, r, t, f) == -Order(r, l, t, f)
    decreases t, 0
  {
    match t
    case IntType(_) =>
    case StringType => BytesAntisymmetric(l.bytes, r.bytes, 0);
    case RowType(_) => FieldsAntisymmetric(l, r, t, 0, f);
    case ArrayType(element) => ElementsAntisymmetric(l.elements, r.elements, element, 0, f);
    case MapType(key, value) =>
      ElementsAntisymmetric(l.keys, r.keys, key, 0, f);
      ElementsAntisymmetric(l.values, r.values, value, 0, f);
  }

  lemma {:induction false} NullableAntisymmetric(l: Value, r: Value, t: Type, f: CompareFlags)
    requires Nullable(l, t) && Nullable(r, t)
    ensures OrderNullable(l, r, t, f) == -OrderNullable(r, l, t, f)
    decreases t, 1
  {
    if l != Null && r != Null {
      Antisymmetric(l, r, t, f);
    }
  }

  lemma {:induction false} FieldsAntisymmetric(l: Value, r: Value, t: Type, i: nat, f: CompareFlags)
    requires t.RowType? && HasType(l, t) && HasType(r, t) && i <= |t.fields|
    ensures OrderFields(l, r, t, i, f) == -OrderFields(r, l, t, i, f)
    decreases t, 0, |t.fields| - i
  {
    if i < |t.fields| {
      NullableAntisymmetric(l.fields[i], r.fields[i], t.fields[i], f);
      FieldsAntisymmetric(l, r, t, i + 1, f);
    }
  }

  lemma {:induction false} ElementsAntisymmetric(ls: seq<Value>, rs: seq<Value>, t: Type, i: nat, f: CompareFlags)
    requires AllHaveType(ls, t) && AllHaveType(rs, t) && i <= |ls| && i <= |rs|
    ensures OrderElements(ls, rs, t, i, f) == -OrderElements(rs, ls, t, i, f)
    decreases t, 2, |ls| - i
  {
    if i < |ls| && i < |rs| {
      NullableAntisymmetric(ls[i], rs[i], t, f);
      ElementsAntisymmetric(ls, rs, t, i + 1, f);
    }
  }

  // ------------------------------------------------------------------------------------------------
  // Zero means equal
  // ------------------------------------------------------------------------------------------------

  lemma {:induction false} BytesZero(l: seq<byte>, r: seq<byte>, i: nat)
    requires i <= |l| && i <= |r| && l[..i] == r[..i]
    ensures OrderBytes(l, r, i) == 0 <==> l == r
    decreases |l| - i
  {
    if i == |l| || i == |r| {
      assert l == l[..|l|] && r == r[..|r|];
    } else if l[i] == r[i] {
      assert l[..i + 1] == l[..i] + [l[i]] && r[..i + 1] == r[..i] + [r[i]];
      BytesZero(l, r, i + 1);
    }
  }

  lemma {:induction false} ZeroIsEqual(l: Value, r: Value, t: Type, f: CompareFlags)
    requires HasType(l, t) && HasType(r, t)
    ensures Order(l, r, t, f) == 0 <==> l == r
    decreases t, 0
  {
    match t
    case IntType(_) =>
    case StringType => BytesZero(l.bytes, r.bytes, 0);
    case RowType(_) => FieldsZero(l, r, t, 0, f);
    case ArrayType(element) => ElementsZero(l.elements, r.elements, element, 0, f);
    case MapType(key, value) =>
      ElementsZero(l.keys, r.keys, key, 0, f);
      ElementsZero(l.values, r.values, value, 0, f);
  }

  lemma {:induction false} NullableZero(l: Value, r: Value, t: Type, f: CompareFlags)
    requires Nullable(l, t) && Nullable(r, t)
    ensures OrderNullable(l, r, t, f) == 0 <==> l == r
    decreases t, 1
  {
    if l != Null && r != Null {
      ZeroIsEqual(l, r, t, f);
    }
  }

  lemma {:induction false} FieldsZero(l: Value, r: Value, t: Type, i: nat, f: CompareFlags)
    requires t.RowType? && HasType(l, t) && HasType(r, t) && i <= |t.fields|
    requires forall k :: 0 <= k < i ==> l.fields[k] == r.fields[k]
    ensures OrderFields(l, r, t, i, f) == 0 <==> l == r
    decreases t, 0, |t.fields| - i
  {
    if i < |t.fields| {
      NullableZero(l.fields[i], r.fields[i], t.fields[i], f);
      if l.fields[i] == r.fields[i] {
        FieldsZero(l, r, t, i + 1, f);
      }
    } else {
      assert l.fields == r.fields;
    }
  }

  lemma {:induction false} ElementsZero(ls: seq<Value>, rs: seq<Value>, t: Type, i: nat, f: CompareFlags)
    requires AllHaveType(ls, t) && AllHaveType(rs, t) && i <= |ls| && i <= |rs|
    requires forall k :: 0 <= k < i ==> ls[k] == rs[k]
    ensures OrderElements(ls, rs, t, i, f) == 0 <==> ls == rs
    decreases t, 2, |ls| - i
  {
    if i < |ls| && i < |rs| {
      NullableZero(ls[i], rs[i], t, f);
      if ls[i] == rs[i] {
        ElementsZero(ls, rs, t, i + 1, f);
      }
    }
  }

  // ------------------------------------------------------------------------------------------------
  // Transitivity
  // ------------------------------------------------------------------------------------------------

  /** Chaining `a <= b <= c` where equality of the ends forces equality throughout. */
  ghost predicate Chained(ab: int, bc: int, ac: int) {
    ab <= 0 && bc <= 0 ==> ac <= 0 && (ac == 0 ==> ab == 0 && bc == 0)
  }

  lemma {:induction false} BytesTransitive(a: seq<byte>, b: seq<byte>, c: seq<byte>, i: nat)
    requires i <= |a| && i <= |b| && i <= |c|
    ensures Chained(OrderBytes(a, b, i), OrderBytes(b, c, i), OrderBytes(a, c, i))
    ensures Chained(-OrderBytes(a, b, i), -OrderBytes(b, c, i), -OrderBytes(a, c, i))
    decreases |a| - i
  {
    if i < |a| && i < |b| && i < |c| {
      BytesTransitive(a, b, c, i + 1);
    }
  }

  lemma {:induction false} Transitive(a: Value, b: Value, c: Value, t: Type, f: CompareFlags)
    requires HasType(a, t) && HasType(b, t) && HasType(c, t)
    ensures Chained(Order(a, b, t, f), Order(b, c, t, f), Order(a, c, t, f))
    decreases t, 0
  {
    match t
    case IntType(_) =>
    case StringType => BytesTransitive(a.bytes, b.bytes, c.bytes, 0);
    case RowType(_) => FieldsTransitive(a, b, c, t, 0, f);
    case ArrayType(element) => ElementsTransitive(a.elements, b.elements, c.elements, element, 0, f);
    case MapType(key, value) =>
      ElementsTransitive(a.keys, b.keys, c.keys, key, 0, f);
      ElementsTransitive(a.values, b.values, c.values, value, 0, f);
      if a.keys == b.keys || b.keys == c.keys || a.keys == c.keys {
        ElementsZero(a.keys, b.keys, key, 0, f);
        ElementsZero(b.keys, c.keys, key, 0, f);
        ElementsZero(a.keys, c.keys, key, 0, f);
      }
  }

  lemma {:induction false} NullableTransitive(a: Value, b: Value, c: Value, t: Type, f: CompareFlags)
    requires Nullable(a, t) && Nullable(b, t) && Nullable(c, t)
    ensures Chained(OrderNullable(a, b, t, f), OrderNullable(b, c, t, f), OrderNullable(a, c, t, f))
    ensures OrderNullable(a, b, t, f) == 0 ==> OrderNullable(b, c, t, f) == OrderNullable(a, c, t, f)
    ensures OrderNullable(b, c, t, f) == 0 ==> OrderNullable(a, b, t, f) == OrderNullable(a, c, t, f)
    decreases t, 1
  {
    NullableZero(a, b, t, f);
    NullableZero(b, c, t, f);
    if a != Null && b != Null && c != Null {
      Transitive(a, b, c, t, f);
    }
  }

  lemma {:induction false} FieldsTransitive(a: Value, b: Value, c: Value, t: Type, i: nat, f: CompareFlags)
    requires t.RowType? && HasType(a, t) && HasType(b, t) && HasType(c, t) && i <= |t.fields|
    ensures Chained(OrderFields(a, b, t, i, f), OrderFields(b, c, t, i, f), OrderFields(a, c, t, i, f))
    decreases t, 0, |t.fields| - i
  {
    if i < |t.fields| {
      NullableTransitive(a.fields[i], b.fields[i], c.fields[i], t.fields[i], f);
      FieldsTransitive(a, b, c, t, i + 1, f);
    }
  }

  lemma {:induction false} ElementsTransitive(
      a: seq<Value>, b: seq<Value>, c: seq<Value>, t: Type, i: nat, f: CompareFlags)
    requires AllHaveType(a, t) && AllHaveType(b, t) && AllHaveType(c, t) && i <= |a| && i <= |b| && i <= |c|
    ensures Chained(OrderElements(a, b, t, i, f), OrderElements(b, c, t, i, f), OrderElements(a, c, t, i, f))
    decreases t, 2, |a| - i
  {
    if i < |a| && i < |b| && i < |c| {
      NullableTransitive(a[i], b[i], c[i], t, f);
      ElementsTransitive(a, b, c, t, i + 1, f);
    }
  }

  /** For every type of integer and string leaves and every direction and place of nulls, the order is
      total and identifies only equal values. */
  lemma TotalOrder(a: Value, b: Value, c: Value, t: Type, f: CompareFlags)
    requires HasType(a, t) && HasType(b, t) && HasType(c, t)
    ensures Order(a, b, t, f) <= 0 || Order(b, a, t, f) <= 0
    ensures Order(a, b, t, f) <= 0 && Order(b, a, t, f) <= 0 <==> a == b
    ensures Order(a, b, t, f) <= 0 && Order(b, c, t, f) <= 0 ==> Order(a, c, t, f) <= 0
  {
    Antisymmetric(a, b, t, f);
    ZeroIsEqual(a, b, t, f);
    Transitive(a, b, c, t, f);
  }

  // ------------------------------------------------------------------------------------------------
  // What the order means
  // ------------------------------------------------------------------------------------------------

  /** The smaller byte at the first difference, or a proper prefix. */
  ghost predicate BytesBefore(l: seq<byte>, r: seq<byte>) {
    exists i :: FirstByteBefore(l, r, i)
  }

  ghost predicate FirstByteBefore(l: seq<byte>, r: seq<byte>, i: nat) {
    i <= |l| && i <= |r| && l[..i] == r[..i] && (if i == |l| then |l| < |r| else i < |r| && l[i] < r[i])
  }

  /** `l` comes before `r`: integers by size, strings bytewise, turned round when descending; rows and
      arrays by the first child that differs; maps by their keys and then by their values. */
  ghost predicate ValueBefore(l: Value, r: Value, t: Type, f: CompareFlags)
    requires HasType(l, t) && HasType(r, t)
    decreases t, 0
  {
    match t
    case IntType(_) => if f.ascending then l.num < r.num else r.num < l.num
    case StringType => if f.ascending then BytesBefore(l.bytes, r.bytes) else BytesBefore(r.bytes, l.bytes)
    case RowType(fields) =>
      exists i: nat :: i < |fields| && l.fields[..i] == r.fields[..i]
                       && NullableBefore(l.fields[i], r.fields[i], fields[i], f)
    case ArrayType(element) => ListBefore(l.elements, r.elements, element, f)
    case MapType(key, value) =>
      ListBefore(l.keys, r.keys, key, f) || (l.keys == r.keys && ListBefore(l.values, r.values, value, f))
  }

  /** A null is before everything else with `nullsFirst` and behind it without, in either direction. */
  ghost predicate NullableBefore(l: Value, r: Value, t: Type, f: CompareFlags)
    requires Nullable(l, t) && Nullable(r, t)
    decreases t, 1
  {
    if l == Null || r == Null then l != r && (l == Null <==> f.nullsFirst) else ValueBefore(l, r, t, f)
  }

  /** The first element that differs decides, or, if there is none in the common part, the sizes. */
  ghost predicate ListBefore(ls: seq<Value>, rs: seq<Value>, t: Type, f: CompareFlags)
    requires AllHaveType(ls, t) && AllHaveType(rs, t)
    decreases t, 2
  {
    exists i: nat :: i <= |ls| && i <= |rs| && ls[..i] == rs[..i] &&
                     (if i == |ls| || i == |rs| then (if f.ascending then |ls| < |rs| else |rs| < |ls|)
                      else NullableBefore(ls[i], rs[i], t, f))
  }

  lemma {:induction false} BytesMean(l: seq<byte>, r: seq<byte>, i: nat)
    requires i <= |l| && i <= |r| && l[..i] == r[..i]
    ensures OrderBytes(l, r, i) < 0 <==> BytesBefore(l, r)
    decreases |l| - i
  {
    if i < |l| && i < |r| && l[i] == r[i] {
      assert l[..i + 1] == l[..i] + [l[i]] && r[..i + 1] == r[..i] + [r[i]];
      BytesMean(l, r, i + 1);
    } else {
      BytesDecidedAt(l, r, i);
    }
  }

  /** Where the strings part, the order is decided. */
  lemma BytesDecidedAt(l: seq<byte>, r: seq<byte>, i: nat)
    requires i <= |l| && i <= |r| && l[..i] == r[..i] && (i < |l| && i < |r| ==> l[i] != r[i])
    ensures BytesBefore(l, r) <==> FirstByteBefore(l, r, i)
  {
    if k: nat :| FirstByteBefore(l, r, k) {
      if k < i {
        assert l[..i][k] == r[..i][k];
      } else if k > i {
        assert l[..k][i] == r[..k][i];
      }
    }
  }

  /** The order is negative exactly for a value that comes before the other. */
  lemma {:induction false} OrderMeans(l: Value, r: Value, t: Type, f: CompareFlags)
    requires HasType(l, t) && HasType(r, t)
    ensures Order(l, r, t, f) < 0 <==> ValueBefore(l, r, t, f)
    decreases t, 0
  {
    match t
    case IntType(_) =>
    case StringType =>
      BytesMean(l.bytes, r.bytes, 0);
      BytesMean(r.bytes, l.bytes, 0);
      BytesAntisymmetric(l.bytes, r.bytes, 0);
    case RowType(_) => FieldsMean(l, r, t, 0, f);
    case ArrayType(element) => ElementsMean(l.elements, r.elements, element, 0, f);
    case MapType(key, value) =>
      ElementsMean(l.keys, r.keys, key, 0, f);
      ElementsMean(l.values, r.values, value, 0, f);
      ElementsZero(l.keys, r.keys, key, 0, f);
  }

  lemma {:induction false} NullableMeans(l: Value, r: Value, t: Type, f: CompareFlags)
    requires Nullable(l, t) && Nullable(r, t)
    ensures OrderNullable(l, r, t, f) < 0 <==> NullableBefore(l, r, t, f)
    decreases t, 1
  {
    if l != Null && r != Null {
      OrderMeans(l, r, t, f);
    }
  }

  /** A value is not before itself. */
  lemma NotBeforeItself(v: Value, t: Type, f: CompareFlags)
    requires Nullable(v, t)
    ensures !NullableBefore(v, v, t, f)
    decreases t, 2
  {
    NullableMeans(v, v, t, f);
    NullableZero(v, v, t, f);
  }

  lemma {:induction false} FieldsMean(l: Value, r: Value, t: Type, i: nat, f: CompareFlags)
    requires t.RowType? && HasType(l, t) && HasType(r, t) && i <= |t.fields| && l.fields[..i] == r.fields[..i]
    ensures OrderFields(l, r, t, i, f) < 0 <==> ValueBefore(l, r, t, f)
    decreases t, 0, |t.fields| - i
  {
    if i < |t.fields| && l.fields[i] == r.fields[i] {
      NullableZero(l.fields[i], r.fields[i], t.fields[i], f);
      OneMoreEqual(l.fields, r.fields, i);
      FieldsMean(l, r, t, i + 1, f);
    } else {
      if i < |t.fields| {
        NullableMeans(l.fields[i], r.fields[i], t.fields[i], f);
        NullableZero(l.fields[i], r.fields[i], t.fields[i], f);
      }
      if k: nat :| k < |t.fields| && l.fields[..k] == r.fields[..k]
                   && NullableBefore(l.fields[k], r.fields[k], t.fields[k], f) {
        if k < i {
          EqualBelow(l.fields, r.fields, i, k);
          NotBeforeItself(l.fields[k], t.fields[k], f);
        } else if k > i {
          EqualBelow(l.fields, r.fields, k, i);
        }
      }
    }
  }

  lemma OneMoreEqual(ls: seq<Value>, rs: seq<Value>, i: nat)
    requires i < |ls| && i < |rs| && ls[..i] == rs[..i] && ls[i] == rs[i]
    ensures ls[..i + 1] == rs[..i + 1]
  {
    assert ls[..i + 1] == ls[..i] + [ls[i]] && rs[..i + 1] == rs[..i] + [rs[i]];
  }

  lemma EqualBelow(ls: seq<Value>, rs: seq<Value>, i: nat, k: nat)
    requires k < i <= |ls| && i <= |rs| && ls[..i] == rs[..i]
    ensures ls[k] == rs[k]
  {
    assert ls[..i][k] == rs[..i][k];
  }

  lemma {:induction false} ElementsMean(ls: seq<Value>, rs: seq<Value>, t: Type, i: nat, f: CompareFlags)
    requires AllHaveType(ls, t) && AllHaveType(rs, t) && i <= |ls| && i <= |rs| && ls[..i] == rs[..i]
    ensures OrderElements(ls, rs, t, i, f) < 0 <==> ListBefore(ls, rs, t, f)
    decreases t, 3, |ls| - i
  {
    if i < |ls| && i < |rs| && ls[i] == rs[i] {
      NullableZero(ls[i], rs[i], t, f);
      OneMoreEqual(ls, rs, i);
      ElementsMean(ls, rs, t, i + 1, f);
    } else {
      if i < |ls| && i < |rs| {
        NullableMeans(ls[i], rs[i], t, f);
        NullableZero(ls[i], rs[i], t, f);
      }
      if k: nat :| k <= |ls| && k <= |rs| && ls[..k] == rs[..k] &&
                   (if k == |ls| || k == |rs| then (if f.ascending then |ls| < |rs| else |rs| < |ls|)
                    else NullableBefore(ls[k], rs[k], t, f)) {
        if k < i {
          EqualBelow(ls, rs, i, k);
          NotBeforeItself(ls[k], t, f);
        } else if k > i {
          EqualBelow(ls, rs, k, i);
        }
      }
    }
  }
}
