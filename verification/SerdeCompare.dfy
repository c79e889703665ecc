/** Comparing and hashing encoded values without decoding them. */
module SerdeCompares {
  import opened Options
  import opened SerdeValues
  import opened SerdeOrders
  import opened SerdeCanonicals
  import opened SerdeStreams

  // ------------------------------------------------------------------------------------------------
  // What decoding gives has the right type
  // ------------------------------------------------------------------------------------------------

  lemma {:induction false} SignedFits(bs: seq<byte>)
    requires bs != []
    ensures FitsSigned(Signed(bs), |bs|)
  {
    if |bs| == 1 {
    } else {
      SignedFits(bs[1..]);
      assert Signed(bs) / 256 == Signed(bs[1..]);
    }
  }

  lemma {:induction false} DecodeHasType(t: Type, bs: seq<byte>)
    requires Decode(t, bs).Some?
    ensures HasType(Decode(t, bs).value.value, t)
    decreases t, 0
  {
    match t
    case IntType(width) => SignedFits(bs[..width]);
    case StringType =>
      SignedFits(bs[..4]);
      Fits32(Signed(bs[..4]));
    case RowType(fields) =>
      var nulls := DecodeNulls(|fields|, bs).value;
      NullsHaveSize(|fields|, bs);
      FieldsHaveType(t, nulls.value, |fields|, nulls.rest);
    case ArrayType(element) => ArrayHasType(element, bs);
    case MapType(key, value) =>
      ArrayHasType(key, bs);
      ArrayHasType(value, DecodeArray(key, bs).value.rest);
  }

  lemma {:induction false} FieldsHaveType(t: Type, nulls: seq<bool>, n: nat, bs: seq<byte>)
    requires t.RowType? && n <= |nulls| == |t.fields| && DecodeFields(t, nulls, n, bs).Some?
    ensures forall i :: 0 <= i < n ==> Nullable(DecodeFields(t, nulls, n, bs).value.value[i], t.fields[i])
    decreases t, 0, n
  {
    if n == 0 {
    } else {
      FieldsHaveType(t, nulls, n - 1, bs);
      if !nulls[n - 1] {
        DecodeHasType(t.fields[n - 1], DecodeFields(t, nulls, n - 1, bs).value.rest);
      }
    }
  }

  lemma {:induction false} ArrayHasType(t: Type, bs: seq<byte>)
    requires DecodeArray(t, bs).Some?
    ensures AllHaveType(DecodeArray(t, bs).value.value, t)
    decreases t, 2
  {
    var size := Signed(bs[..4]);
    SignedFits(bs[..4]);
    Fits32(size);
    var nulls := DecodeNulls(size, bs[4..]).value;
    NullsHaveSize(size, bs[4..]);
    ElementsHaveType(t, nulls.value, size, nulls.rest);
  }

  lemma {:induction false} ElementsHaveType(t: Type, nulls: seq<bool>, n: nat, bs: seq<byte>)
    requires n <= |nulls| && DecodeElements(t, nulls, n, bs).Some?
    ensures forall i :: 0 <= i < n ==> Nullable(DecodeElements(t, nulls, n, bs).value.value[i], t)
    decreases t, 1, n
  {
    if n == 0 {
    } else {
      ElementsHaveType(t, nulls, n - 1, bs);
      if !nulls[n - 1] {
        DecodeHasType(t, DecodeElements(t, nulls, n - 1, bs).value.rest);
      }
    }
  }

  // ------------------------------------------------------------------------------------------------
  // Cursors inside rows and arrays
  // ------------------------------------------------------------------------------------------------

  /** The stream holds the non-null elements of `vs`. */
  ghost predicate Remaining(t: Type, nulls: seq<bool>, bs: seq<byte>, vs: seq<Value>) {
    |nulls| == |vs| && DecodeElements(t, nulls, |vs|, bs).Some? && DecodeElements(t, nulls, |vs|, bs).value.value == vs
  }

  ghost function AfterElements(t: Type, nulls: seq<bool>, bs: seq<byte>, vs: seq<Value>): seq<byte>
    requires Remaining(t, nulls, bs, vs)
  {
    DecodeElements(t, nulls, |vs|, bs).value.rest
  }

  /** `here` is the position before element `i` of `vs`, which starts at `bs`. */
  ghost predicate AtElement(t: Type, nulls: seq<bool>, bs: seq<byte>, vs: seq<Value>, i: nat, here: seq<byte>) {
    Remaining(t, nulls, bs, vs) && i <= |vs| && DecodeElements(t, nulls, i, bs) == Some(Decoded(vs[..i], here))
  }

  lemma {:induction false} ElementsPrefix(t: Type, nulls: seq<bool>, n: nat, m: nat, bs: seq<byte>)
    requires n <= m <= |nulls| && DecodeElements(t, nulls, m, bs).Some?
    ensures DecodeElements(t, nulls, n, bs).Some?
    ensures DecodeElements(t, nulls, n, bs).value.value == DecodeElements(t, nulls, m, bs).value.value[..n]
    decreases m
  {
    if n == m {
    } else {
      ElementsPrefix(t, nulls, n, m - 1, bs);
    }
  }

  /** The position after a nullable value. */
  ghost function AfterValue(t: Type, isNull: bool, bs: seq<byte>): seq<byte> {
    if isNull || Decode(t, bs).None? then bs else Decode(t, bs).value.rest
  }

  ghost predicate HoldsNext(t: Type, isNull: bool, bs: seq<byte>, v: Value) {
    if isNull then v == Null else Decode(t, bs).Some? && Decode(t, bs).value.value == v && v != Null
  }

  /** Stepping over element `i`: nothing is read for a null, one value otherwise. */
  lemma ElementStep(t: Type, nulls: seq<bool>, bs: seq<byte>, vs: seq<Value>, i: nat, here: seq<byte>)
    requires AtElement(t, nulls, bs, vs, i, here) && i < |vs|
    ensures HoldsNext(t, nulls[i], here, vs[i])
    ensures AtElement(t, nulls, bs, vs, i + 1, AfterValue(t, nulls[i], here))
  {
    ElementsPrefix(t, nulls, i + 1, |vs|, bs);
    var next := DecodeElements(t, nulls, i + 1, bs).value.value;
    assert next == vs[..i + 1] && next[i] == vs[i];
    if !nulls[i] {
      DecodeHasType(t, here);
    }
  }

  ghost predicate RemainingFields(t: Type, nulls: seq<bool>, bs: seq<byte>, vs: seq<Value>) {
    && t.RowType? && |nulls| == |vs| == |t.fields|
    && DecodeFields(t, nulls, |vs|, bs).Some? && DecodeFields(t, nulls, |vs|, bs).value.value == vs
  }

  ghost function AfterFields(t: Type, nulls: seq<bool>, bs: seq<byte>, vs: seq<Value>): seq<byte>
    requires RemainingFields(t, nulls, bs, vs)
  {
    DecodeFields(t, nulls, |vs|, bs).value.rest
  }

  ghost predicate AtField(t: Type, nulls: seq<bool>, bs: seq<byte>, vs: seq<Value>, i: nat, here: seq<byte>) {
    RemainingFields(t, nulls, bs, vs) && i <= |vs| && DecodeFields(t, nulls, i, bs) == Some(Decoded(vs[..i], here))
  }

  lemma {:induction false} FieldsPrefix(t: Type, nulls: seq<bool>, n: nat, m: nat, bs: seq<byte>)
    requires t.RowType? && n <= m <= |nulls| == |t.fields| && DecodeFields(t, nulls, m, bs).Some?
    ensures DecodeFields(t, nulls, n, bs).Some?
    ensures DecodeFields(t, nulls, n, bs).value.value == DecodeFields(t, nulls, m, bs).value.value[..n]
    decreases m
  {
    if n == m {
    } else {
      FieldsPrefix(t, nulls, n, m - 1, bs);
    }
  }

  lemma FieldStep(t: Type, nulls: seq<bool>, bs: seq<byte>, vs: seq<Value>, i: nat, here: seq<byte>)
    requires AtField(t, nulls, bs, vs, i, here) && i < |vs|
    ensures HoldsNext(t.fields[i], nulls[i], here, vs[i])
    ensures AtField(t, nulls, bs, vs, i + 1, AfterValue(t.fields[i], nulls[i], here))
  {
    FieldsPrefix(t, nulls, i + 1, |vs|, bs);
    var next := DecodeFields(t, nulls, i + 1, bs).value.value;
    assert next == vs[..i + 1] && next[i] == vs[i];
    if !nulls[i] {
      DecodeHasType(t.fields[i], here);
    }
  }

  // ------------------------------------------------------------------------------------------------
  // Equal beginnings do not decide
  // ------------------------------------------------------------------------------------------------

  /** What a comparison may return: with `equalsOnly` it only tells equal from different, otherwise its
      sign is the order. */
  ghost predicate Answers(c: int, order: int, equal: bool, f: CompareFlags) {
    if f.equalsOnly then c == 0 <==> equal else Sign(c) == order
  }

  lemma {:induction false} SkipElements(ls: seq<Value>, rs: seq<Value>, t: Type, i: nat, f: CompareFlags)
    requires AllHaveType(ls, t) && AllHaveType(rs, t) && i <= |ls| && i <= |rs|
    requires forall k :: 0 <= k < i ==> ls[k] == rs[k]
    ensures OrderElements(ls, rs, t, 0, f) == OrderElements(ls, rs, t, i, f)
  {
    if i == 0 {
    } else {
      SkipElements(ls, rs, t, i - 1, f);
      NullableZero(ls[i - 1], rs[i - 1], t, f);
    }
  }

  lemma {:induction false} SkipFields(l: Value, r: Value, t: Type, i: nat, f: CompareFlags)
    requires t.RowType? && HasType(l, t) && HasType(r, t) && i <= |t.fields|
    requires forall k :: 0 <= k < i ==> l.fields[k] == r.fields[k]
    ensures OrderFields(l, r, t, 0, f) == OrderFields(l, r, t, i, f)
  {
    if i == 0 {
    } else {
      SkipFields(l, r, t, i - 1, f);
      NullableZero(l.fields[i - 1], r.fields[i - 1], t.fields[i - 1], f);
    }
  }

  /** A non-zero answer for the first element that may differ is an answer for the arrays. */
  lemma ElementDecides(ls: seq<Value>, rs: seq<Value>, t: Type, i: nat, f: CompareFlags, c: int)
    requires AllHaveType(ls, t) && AllHaveType(rs, t) && i < |ls| && i < |rs|
    requires forall k :: 0 <= k < i ==> ls[k] == rs[k]
    requires Answers(c, OrderNullable(ls[i], rs[i], t, f), ls[i] == rs[i], f)
    ensures c != 0 ==> Answers(c, OrderElements(ls, rs, t, 0, f), ls == rs, f)
    ensures c == 0 ==> ls[i] == rs[i]
  {
    SkipElements(ls, rs, t, i, f);
    NullableZero(ls[i], rs[i], t, f);
  }

  lemma FieldDecides(l: Value, r: Value, t: Type, i: nat, f: CompareFlags, c: int)
    requires t.RowType? && HasType(l, t) && HasType(r, t) && i < |t.fields|
    requires forall k :: 0 <= k < i ==> l.fields[k] == r.fields[k]
    requires Answers(c, OrderNullable(l.fields[i], r.fields[i], t.fields[i], f), l.fields[i] == r.fields[i], f)
    ensures c != 0 ==> Answers(c, OrderFields(l, r, t, 0, f), l == r, f)
    ensures c == 0 ==> l.fields[i] == r.fields[i]
  {
    SkipFields(l, r, t, i, f);
    NullableZero(l.fields[i], r.fields[i], t.fields[i], f);
  }

  lemma AllFieldsEqual(l: Value, r: Value, t: Type, f: CompareFlags)
    requires t.RowType? && HasType(l, t) && HasType(r, t)
    requires forall k :: 0 <= k < |t.fields| ==> l.fields[k] == r.fields[k]
    ensures ValueAnswer(0, t, l, r, f)
  {
    FieldsZero(l, r, t, 0, f);
    assert l.fields == r.fields;
  }

  /** When the common part is equal, the sizes decide. */
  lemma SizesDecide(ls: seq<Value>, rs: seq<Value>, t: Type, f: CompareFlags)
    requires AllHaveType(ls, t) && AllHaveType(rs, t)
    requires forall k :: 0 <= k < |ls| && k < |rs| ==> ls[k] == rs[k]
    ensures OrderElements(ls, rs, t, 0, f) == Flip(Sign(|ls| - |rs|), f.ascending)
    ensures ls == rs <==> |ls| == |rs|
  {
    SkipElements(ls, rs, t, if |ls| < |rs| then |ls| else |rs|, f);
  }

  // ------------------------------------------------------------------------------------------------
  // Two streams
  // ------------------------------------------------------------------------------------------------

  ghost predicate ValueAnswer(c: int, t: Type, l: Value, r: Value, f: CompareFlags) {
    HasType(l, t) && HasType(r, t) && Answers(c, Order(l, r, t, f), l == r, f)
  }

  ghost predicate ArrayAnswer(c: int, t: Type, ls: seq<Value>, rs: seq<Value>, f: CompareFlags) {
    AllHaveType(ls, t) && AllHaveType(rs, t) && Answers(c, OrderElements(ls, rs, t, 0, f), ls == rs, f)
  }

  /** Zero for equal values only; the sign says which of the two comes first. */
  ghost predicate Says(c: int, l: Value, r: Value, t: Type, f: CompareFlags)
    requires HasType(l, t) && HasType(r, t)
  {
    && (c == 0 <==> l == r)
    && (!f.equalsOnly ==> (c < 0 <==> ValueBefore(l, r, t, f)) && (c > 0 <==> ValueBefore(r, l, t, f)))
  }

  lemma AnswerSays(c: int, t: Type, l: Value, r: Value, f: CompareFlags)
    requires ValueAnswer(c, t, l, r, f)
    ensures Says(c, l, r, t, f)
  {
    OrderMeans(l, r, t, f);
    OrderMeans(r, l, t, f);
    Antisymmetric(l, r, t, f);
    ZeroIsEqual(l, r, t, f);
  }

  /** The answer is faithful to the order of the two values, and zero only after both have been read to
      their ends. */
  method CompareStreams(left: ByteStream, right: ByteStream, t: Type, f: CompareFlags) returns (c: int)
    requires left != right && Decode(t, left.bytes).Some? && Decode(t, right.bytes).Some?
    modifies left, right
    ensures var (l, r) := (Decode(t, old(left.bytes)).value, Decode(t, old(right.bytes)).value);
            && ValueAnswer(c, t, l.value, r.value, f) && Says(c, l.value, r.value, t, f)
            && (c == 0 ==> left.bytes == l.rest && right.bytes == r.rest)
    decreases t, 2
  {
    ghost var l, r := Decode(t, left.bytes).value, Decode(t, right.bytes).value;
    DecodeHasType(t, left.bytes);
    DecodeHasType(t, right.bytes);
    match t {
    case IntType(width) =>
      var leftValue := left.ReadSigned(width);
      var rightValue := right.ReadSigned(width);
      var result := if leftValue == rightValue then 0 else if leftValue < rightValue then -1 else 1;
      c := if f.ascending then result else result * -1;
    case StringType =>
      var leftValue := ReadString(left);
      var rightValue := ReadString(right);
      BytesAntisymmetric(leftValue, rightValue, 0);
      BytesZero(leftValue, rightValue, 0);
      c := if f.ascending then OrderBytes(leftValue, rightValue, 0) else OrderBytes(rightValue, leftValue, 0);
    case RowType(_) =>
      c := CompareRowStreams(left, right, t, f);
    case ArrayType(element) =>
      c := CompareArrayStreams(left, right, element, f);
    case MapType(key, value) =>
      ElementsZero(l.value.keys, r.value.keys, key, 0, f);
      c := CompareArrayStreams(left, right, key, f);
      if c == 0 {
        c := CompareArrayStreams(left, right, value, f);
      }
    }
    AnswerSays(c, t, l.value, r.value, f);
  }

  method ReadString(stream: ByteStream) returns (s: seq<byte>)
    requires Decode(StringType, stream.bytes).Some?
    modifies stream
    ensures Decode(StringType, old(stream.bytes)) == Some(Decoded(StringValue(s), stream.bytes))
  {
    ghost var bs := stream.bytes;
    var size := stream.ReadSigned(SIZE_BYTES);
    s := stream.ReadBytes(size);
    assert bs[4..][..size] == bs[4..4 + size] && bs[4..][size..] == bs[4 + size..];
  }

  method CompareRowStreams(left: ByteStream, right: ByteStream, t: Type, f: CompareFlags) returns (c: int)
    requires t.RowType? && left != right && Decode(t, left.bytes).Some? && Decode(t, right.bytes).Some?
    modifies left, right
    ensures var (l, r) := (Decode(t, old(left.bytes)).value, Decode(t, old(right.bytes)).value);
            ValueAnswer(c, t, l.value, r.value, f) && (c == 0 ==> left.bytes == l.rest && right.bytes == r.rest)
    decreases t, 1
  {
    ghost var l, r := Decode(t, left.bytes).value.value, Decode(t, right.bytes).value.value;
    DecodeHasType(t, left.bytes);
    DecodeHasType(t, right.bytes);
    var leftNulls := ReadNulls(left, |t.fields|);
    var rightNulls := ReadNulls(right, |t.fields|);
    c := CompareFields(left, right, t, f, leftNulls, rightNulls, l, r);
  }

  method CompareFields(
      left: ByteStream, right: ByteStream, t: Type, f: CompareFlags, leftNulls: seq<bool>, rightNulls: seq<bool>,
      ghost l: Value, ghost r: Value)
    returns (c: int)
    requires left != right && t.RowType? && HasType(l, t) && HasType(r, t)
    requires RemainingFields(t, leftNulls, left.bytes, l.fields)
    requires RemainingFields(t, rightNulls, right.bytes, r.fields)
    modifies left, right
    ensures ValueAnswer(c, t, l, r, f)
    ensures c == 0 ==> left.bytes == AfterFields(t, leftNulls, old(left.bytes), l.fields)
    ensures c == 0 ==> right.bytes == AfterFields(t, rightNulls, old(right.bytes), r.fields)
    decreases t, 0
  {
    ghost var lbs, rbs := left.bytes, right.bytes;
    for i := 0 to |t.fields|
      invariant AtField(t, leftNulls, lbs, l.fields, i, left.bytes)
      invariant AtField(t, rightNulls, rbs, r.fields, i, right.bytes)
      invariant forall k :: 0 <= k < i ==> l.fields[k] == r.fields[k]
    {
      FieldStep(t, leftNulls, lbs, l.fields, i, left.bytes);
      FieldStep(t, rightNulls, rbs, r.fields, i, right.bytes);
      c := ComparePair(left, right, t.fields[i], f, leftNulls[i], rightNulls[i], l.fields[i], r.fields[i]);
      FieldDecides(l, r, t, i, f, c);
      if c != 0 {
        return;
      }
    }
    AllFieldsEqual(l, r, t, f);
    c := 0;
  }

  method CompareArrayStreams(left: ByteStream, right: ByteStream, t: Type, f: CompareFlags) returns (c: int)
    requires left != right && DecodeArray(t, left.bytes).Some? && DecodeArray(t, right.bytes).Some?
    modifies left, right
    ensures var (l, r) := (DecodeArray(t, old(left.bytes)).value, DecodeArray(t, old(right.bytes)).value);
            ArrayAnswer(c, t, l.value, r.value, f) && (c == 0 ==> left.bytes == l.rest && right.bytes == r.rest)
    decreases t, 5
  {
    ghost var ls, rs := DecodeArray(t, left.bytes).value.value, DecodeArray(t, right.bytes).value.value;
    ArrayHasType(t, left.bytes);
    ArrayHasType(t, right.bytes);
    var leftSize := left.ReadSigned(SIZE_BYTES);
    var rightSize := right.ReadSigned(SIZE_BYTES);
    if f.equalsOnly && leftSize != rightSize {
      return if f.ascending then 1 else -1;
    }
    var leftNulls := ReadNulls(left, leftSize);
    var rightNulls := ReadNulls(right, rightSize);
    c := CompareElements(left, right, t, f, leftNulls, rightNulls, ls, rs);
    if c == 0 {
      SizesDecide(ls, rs, t, f);
      c := if f.ascending then leftSize - rightSize else rightSize - leftSize;
    }
  }

  /** Two fields or elements, either of which may be null. */
  method ComparePair(
      left: ByteStream, right: ByteStream, t: Type, f: CompareFlags, leftNull: bool, rightNull: bool,
      ghost l: Value, ghost r: Value)
    returns (c: int)
    requires left != right && Nullable(l, t) && Nullable(r, t)
    requires HoldsNext(t, leftNull, left.bytes, l) && HoldsNext(t, rightNull, right.bytes, r)
    modifies left, right
    ensures Answers(c, OrderNullable(l, r, t, f), l == r, f)
    ensures c == 0 ==> left.bytes == AfterValue(t, leftNull, old(left.bytes))
    ensures c == 0 ==> right.bytes == AfterValue(t, rightNull, old(right.bytes))
    decreases t, 3
  {
    if leftNull && rightNull {
      c := 0;
    } else if leftNull {
      c := if f.nullsFirst then -1 else 1;
    } else if rightNull {
      c := if f.nullsFirst then 1 else -1;
    } else {
      c := CompareStreams(left, right, t, f);
    }
  }

  /** The common part of two arrays. */
  method CompareElements(
      left: ByteStream, right: ByteStream, t: Type, f: CompareFlags, leftNulls: seq<bool>, rightNulls: seq<bool>,
      ghost ls: seq<Value>, ghost rs: seq<Value>) returns (c: int)
    requires left != right && AllHaveType(ls, t) && AllHaveType(rs, t)
    requires Remaining(t, leftNulls, left.bytes, ls) && Remaining(t, rightNulls, right.bytes, rs)
    modifies left, right
    ensures c != 0 ==> ArrayAnswer(c, t, ls, rs, f)
    ensures c == 0 ==> forall k :: 0 <= k < |ls| && k < |rs| ==> ls[k] == rs[k]
    ensures c == 0 && |ls| == |rs| ==> left.bytes == AfterElements(t, leftNulls, old(left.bytes), ls)
    ensures c == 0 && |ls| == |rs| ==> right.bytes == AfterElements(t, rightNulls, old(right.bytes), rs)
    decreases t, 4
  {
    ghost var lbs, rbs := left.bytes, right.bytes;
    var compareSize := if |leftNulls| < |rightNulls| then |leftNulls| else |rightNulls|;
    for i := 0 to compareSize
      invariant AtElement(t, leftNulls, lbs, ls, i, left.bytes)
      invariant AtElement(t, rightNulls, rbs, rs, i, right.bytes)
      invariant forall k :: 0 <= k < i ==> ls[k] == rs[k]
    {
      ElementStep(t, leftNulls, lbs, ls, i, left.bytes);
      ElementStep(t, rightNulls, rbs, rs, i, right.bytes);
      c := ComparePair(left, right, t, f, leftNulls[i], rightNulls[i], ls[i], rs[i]);
      ElementDecides(ls, rs, t, i, f, c);
      if c != 0 {
        return;
      }
    }
    c := 0;
  }

  // ------------------------------------------------------------------------------------------------
  // A stream and a vector
  // ------------------------------------------------------------------------------------------------

  lemma {:induction false} SkipBytes(l: seq<byte>, r: seq<byte>, i: nat)
    requires i <= |l| && i <= |r| && l[..i] == r[..i]
    ensures OrderBytes(l, r, 0) == OrderBytes(l, r, i)
  {
    if i == 0 {
    } else {
      assert l[..i - 1] == l[..i][..i - 1] && r[..i - 1] == r[..i][..i - 1];
      assert l[i - 1] == l[..i][i - 1] && r[i - 1] == r[..i][i - 1];
      SkipBytes(l, r, i - 1);
    }
  }

  /** `memcmp` of two pieces at the same position decides for the whole. */
  lemma {:induction false} PiecesDecide(l: seq<byte>, r: seq<byte>, at: nat, n: nat, i: nat)
    requires at + n <= |l| && at + n <= |r| && i <= n
    ensures var (a, b) := (l[at..at + n], r[at..at + n]);
            OrderBytes(l, r, at + i)
              == if OrderBytes(a, b, i) != 0 then OrderBytes(a, b, i) else OrderBytes(l, r, at + n)
    decreases n - i
  {
    if i == n {
    } else {
      PiecesDecide(l, r, at, n, i + 1);
    }
  }

  /** A piece behind equal beginnings decides, or the beginnings grow by it. */
  lemma PieceDecides(l: seq<byte>, r: seq<byte>, at: nat, n: nat)
    requires at + n <= |l| && at + n <= |r| && l[..at] == r[..at]
    ensures var c := OrderBytes(l[at..at + n], r[at..at + n], 0);
            if c != 0 then OrderBytes(l, r, 0) == c else l[..at + n] == r[..at + n]
  {
    var a, b := l[at..at + n], r[at..at + n];
    PiecesDecide(l, r, at, n, 0);
    SkipBytes(l, r, at);
    BytesZero(a, b, 0);
    assert l[..at + n] == l[..at] + a && r[..at + n] == r[..at] + b;
  }

  /** `compareStringAsc`: the left string is looked at piece by piece, as its ranges allow. */
  method CompareStringAsc(left: ByteStream, right: seq<byte>, equalsOnly: bool) returns (c: int)
    requires Decode(StringType, left.bytes).Some? && |right| < MAX_SIZE
    modifies left
    ensures var l := Decode(StringType, old(left.bytes)).value;
            && (if equalsOnly then c == 0 <==> l.value.bytes == right
                else Sign(c) == OrderBytes(l.value.bytes, right, 0))
            && (!equalsOnly ==> (c < 0 <==> BytesBefore(l.value.bytes, right))
                                && (c > 0 <==> BytesBefore(right, l.value.bytes)))
            && (c == 0 ==> left.bytes == l.rest)
  {
    ghost var l := Decode(StringType, left.bytes).value.value.bytes;
    ghost var all := left.bytes[4..];
    var leftSize := left.ReadSigned(SIZE_BYTES);
    assert l == all[..leftSize];
    if |right| != leftSize && equalsOnly {
      return 1;
    }
    var compareSize := if leftSize < |right| then leftSize else |right|;
    ghost var common := compareSize;
    var rightOffset := 0;
    BytesZero(l, right, 0);
    BytesMean(l, right, 0);
    BytesMean(right, l, 0);
    BytesAntisymmetric(l, right, 0);
    while compareSize > 0
      invariant 0 <= rightOffset == common - compareSize <= common
      invariant left.bytes == all[rightOffset..] && l[..rightOffset] == right[..rightOffset]
    {
      var leftView := left.NextView(compareSize);
      var n := |leftView|;
      assert leftView == l[rightOffset..rightOffset + n];
      PieceDecides(l, right, rightOffset, n);
      var result := OrderBytes(leftView, right[rightOffset..rightOffset + n], 0);
      if result != 0 {
        return result;
      }
      rightOffset := rightOffset + n;
      compareSize := compareSize - n;
    }
    SkipBytes(l, right, rightOffset);
    c := leftSize - |right|;
  }

  /** The answer is faithful to the order of the encoded value and the vector's value in canonical form. */
  method CompareWithVector(left: ByteStream, r: Value, t: Type, f: CompareFlags) returns (c: int)
    requires HasType(r, t) && Decode(t, left.bytes).Some?
    modifies left
    ensures RawType(r, t)
    ensures var l := Decode(t, old(left.bytes)).value;
            && ValueAnswer(c, t, l.value, Canonical(r, t), f) && Says(c, l.value, Canonical(r, t), t, f)
            && (c == 0 ==> left.bytes == l.rest)
    decreases t, 2
  {
    ghost var l := Decode(t, left.bytes).value.value;
    DecodeHasType(t, left.bytes);
    HasTypeIsRaw(r, t);
    match t {
    case IntType(width) =>
      var leftValue := left.ReadSigned(width);
      var result := if leftValue < r.num then -1 else if leftValue == r.num then 0 else 1;
      c := if f.ascending then result else result * -1;
    case StringType =>
      BytesZero(l.bytes, r.bytes, 0);
      var result := CompareStringAsc(left, r.bytes, f.equalsOnly);
      c := if f.ascending then result else result * -1;
    case RowType(_) =>
      c := CompareRowWithVector(left, r, t, f);
    case ArrayType(element) =>
      c := CompareArrayWithVector(left, r.elements, element, f);
    case MapType(key, value) =>
      var keys := CanonicalAll(r.keys, key);
      var indices := SortedKeyIndices(keys, key, |keys|);
      CanonicalPermuted(r.keys, indices, key);
      CanonicalPermuted(r.values, indices, value);
      ElementsZero(l.keys, Permuted(keys, indices), key, 0, f);
      c := CompareArrayWithVector(left, Permuted(r.keys, indices), key, f);
      if c == 0 {
        c := CompareArrayWithVector(left, Permuted(r.values, indices), value, f);
      }
    }
    AnswerSays(c, t, l, Canonical(r, t), f);
  }

  method ComparePairWithVector(
      left: ByteStream, r: Value, t: Type, f: CompareFlags, leftNull: bool, ghost l: Value, ghost rc: Value)
    returns (c: int)
    requires Nullable(l, t) && Nullable(r, t) && Nullable(rc, t) && HoldsNext(t, leftNull, left.bytes, l)
    requires if r == Null then rc == Null else RawType(r, t) && rc == Canonical(r, t)
    modifies left
    ensures Answers(c, OrderNullable(l, rc, t, f), l == rc, f)
    ensures c == 0 ==> left.bytes == AfterValue(t, leftNull, old(left.bytes))
    decreases t, 3
  {
    if leftNull && r == Null {
      c := 0;
    } else if leftNull {
      c := if f.nullsFirst then -1 else 1;
    } else if r == Null {
      c := if f.nullsFirst then 1 else -1;
    } else {
      c := CompareWithVector(left, r, t, f);
    }
  }

  method CompareRowWithVector(left: ByteStream, r: Value, t: Type, f: CompareFlags) returns (c: int)
    requires t.RowType? && HasType(r, t) && RawType(r, t) && Decode(t, left.bytes).Some?
    modifies left
    ensures var l := Decode(t, old(left.bytes)).value;
            ValueAnswer(c, t, l.value, Canonical(r, t), f) && (c == 0 ==> left.bytes == l.rest)
    decreases t, 1
  {
    ghost var l := Decode(t, left.bytes).value.value;
    DecodeHasType(t, left.bytes);
    var nulls := ReadNulls(left, |t.fields|);
    c := CompareFieldsWithVector(left, r, t, f, nulls, l);
  }

  lemma CanonicalField(r: Value, t: Type, i: nat)
    requires t.RowType? && HasType(r, t) && RawType(r, t) && i < |t.fields|
    ensures var rc := Canonical(r, t);
            && Nullable(r.fields[i], t.fields[i]) && Nullable(rc.fields[i], t.fields[i])
            && (r.fields[i] == Null ==> rc.fields[i] == Null)
            && (r.fields[i] != Null ==>
                  RawType(r.fields[i], t.fields[i]) && rc.fields[i] == Canonical(r.fields[i], t.fields[i]))
  {
  }

  method CompareFieldWithVector(
      left: ByteStream, r: Value, t: Type, f: CompareFlags, nulls: seq<bool>, ghost l: Value, ghost start: seq<byte>,
      i: nat)
    returns (c: int)
    requires t.RowType? && HasType(l, t) && HasType(r, t) && RawType(r, t) && i < |t.fields|
    requires AtField(t, nulls, start, l.fields, i, left.bytes)
    requires forall k :: 0 <= k < i ==> l.fields[k] == Canonical(r, t).fields[k]
    modifies left
    ensures c != 0 ==> ValueAnswer(c, t, l, Canonical(r, t), f)
    ensures c == 0 ==> l.fields[i] == Canonical(r, t).fields[i] && AtField(t, nulls, start, l.fields, i + 1, left.bytes)
    decreases t, 0, 0
  {
    ghost var rc := Canonical(r, t);
    FieldStep(t, nulls, start, l.fields, i, left.bytes);
    CanonicalField(r, t, i);
    c := ComparePairWithVector(left, r.fields[i], t.fields[i], f, nulls[i], l.fields[i], rc.fields[i]);
    FieldDecides(l, rc, t, i, f, c);
  }

  method CompareFieldsWithVector(
      left: ByteStream, r: Value, t: Type, f: CompareFlags, nulls: seq<bool>, ghost l: Value)
    returns (c: int)
    requires t.RowType? && HasType(l, t) && HasType(r, t) && RawType(r, t)
    requires RemainingFields(t, nulls, left.bytes, l.fields)
    modifies left
    ensures ValueAnswer(c, t, l, Canonical(r, t), f)
    ensures c == 0 ==> left.bytes == AfterFields(t, nulls, old(left.bytes), l.fields)
    decreases t, 0, 1
  {
    ghost var lbs, rc := left.bytes, Canonical(r, t);
    for i := 0 to |t.fields|
      invariant AtField(t, nulls, lbs, l.fields, i, left.bytes)
      invariant forall k :: 0 <= k < i ==> l.fields[k] == rc.fields[k]
    {
      c := CompareFieldWithVector(left, r, t, f, nulls, l, lbs, i);
      if c != 0 {
        return;
      }
    }
    AllFieldsEqual(l, rc, t, f);
    c := 0;
  }

  method CompareArrayWithVector(left: ByteStream, rs: seq<Value>, t: Type, f: CompareFlags) returns (c: int)
    requires AllHaveType(rs, t) && AllRaw(rs, t) && DecodeArray(t, left.bytes).Some?
    modifies left
    ensures var l := DecodeArray(t, old(left.bytes)).value;
            ArrayAnswer(c, t, l.value, CanonicalAll(rs, t), f) && (c == 0 ==> left.bytes == l.rest)
    decreases t, 5
  {
    ghost var ls, rcs := DecodeArray(t, left.bytes).value.value, CanonicalAll(rs, t);
    ArrayHasType(t, left.bytes);
    var leftSize := left.ReadSigned(SIZE_BYTES);
    if leftSize != |rs| && f.equalsOnly {
      return if f.ascending then 1 else -1;
    }
    var leftNulls := ReadNulls(left, leftSize);
    c := CompareElementsWithVector(left, rs, t, f, leftNulls, ls);
    if c == 0 {
      SizesDecide(ls, rcs, t, f);
      c := if f.ascending then leftSize - |rs| else |rs| - leftSize;
    }
  }

  method CompareElementsWithVector(
      left: ByteStream, rs: seq<Value>, t: Type, f: CompareFlags, leftNulls: seq<bool>, ghost ls: seq<Value>)
    returns (c: int)
    requires AllHaveType(ls, t) && AllHaveType(rs, t) && AllRaw(rs, t) && Remaining(t, leftNulls, left.bytes, ls)
    modifies left
    ensures c != 0 ==> ArrayAnswer(c, t, ls, CanonicalAll(rs, t), f)
    ensures c == 0 ==> forall k :: 0 <= k < |ls| && k < |rs| ==> ls[k] == CanonicalAll(rs, t)[k]
    ensures c == 0 && |ls| == |rs| ==> left.bytes == AfterElements(t, leftNulls, old(left.bytes), ls)
    decreases t, 4
  {
    ghost var lbs, rcs := left.bytes, CanonicalAll(rs, t);
    var compareSize := if |leftNulls| < |rs| then |leftNulls| else |rs|;
    for i := 0 to compareSize
      invariant AtElement(t, leftNulls, lbs, ls, i, left.bytes)
      invariant forall k :: 0 <= k < i ==> ls[k] == rcs[k]
    {
      ElementStep(t, leftNulls, lbs, ls, i, left.bytes);
      c := ComparePairWithVector(left, rs[i], t, f, leftNulls[i], ls[i], rcs[i]);
      ElementDecides(ls, rcs, t, i, f, c);
      if c != 0 {
        return;
      }
    }
    c := 0;
  }
}
