/** Reading encoded values into vectors: nested columns that grow at their ends. */
module SerdeVectors {
  import opened Options
  import opened SerdeValues
  import opened SerdeCanonicals
  import opened SerdeStoredValues
  import opened SerdeStreams
  import opened SerdeCompares

  datatype Range = Range(offset: nat, size: nat)

  /** The children of a row vector may be shorter than the vector itself: they grow when written. */
  datatype Vector =
    | FlatVector(slots: seq<Value>)
    | RowVector(nulls: seq<bool>, children: seq<Vector>)
    | ArrayVector(nulls: seq<bool>, ranges: seq<Range>, elements: Vector)
    | MapVector(nulls: seq<bool>, ranges: seq<Range>, keys: Vector, values: Vector)

  function Size(vec: Vector): nat {
    if vec.FlatVector? then |vec.slots| else |vec.nulls|
  }

  /** The shape follows the type, and the keys and values of maps grow in lockstep. */
  ghost predicate Valid(vec: Vector, t: Type)
    decreases t
  {
    match t
    case IntType(_) => vec.FlatVector?
    case StringType => vec.FlatVector?
    case RowType(fields) =>
      && vec.RowVector? && |vec.children| == |fields|
      && forall c :: 0 <= c < |fields| ==> Valid(vec.children[c], fields[c]) && Size(vec.children[c]) <= |vec.nulls|
    case ArrayType(element) => vec.ArrayVector? && |vec.ranges| == |vec.nulls| && Valid(vec.elements, element)
    case MapType(key, value) =>
      && vec.MapVector? && |vec.ranges| == |vec.nulls| && Valid(vec.keys, key) && Valid(vec.values, value)
      && Size(vec.keys) == Size(vec.values)
  }

  /** Row `k` of the vector is `v`. */
  ghost predicate Holds(vec: Vector, t: Type, k: nat, v: Value)
    decreases t, 0
  {
    && Valid(vec, t) && k < Size(vec)
    && if vec.FlatVector? then vec.slots[k] == v
       else if vec.nulls[k] then v == Null
       else match t
         case RowType(fields) =>
           && v.RowValue? && |v.fields| == |fields|
           && forall c :: 0 <= c < |fields| ==> Holds(vec.children[c], fields[c], k, v.fields[c])
         case ArrayType(element) => v.ArrayValue? && HoldsAll(vec.elements, element, vec.ranges[k], v.elements)
         case MapType(key, value) =>
           && v.MapValue? && HoldsAll(vec.keys, key, vec.ranges[k], v.keys)
           && HoldsAll(vec.values, value, vec.ranges[k], v.values)
  }

  ghost predicate HoldsAll(vec: Vector, t: Type, range: Range, vs: seq<Value>)
    decreases t, 1
  {
    |vs| == range.size && forall j :: 0 <= j < |vs| ==> Holds(vec, t, range.offset + j, vs[j])
  }

  /** Slot `k` is not marked null, so that writing it makes it readable. */
  ghost predicate Fresh(vec: Vector, t: Type, k: nat)
    requires Valid(vec, t)
    decreases t
  {
    && (!vec.FlatVector? && k < Size(vec) ==> !vec.nulls[k])
    && (t.RowType? ==> forall c :: 0 <= c < |t.fields| ==> Fresh(vec.children[c], t.fields[c], k))
  }

  lemma {:induction false} FreshBeyondTheEnd(vec: Vector, t: Type, k: nat)
    requires Valid(vec, t) && k >= Size(vec)
    ensures Fresh(vec, t, k)
    decreases t
  {
    if t.RowType? {
      forall c | 0 <= c < |t.fields|
        ensures Fresh(vec.children[c], t.fields[c], k)
      {
        FreshBeyondTheEnd(vec.children[c], t.fields[c], k);
      }
    }
  }

  /** A vector holds at most one value in a slot. */
  lemma {:induction false} HoldsOne(vec: Vector, t: Type, k: nat, v: Value, w: Value)
    requires Holds(vec, t, k, v) && Holds(vec, t, k, w)
    ensures v == w
    decreases t, 0
  {
    if !vec.FlatVector? && !vec.nulls[k] {
      match t
      case RowType(fields) =>
        forall c | 0 <= c < |fields|
          ensures v.fields[c] == w.fields[c]
        {
          HoldsOne(vec.children[c], fields[c], k, v.fields[c], w.fields[c]);
        }
      case ArrayType(element) => HoldsOneArray(vec.elements, element, vec.ranges[k], v.elements, w.elements);
      case MapType(key, value) =>
        HoldsOneArray(vec.keys, key, vec.ranges[k], v.keys, w.keys);
        HoldsOneArray(vec.values, value, vec.ranges[k], v.values, w.values);
    }
  }

  lemma {:induction false} HoldsOneArray(vec: Vector, t: Type, range: Range, vs: seq<Value>, ws: seq<Value>)
    requires HoldsAll(vec, t, range, vs) && HoldsAll(vec, t, range, ws)
    ensures vs == ws
    decreases t, 1
  {
    forall j | 0 <= j < |vs|
      ensures vs[j] == ws[j]
    {
      HoldsOne(vec, t, range.offset + j, vs[j], ws[j]);
    }
  }

  // ------------------------------------------------------------------------------------------------
  // Growing and setting nulls
  // ------------------------------------------------------------------------------------------------

  /** What stays when slot `k` is written: the rows held elsewhere, and the slots still to be written. */
  ghost predicate KeepsOthers(vec: Vector, vec': Vector, t: Type, k: nat) {
    && Valid(vec, t) && Valid(vec', t)
    && (forall j, v :: j != k && Holds(vec, t, j, v) ==> Holds(vec', t, j, v))
    && (forall j: nat :: j != k && Fresh(vec, t, j) ==> Fresh(vec', t, j))
  }

  ghost predicate Updated(vec: Vector, vec': Vector, t: Type, k: nat, v: Value) {
    && KeepsOthers(vec, vec', t, k) && Holds(vec', t, k, v)
    && Size(vec') == if Size(vec) <= k then k + 1 else Size(vec)
  }

  /** `resize` to a larger size. Children of rows are left alone; what new flat slots hold does not matter. */
  function Resize(vec: Vector, size: nat): (r: Vector)
    requires Size(vec) <= size
    ensures Size(r) == size
  {
    match vec
    case FlatVector(slots) => FlatVector(slots + seq(size - |slots|, i => IntValue(0)))
    case RowVector(nulls, children) => RowVector(nulls + seq(size - |nulls|, i => false), children)
    case ArrayVector(nulls, ranges, elements) =>
      ArrayVector(nulls + seq(size - |nulls|, i => false), Grown(ranges, size), elements)
    case MapVector(nulls, ranges, keys, values) =>
      MapVector(nulls + seq(size - |nulls|, i => false), Grown(ranges, size), keys, values)
  }

  function Grown(ranges: seq<Range>, size: nat): seq<Range> {
    if |ranges| <= size then ranges + seq(size - |ranges|, i => Range(0, 0)) else ranges
  }

  lemma ResizeKeeps(vec: Vector, t: Type, size: nat)
    requires Valid(vec, t) && Size(vec) <= size
    ensures Valid(Resize(vec, size), t)
    ensures forall j, v :: Holds(vec, t, j, v) ==> Holds(Resize(vec, size), t, j, v)
    ensures forall j: nat :: Fresh(vec, t, j) ==> Fresh(Resize(vec, size), t, j)
  {
  }

  function SetNull(vec: Vector, k: nat): (r: Vector)
    requires k < Size(vec)
    ensures Size(r) == Size(vec)
  {
    match vec
    case FlatVector(slots) => FlatVector(slots[k := Null])
    case RowVector(nulls, children) => RowVector(nulls[k := true], children)
    case ArrayVector(nulls, ranges, elements) => ArrayVector(nulls[k := true], ranges, elements)
    case MapVector(nulls, ranges, keys, values) => MapVector(nulls[k := true], ranges, keys, values)
  }

  lemma SetNullUpdates(vec: Vector, t: Type, k: nat)
    requires Valid(vec, t) && k < Size(vec)
    ensures Updated(vec, SetNull(vec, k), t, k, Null)
  {
  }

  /** A slot that is created by growing, then written. */
  lemma GrownThenUpdated(vec: Vector, vec': Vector, t: Type, k: nat, v: Value)
    requires Valid(vec, t) && Size(vec) <= k && Updated(Resize(vec, k + 1), vec', t, k, v)
    ensures Updated(vec, vec', t, k, v)
  {
    ResizeKeeps(vec, t, k + 1);
  }

  // ------------------------------------------------------------------------------------------------
  // Deserialization
  // ------------------------------------------------------------------------------------------------

  /** Reads one value into slot `k`: the slot then holds it, the stream is past it and all other rows
      are unchanged. */
  method DeserializeOne(stream: ByteStream, k: nat, vec: Vector, t: Type) returns (r: Vector)
    requires Valid(vec, t) && Fresh(vec, t, k) && Decode(t, stream.bytes).Some?
    requires vec.FlatVector? || vec.RowVector? ==> k < Size(vec)
    modifies stream
    ensures var d := Decode(t, old(stream.bytes)).value;
            Updated(vec, r, t, k, d.value) && stream.bytes == d.rest
    decreases t, 1
  {
    match t
    case IntType(width) =>
      var x := stream.ReadSigned(width);
      r := FlatVector(vec.slots[k := IntValue(x)]);
    case StringType =>
      var s := ReadString(stream);
      r := FlatVector(vec.slots[k := StringValue(s)]);
    case RowType(_) =>
      r := DeserializeRow(stream, k, vec, t);
    case ArrayType(element) =>
      var sized := if Size(vec) <= k then Resize(vec, k + 1) else vec;
      ResizeKeeps(vec, t, Size(sized));
      var elements, range := DeserializeArray(stream, sized.elements, element);
      r := ArrayVector(sized.nulls, sized.ranges[k := range], elements);
      ArrayUpdated(vec, r, t, k, Decode(t, old(stream.bytes)).value.value);
    case MapType(key, value) =>
      var sized := if Size(vec) <= k then Resize(vec, k + 1) else vec;
      ResizeKeeps(vec, t, Size(sized));
      var keys, keyRange := DeserializeArray(stream, sized.keys, key);
      var values, valueRange := DeserializeArray(stream, sized.values, value);
      // The checks that sizes and offsets agree cannot fail.
      assert keyRange == valueRange;
      r := MapVector(sized.nulls, sized.ranges[k := keyRange], keys, values);
      MapUpdated(vec, r, t, k, Decode(t, old(stream.bytes)).value.value);
  }

  lemma RangeKept(vec: Vector, vec': Vector, t: Type, range: Range, vs: seq<Value>)
    requires HoldsAll(vec, t, range, vs) && forall j, w :: Holds(vec, t, j, w) ==> Holds(vec', t, j, w)
    ensures HoldsAll(vec', t, range, vs)
  {
  }

  lemma ArrayUpdated(vec: Vector, r: Vector, t: Type, k: nat, v: Value)
    requires t.ArrayType? && Valid(vec, t) && Valid(r, t) && Fresh(vec, t, k) && v.ArrayValue?
    requires var sized := if Size(vec) <= k then Resize(vec, k + 1) else vec;
             r.nulls == sized.nulls && r.ranges == sized.ranges[k := r.ranges[k]]
    requires HoldsAll(r.elements, t.element, r.ranges[k], v.elements)
    requires forall j, w :: Holds(vec.elements, t.element, j, w) ==> Holds(r.elements, t.element, j, w)
    ensures Updated(vec, r, t, k, v)
  {
    forall j: nat, w | j != k && Holds(vec, t, j, w)
      ensures Holds(r, t, j, w)
    {
      assert r.nulls[j] == vec.nulls[j] && r.ranges[j] == vec.ranges[j];
      if !vec.nulls[j] {
        RangeKept(vec.elements, r.elements, t.element, vec.ranges[j], w.elements);
      }
    }
    forall j: nat | j != k && Fresh(vec, t, j)
      ensures Fresh(r, t, j)
    {
      assert j < Size(vec) ==> r.nulls[j] == vec.nulls[j];
    }
  }

  lemma MapUpdated(vec: Vector, r: Vector, t: Type, k: nat, v: Value)
    requires t.MapType? && Valid(vec, t) && Valid(r, t) && Fresh(vec, t, k) && v.MapValue?
    requires var sized := if Size(vec) <= k then Resize(vec, k + 1) else vec;
             r.nulls == sized.nulls && r.ranges == sized.ranges[k := r.ranges[k]]
    requires HoldsAll(r.keys, t.key, r.ranges[k], v.keys) && HoldsAll(r.values, t.value, r.ranges[k], v.values)
    requires forall j, w :: Holds(vec.keys, t.key, j, w) ==> Holds(r.keys, t.key, j, w)
    requires forall j, w :: Holds(vec.values, t.value, j, w) ==> Holds(r.values, t.value, j, w)
    ensures Updated(vec, r, t, k, v)
  {
    forall j: nat, w | j != k && Holds(vec, t, j, w)
      ensures Holds(r, t, j, w)
    {
      assert r.nulls[j] == vec.nulls[j] && r.ranges[j] == vec.ranges[j];
      if !vec.nulls[j] {
        RangeKept(vec.keys, r.keys, t.key, vec.ranges[j], w.keys);
        RangeKept(vec.values, r.values, t.value, vec.ranges[j], w.values);
      }
    }
    forall j: nat | j != k && Fresh(vec, t, j)
      ensures Fresh(r, t, j)
    {
      assert j < Size(vec) ==> r.nulls[j] == vec.nulls[j];
    }
  }

  /** One field of a row: its child vector grows if it has to. */
  method DeserializeNext(
      stream: ByteStream, k: nat, vec: Vector, t: Type, isNull: bool, ghost v: Value)
    returns (r: Vector)
    requires Valid(vec, t) && Fresh(vec, t, k) && HoldsNext(t, isNull, stream.bytes, v)
    modifies stream
    ensures Updated(vec, r, t, k, v) && stream.bytes == AfterValue(t, isNull, old(stream.bytes))
    decreases t, 2
  {
    var sized := vec;
    if Size(vec) <= k {
      sized := Resize(vec, k + 1);
      ResizeKeeps(vec, t, k + 1);
    }
    if isNull {
      r := SetNull(sized, k);
      SetNullUpdates(sized, t, k);
    } else {
      r := DeserializeOne(stream, k, sized, t);
    }
    if Size(vec) <= k {
      GrownThenUpdated(vec, r, t, k, v);
    }
  }

  method DeserializeRow(stream: ByteStream, k: nat, vec: Vector, t: Type) returns (r: Vector)
    requires t.RowType? && Valid(vec, t) && Fresh(vec, t, k) && Decode(t, stream.bytes).Some? && k < Size(vec)
    modifies stream
    ensures var d := Decode(t, old(stream.bytes)).value;
            Updated(vec, r, t, k, d.value) && stream.bytes == d.rest
    decreases t, 0
  {
    ghost var v := Decode(t, stream.bytes).value.value;
    var nulls := ReadNulls(stream, |t.fields|);
    ghost var bs := stream.bytes;
    var children := vec.children;
    for c := 0 to |t.fields|
      invariant |children| == |t.fields| && AtField(t, nulls, bs, v.fields, c, stream.bytes)
      invariant forall i :: 0 <= i < c ==> Updated(vec.children[i], children[i], t.fields[i], k, v.fields[i])
      invariant forall i :: c <= i < |children| ==> children[i] == vec.children[i]
    {
      FieldStep(t, nulls, bs, v.fields, c, stream.bytes);
      var child := DeserializeNext(stream, k, children[c], t.fields[c], nulls[c], v.fields[c]);
      children := children[c := child];
    }
    r := RowVector(vec.nulls, children);
    RowUpdated(vec, r, t, k, v);
  }

  lemma RowUpdated(vec: Vector, r: Vector, t: Type, k: nat, v: Value)
    requires t.RowType? && Valid(vec, t) && Fresh(vec, t, k) && k < Size(vec) && v.RowValue? && |v.fields| == |t.fields|
    requires r.RowVector? && r.nulls == vec.nulls && |r.children| == |t.fields|
    requires forall c :: 0 <= c < |t.fields| ==> Updated(vec.children[c], r.children[c], t.fields[c], k, v.fields[c])
    ensures Updated(vec, r, t, k, v)
  {
    assert Valid(r, t);
    forall j, w | j != k && Holds(vec, t, j, w)
      ensures Holds(r, t, j, w)
    {
    }
    forall j: nat | j != k && Fresh(vec, t, j)
      ensures Fresh(r, t, j)
    {
    }
  }

  /** Appends the elements of an array and tells where they are. */
  method DeserializeArray(stream: ByteStream, elements: Vector, t: Type) returns (r: Vector, range: Range)
    requires Valid(elements, t) && DecodeArray(t, stream.bytes).Some?
    modifies stream
    ensures var d := DecodeArray(t, old(stream.bytes)).value;
            && stream.bytes == d.rest && range == Range(Size(elements), |d.value|)
            && Valid(r, t) && Size(r) == Size(elements) + |d.value| && HoldsAll(r, t, range, d.value)
    ensures forall j, w :: Holds(elements, t, j, w) ==> Holds(r, t, j, w)
    decreases t, 4
  {
    ghost var vs := DecodeArray(t, stream.bytes).value.value;
    var size := stream.ReadSigned(SIZE_BYTES);
    var nulls := ReadNulls(stream, size);
    range := Range(Size(elements), size);
    r := AppendElements(stream, elements, t, nulls, vs);
  }

  /** While elements are being written: the first `i` are there, the slots after them are fresh and the
      rows of `before` are still held. */
  ghost predicate Filling(before: Vector, r: Vector, t: Type, offset: nat, vs: seq<Value>, i: nat) {
    && Valid(r, t) && i <= |vs| && Size(r) >= offset + |vs|
    && (forall j: nat :: j < i ==> Holds(r, t, offset + j, vs[j]))
    && (forall j: nat :: offset + i <= j < Size(r) ==> Fresh(r, t, j))
    && (forall j: nat, w :: j < offset && Holds(before, t, j, w) ==> Holds(r, t, j, w))
  }

  lemma FillNext(before: Vector, r: Vector, r': Vector, t: Type, offset: nat, vs: seq<Value>, i: nat)
    requires Filling(before, r, t, offset, vs, i) && i < |vs| && Updated(r, r', t, offset + i, vs[i])
    ensures Filling(before, r', t, offset, vs, i + 1) && Size(r') == Size(r)
  {
    forall j: nat | j < i + 1
      ensures Holds(r', t, offset + j, vs[j])
    {
      assert j < i ==> Holds(r, t, offset + j, vs[j]);
    }
  }

  lemma FillStart(elements: Vector, t: Type, vs: seq<Value>)
    requires Valid(elements, t)
    ensures Filling(elements, Resize(elements, Size(elements) + |vs|), t, Size(elements), vs, 0)
  {
    var r := Resize(elements, Size(elements) + |vs|);
    ResizeKeeps(elements, t, Size(r));
    forall j: nat | Size(elements) <= j
      ensures Fresh(r, t, j)
    {
      FreshBeyondTheEnd(elements, t, j);
    }
  }

  method AppendElements(
      stream: ByteStream, elements: Vector, t: Type, nulls: seq<bool>, ghost vs: seq<Value>)
    returns (r: Vector)
    requires Valid(elements, t) && Remaining(t, nulls, stream.bytes, vs)
    modifies stream
    ensures stream.bytes == AfterElements(t, nulls, old(stream.bytes), vs)
    ensures Valid(r, t) && Size(r) == Size(elements) + |vs| && HoldsAll(r, t, Range(Size(elements), |vs|), vs)
    ensures forall j, w :: Holds(elements, t, j, w) ==> Holds(r, t, j, w)
    decreases t, 3
  {
    ghost var bs := stream.bytes;
    var offset, size := Size(elements), |nulls|;
    r := Resize(elements, offset + size);
    FillStart(elements, t, vs);
    for i := 0 to size
      invariant AtElement(t, nulls, bs, vs, i, stream.bytes)
      invariant Filling(elements, r, t, offset, vs, i) && Size(r) == offset + size
    {
      ElementStep(t, nulls, bs, vs, i, stream.bytes);
      ghost var before := r;
      r := DeserializeNext(stream, offset + i, r, t, nulls[i], vs[i]);
      FillNext(elements, before, r, t, offset, vs, i);
    }
  }

  // ------------------------------------------------------------------------------------------------
  // Many rows into one vector
  // ------------------------------------------------------------------------------------------------

  ghost predicate IsRow(bytes: Option<seq<byte>>, t: Type, v: Value) {
    if bytes.None? then v == Null else HasType(v, t) && bytes.value == Encode(v, t)
  }

  /** `extractComplexType`: every row comes back as it was encoded, in its slot, and the rows that the
      vector already holds stay as they are. */
  method ExtractRows(
      rows: seq<Option<seq<byte>>>, vec: Vector, t: Type, resultOffset: nat,
      run: nat -> nat, ghost vs: seq<Value>)
    returns (r: Vector)
    requires Valid(vec, t) && resultOffset + |rows| <= Size(vec)
    requires |vs| == |rows| && forall i :: 0 <= i < |rows| ==> IsRow(rows[i], t, vs[i])
    requires forall i :: resultOffset <= i < Size(vec) ==> Fresh(vec, t, i)
    ensures Valid(r, t) && Size(r) == Size(vec)
    ensures forall i :: 0 <= i < |rows| ==> Holds(r, t, resultOffset + i, vs[i])
    ensures forall j: nat, w :: j < resultOffset && Holds(vec, t, j, w) ==> Holds(r, t, j, w)
  {
    r := vec;
    for i := 0 to |rows|
      invariant Filling(vec, r, t, resultOffset, vs, i) && Size(r) == Size(vec)
    {
      r := ExtractNext(rows[i], vec, r, t, resultOffset, run, vs, i);
    }
    AllFilled(vec, r, t, resultOffset, vs);
  }

  lemma AllFilled(before: Vector, r: Vector, t: Type, offset: nat, vs: seq<Value>)
    requires Filling(before, r, t, offset, vs, |vs|)
    ensures forall i :: 0 <= i < |vs| ==> Holds(r, t, offset + i, vs[i])
    ensures forall j: nat, w :: j < offset && Holds(before, t, j, w) ==> Holds(r, t, j, w)
  {
  }

  method ExtractNext(
      row: Option<seq<byte>>, ghost before: Vector, vec: Vector, t: Type, offset: nat, run: nat -> nat,
      ghost vs: seq<Value>, i: nat)
    returns (r: Vector)
    requires Filling(before, vec, t, offset, vs, i) && i < |vs| && IsRow(row, t, vs[i])
    ensures Filling(before, r, t, offset, vs, i + 1) && Size(r) == Size(vec)
  {
    r := ExtractRow(row, vec, t, offset + i, run, vs[i]);
    FillNext(before, vec, r, t, offset, vs, i);
  }

  method ExtractRow(
      row: Option<seq<byte>>, vec: Vector, t: Type, k: nat, run: nat -> nat, ghost v: Value)
    returns (r: Vector)
    requires Valid(vec, t) && k < Size(vec) && Fresh(vec, t, k) && IsRow(row, t, v)
    ensures Updated(vec, r, t, k, v)
  {
    if row.None? {
      SetNullUpdates(vec, t, k);
      r := SetNull(vec, k);
    } else {
      RoundTrip(v, t, []);
      assert row.value + [] == row.value;
      var stream := new ByteStream(row.value, run);
      r := DeserializeOne(stream, k, vec, t);
    }
  }

  /** A value is written and read back into a slot of a vector: the slot then holds what is stored for it,
      and the other slots stay as they are. */
  method StoreAndLoad(v: Value, t: Type, vec: Vector, k: nat, run: nat -> nat) returns (r: Vector)
    requires RawType(v, t) && Valid(vec, t) && Fresh(vec, t, k)
    requires vec.FlatVector? || vec.RowVector? ==> k < Size(vec)
    ensures exists w :: StoredAs(v, t, w) && Updated(vec, r, t, k, w)
    ensures HasType(v, t) && MapsInOrder(v, t) ==> Updated(vec, r, t, k, v)
  {
    var stream := new ByteStream([], run);
    SerializeOne(v, t, stream);
    ghost var c := Canonical(v, t);
    CanonicalIsStored(v, t);
    RoundTrip(c, t, []);
    assert [] + Encode(c, t) == Encode(c, t) && Encode(c, t) + [] == Encode(c, t);
    r := DeserializeOne(stream, k, vec, t);
    if HasType(v, t) && MapsInOrder(v, t) {
      StoredUnchanged(v, t);
    }
  }
}
