/** Nested values and their row-wise encoding: little-endian integers, length-prefixed strings, null
    flags in 64-bit words, and the non-null children in order. */
module SerdeValues {
  import opened Options
  import opened Powers

  type byte = x: int | 0 <= x < 256

  /** Integers by width in bytes; booleans, dates and the like are integers here. */
  datatype Type =
    | IntType(width: nat)
    | StringType
    | RowType(fields: seq<Type>)
    | ArrayType(element: Type)
    | MapType(key: Type, value: Type)

  /** `Absent` stands where a row vector lacks a child; it is a value of no type. */
  datatype Value =
    | Null
    | Absent
    | IntValue(num: int)
    | StringValue(bytes: seq<byte>)
    | RowValue(fields: seq<Value>)
    | ArrayValue(elements: seq<Value>)
    | MapValue(keys: seq<Value>, values: seq<Value>)

  const MAX_SIZE: nat := 0x8000_0000

  /** Bytes of a word of null flags, and of a size. */
  const WORD_BYTES: nat := 8
  const SIZE_BYTES: nat := 4

  /** A non-null value of type `t`. Sizes are 32-bit integers in the encoding. */
  ghost predicate HasType(v: Value, t: Type)
    decreases t, 0
  {
    match t
    case IntType(width) => v.IntValue? && width >= 1 && FitsSigned(v.num, width)
    case StringType => v.StringValue? && |v.bytes| < MAX_SIZE
    case RowType(fields) =>
      && v.RowValue? && |v.fields| == |fields|
      && forall i :: 0 <= i < |fields| ==> v.fields[i] == Null || HasType(v.fields[i], fields[i])
    case ArrayType(element) => v.ArrayValue? && AllHaveType(v.elements, element)
    case MapType(key, value) =>
      v.MapValue? && |v.keys| == |v.values| && AllHaveType(v.keys, key) && AllHaveType(v.values, value)
  }

  ghost predicate AllHaveType(vs: seq<Value>, t: Type)
    decreases t, 1
  {
    |vs| < MAX_SIZE && forall i :: 0 <= i < |vs| ==> vs[i] == Null || HasType(vs[i], t)
  }

  // ------------------------------------------------------------------------------------------------
  // Integers
  // ------------------------------------------------------------------------------------------------

  /** The low `width` bytes of the two's complement form, least significant first. */
  function LittleEndian(x: int, width: nat): (bs: seq<byte>)
    ensures |bs| == width
    decreases width
  {
    if width == 0 then [] else [x % 256] + LittleEndian(x / 256, width - 1)
  }

  function Unsigned(bs: seq<byte>): nat {
    if bs == [] then 0 else bs[0] + 256 * Unsigned(bs[1..])
  }

  function Signed(bs: seq<byte>): int
    requires bs != []
  {
    if |bs| > 1 then bs[0] + 256 * Signed(bs[1..])
    else
      var b: int := bs[0];
      if b < 128 then b else b - 256
  }

  predicate FitsSigned(x: int, width: nat)
    requires width >= 1
    decreases width
  {
    if width == 1 then -128 <= x < 128 else FitsSigned(x / 256, width - 1)
  }

  lemma {:induction false} SignedRoundTrip(x: int, width: nat)
    requires width >= 1 && FitsSigned(x, width)
    ensures Signed(LittleEndian(x, width)) == x
    decreases width
  {
    if width <= 1 {
    } else {
      SignedRoundTrip(x / 256, width - 1);
    }
  }

  lemma {:induction false} UnsignedRoundTrip(x: nat, width: nat)
    requires x < Pow2(8 * width)
    ensures Unsigned(LittleEndian(x, width)) == x
  {
    if width == 0 {
    } else {
      var p := Pow2(8 * (width - 1));
      assert Pow2(8 * width) == 256 * p by {
        Pow2Add(8, 8 * (width - 1));
        assert Pow2(8) == 256;
      }
      assert x / 256 < p;
      UnsignedRoundTrip(x / 256, width - 1);
    }
  }

  lemma Fits32(x: int)
    ensures FitsSigned(x, 4) <==> -0x8000_0000 <= x < 0x8000_0000
  {
    assert FitsSigned(x, 4) == FitsSigned(x / 256, 3);
    assert FitsSigned(x / 256, 3) == FitsSigned(x / 256 / 256, 2);
    assert FitsSigned(x / 256 / 256, 2) == FitsSigned(x / 256 / 256 / 256, 1);
  }

  // ------------------------------------------------------------------------------------------------
  // Null flags
  // ------------------------------------------------------------------------------------------------

  /** A word with one bit per flag, the first flag in the lowest bit. */
  function WordOf(flags: seq<bool>): nat {
    if flags == [] then 0 else (if flags[0] then 1 else 0) + 2 * WordOf(flags[1..])
  }

  predicate Bit(word: nat, k: nat) {
    if k == 0 then word % 2 == 1 else Bit(word / 2, k - 1)
  }

  lemma LowestBit(bit: nat, rest: nat)
    requires bit < 2
    ensures (bit + 2 * rest) % 2 == bit && (bit + 2 * rest) / 2 == rest
  {
  }

  lemma {:induction false} BitOfWord(flags: seq<bool>, k: nat)
    requires k < |flags|
    ensures Bit(WordOf(flags), k) == flags[k]
  {
    LowestBit(if flags[0] then 1 else 0, WordOf(flags[1..]));
    if k == 0 {
    } else {
      BitOfWord(flags[1..], k - 1);
    }
  }

  lemma {:induction false} WordBound(flags: seq<bool>)
    ensures WordOf(flags) < Pow2(|flags|)
  {
    if flags == [] {
    } else {
      WordBound(flags[1..]);
    }
  }

  lemma {:induction false} WordAppend(flags: seq<bool>, flag: bool)
    ensures WordOf(flags + [flag]) == WordOf(flags) + if flag then Pow2(|flags|) else 0
  {
    if flags == [] {
    } else {
      WordAppend(flags[1..], flag);
      assert (flags + [flag])[1..] == flags[1..] + [flag];
    }
  }

  function Chunk(size: nat): nat {
    if size < 64 then size else 64
  }

  /** The flags from `i` on, a word at a time. */
  function EncodeNullsFrom(flags: seq<bool>, i: nat): seq<byte>
    decreases |flags| - i
  {
    if i >= |flags| then []
    else LittleEndian(WordOf(flags[i..i + Chunk(|flags| - i)]), WORD_BYTES) + EncodeNullsFrom(flags, i + 64)
  }

  function EncodeNulls(flags: seq<bool>): seq<byte> {
    EncodeNullsFrom(flags, 0)
  }

  /** The flags of the lowest `n` bits. */
  function BitsOf(word: nat, n: nat): (flags: seq<bool>)
    ensures |flags| == n
  {
    seq(n, k requires 0 <= k < n => Bit(word, k))
  }

  /** What is decoded from the front of a byte sequence, and the bytes that are left. */
  datatype Decoded<T> = Decoded(value: T, rest: seq<byte>)

  function DecodeNulls(size: nat, bs: seq<byte>): Option<Decoded<seq<bool>>>
    decreases size
  {
    if size == 0 then Some(Decoded([], bs))
    else if |bs| < 8 then None
    else
      var more := DecodeNulls(size - Chunk(size), bs[8..]);
      if more.None? then None
      else Some(Decoded(BitsOf(Unsigned(bs[..8]), Chunk(size)) + more.value.value, more.value.rest))
  }

  lemma {:induction false} NullsHaveSize(size: nat, bs: seq<byte>)
    requires DecodeNulls(size, bs).Some?
    ensures |DecodeNulls(size, bs).value.value| == size
    decreases size
  {
    if size == 0 {
    } else {
      NullsHaveSize(size - Chunk(size), bs[8..]);
    }
  }

  lemma WordRoundTrip(flags: seq<bool>)
    requires |flags| <= 64
    ensures BitsOf(Unsigned(LittleEndian(WordOf(flags), WORD_BYTES)), |flags|) == flags
  {
    WordBound(flags);
    Pow2Monotone(|flags|, 64);
    UnsignedRoundTrip(WordOf(flags), 8);
    forall k | 0 <= k < |flags|
      ensures Bit(WordOf(flags), k) == flags[k]
    {
      BitOfWord(flags, k);
    }
  }

  lemma DecodeNextWord(size: nat, word: seq<byte>, tail: seq<byte>)
    requires size > 0 && |word| == 8 && DecodeNulls(size - Chunk(size), tail).Some?
    ensures var more := DecodeNulls(size - Chunk(size), tail).value;
            DecodeNulls(size, word + tail) == Some(Decoded(BitsOf(Unsigned(word), Chunk(size)) + more.value, more.rest))
  {
    assert (word + tail)[..8] == word && (word + tail)[8..] == tail;
  }

  lemma Reassociate(a: seq<byte>, b: seq<byte>, c: seq<byte>)
    ensures (a + b) + c == a + (b + c)
  {
  }

  lemma {:induction false} NullsRoundTripFrom(flags: seq<bool>, i: nat, rest: seq<byte>)
    requires i <= |flags|
    ensures DecodeNulls(|flags| - i, EncodeNullsFrom(flags, i) + rest) == Some(Decoded(flags[i..], rest))
    decreases |flags| - i
  {
    if i == |flags| {
      assert EncodeNullsFrom(flags, i) + rest == rest;
    } else {
      var end := i + Chunk(|flags| - i);
      var first, others := flags[i..end], flags[end..];
      var word, more := LittleEndian(WordOf(first), WORD_BYTES), EncodeNullsFrom(flags, end);
      NullsRoundTripFrom(flags, end, rest);
      WordRoundTrip(first);
      OneMoreWord(|flags| - i, first, others, word, more, rest);
      WordThenMore(flags, i);
    }
  }

  lemma SplitAt(flags: seq<bool>, i: nat, end: nat)
    requires i <= end <= |flags|
    ensures flags[i..] == flags[i..end] + flags[end..]
  {
  }

  lemma WordThenMore(flags: seq<bool>, i: nat)
    requires i < |flags|
    ensures var end := i + Chunk(|flags| - i);
            && EncodeNullsFrom(flags, i)
               == LittleEndian(WordOf(flags[i..end]), WORD_BYTES) + EncodeNullsFrom(flags, end)
            && flags[i..] == flags[i..end] + flags[end..]
  {
    SplitAt(flags, i, i + Chunk(|flags| - i));
    assert |flags| <= i + 64 ==> EncodeNullsFrom(flags, i + 64) == EncodeNullsFrom(flags, |flags|) == [];
  }

  lemma OneMoreWord(size: nat, first: seq<bool>, others: seq<bool>, word: seq<byte>, more: seq<byte>, rest: seq<byte>)
    requires size > 0 && |first| == Chunk(size) && |first| + |others| == size && |word| == WORD_BYTES
    requires BitsOf(Unsigned(word), |first|) == first
    requires DecodeNulls(|others|, more + rest) == Some(Decoded(others, rest))
    ensures DecodeNulls(size, (word + more) + rest) == Some(Decoded(first + others, rest))
  {
    DecodeNextWord(size, word, more + rest);
    Reassociate(word, more, rest);
  }

  lemma NullsRoundTrip(flags: seq<bool>, rest: seq<byte>)
    ensures DecodeNulls(|flags|, EncodeNulls(flags) + rest) == Some(Decoded(flags, rest))
  {
    NullsRoundTripFrom(flags, 0, rest);
    assert flags[0..] == flags;
  }

  // ------------------------------------------------------------------------------------------------
  // Encoding
  // ------------------------------------------------------------------------------------------------

  function NullFlags(vs: seq<Value>): (flags: seq<bool>)
    ensures |flags| == |vs|
  {
    seq(|vs|, i requires 0 <= i < |vs| => vs[i] == Null)
  }

  ghost function Encode(v: Value, t: Type): seq<byte>
    requires HasType(v, t)
    decreases t, 0
  {
    match t
    case IntType(width) => LittleEndian(v.num, width)
    case StringType => LittleEndian(|v.bytes|, SIZE_BYTES) + v.bytes
    case RowType(fields) => EncodeNulls(NullFlags(v.fields)) + EncodeFields(v, t, |fields|)
    case ArrayType(element) => EncodeArray(v.elements, element)
    case MapType(key, value) => EncodeArray(v.keys, key) + EncodeArray(v.values, value)
  }

  /** The first `n` fields of a row; nulls take no bytes. */
  ghost function EncodeFields(v: Value, t: Type, n: nat): seq<byte>
    requires t.RowType? && HasType(v, t) && n <= |t.fields|
    decreases t, 0, n
  {
    if n == 0 then []
    else EncodeFields(v, t, n - 1) + if v.fields[n - 1] == Null then [] else Encode(v.fields[n - 1], t.fields[n - 1])
  }

  ghost function EncodeArray(vs: seq<Value>, t: Type): seq<byte>
    requires AllHaveType(vs, t)
    decreases t, 2
  {
    LittleEndian(|vs|, SIZE_BYTES) + EncodeNulls(NullFlags(vs)) + EncodeElements(vs, t, |vs|)
  }

  ghost function EncodeElements(vs: seq<Value>, t: Type, n: nat): seq<byte>
    requires AllHaveType(vs, t) && n <= |vs|
    decreases t, 1, n
  {
    if n == 0 then []
    else EncodeElements(vs, t, n - 1) + if vs[n - 1] == Null then [] else Encode(vs[n - 1], t)
  }

  // ------------------------------------------------------------------------------------------------
  // Decoding
  // ------------------------------------------------------------------------------------------------

  function Decode(t: Type, bs: seq<byte>): Option<Decoded<Value>>
    decreases t, 0
  {
    match t
    case IntType(width) =>
      if 1 <= width <= |bs| then Some(Decoded(IntValue(Signed(bs[..width])), bs[width..])) else None
    case StringType =>
      if |bs| < 4 then None
      else
        var size := Signed(bs[..4]);
        if 0 <= size <= |bs| - 4 then Some(Decoded(StringValue(bs[4..4 + size]), bs[4 + size..])) else None
    case RowType(fields) =>
      var nulls := DecodeNulls(|fields|, bs);
      if nulls.None? then None
      else
        NullsHaveSize(|fields|, bs);
        var vs := DecodeFields(t, nulls.value.value, |fields|, nulls.value.rest);
        if vs.None? then None else Some(Decoded(RowValue(vs.value.value), vs.value.rest))
    case ArrayType(element) =>
      var vs := DecodeArray(element, bs);
      if vs.None? then None else Some(Decoded(ArrayValue(vs.value.value), vs.value.rest))
    case MapType(key, value) =>
      var ks := DecodeArray(key, bs);
      if ks.None? then None
      else
        var vs := DecodeArray(value, ks.value.rest);
        if vs.None? || |vs.value.value| != |ks.value.value| then None
        else Some(Decoded(MapValue(ks.value.value, vs.value.value), vs.value.rest))
  }

  function DecodeFields(t: Type, nulls: seq<bool>, n: nat, bs: seq<byte>): (d: Option<Decoded<seq<Value>>>)
    requires t.RowType? && n <= |nulls| == |t.fields|
    ensures d.Some? ==> |d.value.value| == n
    decreases t, 0, n
  {
    if n == 0 then Some(Decoded([], bs))
    else
      var before := DecodeFields(t, nulls, n - 1, bs);
      if before.None? then None
      else if nulls[n - 1] then Some(Decoded(before.value.value + [Null], before.value.rest))
      else
        var d := Decode(t.fields[n - 1], before.value.rest);
        if d.None? then None else Some(Decoded(before.value.value + [d.value.value], d.value.rest))
  }

  function DecodeArray(t: Type, bs: seq<byte>): Option<Decoded<seq<Value>>>
    decreases t, 2
  {
    if |bs| < 4 || Signed(bs[..4]) < 0 then None
    else
      var size: nat := Signed(bs[..4]);
      var nulls := DecodeNulls(size, bs[4..]);
      if nulls.None? then None
      else
        NullsHaveSize(size, bs[4..]);
        DecodeElements(t, nulls.value.value, size, nulls.value.rest)
  }

  function DecodeElements(t: Type, nulls: seq<bool>, n: nat, bs: seq<byte>): (d: Option<Decoded<seq<Value>>>)
    requires n <= |nulls|
    ensures d.Some? ==> |d.value.value| == n
    decreases t, 1, n
  {
    if n == 0 then Some(Decoded([], bs))
    else
      var before := DecodeElements(t, nulls, n - 1, bs);
      if before.None? then None
      else if nulls[n - 1] then Some(Decoded(before.value.value + [Null], before.value.rest))
      else
        var d := Decode(t, before.value.rest);
        if d.None? then None else Some(Decoded(before.value.value + [d.value.value], d.value.rest))
  }

  /** One more field: null, or decoded from where the others ended. */
  lemma NextField(
      t: Type, nulls: seq<bool>, n: nat, bs: seq<byte>, before: seq<Value>, mid: seq<byte>, v: Value,
      rest: seq<byte>)
    requires t.RowType? && 1 <= n <= |nulls| == |t.fields|
    requires DecodeFields(t, nulls, n - 1, bs) == Some(Decoded(before, mid))
    requires if nulls[n - 1] then v == Null && rest == mid else Decode(t.fields[n - 1], mid) == Some(Decoded(v, rest))
    ensures DecodeFields(t, nulls, n, bs) == Some(Decoded(before + [v], rest))
  {
  }

  lemma NextElement(
      t: Type, nulls: seq<bool>, n: nat, bs: seq<byte>, before: seq<Value>, mid: seq<byte>, v: Value,
      rest: seq<byte>)
    requires 1 <= n <= |nulls|
    requires DecodeElements(t, nulls, n - 1, bs) == Some(Decoded(before, mid))
    requires if nulls[n - 1] then v == Null && rest == mid else Decode(t, mid) == Some(Decoded(v, rest))
    ensures DecodeElements(t, nulls, n, bs) == Some(Decoded(before + [v], rest))
  {
  }

  // ------------------------------------------------------------------------------------------------
  // The round trip
  // ------------------------------------------------------------------------------------------------

  /** Decoding an encoded value returns it and consumes exactly its bytes, whatever follows. */
  lemma {:induction false} RoundTrip(v: Value, t: Type, rest: seq<byte>)
    requires HasType(v, t)
    ensures Decode(t, Encode(v, t) + rest) == Some(Decoded(v, rest))
    decreases t, 0
  {
    match t
    case IntType(width) =>
      IntRoundTrip(v.num, width, rest);
    case StringType =>
      StringRoundTrip(v.bytes, rest);
    case RowType(fields) =>
      FieldsRoundTrip(v, t, |fields|, rest);
      RowRoundTrip(v, t, rest);
    case ArrayType(element) =>
      ArrayRoundTrip(v.elements, element, rest);
    case MapType(key, value) =>
      Reassociate(EncodeArray(v.keys, key), EncodeArray(v.values, value), rest);
      ArrayRoundTrip(v.keys, key, EncodeArray(v.values, value) + rest);
      ArrayRoundTrip(v.values, value, rest);
  }

  lemma IntRoundTrip(x: int, width: nat, rest: seq<byte>)
    requires width >= 1 && FitsSigned(x, width)
    ensures Decode(IntType(width), LittleEndian(x, width) + rest) == Some(Decoded(IntValue(x), rest))
  {
    var bs := LittleEndian(x, width) + rest;
    SignedRoundTrip(x, width);
    assert bs[..width] == LittleEndian(x, width) && bs[width..] == rest;
  }

  lemma RowRoundTrip(v: Value, t: Type, rest: seq<byte>)
    requires t.RowType? && HasType(v, t)
    requires DecodeFields(t, NullFlags(v.fields), |t.fields|, EncodeFields(v, t, |t.fields|) + rest)
        == Some(Decoded(v.fields[..|t.fields|], rest))
    ensures Decode(t, Encode(v, t) + rest) == Some(Decoded(v, rest))
  {
    var flags, fields := NullFlags(v.fields), EncodeFields(v, t, |t.fields|);
    Reassociate(EncodeNulls(flags), fields, rest);
    NullsRoundTrip(flags, fields + rest);
    assert v.fields[..|t.fields|] == v.fields;
  }

  lemma StringRoundTrip(s: seq<byte>, rest: seq<byte>)
    requires |s| < MAX_SIZE
    ensures Decode(StringType, (LittleEndian(|s|, SIZE_BYTES) + s) + rest) == Some(Decoded(StringValue(s), rest))
  {
    var bs := (LittleEndian(|s|, SIZE_BYTES) + s) + rest;
    Fits32(|s|);
    SignedRoundTrip(|s|, 4);
    assert bs[..4] == LittleEndian(|s|, SIZE_BYTES);
    assert bs[4..4 + |s|] == s && bs[4 + |s|..] == rest;
  }

  lemma {:induction false} FieldsRoundTrip(v: Value, t: Type, n: nat, rest: seq<byte>)
    requires t.RowType? && HasType(v, t) && n <= |t.fields|
    ensures DecodeFields(t, NullFlags(v.fields), n, EncodeFields(v, t, n) + rest) == Some(Decoded(v.fields[..n], rest))
    decreases t, 0, n
  {
    if n == 0 {
      assert EncodeFields(v, t, n) + rest == rest;
    } else {
      var field := v.fields[n - 1];
      var last := if field == Null then [] else Encode(field, t.fields[n - 1]);
      FieldsRoundTrip(v, t, n - 1, last + rest);
      if field != Null {
        RoundTrip(field, t.fields[n - 1], rest);
      }
      AppendField(t, v.fields, n, EncodeFields(v, t, n - 1), last, rest);
    }
  }

  lemma AppendField(t: Type, vs: seq<Value>, n: nat, before: seq<byte>, last: seq<byte>, rest: seq<byte>)
    requires t.RowType? && 1 <= n <= |vs| == |t.fields|
    requires DecodeFields(t, NullFlags(vs), n - 1, before + (last + rest)) == Some(Decoded(vs[..n - 1], last + rest))
    requires vs[n - 1] == Null ==> last == []
    requires vs[n - 1] != Null ==> Decode(t.fields[n - 1], last + rest) == Some(Decoded(vs[n - 1], rest))
    ensures DecodeFields(t, NullFlags(vs), n, (before + last) + rest) == Some(Decoded(vs[..n], rest))
  {
    Reassociate(before, last, rest);
    if vs[n - 1] == Null {
      assert last + rest == rest;
    }
    NextField(t, NullFlags(vs), n, before + (last + rest), vs[..n - 1], last + rest, vs[n - 1], rest);
    assert vs[..n] == vs[..n - 1] + [vs[n - 1]];
  }

  lemma {:induction false} ArrayRoundTrip(vs: seq<Value>, t: Type, rest: seq<byte>)
    requires AllHaveType(vs, t)
    ensures DecodeArray(t, EncodeArray(vs, t) + rest) == Some(Decoded(vs, rest))
    decreases t, 2
  {
    ElementsRoundTrip(vs, t, |vs|, rest);
    assert vs[..|vs|] == vs;
    SizeAndNulls(vs, EncodeElements(vs, t, |vs|), rest);
  }

  lemma SizeFirst(n: nat, tail: seq<byte>)
    requires n < MAX_SIZE
    ensures var bs := LittleEndian(n, SIZE_BYTES) + tail;
            |bs| >= 4 && Signed(bs[..4]) == n && bs[4..] == tail
  {
    var bs := LittleEndian(n, SIZE_BYTES) + tail;
    Fits32(n);
    SignedRoundTrip(n, 4);
    assert bs[..4] == LittleEndian(n, SIZE_BYTES);
  }

  /** The size and the null flags of an array come back, followed by the elements. */
  lemma SizeAndNulls(vs: seq<Value>, elements: seq<byte>, rest: seq<byte>)
    requires |vs| < MAX_SIZE
    ensures var bs := LittleEndian(|vs|, SIZE_BYTES) + EncodeNulls(NullFlags(vs)) + elements + rest;
            && |bs| >= 4 && Signed(bs[..4]) == |vs|
            && DecodeNulls(|vs|, bs[4..]) == Some(Decoded(NullFlags(vs), elements + rest))
  {
    var size, nulls := LittleEndian(|vs|, SIZE_BYTES), EncodeNulls(NullFlags(vs));
    Reassociate(size + nulls, elements, rest);
    Reassociate(size, nulls, elements + rest);
    SizeFirst(|vs|, nulls + (elements + rest));
    NullsRoundTrip(NullFlags(vs), elements + rest);
  }

  lemma {:induction false} ElementsRoundTrip(vs: seq<Value>, t: Type, n: nat, rest: seq<byte>)
    requires AllHaveType(vs, t) && n <= |vs|
    ensures DecodeElements(t, NullFlags(vs), n, EncodeElements(vs, t, n) + rest) == Some(Decoded(vs[..n], rest))
    decreases t, 1, n
  {
    if n == 0 {
      assert EncodeElements(vs, t, n) + rest == rest;
    } else {
      var v := vs[n - 1];
      var last := if v == Null then [] else Encode(v, t);
      ElementsRoundTrip(vs, t, n - 1, last + rest);
      if v != Null {
        RoundTrip(v, t, rest);
      }
      AppendElement(t, vs, n, EncodeElements(vs, t, n - 1), last, rest);
    }
  }

  lemma AppendElement(t: Type, vs: seq<Value>, n: nat, before: seq<byte>, last: seq<byte>, rest: seq<byte>)
    requires 1 <= n <= |vs|
    requires DecodeElements(t, NullFlags(vs), n - 1, before + (last + rest)) == Some(Decoded(vs[..n - 1], last + rest))
    requires if vs[n - 1] == Null then last == [] else Decode(t, last + rest) == Some(Decoded(vs[n - 1], rest))
    ensures DecodeElements(t, NullFlags(vs), n, (before + last) + rest) == Some(Decoded(vs[..n], rest))
  {
    Reassociate(before, last, rest);
    if vs[n - 1] == Null {
      assert last + rest == rest;
    }
    NextElement(t, NullFlags(vs), n, before + (last + rest), vs[..n - 1], last + rest, vs[n - 1], rest);
    assert vs[..n] == vs[..n - 1] + [vs[n - 1]];
  }

  /** No encoding is the beginning of another, so values can be written one after the other. */
  lemma PrefixFree(v: Value, w: Value, t: Type, rest: seq<byte>)
    requires HasType(v, t) && HasType(w, t)
    requires Encode(w, t) == Encode(v, t) + rest
    ensures v == w && rest == []
  {
    RoundTrip(v, t, rest);
    RoundTrip(w, t, []);
    assert Encode(w, t) + [] == Encode(w, t);
  }
}
