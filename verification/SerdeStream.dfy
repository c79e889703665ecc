/** The byte stream, and writing values to it. */
module SerdeStreams {
  import opened Options
  import opened Powers
  import opened SerdeValues
  import opened SerdeCanonicals
  import opened SerdeStoredValues

  /** `bytes` is what has been written and not yet read. The bytes lie in several ranges: when `n` bytes
      are left, `run(n)` of them are in the current one. */
  class ByteStream {
    var bytes: seq<byte>
    const run: nat -> nat

    constructor (bytes: seq<byte>, run: nat -> nat)
      ensures this.bytes == bytes && this.run == run
    {
      this.bytes, this.run := bytes, run;
    }

    method AppendOne(x: int, width: nat)
      modifies this
      ensures bytes == old(bytes) + LittleEndian(x, width)
    {
      bytes := bytes + LittleEndian(x, width);
    }

    method Append(more: seq<byte>)
      modifies this
      ensures bytes == old(bytes) + more
    {
      bytes := bytes + more;
    }

    method ReadSigned(width: nat) returns (x: int)
      requires 1 <= width <= |bytes|
      modifies this
      ensures x == Signed(old(bytes)[..width]) && bytes == old(bytes)[width..]
    {
      x := Signed(bytes[..width]);
      bytes := bytes[width..];
    }

    method ReadWord() returns (x: nat)
      requires 8 <= |bytes|
      modifies this
      ensures x == Unsigned(old(bytes)[..8]) && bytes == old(bytes)[8..]
    {
      x := Unsigned(bytes[..8]);
      bytes := bytes[8..];
    }

    method ReadBytes(size: nat) returns (view: seq<byte>)
      requires size <= |bytes|
      modifies this
      ensures view == old(bytes)[..size] && bytes == old(bytes)[size..]
    {
      view := bytes[..size];
      bytes := bytes[size..];
    }

    /** At most `size` bytes, and no more than the current range holds. */
    method NextView(size: nat) returns (view: seq<byte>)
      requires 1 <= size <= |bytes|
      modifies this
      ensures 1 <= |view| <= size && view == old(bytes)[..|view|] && bytes == old(bytes)[|view|..]
    {
      var n := if run(|bytes|) < 1 then 1 else if run(|bytes|) < size then run(|bytes|) else size;
      view := bytes[..n];
      bytes := bytes[n..];
    }
  }

  // ------------------------------------------------------------------------------------------------
  // Null flags
  // ------------------------------------------------------------------------------------------------

  /** The bits of one word. */
  method NullWord(vs: seq<Value>, i: nat, end: nat) returns (flags: nat)
    requires i + end <= |vs|
    ensures flags == WordOf(NullFlags(vs)[i..i + end])
  {
    ghost var all := NullFlags(vs);
    flags := 0;
    for bit := 0 to end
      invariant flags == WordOf(all[i..i + bit])
    {
      WordAppend(all[i..i + bit], all[i + bit]);
      assert all[i..i + bit + 1] == all[i..i + bit] + [all[i + bit]];
      if vs[i + bit] == Null {
        flags := flags + Pow2(bit);
      }
    }
  }

  /** `writeNulls`: a word for every 64 values, a bit for every null. */
  method WriteNulls(vs: seq<Value>, out: ByteStream)
    modifies out
    ensures out.bytes == old(out.bytes) + EncodeNulls(NullFlags(vs))
  {
    ghost var all := NullFlags(vs);
    var i := 0;
    while i < |vs|
      invariant out.bytes + EncodeNullsFrom(all, i) == old(out.bytes) + EncodeNulls(all)
    {
      var flags := NullWord(vs, i, if i + 64 < |vs| then 64 else |vs| - i);
      Reassociate(out.bytes, LittleEndian(flags, WORD_BYTES), EncodeNullsFrom(all, i + 64));
      out.AppendOne(flags, WORD_BYTES);
      i := i + 64;
    }
    assert out.bytes + [] == out.bytes;
  }

  /** `readNulls`, with the bits taken out of the words. */
  method ReadNulls(stream: ByteStream, size: nat) returns (flags: seq<bool>)
    requires DecodeNulls(size, stream.bytes).Some?
    modifies stream
    ensures DecodeNulls(size, old(stream.bytes)) == Some(Decoded(flags, stream.bytes))
    ensures |flags| == size
  {
    NullsHaveSize(size, stream.bytes);
    flags := [];
    var left: nat := size;
    assert [] + DecodeNulls(size, stream.bytes).value.value == DecodeNulls(size, stream.bytes).value.value;
    while left > 0
      invariant DecodeNulls(left, stream.bytes).Some?
      invariant var more := DecodeNulls(left, stream.bytes).value;
                DecodeNulls(size, old(stream.bytes)) == Some(Decoded(flags + more.value, more.rest))
    {
      ghost var before := DecodeNulls(left, stream.bytes).value.value;
      var word := stream.ReadWord();
      ghost var more := DecodeNulls(left - Chunk(left), stream.bytes).value.value;
      assert flags + before == (flags + BitsOf(word, Chunk(left))) + more;
      flags := flags + BitsOf(word, Chunk(left));
      left := left - Chunk(left);
    }
    assert flags + [] == flags;
  }

  // ------------------------------------------------------------------------------------------------
  // Serialization
  // ------------------------------------------------------------------------------------------------

  /** Appends a value to the stream. */
  method SerializeOne(v: Value, t: Type, out: ByteStream)
    requires RawType(v, t)
    modifies out
    ensures out.bytes == old(out.bytes) + Encode(Canonical(v, t), t)
    ensures exists w :: StoredAs(v, t, w) && HasType(w, t) && out.bytes == old(out.bytes) + Encode(w, t)
    decreases t, 1
  {
    CanonicalIsStored(v, t);
    match t
    case IntType(width) =>
      out.AppendOne(v.num, width);
    case StringType =>
      out.AppendOne(|v.bytes|, SIZE_BYTES);
      out.Append(v.bytes);
      Reassociate(old(out.bytes), LittleEndian(|v.bytes|, SIZE_BYTES), v.bytes);
    case RowType(_) =>
      SerializeRow(v, t, out);
    case ArrayType(element) =>
      SerializeArray(v.elements, element, out);
    case MapType(key, value) =>
      var keys := CanonicalAll(v.keys, key);
      var indices := SortedKeyIndices(keys, key, |keys|);
      CanonicalPermuted(v.keys, indices, key);
      CanonicalPermuted(v.values, indices, value);
      SerializeArray(Permuted(v.keys, indices), key, out);
      SerializeArray(Permuted(v.values, indices), value, out);
      Reassociate(old(out.bytes), EncodeArray(CanonicalAll(Permuted(v.keys, indices), key), key),
                  EncodeArray(CanonicalAll(Permuted(v.values, indices), value), value));
  }

  lemma CanonicalPermuted(vs: seq<Value>, indices: seq<nat>, t: Type)
    requires AllRaw(vs, t) && |indices| == |vs| && InRange(indices, |vs|)
    ensures AllRaw(Permuted(vs, indices), t)
    ensures CanonicalAll(Permuted(vs, indices), t) == Permuted(CanonicalAll(vs, t), indices)
  {
  }

  method FieldNulls(v: Value, t: Type) returns (nulls: seq<bool>)
    requires t.RowType? && RawType(v, t)
    ensures nulls == NullFlags(Canonical(v, t).fields)
  {
    nulls := [];
    for i := 0 to |t.fields|
      invariant |nulls| == i
      invariant forall k :: 0 <= k < i ==> nulls[k] == (Canonical(v, t).fields[k] == Null)
    {
      nulls := nulls + [i >= |v.fields| || NoValue(v.fields[i])];
    }
  }

  /** Fields that a row lacks are written as nulls. */
  method SerializeRow(v: Value, t: Type, out: ByteStream)
    requires t.RowType? && RawType(v, t)
    modifies out
    ensures out.bytes == old(out.bytes) + Encode(Canonical(v, t), t)
    decreases t, 0
  {
    ghost var c := Canonical(v, t);
    var nulls := FieldNulls(v, t);
    out.Append(EncodeNulls(nulls));
    ghost var start := out.bytes;
    for i := 0 to |v.fields|
      invariant out.bytes == start + EncodeFields(c, t, i)
    {
      NextFieldBytes(start, c, t, i);
      WrittenField(v, t, i);
      SerializeNext(v.fields[i], t.fields[i], nulls[i], out, c.fields[i]);
    }
    NoMoreFields(c, t, |v.fields|, |t.fields|);
    Reassociate(old(out.bytes), EncodeNulls(nulls), EncodeFields(c, t, |t.fields|));
  }

  lemma WrittenField(v: Value, t: Type, i: nat)
    requires t.RowType? && RawType(v, t) && i < |v.fields|
    ensures if NoValue(v.fields[i]) then Canonical(v, t).fields[i] == Null
            else RawType(v.fields[i], t.fields[i])
                 && Canonical(v, t).fields[i] == Canonical(v.fields[i], t.fields[i])
                 && Canonical(v, t).fields[i] != Null
  {
  }

  lemma {:induction false} NoMoreFields(c: Value, t: Type, n: nat, m: nat)
    requires t.RowType? && HasType(c, t) && n <= m <= |t.fields|
    requires forall i :: n <= i < m ==> c.fields[i] == Null
    ensures EncodeFields(c, t, m) == EncodeFields(c, t, n)
    decreases m
  {
    if n == m {
    } else {
      NoMoreFields(c, t, n, m - 1);
      assert EncodeFields(c, t, m) == EncodeFields(c, t, m - 1) + [];
    }
  }

  /** A child or an element, unless it is null. */
  method SerializeNext(v: Value, t: Type, isNull: bool, out: ByteStream, ghost c: Value)
    requires if isNull then c == Null else RawType(v, t) && c == Canonical(v, t)
    modifies out
    ensures out.bytes == old(out.bytes) + if c == Null then [] else Encode(c, t)
    decreases t, 2
  {
    if isNull {
      assert out.bytes + [] == out.bytes;
    } else {
      SerializeOne(v, t, out);
    }
  }

  /** The elements at the positions of a range or of a list of indices. */
  method SerializeArray(vs: seq<Value>, t: Type, out: ByteStream)
    requires AllRaw(vs, t)
    modifies out
    ensures out.bytes == old(out.bytes) + EncodeArray(CanonicalAll(vs, t), t)
    decreases t, 4
  {
    ghost var cs := CanonicalAll(vs, t);
    out.AppendOne(|vs|, SIZE_BYTES);
    WriteNulls(vs, out);
    assert NullFlags(cs) == NullFlags(vs);
    SerializeElements(vs, t, out);
    ghost var size, nulls := LittleEndian(|vs|, SIZE_BYTES), EncodeNulls(NullFlags(vs));
    Reassociate(old(out.bytes), size, nulls);
    Reassociate(old(out.bytes), size + nulls, EncodeElements(cs, t, |vs|));
  }

  method SerializeElements(vs: seq<Value>, t: Type, out: ByteStream)
    requires AllRaw(vs, t)
    modifies out
    ensures out.bytes == old(out.bytes) + EncodeElements(CanonicalAll(vs, t), t, |vs|)
    decreases t, 3
  {
    ghost var cs, start := CanonicalAll(vs, t), out.bytes;
    for i := 0 to |vs|
      invariant out.bytes == start + EncodeElements(cs, t, i)
    {
      NextElementBytes(start, cs, t, i);
      SerializeNext(vs[i], t, vs[i] == Null, out, cs[i]);
    }
  }

  /** The bytes of one more element. */
  lemma NextElementBytes(start: seq<byte>, cs: seq<Value>, t: Type, i: nat)
    requires AllHaveType(cs, t) && i < |cs|
    ensures start + EncodeElements(cs, t, i + 1)
         == start + EncodeElements(cs, t, i) + if cs[i] == Null then [] else Encode(cs[i], t)
  {
    Reassociate(start, EncodeElements(cs, t, i), if cs[i] == Null then [] else Encode(cs[i], t));
  }

  lemma NextFieldBytes(start: seq<byte>, c: Value, t: Type, i: nat)
    requires t.RowType? && HasType(c, t) && i < |t.fields|
    ensures start + EncodeFields(c, t, i + 1)
         == start + EncodeFields(c, t, i) + if c.fields[i] == Null then [] else Encode(c.fields[i], t.fields[i])
  {
    Reassociate(start, EncodeFields(c, t, i), if c.fields[i] == Null then [] else Encode(c.fields[i], t.fields[i]));
  }
}
