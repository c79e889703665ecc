/** Where each part of an encoded value is. */
module SerdeLayouts {
  import opened Powers
  import opened SerdeValues

  // ------------------------------------------------------------------------------------------------
  // Integers
  // ------------------------------------------------------------------------------------------------

  lemma IntQuotient(x: int, d: nat, q: int, r: nat)
    requires d > 0 && r < d && x == d * q + r
    ensures x / d == q
  {
    var k := x / d - q;
    assert x == d * (x / d) + x % d;
    assert d * k == d * (x / d) - d * q;
    if k != 0 {
      AtLeastOnce(d, k);
    }
  }

  lemma DivideTwice(x: int, a: nat, b: nat)
    requires a > 0 && b > 0
    ensures x / a / b == x / (a * b)
  {
    var q, r, s := x / a / b, x / a % b, x % a;
    assert x / a == b * q + r;
    assert x == a * (x / a) + s;
    assert a * (b * q + r) == (a * b) * q + a * r;
    assert a * r + s < a * b by {
      assert a * (r + 1) <= a * b;
    }
    IntQuotient(x, a * b, q, a * r + s);
  }

  /** Byte `k` of an integer has the weight 256 to the `k`. */
  lemma {:induction false} IntegerByte(x: int, width: nat, k: nat)
    requires k < width
    ensures LittleEndian(x, width)[k] == x / Pow2(8 * k) % 256
    decreases k
  {
    if k == 0 {
    } else {
      IntegerByte(x / 256, width - 1, k - 1);
      assert Pow2(8 * k) == 256 * Pow2(8 * (k - 1)) by {
        Pow2Add(8, 8 * (k - 1));
        assert Pow2(8) == 256;
      }
      DivideTwice(x, 256, Pow2(8 * (k - 1)));
    }
  }

  // ------------------------------------------------------------------------------------------------
  // Pieces one after the other
  // ------------------------------------------------------------------------------------------------

  /** `part` is in `whole` at position `at`. */
  ghost predicate IsAt(whole: seq<byte>, at: nat, part: seq<byte>) {
    at + |part| <= |whole| && whole[at..at + |part|] == part
  }

  ghost function Pieces(piece: nat -> seq<byte>, n: nat): seq<byte> {
    if n == 0 then [] else Pieces(piece, n - 1) + piece(n - 1)
  }

  /** How many bytes the first `n` pieces take. */
  ghost function SizeOf(piece: nat -> seq<byte>, n: nat): nat {
    if n == 0 then 0 else SizeOf(piece, n - 1) + |piece(n - 1)|
  }

  lemma {:induction false} PiecesTake(piece: nat -> seq<byte>, n: nat)
    ensures |Pieces(piece, n)| == SizeOf(piece, n)
  {
    if n == 0 {
    } else {
      PiecesTake(piece, n - 1);
    }
  }

  lemma {:induction false} PieceIsAt(piece: nat -> seq<byte>, i: nat, n: nat)
    requires i < n
    ensures IsAt(Pieces(piece, n), SizeOf(piece, i), piece(i))
    decreases n
  {
    PiecesTake(piece, n - 1);
    if n > i + 1 {
      PieceIsAt(piece, i, n - 1);
      StaysAt(Pieces(piece, n - 1), piece(n - 1), SizeOf(piece, i), piece(i));
    }
  }

  lemma StaysAt(whole: seq<byte>, more: seq<byte>, at: nat, part: seq<byte>)
    requires IsAt(whole, at, part)
    ensures IsAt(whole + more, at, part)
  {
    assert (whole + more)[at..at + |part|] == whole[at..at + |part|];
  }

  lemma IsBehind(front: seq<byte>, whole: seq<byte>, at: nat, part: seq<byte>)
    requires IsAt(whole, at, part)
    ensures IsAt(front + whole, |front| + at, part)
  {
    assert (front + whole)[|front| + at..|front| + at + |part|] == whole[at..at + |part|];
  }

  lemma ByteOfPart(whole: seq<byte>, at: nat, part: seq<byte>, m: nat)
    requires IsAt(whole, at, part) && m < |part|
    ensures at + m < |whole| && whole[at + m] == part[m]
  {
    assert whole[at..at + |part|][m] == part[m];
  }

  // ------------------------------------------------------------------------------------------------
  // Null flags
  // ------------------------------------------------------------------------------------------------

  /** Word `k` of the flags. */
  ghost function WordBytes(flags: seq<bool>): nat -> seq<byte> {
    (k: nat) => LittleEndian(WordOf(FlagsOfWord(flags, k)), WORD_BYTES)
  }

  ghost function FlagsOfWord(flags: seq<bool>, k: nat): seq<bool> {
    if 64 * k >= |flags| then [] else flags[64 * k..64 * k + Chunk(|flags| - 64 * k)]
  }

  ghost function RestFrom(flags: seq<bool>): nat -> seq<byte> {
    (k: nat) => EncodeNullsFrom(flags, 64 * k)
  }

  ghost predicate TakesPiece(rest: nat -> seq<byte>, piece: nat -> seq<byte>, k: nat) {
    rest(k) == piece(k) + rest(k + 1)
  }

  lemma OneWord(flags: seq<bool>, k: nat)
    requires 64 * k < |flags|
    ensures TakesPiece(RestFrom(flags), WordBytes(flags), k)
  {
    WordThenMore(flags, 64 * k);
    if |flags| <= 64 * k + 64 {
      NothingAfter(flags, |flags|);
      NothingAfter(flags, 64 * k + 64);
    }
  }

  lemma NothingAfter(flags: seq<bool>, i: nat)
    requires i >= |flags|
    ensures EncodeNullsFrom(flags, i) == []
  {
  }

  lemma {:induction false} TakenPieces(rest: nat -> seq<byte>, piece: nat -> seq<byte>, n: nat)
    requires forall k: nat :: k < n ==> TakesPiece(rest, piece, k)
    ensures Pieces(piece, n) + rest(n) == rest(0)
  {
    if n == 0 {
    } else {
      TakenPieces(rest, piece, n - 1);
      assert TakesPiece(rest, piece, n - 1);
      MoveOver(piece, n, rest(n - 1), rest(n));
    }
  }

  lemma WordsOfFlags(flags: seq<bool>, n: nat)
    requires n == 0 || 64 * (n - 1) < |flags|
    ensures Pieces(WordBytes(flags), n) + RestFrom(flags)(n) == EncodeNulls(flags)
  {
    forall k: nat | k < n
      ensures TakesPiece(RestFrom(flags), WordBytes(flags), k)
    {
      OneWord(flags, k);
    }
    TakenPieces(RestFrom(flags), WordBytes(flags), n);
  }

  /** The next piece may be taken from the rest. */
  lemma MoveOver(piece: nat -> seq<byte>, k: nat, rest: seq<byte>, rest': seq<byte>)
    requires k > 0 && rest == piece(k - 1) + rest'
    ensures Pieces(piece, k) + rest' == Pieces(piece, k - 1) + rest
  {
    Reassociate(Pieces(piece, k - 1), piece(k - 1), rest');
  }

  lemma {:induction false} WordsSize(flags: seq<bool>, k: nat)
    ensures SizeOf(WordBytes(flags), k) == 8 * k
  {
    if k == 0 {
    } else {
      WordsSize(flags, k - 1);
    }
  }

  lemma WordIsAt(flags: seq<bool>, k: nat)
    requires 64 * k < |flags|
    ensures IsAt(EncodeNulls(flags), 8 * k, WordBytes(flags)(k))
  {
    WordsOfFlags(flags, k + 1);
    PieceIsAt(WordBytes(flags), k, k + 1);
    WordsSize(flags, k);
    StaysAt(Pieces(WordBytes(flags), k + 1), RestFrom(flags)(k + 1), 8 * k, WordBytes(flags)(k));
  }

  lemma {:induction false} BitOfLow(x: nat, k: nat, b: nat)
    requires b < k
    ensures Bit(x % Pow2(k), b) == Bit(x, b)
    decreases b
  {
    HalfThenPower(x, Pow2(k - 1));
    LowestBit(x % 2, x / 2 % Pow2(k - 1));
    if b == 0 {
    } else {
      BitOfLow(x / 2, k - 1, b - 1);
    }
  }

  lemma {:induction false} BitShifted(x: nat, n: nat, k: nat)
    ensures Bit(x, n + k) == Bit(ShiftRight(x, n), k)
    decreases n
  {
    if n == 0 {
    } else {
      BitShifted(x / 2, n - 1, k);
    }
  }

  lemma ByteOfShifted(x: nat, width: nat, m: nat)
    requires m < width
    ensures LittleEndian(x, width)[m] == ShiftRight(x, 8 * m) % 256
  {
    IntegerByte(x, width, m);
    ShiftIsDivision(x, 8 * m);
  }

  lemma BitOfByte(x: nat, width: nat, m: nat, b: nat)
    requires m < width && b < 8
    ensures Bit(LittleEndian(x, width)[m], b) == Bit(x, 8 * m + b)
  {
    var y := ShiftRight(x, 8 * m);
    ByteOfShifted(x, width, m);
    BitShifted(x, 8 * m, b);
    LowByteBit(y, b);
  }

  lemma LowByteBit(y: nat, b: nat)
    requires b < 8
    ensures Bit(y % 256, b) == Bit(y, b)
  {
    assert Pow2(8) == 256;
    BitOfLow(y, 8, b);
  }

  lemma WordBit(word: seq<bool>, m: nat, b: nat)
    requires m < 8 && b < 8 && 8 * m + b < |word|
    ensures Bit(LittleEndian(WordOf(word), WORD_BYTES)[m], b) == word[8 * m + b]
  {
    BitOfWord(word, 8 * m + b);
    BitOfByte(WordOf(word), WORD_BYTES, m, b);
  }

  /** Flag `64 * k + 8 * m + b` is bit `b`, from the lowest, of byte `m` of word `k`. */
  lemma NullBit(flags: seq<bool>, k: nat, m: nat, b: nat)
    requires m < 8 && b < 8 && 64 * k + (8 * m + b) < |flags|
    ensures 8 * k + m < |EncodeNulls(flags)| && Bit(EncodeNulls(flags)[8 * k + m], b) == flags[64 * k + (8 * m + b)]
  {
    WordIsAt(flags, k);
    WordBit(FlagsOfWord(flags, k), m, b);
    ByteOfPart(EncodeNulls(flags), 8 * k, WordBytes(flags)(k), m);
  }

  /** There are no bytes but those of the words. */
  lemma NullsSize(flags: seq<bool>, k: nat)
    requires 64 * k >= |flags| && (k == 0 || 64 * (k - 1) < |flags|)
    ensures |EncodeNulls(flags)| == 8 * k
  {
    WordsOfFlags(flags, k);
    WordsSize(flags, k);
    PiecesTake(WordBytes(flags), k);
  }

  // ------------------------------------------------------------------------------------------------
  // Nested values
  // ------------------------------------------------------------------------------------------------

  /** The bytes of a field; nulls take none. */
  ghost function FieldBytes(v: Value, t: Type): nat -> seq<byte>
    requires t.RowType? && HasType(v, t)
  {
    (i: nat) => if i >= |t.fields| || v.fields[i] == Null then [] else Encode(v.fields[i], t.fields[i])
  }

  ghost function ElementBytes(vs: seq<Value>, t: Type): nat -> seq<byte>
    requires AllHaveType(vs, t)
  {
    (i: nat) => if i >= |vs| || vs[i] == Null then [] else Encode(vs[i], t)
  }

  ghost predicate AddsPiece(f: nat -> seq<byte>, piece: nat -> seq<byte>, i: nat) {
    f(i + 1) == f(i) + piece(i)
  }

  lemma {:induction false} PiecesByStep(f: nat -> seq<byte>, piece: nat -> seq<byte>, n: nat)
    requires f(0) == [] && forall i: nat :: i < n ==> AddsPiece(f, piece, i)
    ensures f(n) == Pieces(piece, n)
  {
    if n == 0 {
    } else {
      PiecesByStep(f, piece, n - 1);
      assert AddsPiece(f, piece, n - 1);
    }
  }

  ghost function FieldsUpTo(v: Value, t: Type): nat -> seq<byte>
    requires t.RowType? && HasType(v, t)
  {
    (n: nat) => if n <= |t.fields| then EncodeFields(v, t, n) else []
  }

  ghost function ElementsUpTo(vs: seq<Value>, t: Type): nat -> seq<byte>
    requires AllHaveType(vs, t)
  {
    (n: nat) => if n <= |vs| then EncodeElements(vs, t, n) else []
  }

  lemma OneMoreField(v: Value, t: Type, i: nat)
    requires t.RowType? && HasType(v, t) && i < |t.fields|
    ensures AddsPiece(FieldsUpTo(v, t), FieldBytes(v, t), i)
  {
  }

  lemma OneMoreElement(vs: seq<Value>, t: Type, i: nat)
    requires AllHaveType(vs, t) && i < |vs|
    ensures AddsPiece(ElementsUpTo(vs, t), ElementBytes(vs, t), i)
  {
    ElementAppended(vs, t, i);
  }

  lemma ElementAppended(vs: seq<Value>, t: Type, i: nat)
    requires AllHaveType(vs, t) && i < |vs|
    ensures EncodeElements(vs, t, i + 1) == EncodeElements(vs, t, i) + ElementBytes(vs, t)(i)
  {
  }

  lemma FieldsArePieces(v: Value, t: Type)
    requires t.RowType? && HasType(v, t)
    ensures EncodeFields(v, t, |t.fields|) == Pieces(FieldBytes(v, t), |t.fields|)
  {
    forall i: nat | i < |t.fields|
      ensures AddsPiece(FieldsUpTo(v, t), FieldBytes(v, t), i)
    {
      OneMoreField(v, t, i);
    }
    PiecesByStep(FieldsUpTo(v, t), FieldBytes(v, t), |t.fields|);
  }

  lemma ElementsArePieces(vs: seq<Value>, t: Type)
    requires AllHaveType(vs, t)
    ensures EncodeElements(vs, t, |vs|) == Pieces(ElementBytes(vs, t), |vs|)
  {
    forall i: nat | i < |vs|
      ensures AddsPiece(ElementsUpTo(vs, t), ElementBytes(vs, t), i)
    {
      OneMoreElement(vs, t, i);
    }
    PiecesByStep(ElementsUpTo(vs, t), ElementBytes(vs, t), |vs|);
  }

  lemma FrontThenPiece(front: seq<byte>, piece: nat -> seq<byte>, whole: seq<byte>, i: nat, n: nat)
    requires i < n && whole == front + Pieces(piece, n)
    ensures IsAt(whole, 0, front) && IsAt(whole, |front| + SizeOf(piece, i), piece(i))
  {
    assert whole[0..|front|] == front;
    PieceIsAt(piece, i, n);
    IsBehind(front, Pieces(piece, n), SizeOf(piece, i), piece(i));
  }

  /** A row: the null flags, and behind them the fields in order. */
  lemma RowLayout(v: Value, t: Type, i: nat)
    requires t.RowType? && HasType(v, t) && i < |t.fields|
    ensures var nulls := EncodeNulls(NullFlags(v.fields));
            && IsAt(Encode(v, t), 0, nulls)
            && IsAt(Encode(v, t), |nulls| + SizeOf(FieldBytes(v, t), i), FieldBytes(v, t)(i))
  {
    FieldsArePieces(v, t);
    FrontThenPiece(EncodeNulls(NullFlags(v.fields)), FieldBytes(v, t), Encode(v, t), i, |t.fields|);
  }

  /** The size of an array, in four bytes, and its null flags. */
  ghost function ArrayFront(vs: seq<Value>): seq<byte> {
    LittleEndian(|vs|, SIZE_BYTES) + EncodeNulls(NullFlags(vs))
  }

  lemma ArrayParts(vs: seq<Value>, t: Type)
    requires AllHaveType(vs, t)
    ensures EncodeArray(vs, t) == ArrayFront(vs) + Pieces(ElementBytes(vs, t), |vs|)
  {
    ElementsArePieces(vs, t);
  }

  /** An array: its front, and behind that the elements in order. */
  lemma ArrayLayout(vs: seq<Value>, t: Type, i: nat)
    requires AllHaveType(vs, t) && i < |vs|
    ensures IsAt(EncodeArray(vs, t), 0, ArrayFront(vs))
    ensures IsAt(EncodeArray(vs, t), |ArrayFront(vs)| + SizeOf(ElementBytes(vs, t), i), ElementBytes(vs, t)(i))
  {
    ArrayParts(vs, t);
    FrontThenPiece(ArrayFront(vs), ElementBytes(vs, t), EncodeArray(vs, t), i, |vs|);
  }

  /** A map: the array of its keys and then that of its values. A string: its size and its bytes. */
  lemma MapAndStringLayout(v: Value, t: Type)
    requires HasType(v, t) && (t.MapType? || t.StringType?)
    ensures t.MapType? ==>
              var keys := EncodeArray(v.keys, t.key);
              IsAt(Encode(v, t), 0, keys) && IsAt(Encode(v, t), |keys|, EncodeArray(v.values, t.value))
    ensures t.StringType? ==>
              IsAt(Encode(v, t), 0, LittleEndian(|v.bytes|, SIZE_BYTES)) && IsAt(Encode(v, t), SIZE_BYTES, v.bytes)
  {
  }
}
