/** The bit-field partitioner that the build side and the probe side of a spilling join share. */
module HashBitRanges {
  import opened Powers

  /** Conversion of an unsigned value to a 32-bit two's complement integer. */
  function ToInt32(x: nat): (r: int)
    ensures x < 0x8000_0000 ==> r == x
    ensures -0x8000_0000 <= r < 0x8000_0000
  {
    var low := x % 0x1_0000_0000;
    if low < 0x8000_0000 then low else low - 0x1_0000_0000
  }

  datatype HashBitRange = HashBitRange(begin: nat, end: nat) {

    /** What the constructor checks. */
    predicate Valid() {
      begin <= end <= 64
    }

    function NumBits(): nat
      requires Valid()
    {
      end - begin
    }

    /** `1 << numBits()` in 32-bit arithmetic. The shift is undefined from 32 bits on; the value here is then
        what is left of the power in 32 bits, which is 0. */
    function NumPartitions(): int
      requires Valid()
    {
      ToInt32(Pow2(NumBits()))
    }

    /** The bits of `hash` in this range. */
    function Field(hash: nat): (f: nat)
      requires Valid()
      ensures f < Pow2(NumBits())
    {
      LowBits(ShiftRight(hash, begin), NumBits())
    }

    /** `partition(hash)`: the probe side and the input batches of the build side use this one. */
    function Partition(hash: nat): int
      requires Valid()
    {
      ToInt32(Field(hash))
    }

    /** `partition(hash, numPartitions)`: the rows already held by a build side use this one. */
    function PartitionBelow(hash: nat, numPartitions: int): int
      requires Valid()
    {
      var number := ToInt32(Field(hash));
      if number < numPartitions then number else -1
    }
  }

  /** The field is the hash without the bits below the range and without those above it. */
  lemma FieldMeans(range: HashBitRange, hash: nat)
    requires range.Valid()
    ensures range.Field(hash) == hash / Pow2(range.begin) % Pow2(range.end - range.begin)
  {
    ShiftIsDivision(hash, range.begin);
    LowBitsIsRemainder(ShiftRight(hash, range.begin), range.NumBits());
  }

  lemma {:induction false} Pow2Of31()
    ensures Pow2(30) == 0x4000_0000 && Pow2(31) == 0x8000_0000 && Pow2(32) == 0x1_0000_0000
  {
    assert Pow2(8) == 256;
    Pow2Add(8, 8);
    Pow2Add(16, 8);
    Pow2Add(24, 6);
  }

  /** For a range of at most 30 bits a partition number is a valid index, and the two forms of
      `partition` agree: rows spilled from memory, rows spilled from input and probe rows with the
      same hash all land in the same partition. */
  lemma PartitionFormsAgree(range: HashBitRange, hash: nat)
    requires range.Valid() && range.NumBits() <= 30
    ensures range.NumPartitions() == Pow2(range.NumBits())
    ensures 0 <= range.Partition(hash) == range.Field(hash) < range.NumPartitions()
    ensures range.PartitionBelow(hash, range.NumPartitions()) == range.Partition(hash)
  {
    Pow2Of31();
    Pow2Monotone(range.NumBits(), 30);
  }

  lemma {:induction false} FieldOfZero(begin: nat, width: nat)
    ensures LowBits(ShiftRight(0, begin), width) == 0
    decreases begin, width
  {
    if begin > 0 {
      FieldOfZero(begin - 1, width);
    } else if width > 0 {
      FieldOfZero(0, width - 1);
    }
  }

  /** Beyond 30 bits the number of partitions overflows and is not positive. */
  lemma TooManyPartitions(range: HashBitRange)
    requires range.Valid() && range.NumBits() > 30
    ensures range.NumPartitions() <= 0
  {
    Pow2Of31();
    if range.NumBits() > 31 {
      var k := Pow2(range.NumBits() - 32);
      Pow2Add(32, range.NumBits() - 32);
      assert (0x1_0000_0000 * k) % 0x1_0000_0000 == 0;
    }
  }

  /** The two forms of `partition` agree for every hash if and only if the range has at most 30 bits. */
  lemma PartitionFormsAgreeIff(range: HashBitRange)
    requires range.Valid()
    ensures (forall hash: nat | hash < Pow2(64) ::
                range.PartitionBelow(hash, range.NumPartitions()) == range.Partition(hash))
       <==> range.NumBits() <= 30
  {
    if range.NumBits() <= 30 {
      forall hash: nat | hash < Pow2(64)
        ensures range.PartitionBelow(hash, range.NumPartitions()) == range.Partition(hash)
      {
        PartitionFormsAgree(range, hash);
      }
    } else {
      TooManyPartitions(range);
      FieldOfZero(range.begin, range.NumBits());
      assert range.PartitionBelow(0, range.NumPartitions()) == -1 && range.Partition(0) == 0;
    }
  }

  /** Some 64-bit hash has a negative partition number exactly when the range has more than 31 bits. */
  lemma PartitionNonNegativeIff(range: HashBitRange)
    requires range.Valid()
    ensures (forall hash: nat | hash < Pow2(64) :: range.Partition(hash) >= 0) <==> range.NumBits() <= 31
  {
    Pow2Of31();
    if range.NumBits() <= 31 {
      Pow2Monotone(range.NumBits(), 31);
    } else {
      var hash := NegativeWitness(range);
      assert hash < Pow2(64) && range.Partition(hash) < 0;
    }
  }

  /** Every single bit of a field is reached by some hash. */
  lemma FieldWitness(range: HashBitRange, k: nat) returns (hash: nat)
    requires range.Valid() && k < range.NumBits()
    ensures hash < Pow2(64) && range.Field(hash) == Pow2(k)
  {
    hash := Pow2(range.begin + k);
    Pow2Strict(range.begin + k, 64);
    Pow2Strict(k, range.NumBits());
    ShiftOfPow2(range.begin, k);
    LowBitsOfSmall(Pow2(k), range.NumBits());
  }

  lemma NegativeWitness(range: HashBitRange) returns (hash: nat)
    requires range.Valid() && range.NumBits() > 31
    ensures hash < Pow2(64) && range.Partition(hash) == -0x8000_0000
  {
    hash := FieldWitness(range, 31);
    Pow2Of31();
  }

  /** Two consecutive ranges of bits read disjoint parts of the hash: the number in the joint range
      has the outer number as its low part and the inner number as its high part. So re-partitioning
      a restored partition on the next range refines it. */
  lemma NestedRangesSplit(begin: nat, width: nat, nextWidth: nat, hash: nat)
    requires begin + width + nextWidth <= 64
    ensures var joint := HashBitRange(begin, begin + width + nextWidth).Field(hash);
            && LowBits(joint, width) == HashBitRange(begin, begin + width).Field(hash)
            && ShiftRight(joint, width) == HashBitRange(begin + width, begin + width + nextWidth).Field(hash)
  {
    var x := ShiftRight(hash, begin);
    assert HashBitRange(begin, begin + width + nextWidth).Field(hash) == LowBits(x, width + nextWidth);
    assert ShiftRight(hash, begin + width) == ShiftRight(x, width) by {
      ShiftTwice(hash, begin, width);
    }
    LowBitsSplit(x, width, nextWidth);
  }

  /** `HashPartitionFunction::partition` on the hashes of a batch: the bit field when a range is
      given, the remainder otherwise. */
  method PartitionBatch(hashes: array<nat>, range: HashBitRange, useRange: bool, numPartitions: nat)
    returns (partitions: array<int>)
    requires numPartitions > 0 && range.Valid()
    ensures fresh(partitions) && partitions.Length == hashes.Length
    ensures forall i :: 0 <= i < hashes.Length ==>
                          partitions[i] == if useRange then range.Partition(hashes[i])
                                           else hashes[i] % numPartitions
  {
    partitions := new int[hashes.Length];
    for i := 0 to hashes.Length
      invariant forall k :: 0 <= k < i ==>
                              partitions[k] == if useRange then range.Partition(hashes[k])
                                               else hashes[k] % numPartitions
    {
      partitions[i] := if useRange then range.Partition(hashes[i]) else hashes[i] % numPartitions;
    }
  }
}
