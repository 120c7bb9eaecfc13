/** TUSChunk: a chunk size given as a count of units. */
module TusChunk {

  const Int64Min: int := -0x8000_0000_0000_0000
  const Int64Max: int := 0x7FFF_FFFF_FFFF_FFFF

  datatype ChunkUnit = Byte | Kibibyte | Mebibyte

  /** The unit's `rawValue`, in bytes. */
  function Multiplier(u: ChunkUnit): nat {
    match u
    case Byte => 1
    case Kibibyte => 1024
    case Mebibyte => 1048576
  }

  datatype Chunk = Chunk(size: int, unit: ChunkUnit)

  /** Swift's `Int` multiplication traps unless the product fits in 64 bits. */
  predicate ValueFits(c: Chunk) {
    Int64Min <= c.size * Multiplier(c.unit) <= Int64Max
  }

  /** `value`: the chunk size in bytes, a whole number of units. */
  function Value(c: Chunk): (bytes: int)
    requires ValueFits(c)
    ensures bytes % Multiplier(c.unit) == 0
    ensures bytes / Multiplier(c.unit) == c.size
  {
    WholeUnits(c.size, Multiplier(c.unit));
    c.size * Multiplier(c.unit)
  }

  lemma WholeUnits(n: int, m: nat)
    requires m > 0
    ensures (n * m) % m == 0 && (n * m) / m == n
  {
    var q, r := (n * m) / m, (n * m) % m;
    var d := n - q;
    assert d * m == n * m - q * m by { MulSub(n, q, m); }
    assert d * m == r;
    if d > 0 {
      MulAtLeast(d, m);
    }
  }

  lemma MulSub(a: int, b: int, m: int)
    ensures (a - b) * m == a * m - b * m
  {
  }

  lemma MulAtLeast(d: int, m: nat)
    requires d >= 1
    ensures d * m >= m
  {
    assert d * m == (d - 1) * m + m;
    assert (d - 1) * m >= 0;
  }

  /** The unit multipliers: one byte, 1024 bytes, and 1024 kibibytes. */
  lemma UnitMultipliers()
    ensures Multiplier(Byte) == 1
    ensures Multiplier(Kibibyte) == 1024
    ensures Multiplier(Mebibyte) == Multiplier(Kibibyte) * Multiplier(Kibibyte)
  {
  }

  lemma ByteValue(s: int)
    requires ValueFits(Chunk(s, Byte))
    ensures Value(Chunk(s, Byte)) == s
  {
  }

  /** `s` kibibytes are `1024 * s` bytes, whenever the kibibyte value exists. */
  lemma KibibytesAsBytes(s: int)
    requires ValueFits(Chunk(s, Kibibyte))
    ensures ValueFits(Chunk(1024 * s, Byte))
    ensures Value(Chunk(s, Kibibyte)) == Value(Chunk(1024 * s, Byte))
  {
  }

  /** `s` mebibytes are `1024 * s` kibibytes, whenever the mebibyte value exists. */
  lemma MebibytesAsKibibytes(s: int)
    requires ValueFits(Chunk(s, Mebibyte))
    ensures ValueFits(Chunk(1024 * s, Kibibyte))
    ensures Value(Chunk(s, Mebibyte)) == Value(Chunk(1024 * s, Kibibyte))
  {
  }

  /** For a fixed unit, more units never give fewer bytes, and a positive count gives positive bytes. */
  lemma ValueMonotone(s: int, t: int, u: ChunkUnit)
    requires s <= t
    requires ValueFits(Chunk(s, u)) && ValueFits(Chunk(t, u))
    ensures Value(Chunk(s, u)) <= Value(Chunk(t, u))
    ensures s > 0 ==> Value(Chunk(s, u)) >= s > 0
  {
    var m := Multiplier(u);
    assert (t - s) * m >= 0;
    if s > 0 {
      assert s * m >= s * 1;
    }
  }
}
