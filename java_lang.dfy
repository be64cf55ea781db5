/** The pieces of the Java platform the model leans on: references that may be
    `null`, 32-bit `int` arithmetic, `BigDecimal.compareTo` on exact amounts, and
    the hash functions behind `Objects.hash`. */
module JavaLang {

  /** A Java reference that may be `null`. */
  datatype Option<+T> = None | Some(value: T)

  const TWO_POW_32: int := 0x1_0000_0000
  const INT_MIN: int := -0x8000_0000
  const INT_MAX: int := 0x7fff_ffff

  /** Whether `x` fits a Java `int`. */
  predicate IsInt(x: int) {
    INT_MIN <= x <= INT_MAX
  }

  /** The Java `int` that arithmetic producing `x` yields: two's-complement
      wrap-around modulo 2^32. */
  function Wrap(x: int): (r: int)
    ensures IsInt(r)
    ensures (r - x) % TWO_POW_32 == 0
    ensures IsInt(x) ==> r == x
  {
    var y := x - INT_MIN;
    assert y == (y / TWO_POW_32) * TWO_POW_32 + y % TWO_POW_32;
    y % TWO_POW_32 + INT_MIN
  }

  /** `BigDecimal.compareTo` on two exact amounts: -1, 0 or 1. */
  function CompareTo(a: int, b: int): (r: int)
    ensures -1 <= r <= 1
    ensures r < 0 <==> a < b
    ensures r > 0 <==> a > b
  {
    if a < b then -1 else if a == b then 0 else 1
  }

  /** The UTF-16 code units Java stores for `s`: a character outside the Basic
      Multilingual Plane becomes a high and a low surrogate. */
  function Utf16(s: string): (units: seq<int>)
    ensures |s| <= |units| <= 2 * |s|
    ensures forall k :: 0 <= k < |units| ==> 0 <= units[k] <= 0xFFFF
    ensures (forall k :: 0 <= k < |s| ==> s[k] as int <= 0xFFFF) ==> |units| == |s|
  {
    if s == [] then []
    else
      var c := s[|s| - 1] as int;
      Utf16(s[..|s| - 1])
        + (if c <= 0xFFFF then [c] else [0xD800 + (c - 0x10000) / 0x400, 0xDC00 + (c - 0x10000) % 0x400])
  }

  /** The polynomial u[0]*31^(n-1) + ... + u[n-1] in `int` arithmetic. */
  function UnitsHash(units: seq<int>): (h: int)
    ensures IsInt(h)
  {
    if units == [] then 0 else Wrap(31 * UnitsHash(units[..|units| - 1]) + units[|units| - 1])
  }

  /** `String.hashCode`, taken over the string's UTF-16 code units. */
  function StringHashCode(s: string): (h: int)
    ensures IsInt(h)
  {
    UnitsHash(Utf16(s))
  }

  /** A character outside the Basic Multilingual Plane counts as its two
      surrogates: U+1F600 hashes as 31 * 0xD83D + 0xDE00. */
  lemma SupplementaryCharHashesAsSurrogatePair()
    ensures Utf16("\U{1F600}") == [0xD83D, 0xDE00]
    ensures StringHashCode("\U{1F600}") == 31 * 0xD83D + 0xDE00
  {
    assert Utf16("\U{1F600}"[..0]) == [];
    var units: seq<int> := [0xD83D, 0xDE00];
    assert units[..1][..0] == [];
    assert UnitsHash(units[..1]) == 0xD83D;
  }

  /** `Arrays.hashCode`, which `Objects.hash` applies to its arguments, given the
      hash of each argument (0 for `null`). */
  function ObjectsHash(hashes: seq<int>): (h: int)
    ensures IsInt(h)
  {
    if hashes == [] then 1 else Wrap(31 * ObjectsHash(hashes[..|hashes| - 1]) + hashes[|hashes| - 1])
  }

  /** The hash `Objects.hash` takes of a `String` argument that may be `null`. */
  function StringFieldHash(o: Option<string>): int {
    match o
    case None => 0
    case Some(s) => StringHashCode(s)
  }

  /** The hash of an `Integer` argument that may be `null`: its value. */
  function IntegerFieldHash(o: Option<int>): int {
    match o
    case None => 0
    case Some(v) => Wrap(v)
  }
}
