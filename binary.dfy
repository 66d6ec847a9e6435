/**
 * The two-byte word readers the OBJECTS decoder calls (E_GetBinaryWord and
 * E_GetBinaryUWord). The lump stores its words big-endian; WordValue is the
 * one place that fixes that byte order. Each reader takes the cursor and
 * hands back the cursor advanced by two, as the readers do through their
 * `const ebyte **` argument.
 */
module Binary {
  import opened ObjectTypes

  /** The unsigned value of a big-endian word whose bytes are hi, lo. */
  function WordValue(hi: Byte, lo: Byte): (w: nat)
    ensures w < 0x1_0000
    ensures w / 0x100 == hi as int && w % 0x100 == lo as int
  {
    hi as int * 0x100 + lo as int
  }

  /** The word read as uint16_t. */
  function UnsignedWord(hi: Byte, lo: Byte): (v: UInt16)
    ensures v as int == WordValue(hi, lo)
  {
    WordValue(hi, lo) as UInt16
  }

  /** The word read as int16_t: two's complement of the 16 bits. */
  function SignedWord(hi: Byte, lo: Byte): (v: Int16)
    ensures (v as int - WordValue(hi, lo)) % 0x1_0000 == 0
    ensures v < 0 <==> hi >= 0x80
  {
    var w := WordValue(hi, lo);
    if w < 0x8000 then w as Int16 else (w - 0x1_0000) as Int16
  }

  /** The bytes, most significant first, of a uint16_t value. */
  function UnsignedWordBytes(v: UInt16): (b: seq<Byte>)
    ensures |b| == 2
  {
    [(v as int / 0x100) as Byte, (v as int % 0x100) as Byte]
  }

  /** The bytes, most significant first, of the two's complement of an int16_t value. */
  function SignedWordBytes(v: Int16): (b: seq<Byte>)
    ensures |b| == 2
  {
    UnsignedWordBytes((if v < 0 then v as int + 0x1_0000 else v as int) as UInt16)
  }

  /** A value below 0x100 survives the round trip through a byte. */
  lemma ByteCast(n: int)
    requires 0 <= n < 0x100
    ensures (n as Byte) as int == n
  {
  }

  /** Reading back the bytes of an unsigned word gives the word. */
  lemma UnsignedWordRoundTrip(v: UInt16)
    ensures var b := UnsignedWordBytes(v); UnsignedWord(b[0], b[1]) == v
  {
    var n := v as int;
    var hi, lo := n / 0x100, n % 0x100;
    assert hi * 0x100 + lo == n && hi < 0x100;
    ByteCast(hi);
    ByteCast(lo);
    var b := UnsignedWordBytes(v);
    assert b[0] as int == hi && b[1] as int == lo;
  }

  /** Reading back the bytes of a signed word gives the word. */
  lemma SignedWordRoundTrip(v: Int16)
    ensures var b := SignedWordBytes(v); SignedWord(b[0], b[1]) == v
  {
    var u := (if v < 0 then v as int + 0x1_0000 else v as int) as UInt16;
    UnsignedWordRoundTrip(u);
  }

  /** E_GetBinaryWord: read a signed big-endian word at the cursor and advance it. */
  method GetBinaryWord(data: array<Byte>, rover: nat) returns (v: Int16, next: nat)
    requires rover + 2 <= data.Length
    ensures next == rover + 2
    ensures v == SignedWord(data[rover], data[rover + 1])
  {
    var w := data[rover] as int * 0x100 + data[rover + 1] as int;
    if w < 0x8000 {
      v := w as Int16;
    } else {
      v := (w - 0x1_0000) as Int16;
    }
    next := rover + 2;
  }

  /** E_GetBinaryUWord: read an unsigned big-endian word at the cursor and advance it. */
  method GetBinaryUWord(data: array<Byte>, rover: nat) returns (v: UInt16, next: nat)
    requires rover + 2 <= data.Length
    ensures next == rover + 2
    ensures v == UnsignedWord(data[rover], data[rover + 1])
  {
    v := (data[rover] as int * 0x100 + data[rover + 1] as int) as UInt16;
    next := rover + 2;
  }
}
