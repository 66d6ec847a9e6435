/**
 * The OBJECTS record and the small total functions declared beside it in
 * sdobjects.h: the integer widths of the record's fields, the type-index
 * constants MAX and LASTANGULAR, the "angular" test, the flag bits and the
 * conversion from a 16-bit binary angle to whole degrees.
 */
module ObjectTypes {

  /** A raw byte of the lump (ebyte / uint8_t). */
  newtype Byte = x: int | 0 <= x < 0x100

  /** int16_t: the map coordinates and the converted angle. */
  newtype Int16 = x: int | -0x8000 <= x < 0x8000

  /** uint16_t: the binary angle (BAM) of angular records. */
  newtype UInt16 = x: int | 0 <= x < 0x1_0000

  /** One decoded OBJECTS record (struct RLObject). */
  datatype RLObject = RLObject(flags: Byte, typ: Byte, x: Int16, y: Int16, angle: UInt16)

  /** ToIndex(ObjDataNums::MAX): the number of entries of the type tables. */
  const MAX: nat := 64

  /** ToIndex(ObjDataNums::TeleportSpot), the last player-start-like type. */
  const TELEPORT_SPOT: nat := 5

  /** ToIndex(ObjDataNums::LASTANGULAR): types up to this index carry an angle. */
  const LASTANGULAR: nat := TELEPORT_SPOT

  /** RLObjectIsAngular: the angle field is present only for these types. */
  predicate IsAngular(obj: RLObject)
  {
    obj.typ as int <= LASTANGULAR
  }

  // RLObjectFlags
  const FLAG_SKILL12: Byte := 0x01
  const FLAG_SKILL3: Byte := 0x02
  const FLAG_SKILL45: Byte := 0x04
  const FLAG_MULTIPLAYER: Byte := 0x10
  const FLAG_MOVABLE: Byte := 0x40
  const FLAG_ACTIVE: Byte := 0x80

  /** The C++ test `flags & mask`, done on the eight bits of both bytes. */
  predicate TestFlag(flags: Byte, mask: Byte)
  {
    (flags as bv8) & (mask as bv8) != 0
  }

  /** A byte with exactly one bit set. */
  predicate SingleBit(b: Byte)
  {
    b == 0x01 || b == 0x02 || b == 0x04 || b == 0x08 || b == 0x10 || b == 0x20 || b == 0x40 || b == 0x80
  }

  /**
   * Tests between single bits: a bit tests set against a mask of one bit
   * exactly when it is that bit, and against 0x28 exactly when it is 0x08 or 0x20.
   */
  lemma SingleBitTests(a: Byte, b: Byte)
    requires SingleBit(a) && SingleBit(b)
    ensures TestFlag(a, b) <==> a == b
    ensures TestFlag(a, 0x28) <==> a == 0x08 || a == 0x20
  {
    SingleBitAsBits(a);
    SingleBitAsBits(b);
    BitTests(a as bv8, b as bv8);
  }

  /** A single-bit byte converts to the bit-vector of the same bit, and only that one. */
  lemma SingleBitAsBits(a: Byte)
    requires SingleBit(a)
    ensures a as bv8 == 0x01 || a as bv8 == 0x02 || a as bv8 == 0x04 || a as bv8 == 0x08 ||
            a as bv8 == 0x10 || a as bv8 == 0x20 || a as bv8 == 0x40 || a as bv8 == 0x80
    ensures (a == 0x01 <==> a as bv8 == 0x01) && (a == 0x02 <==> a as bv8 == 0x02)
    ensures (a == 0x04 <==> a as bv8 == 0x04) && (a == 0x08 <==> a as bv8 == 0x08)
    ensures (a == 0x10 <==> a as bv8 == 0x10) && (a == 0x20 <==> a as bv8 == 0x20)
    ensures (a == 0x40 <==> a as bv8 == 0x40) && (a == 0x80 <==> a as bv8 == 0x80)
  {
    if a == 0x01 { assert a as bv8 == 0x01; }
    else if a == 0x02 { assert a as bv8 == 0x02; }
    else if a == 0x04 { assert a as bv8 == 0x04; }
    else if a == 0x08 { assert a as bv8 == 0x08; }
    else if a == 0x10 { assert a as bv8 == 0x10; }
    else if a == 0x20 { assert a as bv8 == 0x20; }
    else if a == 0x40 { assert a as bv8 == 0x40; }
    else { assert a as bv8 == 0x80; }
  }

  /** The same tests on bit-vectors. */
  lemma BitTests(a: bv8, b: bv8)
    requires a == 0x01 || a == 0x02 || a == 0x04 || a == 0x08 || a == 0x10 || a == 0x20 || a == 0x40 || a == 0x80
    requires b == 0x01 || b == 0x02 || b == 0x04 || b == 0x08 || b == 0x10 || b == 0x20 || b == 0x40 || b == 0x80
    ensures a & b != 0 <==> a == b
    ensures a & 0x28 != 0 <==> a == 0x08 || a == 0x20
  {
  }

  /**
   * DoomAngleFromRLAngle: scale a 16-bit BAM onto whole degrees, truncating.
   * sdobjects.h's DoomAngleFromRLAngle multiplies in 32-bit unsigned (`euint`)
   * arithmetic and divides by 0x10000;
   * the operands are non-negative, so truncating and Euclidean division agree,
   * and AngleProductFits shows the product never wraps.
   */
  function DoomAngleFromRLAngle(rlangle: UInt16): (deg: Int16)
    ensures 0 <= deg <= 359
    ensures deg as int * 0x1_0000 <= rlangle as int * 360 < (deg as int + 1) * 0x1_0000
  {
    ((rlangle as int * 360) / 0x1_0000) as Int16
  }

  /** The 32-bit intermediate product of DoomAngleFromRLAngle cannot wrap. */
  lemma AngleProductFits(rlangle: UInt16)
    ensures 0 <= rlangle as int * 360 <= 65535 * 360 < 0x1_0000_0000
  {
  }

  /** A larger binary angle never converts to fewer degrees. */
  lemma DoomAngleMonotonic(a: UInt16, b: UInt16)
    requires a <= b
    ensures DoomAngleFromRLAngle(a) <= DoomAngleFromRLAngle(b)
  {
    // follows from the floor characterisation in DoomAngleFromRLAngle's contract
  }

  /** The quarter turns and the largest binary angle. */
  lemma DoomAngleValues()
    ensures DoomAngleFromRLAngle(0) == 0
    ensures DoomAngleFromRLAngle(0x4000) == 90
    ensures DoomAngleFromRLAngle(0x8000) == 180
    ensures DoomAngleFromRLAngle(0xC000) == 270
    ensures DoomAngleFromRLAngle(0xFFFF) == 359
  {
  }
}
