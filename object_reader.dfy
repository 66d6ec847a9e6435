/**
 * ReadRLObjects: the decoder of OBJECTS lumps. A lump is a flat run of
 * records with no header; each record is a flags byte, a type byte and two
 * signed words x and y, followed by an unsigned angle word only when the
 * type is angular and two more bytes remain. Fewer than six trailing bytes
 * are ignored. Decode is the specification, ReadRLObjects the cursor loop
 * proved equal to it, and Encode the inverse that the round-trip lemmas use.
 */
module ObjectReader {
  import opened ObjectTypes
  import opened Binary

  /** SMALLESTOBJLEN: the fixed part of every record. */
  const SMALLESTOBJLEN: nat := 6

  /** The fixed six-byte part of the record at the front of s, with angle 0. */
  function Header(s: seq<Byte>): (obj: RLObject)
    requires |s| >= SMALLESTOBJLEN
    ensures obj.flags == s[0] && obj.typ == s[1] && obj.angle == 0
  {
    RLObject(s[0], s[1], SignedWord(s[2], s[3]), SignedWord(s[4], s[5]), 0)
  }

  /** Whether the record at the front of s carries its angle word. */
  predicate HasAngle(s: seq<Byte>)
    requires |s| >= SMALLESTOBJLEN
  {
    IsAngular(Header(s)) && |s| - SMALLESTOBJLEN >= 2
  }

  /** The number of bytes the record at the front of s occupies. */
  function RecordLength(s: seq<Byte>): (n: nat)
    requires |s| >= SMALLESTOBJLEN
    ensures n == 6 || n == 8
    ensures n <= |s|
    ensures n == 8 <==> IsAngular(Header(s)) && |s| >= 8
  {
    if HasAngle(s) then SMALLESTOBJLEN + 2 else SMALLESTOBJLEN
  }

  /** The record at the front of s. */
  function FirstRecord(s: seq<Byte>): (obj: RLObject)
    requires |s| >= SMALLESTOBJLEN
    ensures obj.flags == s[0] && obj.typ == s[1]
    ensures obj.x == SignedWord(s[2], s[3]) && obj.y == SignedWord(s[4], s[5])
    ensures obj.angle == if RecordLength(s) == 8 then UnsignedWord(s[6], s[7]) else 0
  {
    if HasAngle(s) then Header(s).(angle := UnsignedWord(s[6], s[7])) else Header(s)
  }

  /** The records of a lump, in the order they appear in it. */
  function Decode(s: seq<Byte>): (objs: seq<RLObject>)
    ensures forall i :: 0 <= i < |objs| && !IsAngular(objs[i]) ==> objs[i].angle == 0
    decreases |s|
  {
    if |s| < SMALLESTOBJLEN then []
    else [FirstRecord(s)] + Decode(s[RecordLength(s)..])
  }

  /** The number of bytes the decoder consumes from s; what is left is dropped. */
  function Consumed(s: seq<Byte>): (n: nat)
    ensures n <= |s| && |s| - n < SMALLESTOBJLEN
    decreases |s|
  {
    if |s| < SMALLESTOBJLEN then 0
    else RecordLength(s) + Consumed(s[RecordLength(s)..])
  }

  /** Appending records one at a time regroups freely. */
  lemma AppendAssociative(a: seq<RLObject>, b: seq<RLObject>, c: seq<RLObject>)
    ensures (a + b) + c == a + (b + c)
  {
  }

  /**
   * ReadRLObjects: the record loop over the first len bytes of pdata.
   * rover is the read cursor and remaining the count of unread bytes; the
   * cursor's final position is handed back as the ghost result consumed.
   */
  method ReadRLObjects(pdata: array<Byte>, len: nat) returns (objects: seq<RLObject>, ghost consumed: nat)
    requires len <= pdata.Length
    ensures objects == Decode(pdata[..len])
    ensures consumed == Consumed(pdata[..len])
    ensures consumed <= len && len - consumed < SMALLESTOBJLEN
  {
    objects := [];
    var rover := 0;
    var remaining := len;
    while remaining >= SMALLESTOBJLEN
      invariant 0 <= rover <= len && rover + remaining == len
      invariant objects + Decode(pdata[rover..len]) == Decode(pdata[..len])
      invariant rover + Consumed(pdata[rover..len]) == Consumed(pdata[..len])
      decreases remaining
    {
      ghost var rest := pdata[rover..len];
      ghost var start := rover;
      assert Header(rest) == RLObject(pdata[start], pdata[start + 1],
        SignedWord(pdata[start + 2], pdata[start + 3]), SignedWord(pdata[start + 4], pdata[start + 5]), 0) by {
        assert rest[0] == pdata[start] && rest[1] == pdata[start + 1];
        assert rest[2] == pdata[start + 2] && rest[3] == pdata[start + 3];
        assert rest[4] == pdata[start + 4] && rest[5] == pdata[start + 5];
      }
      var flags := pdata[rover];
      rover := rover + 1;
      var typ := pdata[rover];
      rover := rover + 1;
      var x, y;
      x, rover := GetBinaryWord(pdata, rover);
      y, rover := GetBinaryWord(pdata, rover);
      remaining := remaining - SMALLESTOBJLEN;
      var obj := RLObject(flags, typ, x, y, 0);
      if IsAngular(obj) && remaining >= 2 {
        var angle;
        assert FirstRecord(rest) == Header(rest).(angle := UnsignedWord(pdata[start + 6], pdata[start + 7])) by {
          assert rest[6] == pdata[start + 6] && rest[7] == pdata[start + 7];
        }
        angle, rover := GetBinaryUWord(pdata, rover);
        obj := obj.(angle := angle);
        remaining := remaining - 2;
      } else {
        obj := obj.(angle := 0);
      }
      assert obj == FirstRecord(rest);
      ghost var next := pdata[rover..len];
      assert next == rest[RecordLength(rest)..];
      assert Consumed(rest) == RecordLength(rest) + Consumed(next);
      assert Decode(rest) == [obj] + Decode(next);
      AppendAssociative(objects, [obj], Decode(next));
      objects := objects + [obj];
    }
    assert pdata[rover..len] == [] || |pdata[rover..len]| < SMALLESTOBJLEN;
    consumed := rover;
  }

  /**
   * The bytes the decoder leaves over make no difference: decoding only the
   * consumed prefix gives the same records.
   */
  lemma {:induction false} DroppedTailIgnored(s: seq<Byte>)
    ensures Decode(s[..Consumed(s)]) == Decode(s)
    decreases |s|
  {
    if |s| >= SMALLESTOBJLEN {
      var k := RecordLength(s);
      var prefix := s[..Consumed(s)];
      assert prefix[..SMALLESTOBJLEN] == s[..SMALLESTOBJLEN];
      if k == 8 {
        assert prefix[6] == s[6] && prefix[7] == s[7];
      }
      assert Header(prefix) == Header(s);
      assert RecordLength(prefix) == k;
      assert FirstRecord(prefix) == FirstRecord(s);
      DroppedTailIgnored(s[k..]);
      assert prefix[k..] == s[k..][..Consumed(s[k..])];
    }
  }

  /**
   * Each record consumes six or eight bytes: n records take between 6n and
   * 8n bytes, and fewer than six bytes are left over.
   */
  lemma {:induction false} RecordCountBounds(s: seq<Byte>)
    ensures 6 * |Decode(s)| <= Consumed(s) <= 8 * |Decode(s)|
    ensures 6 * |Decode(s)| <= |s| < 8 * |Decode(s)| + SMALLESTOBJLEN
    decreases |s|
  {
    if |s| >= SMALLESTOBJLEN {
      RecordCountBounds(s[RecordLength(s)..]);
    }
  }

  /** The offset in s at which each decoded record starts. */
  function RecordStarts(s: seq<Byte>): (starts: seq<nat>)
    ensures |starts| == |Decode(s)|
    ensures forall j :: 0 <= j < |starts| ==> starts[j] + SMALLESTOBJLEN <= |s|
    decreases |s|
  {
    if |s| < SMALLESTOBJLEN then []
    else
      var k := RecordLength(s);
      [0] + Shifted(RecordStarts(s[k..]), k)
  }

  /** Every offset moved k bytes further on. */
  function Shifted(offsets: seq<nat>, k: nat): (moved: seq<nat>)
    ensures |moved| == |offsets|
    ensures forall j :: 0 <= j < |offsets| ==> moved[j] == offsets[j] + k
  {
    if offsets == [] then [] else [offsets[0] + k] + Shifted(offsets[1..], k)
  }

  /**
   * Records come in buffer order and copy their bytes unchanged: the first
   * starts at offset 0, each later one six or eight bytes after the one
   * before (eight exactly when that one carried an angle), and each is the
   * record the header bytes at its offset describe.
   */
  lemma DecodedFieldsAt(s: seq<Byte>, i: nat)
    requires i < |Decode(s)|
    ensures i == 0 ==> RecordStarts(s)[i] == 0
    ensures i > 0 ==> RecordStarts(s)[i]
                      == RecordStarts(s)[i - 1] + RecordLength(s[RecordStarts(s)[i - 1]..])
    ensures Decode(s)[i] == FirstRecord(s[RecordStarts(s)[i]..])
  {
    if i > 0 {
      NextStart(s, i);
    }
    RecordAtStart(s, i);
  }

  /** Each start after the first lies one record length past the start before it. */
  lemma {:induction false} NextStart(s: seq<Byte>, i: nat)
    requires 0 < i < |RecordStarts(s)|
    ensures RecordStarts(s)[i] == RecordStarts(s)[i - 1] + RecordLength(s[RecordStarts(s)[i - 1]..])
    decreases |s|
  {
    var k := RecordLength(s);
    var rest := s[k..];
    var starts, later := RecordStarts(s), RecordStarts(rest);
    RecordStartsShift(s, i - 1);
    if i > 1 {
      NextStart(rest, i - 1);
      RecordStartsShift(s, i - 2);
      SuffixOfSuffix(s, k, later[i - 2]);
      assert s[starts[i - 1]..] == rest[later[i - 2]..];
    } else {
      assert later[0] == 0;
      assert starts[0] == 0 && s[0..] == s;
    }
  }

  /** The record decoded at position i is the one the bytes at its start describe. */
  lemma {:induction false} RecordAtStart(s: seq<Byte>, i: nat)
    requires i < |Decode(s)|
    ensures Decode(s)[i] == FirstRecord(s[RecordStarts(s)[i]..])
    decreases |s|
  {
    var k := RecordLength(s);
    var rest := s[k..];
    var starts, later := RecordStarts(s), RecordStarts(rest);
    if i > 0 {
      RecordAtStart(rest, i - 1);
      assert Decode(s)[i] == Decode(rest)[i - 1];
      RecordStartsShift(s, i - 1);
      SuffixOfSuffix(s, k, later[i - 1]);
      assert s[starts[i]..] == rest[later[i - 1]..];
    } else {
      assert s[0..] == s;
    }
  }

  /** Dropping k bytes and then a more is dropping k + a. */
  lemma SuffixOfSuffix(s: seq<Byte>, k: nat, a: nat)
    requires k + a <= |s|
    ensures s[k..][a..] == s[k + a..]
  {
  }

  /** Past the first record, every start is the rest's start shifted by the first record's length. */
  lemma RecordStartsShift(s: seq<Byte>, j: nat)
    requires |s| >= SMALLESTOBJLEN
    requires j < |RecordStarts(s[RecordLength(s)..])|
    ensures j + 1 < |RecordStarts(s)|
    ensures RecordStarts(s)[j + 1] == RecordStarts(s[RecordLength(s)..])[j] + RecordLength(s)
  {
    var shifted := Shifted(RecordStarts(s[RecordLength(s)..]), RecordLength(s));
    assert RecordStarts(s)[j + 1] == shifted[j];
  }

  /** A lump shorter than one record holds no records. */
  lemma ShortLumpIsEmpty(s: seq<Byte>)
    requires |s| < SMALLESTOBJLEN
    ensures Decode(s) == [] && Consumed(s) == 0
  {
  }

  /**
   * An angular record followed by fewer than two bytes keeps angle 0 and
   * consumes six bytes; the bytes after it are too few for another record.
   */
  lemma TruncatedAngularRecord(s: seq<Byte>)
    requires SMALLESTOBJLEN <= |s| < SMALLESTOBJLEN + 2
    requires IsAngular(Header(s))
    ensures RecordLength(s) == SMALLESTOBJLEN
    ensures Decode(s) == [Header(s)] && Decode(s)[0].angle == 0
  {
    assert Decode(s[6..]) == [];
  }

  // ---------------------------------------------------------------------
  // The inverse: laying records out in the OBJECTS format.
  // ---------------------------------------------------------------------

  /** A record as the decoder can produce it from a well-formed lump: only angular records carry an angle. */
  predicate WellFormed(obj: RLObject)
  {
    !IsAngular(obj) ==> obj.angle == 0
  }

  /** The six or eight bytes of one record. */
  function EncodeRecord(obj: RLObject): (b: seq<Byte>)
    ensures |b| == if IsAngular(obj) then 8 else 6
  {
    [obj.flags, obj.typ] + SignedWordBytes(obj.x) + SignedWordBytes(obj.y)
      + (if IsAngular(obj) then UnsignedWordBytes(obj.angle) else [])
  }

  /** The bytes of a whole lump of records, one after the other. */
  function Encode(objs: seq<RLObject>): seq<Byte>
  {
    if objs == [] then [] else EncodeRecord(objs[0]) + Encode(objs[1..])
  }

  /** Decoding a well-formed record followed by any bytes yields that record first and decodes the rest alone. */
  lemma DecodeRecordThenRest(obj: RLObject, rest: seq<Byte>)
    requires WellFormed(obj)
    ensures Decode(EncodeRecord(obj) + rest) == [obj] + Decode(rest)
  {
    var e := EncodeRecord(obj);
    var s := e + rest;
    SignedWordRoundTrip(obj.x);
    SignedWordRoundTrip(obj.y);
    assert Header(s) == obj.(angle := 0);
    if IsAngular(obj) {
      UnsignedWordRoundTrip(obj.angle);
      assert RecordLength(s) == 8;
    } else {
      assert RecordLength(s) == 6;
    }
    assert FirstRecord(s) == obj;
    assert s[RecordLength(s)..] == rest;
  }

  /**
   * Round trip with truncation: a lump made of well-formed records, with up
   * to five stray bytes after them, decodes to exactly those records in
   * order; the stray bytes neither add a record nor change one.
   */
  lemma {:induction false} DecodeEncode(objs: seq<RLObject>, tail: seq<Byte>)
    requires forall i :: 0 <= i < |objs| ==> WellFormed(objs[i])
    requires |tail| < SMALLESTOBJLEN
    ensures Decode(Encode(objs) + tail) == objs
  {
    if objs == [] {
      assert Encode(objs) + tail == tail;
    } else {
      var rest := Encode(objs[1..]) + tail;
      DecodeEncode(objs[1..], tail);
      assert Encode(objs) + tail == EncodeRecord(objs[0]) + rest;
      DecodeRecordThenRest(objs[0], rest);
      assert objs == [objs[0]] + objs[1..];
    }
  }

  /** Every record the decoder produces is well formed, so it can be laid out again. */
  lemma DecodedRecordsAreWellFormed(s: seq<Byte>)
    ensures forall i :: 0 <= i < |Decode(s)| ==> WellFormed(Decode(s)[i])
  {
  }

  /**
   * A teleport landing (flags 0x10, type 5, at (100, -50), angle 0x4000)
   * followed by a type-20 record at (0, 0): the first record takes eight
   * bytes, the second starts at byte 8 and ends at byte 14, and the
   * landing faces 90 degrees.
   */
  lemma TwoRecordExample()
    ensures Decode([0x10, 5, 0x00, 0x64, 0xFF, 0xCE, 0x40, 0x00, 0x00, 20, 0, 0, 0, 0])
            == [RLObject(0x10, 5, 100, -50, 0x4000), RLObject(0x00, 20, 0, 0, 0)]
    ensures DoomAngleFromRLAngle(0x4000) == 90
  {
    var landing, other := RLObject(0x10, 5, 100, -50, 0x4000), RLObject(0x00, 20, 0, 0, 0);
    var bytes: seq<Byte> := [0x10, 5, 0x00, 0x64, 0xFF, 0xCE, 0x40, 0x00, 0x00, 20, 0, 0, 0, 0];
    assert EncodeRecord(landing) == bytes[..8];
    assert EncodeRecord(other) == bytes[8..];
    assert Encode([landing, other]) == bytes by {
      assert [landing, other][1..] == [other];
      assert Encode([other]) == EncodeRecord(other) + Encode([]);
    }
    DecodeEncode([landing, other], []);
    assert bytes + [] == bytes;
  }
}
