/**
 * The strings PrintRLObjects computes for each record before printing it:
 * the `|`-joined names of the set flag bits, the type name, and the angle
 * in degrees. The text layout of the report itself is not modelled; each
 * record's printed fields are gathered in an ObjectEntry instead.
 */
module ObjectPrint {
  import opened ObjectTypes
  import opened ObjectTables
  import opened ObjectReader

  /** One row of flagdata: a flag bit and the name printed for it. */
  datatype FlagData = FlagData(flag: Byte, name: string)

  /** flagdata, in the order the names are printed. */
  const FLAG_DATA: seq<FlagData> := [
    FlagData(FLAG_SKILL12, "EASY"),
    FlagData(FLAG_SKILL3, "MEDIUM"),
    FlagData(FLAG_SKILL45, "HARD"),
    FlagData(FLAG_MULTIPLAYER, "MULTI"),
    FlagData(FLAG_MOVABLE, "MOVABLE"),
    FlagData(FLAG_ACTIVE, "ACTIVE")
  ]

  /** Each row of flagdata holds one of the six flag constants, in declaration order. */
  lemma FlagDataRow(k: nat)
    requires k < |FLAG_DATA|
    ensures FLAG_DATA[k].flag == [0x01, 0x02, 0x04, 0x10, 0x40, 0x80][k]
  {
  }

  /**
   * The flags flagdata names are distinct single bits, so no two rows ever
   * test the same bit, and none of them is 0x08 or 0x20.
   */
  lemma FlagDataBitsAreDistinctSingleBits()
    ensures |FLAG_DATA| == 6
    ensures forall k :: 0 <= k < |FLAG_DATA| ==> SingleBit(FLAG_DATA[k].flag) && !TestFlag(FLAG_DATA[k].flag, 0x28)
    ensures forall i, j :: 0 <= i < j < |FLAG_DATA| ==> !TestFlag(FLAG_DATA[i].flag, FLAG_DATA[j].flag)
  {
    forall k | 0 <= k < |FLAG_DATA|
      ensures SingleBit(FLAG_DATA[k].flag) && !TestFlag(FLAG_DATA[k].flag, 0x28)
    {
      FlagDataRow(k);
      SingleBitTests(FLAG_DATA[k].flag, FLAG_DATA[k].flag);
    }
    forall i, j | 0 <= i < j < |FLAG_DATA|
      ensures !TestFlag(FLAG_DATA[i].flag, FLAG_DATA[j].flag)
    {
      FlagDataRow(i);
      FlagDataRow(j);
      SingleBitTests(FLAG_DATA[i].flag, FLAG_DATA[j].flag);
    }
  }

  /**
   * The names of the bits set in flags among the first n rows of flagdata,
   * in table order: a row's name is listed exactly when its bit is set.
   */
  function FlagNames(flags: Byte, n: nat): seq<string>
    requires n <= |FLAG_DATA|
  {
    if n == 0 then []
    else
      FlagNames(flags, n - 1)
        + (if TestFlag(flags, FLAG_DATA[n - 1].flag) then [FLAG_DATA[n - 1].name] else [])
  }

  /** The names separated by `|`, with no separator after the last. */
  function Join(names: seq<string>): string
  {
    if |names| == 0 then ""
    else if |names| == 1 then names[0]
    else Join(names[..|names| - 1]) + "|" + names[|names| - 1]
  }

  /** Each name followed by a `|`, as the loop appends them. */
  function Terminated(names: seq<string>): string
  {
    if |names| == 0 then "" else Terminated(names[..|names| - 1]) + names[|names| - 1] + "|"
  }

  /** The flag string of a record: the set flag names joined by `|`. */
  function FlagString(flags: Byte): string
  {
    Join(FlagNames(flags, |FLAG_DATA|))
  }

  /** Appending a `|` after every name is joining them and appending one `|`. */
  lemma {:induction false} TerminatedIsJoinedPlusBar(names: seq<string>)
    requires |names| > 0
    ensures Terminated(names) == Join(names) + "|"
    decreases |names|
  {
    if |names| > 1 {
      TerminatedIsJoinedPlusBar(names[..|names| - 1]);
      assert names[..|names| - 1][..|names| - 2] == names[..|names| - 2];
    } else {
      assert Terminated(names[..0]) == "";
    }
  }

  /**
   * The loop of PrintRLObjects that builds flagstr: append each set flag's
   * name and a `|`, then pop the `|` left at the end.
   */
  method BuildFlagString(flags: Byte) returns (flagstr: string)
    ensures flagstr == FlagString(flags)
    ensures flagstr == "" || flagstr[|flagstr| - 1] != '|'
  {
    flagstr := "";
    if flags != 0 {
      for i := 0 to |FLAG_DATA|
        invariant flagstr == Terminated(FlagNames(flags, i))
      {
        TerminatedStep(flags, i);
        if TestFlag(flags, FLAG_DATA[i].flag) {
          flagstr := flagstr + FLAG_DATA[i].name;
          flagstr := flagstr + "|";
        }
      }
    } else {
      NoFlagsNoNames(|FLAG_DATA|);
    }
    ghost var names := FlagNames(flags, |FLAG_DATA|);
    if |names| > 0 {
      TerminatedIsJoinedPlusBar(names);
    }
    if |flagstr| > 0 && flagstr[|flagstr| - 1] == '|' {
      flagstr := flagstr[..|flagstr| - 1];
    }
    FlagStringNoTrailingBar(flags);
  }

  /** One pass of the loop appends the row's name and a `|` when its bit is set. */
  lemma TerminatedStep(flags: Byte, i: nat)
    requires i < |FLAG_DATA|
    ensures Terminated(FlagNames(flags, i + 1))
            == Terminated(FlagNames(flags, i))
               + (if TestFlag(flags, FLAG_DATA[i].flag) then FLAG_DATA[i].name + "|" else "")
  {
    var before := FlagNames(flags, i);
    if TestFlag(flags, FLAG_DATA[i].flag) {
      assert (before + [FLAG_DATA[i].name])[..|before|] == before;
    } else {
      assert FlagNames(flags, i + 1) == before;
    }
  }

  /** A record without flags gets no flag names. */
  lemma {:induction false} NoFlagsNoNames(n: nat)
    requires n <= |FLAG_DATA|
    ensures FlagNames(0, n) == []
  {
    if n > 0 {
      NoFlagsNoNames(n - 1);
      assert !TestFlag(0, FLAG_DATA[n - 1].flag);
    }
  }

  /** The flag string never ends with the separator. */
  lemma FlagStringNoTrailingBar(flags: Byte)
    ensures var str := FlagString(flags); str == "" || str[|str| - 1] != '|'
  {
    var names := FlagNames(flags, |FLAG_DATA|);
    if |names| > 0 {
      JoinEndsWithLast(names);
      FlagNamesListSetBits(flags, |FLAG_DATA|);
      assert names[|names| - 1] in RowNames(|FLAG_DATA|);
    }
  }

  /** The names of the first n rows of flagdata. */
  function RowNames(n: nat): set<string>
    requires n <= |FLAG_DATA|
  {
    set k | 0 <= k < n :: FLAG_DATA[k].name
  }

  /**
   * FlagNames lists, out of the first n rows, the name of a row exactly
   * when that row's bit is set in flags, and no other name.
   */
  lemma {:induction false} FlagNamesListSetBits(flags: Byte, n: nat)
    requires n <= |FLAG_DATA|
    ensures forall j :: 0 <= j < |FlagNames(flags, n)| ==> FlagNames(flags, n)[j] in RowNames(n)
    ensures forall k :: 0 <= k < n ==>
              (FLAG_DATA[k].name in FlagNames(flags, n) <==> TestFlag(flags, FLAG_DATA[k].flag))
  {
    if n > 0 {
      FlagNamesListSetBits(flags, n - 1);
      RowNameIsNew(n - 1);
      assert RowNames(n) == RowNames(n - 1) + {FLAG_DATA[n - 1].name};
    }
  }

  /** The rows of flagdata have distinct names: no row repeats an earlier row's name. */
  lemma RowNameIsNew(k: nat)
    requires k < |FLAG_DATA|
    ensures FLAG_DATA[k].name !in RowNames(k)
  {
    var names := ["EASY", "MEDIUM", "HARD", "MULTI", "MOVABLE", "ACTIVE"];
    assert forall j :: 0 <= j < |FLAG_DATA| ==> FLAG_DATA[j].name == names[j];
    assert forall i, j :: 0 <= i < j < |names| ==> names[i] != names[j] by {
      assert names[0][0] == 'E' && names[1][0] == 'M' && names[2][0] == 'H';
      assert names[3][1] == 'U' && names[4][1] == 'O' && names[5][0] == 'A';
    }
  }

  /** A join ends with its last name. */
  lemma JoinEndsWithLast(names: seq<string>)
    requires |names| > 0
    ensures |Join(names)| >= |names[|names| - 1]|
    ensures Join(names)[|Join(names)| - |names[|names| - 1]|..] == names[|names| - 1]
  {
  }

  /** The mask of the six named bits; 0x08 and 0x20 are outside it. */
  const NAMED_BITS: bv8 := 0xD7

  /** Some named bit is set exactly when one of the rows of flagdata tests true. */
  lemma NamedBitSet(flags: Byte)
    ensures (flags as bv8) & NAMED_BITS != 0
            <==> exists k :: 0 <= k < |FLAG_DATA| && TestFlag(flags, FLAG_DATA[k].flag)
  {
    var f := flags as bv8;
    assert f & NAMED_BITS != 0 <==>
      f & 0x01 != 0 || f & 0x02 != 0 || f & 0x04 != 0 || f & 0x10 != 0 || f & 0x40 != 0 || f & 0x80 != 0;
    if f & NAMED_BITS != 0 {
      if f & 0x01 != 0 { assert TestFlag(flags, FLAG_DATA[0].flag); }
      else if f & 0x02 != 0 { assert TestFlag(flags, FLAG_DATA[1].flag); }
      else if f & 0x04 != 0 { assert TestFlag(flags, FLAG_DATA[2].flag); }
      else if f & 0x10 != 0 { assert TestFlag(flags, FLAG_DATA[3].flag); }
      else if f & 0x40 != 0 { assert TestFlag(flags, FLAG_DATA[4].flag); }
      else { assert TestFlag(flags, FLAG_DATA[5].flag); }
    }
  }

  /** The flag string is empty exactly when none of the six named bits is set. */
  lemma FlagStringEmptyIffNoNamedBit(flags: Byte)
    ensures FlagString(flags) == "" <==> (flags as bv8) & NAMED_BITS == 0
  {
    var names := FlagNames(flags, |FLAG_DATA|);
    FlagNamesListSetBits(flags, |FLAG_DATA|);
    NamedBitSet(flags);
    if |names| > 0 {
      JoinEndsWithLast(names);
      assert names[|names| - 1] in RowNames(|FLAG_DATA|);
      var k :| 0 <= k < |FLAG_DATA| && FLAG_DATA[k].name == names[|names| - 1];
      assert TestFlag(flags, FLAG_DATA[k].flag);
    } else {
      forall k | 0 <= k < |FLAG_DATA|
        ensures !TestFlag(flags, FLAG_DATA[k].flag)
      {
        assert FLAG_DATA[k].name !in names;
      }
    }
  }

  /** Two flag bytes that agree on the named bits list the same names. */
  lemma {:induction false} FlagNamesIgnoreUnnamedBits(f: Byte, g: Byte, n: nat)
    requires n <= |FLAG_DATA|
    requires (f as bv8) & NAMED_BITS == (g as bv8) & NAMED_BITS
    ensures FlagNames(f, n) == FlagNames(g, n)
  {
    if n > 0 {
      FlagNamesIgnoreUnnamedBits(f, g, n - 1);
      RowTestAgrees(f, g, n - 1);
    }
  }

  /** Two flag bytes that agree on the named bits agree on each row's test. */
  lemma RowTestAgrees(f: Byte, g: Byte, k: nat)
    requires k < |FLAG_DATA|
    requires (f as bv8) & NAMED_BITS == (g as bv8) & NAMED_BITS
    ensures TestFlag(f, FLAG_DATA[k].flag) == TestFlag(g, FLAG_DATA[k].flag)
  {
    RowBitIsNamed(k);
    NamedTestAgrees(f, g, FLAG_DATA[k].flag);
  }

  /** Two flag bytes that agree on the named bits agree on the test of any named bit. */
  lemma NamedTestAgrees(f: Byte, g: Byte, m: Byte)
    requires (f as bv8) & NAMED_BITS == (g as bv8) & NAMED_BITS
    requires (m as bv8) & NAMED_BITS == m as bv8
    ensures TestFlag(f, m) == TestFlag(g, m)
  {
    MaskedBitsAgree(f as bv8, g as bv8, NAMED_BITS, m as bv8);
  }

  /** Every row's bit lies inside NAMED_BITS. */
  lemma RowBitIsNamed(k: nat)
    requires k < |FLAG_DATA|
    ensures (FLAG_DATA[k].flag as bv8) & NAMED_BITS == FLAG_DATA[k].flag as bv8
  {
    FlagDataRow(k);
  }

  /** Bytes that agree under a mask agree on every bit inside it. */
  lemma MaskedBitsAgree(f: bv8, g: bv8, mask: bv8, m: bv8)
    requires f & mask == g & mask
    requires m & mask == m
    ensures (f & m == 0) == (g & m == 0)
  {
    assert f & m == (f & mask) & m;
    assert g & m == (g & mask) & m;
  }

  /** Bits 0x08 and 0x20 have no name: setting or clearing them leaves the flag string alone. */
  lemma FlagStringIgnoresUnnamedBits(f: Byte, g: Byte)
    requires (f as bv8) & NAMED_BITS == (g as bv8) & NAMED_BITS
    ensures FlagString(f) == FlagString(g)
  {
    FlagNamesIgnoreUnnamedBits(f, g, |FLAG_DATA|);
  }

  /** EASY and ACTIVE together print in table order, joined by one separator. */
  lemma FlagStringExample()
    ensures FlagString(0x81) == "EASY|ACTIVE"
  {
    assert TestFlag(0x81, 0x01) && !TestFlag(0x81, 0x02) && !TestFlag(0x81, 0x04);
    assert !TestFlag(0x81, 0x10) && !TestFlag(0x81, 0x40) && TestFlag(0x81, 0x80);
    assert FlagNames(0x81, 1) == ["EASY"];
    assert FlagNames(0x81, 5) == ["EASY"];
    assert FlagNames(0x81, 6) == ["EASY", "ACTIVE"];
    assert ["EASY", "ACTIVE"][..1] == ["EASY"];
  }

  /** With every bit set, all six names print in table order. */
  lemma FlagStringAllBits()
    ensures FlagString(0xFF) == "EASY|MEDIUM|HARD|MULTI|MOVABLE|ACTIVE"
  {
    AllBitsListAllNames();
    JoinAllNames();
  }

  /** With every bit set, every row's name is listed. */
  lemma AllBitsListAllNames()
    ensures FlagNames(0xFF, |FLAG_DATA|) == ["EASY", "MEDIUM", "HARD", "MULTI", "MOVABLE", "ACTIVE"]
  {
    assert TestFlag(0xFF, 0x01) && TestFlag(0xFF, 0x02) && TestFlag(0xFF, 0x04);
    assert TestFlag(0xFF, 0x10) && TestFlag(0xFF, 0x40) && TestFlag(0xFF, 0x80);
    assert FlagNames(0xFF, 6) == ["EASY", "MEDIUM", "HARD", "MULTI", "MOVABLE", "ACTIVE"];
  }

  /** The six names joined by separators. */
  lemma JoinAllNames()
    ensures Join(["EASY", "MEDIUM", "HARD", "MULTI", "MOVABLE", "ACTIVE"]) == "EASY|MEDIUM|HARD|MULTI|MOVABLE|ACTIVE"
  {
    var all := ["EASY", "MEDIUM", "HARD", "MULTI", "MOVABLE", "ACTIVE"];
    assert all[..2][..1] == ["EASY"];
    assert Join(all[..2]) == "EASY|MEDIUM";
    assert all[..3][..2] == all[..2];
    assert Join(all[..3]) == "EASY|MEDIUM|HARD";
    assert all[..4][..3] == all[..3];
    assert Join(all[..4]) == "EASY|MEDIUM|HARD|MULTI";
    assert all[..5][..4] == all[..4];
    assert Join(all[..5]) == "EASY|MEDIUM|HARD|MULTI|MOVABLE";
    assert all[..5] == all[..|all| - 1];
  }

  /**
   * The angle PrintRLObjects shows for a record: the record's binary angle
   * in degrees when the type is angular, 0 otherwise.
   */
  function DisplayAngle(obj: RLObject): (deg: Int16)
    ensures 0 <= deg <= 359
    ensures !IsAngular(obj) ==> deg == 0
  {
    if IsAngular(obj) then DoomAngleFromRLAngle(obj.angle) else 0
  }

  /**
   * For the records the decoder produces, the angular test before the
   * conversion changes nothing: their non-angular records have angle 0,
   * which converts to 0 degrees.
   */
  lemma DisplayAngleOfDecoded(s: seq<Byte>, i: nat)
    requires i < |Decode(s)|
    ensures DisplayAngle(Decode(s)[i]) == DoomAngleFromRLAngle(Decode(s)[i].angle)
  {
    DecodedRecordsAreWellFormed(s);
    assert WellFormed(Decode(s)[i]);
  }

  /** The fields PrintRLObjects prints for one record. */
  datatype ObjectEntry = ObjectEntry(
    num: nat, flags: string, typeName: string, coords: (Int16, Int16), angle: Int16)

  /**
   * The loop of PrintRLObjects with its `num` counter: one entry per record,
   * in collection order, numbered from 0.
   */
  method DescribeObjects(objects: seq<RLObject>) returns (entries: seq<ObjectEntry>)
    ensures |entries| == |objects|
    ensures forall i :: 0 <= i < |objects| ==>
              && entries[i].num == i
              && entries[i].flags == FlagString(objects[i].flags)
              && entries[i].typeName == TypeName(objects[i].typ)
              && entries[i].coords == (objects[i].x, objects[i].y)
              && entries[i].angle == DisplayAngle(objects[i])
  {
    entries := [];
    var num := 0;
    while num < |objects|
      invariant num <= |objects| && |entries| == num
      invariant forall i :: 0 <= i < num ==>
                  && entries[i].num == i
                  && entries[i].flags == FlagString(objects[i].flags)
                  && entries[i].typeName == TypeName(objects[i].typ)
                  && entries[i].coords == (objects[i].x, objects[i].y)
                  && entries[i].angle == DisplayAngle(objects[i])
    {
      var obj := objects[num];
      var flagstr := BuildFlagString(obj.flags);
      var thingname := "Unknown";
      if obj.typ as int < |OBJ_NAMES| {
        thingname := OBJ_NAMES[obj.typ];
      }
      var angle: Int16 := 0;
      if IsAngular(obj) {
        angle := DoomAngleFromRLAngle(obj.angle);
      }
      entries := entries + [ObjectEntry(num, flagstr, thingname, (obj.x, obj.y), angle)];
      num := num + 1;
    }
  }
}
