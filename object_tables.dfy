/**
 * The two constant tables of sdobjects.cpp, both indexed by the OBJECTS
 * type byte in the order of the ObjDataNums enumeration: the DoomEd number
 * each type translates back to, and each type's printable name.
 */
module ObjectTables {
  import opened ObjectTypes

  // The tables are written in rows of eight entries, so that the verifier
  // reaches an entry through one concatenation instead of a 64-deep literal.

  const DOOMED_NUMS_0: seq<Int16> := [
    1, 2, 3, 4, 11, 14, 3004, 9
  ]
  const DOOMED_NUMS_1: seq<Int16> := [
    3001, 3002, 3005, 3006, 3003, 16, 7, 2001
  ]
  const DOOMED_NUMS_2: seq<Int16> := [
    2005, 2002, 2003, 2004, 2006, 13, 5, 6
  ]
  const DOOMED_NUMS_3: seq<Int16> := [
    38, 39, 40, 8, 2007, 2048, 2008, 2049
  ]
  const DOOMED_NUMS_4: seq<Int16> := [
    2010, 2046, 2047, 17, 2011, 2012, 2014, 2015
  ]
  const DOOMED_NUMS_5: seq<Int16> := [
    2018, 2019, 2013, 2022, 2023, 2024, 2025, 2026
  ]
  const DOOMED_NUMS_6: seq<Int16> := [
    2045, 2035, 2028, 10, 20, 21, 27, 31
  ]
  const DOOMED_NUMS_7: seq<Int16> := [
    34, 35, 42, 43, 46, 47, 48, 55
  ]

  /** doomednums: the DoomEd number of each type index. */
  const DOOMED_NUMS: seq<Int16> :=
    DOOMED_NUMS_0 + DOOMED_NUMS_1 + DOOMED_NUMS_2 + DOOMED_NUMS_3 +
    DOOMED_NUMS_4 + DOOMED_NUMS_5 + DOOMED_NUMS_6 + DOOMED_NUMS_7

  const OBJ_NAMES_0: seq<string> := [
    "Player1Start", "Player2Start", "Player3Start", "Player4Start",
    "DeathMatchStart", "TeleportSpot", "Soldier", "Sergeant"
  ]
  const OBJ_NAMES_1: seq<string> := [
    "Trooper", "Demon", "CacoDemon", "LostSoul",
    "BaronOfHell", "CyberDemon", "SpiderDemon", "ShotGun"
  ]
  const OBJ_NAMES_2: seq<string> := [
    "ChainSaw", "ChainGun", "RocketLauncher", "PlasmaGun",
    "BFG9000", "RedKeyCard", "BlueKeyCard", "YellowKeyCard"
  ]
  const OBJ_NAMES_3: seq<string> := [
    "RedSkullKey", "YellowSkullKey", "BlueSkullKey", "BackPack",
    "Clip", "AmmoBox", "Shells", "ShellsBox"
  ]
  const OBJ_NAMES_4: seq<string> := [
    "Rocket", "RocketBox", "Cell", "CellPack",
    "StimPak", "Medikit", "HealthBonus", "ArmorBonus"
  ]
  const OBJ_NAMES_5: seq<string> := [
    "ArmorGreen", "ArmorBlue", "SoulSphere", "Invulnerable",
    "Berserk", "Invisible", "RadiationSuit", "ComputerMap"
  ]
  const OBJ_NAMES_6: seq<string> := [
    "LightGoggles", "Barrel", "FloorLamp", "BloodyMess",
    "DeadTrooper", "DeadDemon", "SkullOnPole", "PillarShortGreen"
  ]
  const OBJ_NAMES_7: seq<string> := [
    "Candle", "Candelabra", "FlamingSkullRock", "TreeGray",
    "FireStickTallRed", "ShrubBrown", "ColumnTechTall", "FireStickShortBlue"
  ]

  /** ObjNames: the enumerator name of each type index. */
  const OBJ_NAMES: seq<string> :=
    OBJ_NAMES_0 + OBJ_NAMES_1 + OBJ_NAMES_2 + OBJ_NAMES_3 +
    OBJ_NAMES_4 + OBJ_NAMES_5 + OBJ_NAMES_6 + OBJ_NAMES_7

  /** The names of the angular types, the first LASTANGULAR + 1 enumerators. */
  const ANGULAR_NAMES: seq<string> := [
    "Player1Start", "Player2Start", "Player3Start", "Player4Start",
    "DeathMatchStart", "TeleportSpot"
  ]

  /** The DoomEd numbers of the angular types: player starts 1 to 4, deathmatch start 11, teleport destination 14. */
  const ANGULAR_DOOMED_NUMS: set<Int16> := {1, 2, 3, 4, 11, 14}

  /** Both tables have one entry per enumerator before MAX, and agree on the enumerators that matter. */
  lemma TablesAligned()
    ensures |DOOMED_NUMS| == MAX && |OBJ_NAMES| == MAX
    ensures OBJ_NAMES[TELEPORT_SPOT] == "TeleportSpot" && DOOMED_NUMS[TELEPORT_SPOT] == 14
    ensures OBJ_NAMES[0] == "Player1Start" && DOOMED_NUMS[0] == 1
    ensures OBJ_NAMES[MAX - 1] == "FireStickShortBlue" && DOOMED_NUMS[MAX - 1] == 55
  {
  }

  /**
   * The type name of a record: its ObjNames entry when the type is inside
   * the table, "Unknown" otherwise.
   */
  function TypeName(typ: Byte): (name: string)
    ensures typ as int < MAX ==> name == OBJ_NAMES[typ]
    ensures name == "Unknown" <==> typ as int >= MAX
  {
    if typ as int < |OBJ_NAMES| then OBJ_NAMES[typ] else "Unknown"
  }

  /** No type after LASTANGULAR has the name of an angular type. */
  lemma LaterNamesNotAngular(t: nat)
    requires LASTANGULAR < t < MAX
    ensures OBJ_NAMES[t] !in ANGULAR_NAMES
  {
    if t < 32 {
      LaterNamesNotAngularLow(t);
    } else {
      LaterNamesNotAngularHigh(t);
    }
  }

  /** LaterNamesNotAngular, for the first four rows of the table. */
  lemma LaterNamesNotAngularLow(t: nat)
    requires LASTANGULAR < t < 32
    ensures OBJ_NAMES[t] !in ANGULAR_NAMES
  {
    if t < 8 {
      assert OBJ_NAMES[t] == OBJ_NAMES_0[t];
    } else if t < 16 {
      assert OBJ_NAMES[t] == OBJ_NAMES_1[t - 8];
    } else if t < 24 {
      assert OBJ_NAMES[t] == OBJ_NAMES_2[t - 16];
    } else {
      assert OBJ_NAMES[t] == OBJ_NAMES_3[t - 24];
    }
  }

  /** LaterNamesNotAngular, for the last four rows of the table. */
  lemma LaterNamesNotAngularHigh(t: nat)
    requires 32 <= t < MAX
    ensures OBJ_NAMES[t] !in ANGULAR_NAMES
  {
    if t < 40 {
      assert OBJ_NAMES[t] == OBJ_NAMES_4[t - 32];
    } else if t < 48 {
      assert OBJ_NAMES[t] == OBJ_NAMES_5[t - 40];
    } else if t < 56 {
      assert OBJ_NAMES[t] == OBJ_NAMES_6[t - 48];
    } else {
      assert OBJ_NAMES[t] == OBJ_NAMES_7[t - 56];
    }
  }

  /** Exactly the types up to LASTANGULAR are the player, deathmatch and teleport spots. */
  lemma AngularTypesByName(obj: RLObject)
    requires obj.typ as int < MAX
    ensures IsAngular(obj) <==> TypeName(obj.typ) in ANGULAR_NAMES
  {
    var t := obj.typ as int;
    if t <= LASTANGULAR {
      assert OBJ_NAMES[t] == OBJ_NAMES_0[t] == ANGULAR_NAMES[t];
    } else {
      LaterNamesNotAngular(t);
    }
  }

  /** An angular record's type has an entry in ObjNames, and that entry is the angular name at its index. */
  lemma AngularTypesHaveTableEntry(obj: RLObject)
    ensures IsAngular(obj) ==> obj.typ as int < |OBJ_NAMES| && TypeName(obj.typ) == ANGULAR_NAMES[obj.typ]
  {
    if IsAngular(obj) {
      var t := obj.typ as int;
      assert OBJ_NAMES[t] == OBJ_NAMES_0[t] == ANGULAR_NAMES[t];
    }
  }

  /** No type after LASTANGULAR translates to the DoomEd number of an angular type. */
  lemma LaterNumsNotAngular(t: nat)
    requires LASTANGULAR < t < MAX
    ensures DOOMED_NUMS[t] !in ANGULAR_DOOMED_NUMS
  {
    if t < 32 {
      LaterNumsNotAngularLow(t);
    } else {
      LaterNumsNotAngularHigh(t);
    }
  }

  /** LaterNumsNotAngular, for the first four rows of the table. */
  lemma LaterNumsNotAngularLow(t: nat)
    requires LASTANGULAR < t < 32
    ensures DOOMED_NUMS[t] !in ANGULAR_DOOMED_NUMS
  {
    if t < 8 {
      assert DOOMED_NUMS[t] == DOOMED_NUMS_0[t];
    } else if t < 16 {
      assert DOOMED_NUMS[t] == DOOMED_NUMS_1[t - 8];
    } else if t < 24 {
      assert DOOMED_NUMS[t] == DOOMED_NUMS_2[t - 16];
    } else {
      assert DOOMED_NUMS[t] == DOOMED_NUMS_3[t - 24];
    }
  }

  /** LaterNumsNotAngular, for the last four rows of the table. */
  lemma LaterNumsNotAngularHigh(t: nat)
    requires 32 <= t < MAX
    ensures DOOMED_NUMS[t] !in ANGULAR_DOOMED_NUMS
  {
    if t < 40 {
      assert DOOMED_NUMS[t] == DOOMED_NUMS_4[t - 32];
    } else if t < 48 {
      assert DOOMED_NUMS[t] == DOOMED_NUMS_5[t - 40];
    } else if t < 56 {
      assert DOOMED_NUMS[t] == DOOMED_NUMS_6[t - 48];
    } else {
      assert DOOMED_NUMS[t] == DOOMED_NUMS_7[t - 56];
    }
  }

  /**
   * Over the whole doomednums table, a type is angular exactly when its
   * DoomEd number is a player start, the deathmatch start or the teleport
   * destination.
   */
  lemma AngularTypesByDoomEdNum(t: nat)
    requires t < MAX
    ensures t <= LASTANGULAR <==> DOOMED_NUMS[t] in ANGULAR_DOOMED_NUMS
  {
    if t <= LASTANGULAR {
      assert DOOMED_NUMS[t] == DOOMED_NUMS_0[t];
    } else {
      LaterNumsNotAngular(t);
    }
  }
}
