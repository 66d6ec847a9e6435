# sdobjects — a Dafny model of the SNES Doom OBJECTS decoder

sdobjects reads the "OBJECTS" lumps of SNES Doom levels: flat runs of
placement records (a flags byte, a type byte, signed 16-bit `x` and `y`, and
for player starts, deathmatch starts and teleport landings a 16-bit binary
angle). It can print each record's flags, type name, coordinates and angle,
and name the THINGS lump it writes for each input file.

This project models:

- `ObjectTypes` (src/sdobjects.h): the `RLObject` record with its integer
  widths, `MAX` and `LASTANGULAR`, `RLObjectIsAngular`, the flag bits and
  `DoomAngleFromRLAngle`.
- `Binary`: the two word readers the decoder calls. They read big-endian
  words and advance the cursor by two. `Binary.WordValue` is the one place
  that fixes the byte order.
- `ObjectTables` (src/sdobjects.cpp): the `doomednums` and `ObjNames`
  tables and the bounds-checked type-name lookup.
- `ObjectReader` (src/sdobjects.cpp): `ReadRLObjects` is a cursor loop over
  an array. It is proved equal to the recursive specification `Decode`.
  `Encode` lays records out again, and the round-trip lemmas use it as the
  decoder's inverse.
- `ObjectPrint` (src/sdobjects.cpp): the values `PrintRLObjects` computes
  before printing. These are the `|`-joined flag string (built by the
  append-then-pop loop), the type name, and the displayed angle, gathered
  per record by the `num` loop.
- `OutputName` (src/sdomain.cpp): `GetOutputFilename` as a method of a
  class that holds the static `filenum` counter and output directory.

One behaviour worth knowing is proved in `OutputName.NumberedAndCounterNamesCanMeet`:
any input ending in `.12` and any input that draws counter value 12 both get
`THINGS.12`.

## Model

| member | source | states |
|---|---|---|
| `ObjectTypes.IsAngular` | src/sdobjects.h:118-120 | a record is angular iff its type index is at most LASTANGULAR = TeleportSpot = 5 |
| `ObjectTypes.TestFlag` | src/sdobjects.cpp:242 | a flag tests set iff the bitwise AND of the 8-bit flags byte and the mask is non-zero |
| `ObjectTypes.SingleBitTests` | src/sdobjects.h:126-134 | a single-bit flag tests set against another single bit iff they are the same bit, and against 0x28 iff it is 0x08 or 0x20 |
| `ObjectTypes.DoomAngleFromRLAngle` | src/sdobjects.h:137-139 | the degrees lie in 0..359 and are the floor of angle*360/65536 (deg*65536 <= angle*360 < (deg+1)*65536) |
| `ObjectTypes.AngleProductFits` | src/sdobjects.h:137-139 | the 32-bit unsigned product angle*360 never exceeds 65535*360 and cannot wrap |
| `ObjectTypes.DoomAngleMonotonic` | src/sdobjects.h:137-139 | a larger binary angle never converts to fewer degrees |
| `ObjectTypes.DoomAngleValues` | src/sdobjects.h:137-139 | 0, 0x4000, 0x8000, 0xC000 and 0xFFFF convert to 0, 90, 180, 270 and 359 degrees |
| `Binary.WordValue` | src/sdobjects.cpp:191-192 | the big-endian word of two bytes is below 0x10000, with the first byte as its high byte and the second as its low byte |
| `Binary.SignedWord` | src/sdobjects.cpp:191-192 | the int16 read is congruent to the unsigned word modulo 0x10000 and negative iff the high byte is at least 0x80 |
| `Binary.UnsignedWord` | src/sdobjects.cpp:198 | the uint16 read is exactly the big-endian word of the two bytes |
| `Binary.GetBinaryWord` | src/sdobjects.cpp:191-192 | reads the signed word at the cursor and returns the cursor advanced by 2 |
| `Binary.GetBinaryUWord` | src/sdobjects.cpp:198 | reads the unsigned word at the cursor and returns the cursor advanced by 2 |
| `Binary.SignedWordRoundTrip` | src/sdobjects.cpp:191-192 | reading back the two bytes of any int16 gives that int16 |
| `Binary.UnsignedWordRoundTrip` | src/sdobjects.cpp:198 | reading back the two bytes of any uint16 gives that uint16 |
| `ObjectTables.TablesAligned` | src/sdobjects.cpp:35-172 | doomednums and ObjNames both have MAX = 64 entries; index 0 is Player1Start/1, index 5 TeleportSpot/14, index 63 FireStickShortBlue/55 |
| `ObjectTables.TypeName` | src/sdobjects.cpp:252-254 | the name is ObjNames[type] inside the table, and it is "Unknown" iff the type is 64 or more |
| `ObjectTables.LaterNamesNotAngular` | src/sdobjects.h:45-113 | no type after LASTANGULAR has the name of a player start, deathmatch start or teleport spot |
| `ObjectTables.AngularTypesByName` | src/sdobjects.h:45-120 | for types inside the table, a record is angular iff its name is one of the four player starts, DeathMatchStart or TeleportSpot |
| `ObjectTables.AngularTypesHaveTableEntry` | src/sdobjects.cpp:106-113 | an angular type lies inside ObjNames, and its type name is the angular name at that index |
| `ObjectTables.LaterNumsNotAngular` | src/sdobjects.cpp:35-101 | no type after LASTANGULAR has the DoomEd number of a player start (1-4), the deathmatch start (11) or a teleport destination (14) |
| `ObjectTables.AngularTypesByDoomEdNum` | src/sdobjects.cpp:35-101 | over the whole doomednums table, a type is angular iff its DoomEd number is one of 1, 2, 3, 4, 11 and 14 |
| `ObjectReader.Header` | src/sdobjects.cpp:187-192 | the fixed part of a record takes flags and type unchanged from its first two bytes and starts with angle 0 |
| `ObjectReader.HasAngle` | src/sdobjects.cpp:196 | a record carries an angle iff its type is angular and at least 2 bytes remain after its first 6 |
| `ObjectReader.RecordLength` | src/sdobjects.cpp:194-202 | a record takes 6 or 8 bytes, never more than remain, and 8 iff its type is angular and at least 8 bytes remain |
| `ObjectReader.FirstRecord` | src/sdobjects.cpp:187-202 | flags, type, x and y come from bytes 0-5; the angle is the word at bytes 6-7 when the record takes 8 bytes, else 0 |
| `ObjectReader.Decode` | src/sdobjects.cpp:179-208 | every decoded record whose type is not angular has angle 0 |
| `ObjectReader.Consumed` | src/sdobjects.cpp:185-205 | the decoder consumes at most the whole buffer and leaves fewer than 6 bytes |
| `ObjectReader.DroppedTailIgnored` | src/sdobjects.cpp:185-205 | decoding only the consumed prefix gives the same records as decoding the whole buffer: the dropped tail never matters |
| `ObjectReader.ReadRLObjects` | src/sdobjects.cpp:179-208 | the rover/remaining loop over the first len bytes returns exactly Decode of those bytes, and its final cursor is Consumed of them: at most len, with fewer than 6 bytes left over |
| `ObjectReader.RecordStarts` | src/sdobjects.cpp:185-205 | there is one start offset per decoded record, and each leaves room for a 6-byte record |
| `ObjectReader.DecodedFieldsAt` | src/sdobjects.cpp:185-205 | records appear in buffer order: the first starts at 0, each next one 6 or 8 bytes after the previous, and each is the record the bytes at its offset describe |
| `ObjectReader.NextStart` | src/sdobjects.cpp:185-205 | each record after the first starts one record length (6 or 8 bytes) after the start of the one before |
| `ObjectReader.RecordAtStart` | src/sdobjects.cpp:187-202 | the record decoded at position i is the record the bytes at its start offset describe |
| `ObjectReader.RecordCountBounds` | src/sdobjects.cpp:185-205 | n records consume between 6n and 8n bytes, and 6n <= len < 8n + 6 |
| `ObjectReader.ShortLumpIsEmpty` | src/sdobjects.cpp:174-185 | a buffer shorter than 6 bytes decodes to no records and consumes nothing |
| `ObjectReader.TruncatedAngularRecord` | src/sdobjects.cpp:194-202 | an angular record with fewer than 2 bytes after it takes 6 bytes and keeps angle 0 |
| `ObjectReader.EncodeRecord` | src/sdobjects.cpp:189-199 | a laid-out record is 8 bytes when its type is angular and 6 otherwise |
| `ObjectReader.DecodeRecordThenRest` | src/sdobjects.cpp:185-205 | decoding a well-formed record followed by any bytes gives that record followed by the decoding of those bytes |
| `ObjectReader.DecodeEncode` | src/sdobjects.cpp:185-205 | a concatenation of well-formed records plus 0-5 stray bytes decodes to exactly those records, in order |
| `ObjectReader.DecodedRecordsAreWellFormed` | src/sdobjects.cpp:196-202 | every record the decoder produces can be laid out again: only angular records carry a non-zero angle |
| `ObjectReader.TwoRecordExample` | src/sdobjects.cpp:185-205 | a teleport landing with angle 0x4000 followed by a type-20 record decodes to exactly those two records (8 then 6 bytes), and the landing faces 90 degrees |
| `ObjectPrint.FlagDataBitsAreDistinctSingleBits` | src/sdobjects.cpp:215-227 | flagdata has six rows whose flags are single bits; no two rows test the same bit, and none is 0x08 or 0x20 |
| `ObjectPrint.RowNameIsNew` | src/sdobjects.cpp:219-227 | no flagdata row repeats the name of an earlier row |
| `ObjectPrint.RowBitIsNamed` | src/sdobjects.cpp:219-227 | every flagdata row's bit lies inside the mask 0xD7 |
| `ObjectPrint.FlagNames` | src/sdobjects.cpp:240-247 | the names of the set bits among the first n flagdata rows, in table order |
| `ObjectPrint.Join` | src/sdobjects.cpp:244-250 | the names with one bar between neighbours and none after the last |
| `ObjectPrint.FlagString` | src/sdobjects.cpp:237-250 | the flag string is the join of the names of all set flagdata bits |
| `ObjectPrint.BuildFlagString` | src/sdobjects.cpp:237-250 | the append-then-pop loop yields the set flag names joined by a bar, never ending in a bar |
| `ObjectPrint.TerminatedIsJoinedPlusBar` | src/sdobjects.cpp:244-250 | appending a bar after every name equals joining them and appending one bar, so one pop leaves the join |
| `ObjectPrint.TerminatedStep` | src/sdobjects.cpp:240-247 | one pass over a flagdata row appends its name and a bar exactly when its bit is set |
| `ObjectPrint.NoFlagsNoNames` | src/sdobjects.cpp:238 | a record with flags 0 gets no flag names |
| `ObjectPrint.FlagStringNoTrailingBar` | src/sdobjects.cpp:249-250 | the flag string is empty or ends in something other than a bar |
| `ObjectPrint.JoinEndsWithLast` | src/sdobjects.cpp:249-250 | a join ends with its last name |
| `ObjectPrint.FlagNamesListSetBits` | src/sdobjects.cpp:219-247 | a flagdata row's name is listed iff its bit is set, and only flagdata names are listed |
| `ObjectPrint.NamedBitSet` | src/sdobjects.cpp:219-227 | some bit of the mask 0xD7 is set iff one of the six rows' bits is set |
| `ObjectPrint.FlagStringEmptyIffNoNamedBit` | src/sdobjects.cpp:237-250 | the flag string is empty iff none of 0x01, 0x02, 0x04, 0x10, 0x40, 0x80 is set |
| `ObjectPrint.FlagNamesIgnoreUnnamedBits` | src/sdobjects.cpp:240-247 | flag bytes that agree on the six named bits list the same names |
| `ObjectPrint.RowTestAgrees` | src/sdobjects.cpp:242 | flag bytes that agree on the named bits agree on every row's `flags & flag` test |
| `ObjectPrint.NamedTestAgrees` | src/sdobjects.cpp:242 | flag bytes that agree on the bits of 0xD7 agree on the `flags & flag` test of any flag inside 0xD7 |
| `ObjectPrint.MaskedBitsAgree` | src/sdobjects.cpp:242 | bytes equal under a mask agree on every bit inside the mask |
| `ObjectPrint.FlagStringIgnoresUnnamedBits` | src/sdobjects.cpp:219-250 | bits 0x08 and 0x20 do not affect the flag string |
| `ObjectPrint.FlagStringExample` | src/sdobjects.cpp:219-250 | flags 0x81 print as EASY and ACTIVE, in that order, joined by one bar (0x01 and 0x80 set) |
| `ObjectPrint.FlagStringAllBits` | src/sdobjects.cpp:219-250 | flags 0xFF print as all six names in declaration order |
| `ObjectPrint.DisplayAngle` | src/sdobjects.cpp:256-258 | the displayed angle lies in 0..359 and is 0 for non-angular records |
| `ObjectPrint.DisplayAngleOfDecoded` | src/sdobjects.cpp:256-258 | for decoded records the angular test is a no-op: the displayed angle is the converted angle field |
| `ObjectPrint.DescribeObjects` | src/sdobjects.cpp:229-271 | one entry per record in collection order, numbered from 0, holding its flag string, type name, coordinates and displayed angle |
| `OutputName.IsDigit` | src/sdomain.cpp:55 | a character is a digit iff it lies in 0..9 |
| `OutputName.DigitChar` | src/sdomain.cpp:63 | the character of a digit d is a digit character whose value is d |
| `OutputName.DigitValue` | src/sdomain.cpp:55 | a digit character has a value below 10 that maps back to it |
| `OutputName.DecimalString` | src/sdomain.cpp:63 | the counter's decimal text is non-empty, all digits, one digit long iff the value is below 10, and starts with 0 only for the value 0 (no leading zeros) |
| `OutputName.DecimalRoundTrip` | src/sdomain.cpp:63 | reading the decimal text of n gives n |
| `OutputName.DecimalStringInjective` | src/sdomain.cpp:63 | different counter values get different decimal texts |
| `OutputName.HasNumberedExtension` | src/sdomain.cpp:51-56 | the input is at least 3 characters long and ends in a dot followed by two digits |
| `OutputName.ThingsName` | src/sdomain.cpp:50-65 | THINGS plus the input's last three characters when it has a numbered extension, otherwise THINGS. plus the counter's decimal text |
| `OutputName.ThingsNameShape` | src/sdomain.cpp:50-65 | every lump name is "THINGS." followed by at least one digit |
| `OutputName.NumberedInputKeepsExtension` | src/sdomain.cpp:50-58 | an input ending in a dot and two digits gets "THINGS" plus those three characters, whatever the counter |
| `OutputName.OtherInputUsesCounter` | src/sdomain.cpp:51-65 | an input without a numbered extension gets exactly "THINGS." plus the counter's plain decimal text, whose value is the counter |
| `OutputName.ShortInputUsesCounter` | src/sdomain.cpp:51 | an input shorter than 3 characters never has a numbered extension, so it always takes the counter path |
| `OutputName.CounterNamesDistinct` | src/sdomain.cpp:40-65 | counter-named lumps for different counter values never share a name |
| `OutputName.NumberedAndCounterNamesCanMeet` | src/sdomain.cpp:50-65 | every input ending in ".12", at any counter value, and every input without a numbered extension named at counter value 12 both get THINGS.12 |
| `OutputName.CollisionExample` | src/sdomain.cpp:50-65 | for example, E1M1.12 and E1M1 named at counter value 12 get the same name |
| `OutputName.OutputNamer.constructor` | src/sdomain.cpp:37-40 | the counter starts at 0 with the given output directory and join |
| `OutputName.OutputNamer.GetOutputFilename` | src/sdomain.cpp:45-68 | the result is the output directory joined with the lump name; the counter is unchanged for a two-digit extension and advanced by exactly 1 otherwise |
| `OutputName.NameTwoInputs` | src/sdomain.cpp:40-68 | two inputs without a two-digit extension, named one after the other, get different lump names, and the counter advances by 2 |

## Left out

- Printing: the `printf` calls and the JSON text layout of `PrintRLObjects` are not modelled. `DescribeObjects` returns the values each record prints.
- `WriteTHINGS` and the THINGS format: called from src/sdomain.cpp but defined in no file of this model. No THINGS layout and no policy for out-of-table types are assumed. `doomednums` is modelled only as a table.
- File and directory I/O, argument parsing and start-up (`ProcessFile`, `ProcessDirectory`, `sdobjects_main` in src/sdomain.cpp): these are plumbing over libraries that are not part of this model.
- The byte order of `E_GetBinaryWord` / `E_GetBinaryUWord`: their bodies (elib/binary.h) are not part of this model. The words are taken as big-endian, in `Binary.WordValue` only.
- qstring's path join `operator/`: not part of this model. It is the `join` function given to `OutputName.OutputNamer`, so nothing is assumed about how it joins.
- `OutputName.OutputNamer.GetOutputFilename`: `filenum` is unbounded here. A C `int` counter would overflow after 2^31 - 1 counter-named files.
- C strings: input paths are taken to hold no NUL character, so the three characters after the dot-and-digits test are the whole C-string tail.
- src/econfig.h holds only preprocessor names for the program; it has no logic.
