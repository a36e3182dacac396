# JCoDroneEdu core, modelled in Dafny

JCoDroneEdu is a Java library for the CoDrone EDU educational drone. This
project models the library's self-contained logic and proves properties
about it. The model covers:

- the byte-at-a-time receiver that frames messages from the serial link:
  start bytes, a 4-byte header, a bounded payload and a CRC16, then dispatch
  and the ACK map (`ReceiverModel`);
- the wire codecs:
  - `Header`, `Buzzer`, `Version`, and the display draw messages (rectangle,
    string, image), with their byte order fixed per class (`HeaderCodec`,
    `BuzzerCodec`, `VersionCodec`, `DrawRectCodec`, `DrawStringCodec`,
    `DrawImageCodec`);
  - the `DataType`, `DeviceType`, `Note` and `BuzzerMode` lookup tables;
- buzzer sequences with their validating builder, and the name → sequence
  registry (`BuzzerSequences`, `BuzzerSequenceRegistries`);
- the autonomous-method framework: parameter definitions and validation, the
  order of the checks in `execute`, the duplicate-refusing registry and the
  parameter map builder (`AutonomousMethods`, `AutonomousMethodRegistries`,
  `ParameterBuilders`);
- `ErrorData`: sensor and state error bitmasks decoded into flag sets
  (`ErrorReports`);
- the flight controller:
  - axis clamping, the `go` direction table and position commands;
  - turning by power or by angle;
  - unit conversions (`FlightControllers`);
- the `Drone` helpers: trim and LED validation, the LED interval table, the
  colour scaling, the colour-label table, pressure and temperature
  conversion, wall detection and the button test (`DroneHelpers`);
- the display canvas and its packing into the 1024-byte bitmap the drone's
  controller screen takes (`DisplayControllers`);
- the controller-input and inventory caches (`ControllerInput`, `Inventory`);
- the Python reference implementation's swarm `Sequence`/`Sync` command
  bookkeeping (`Swarm`).

Java semantics are written out in `Common`:
- signed bytes;
- `(short)` and `int` wrap-around;
- `Math.max`/`Math.min` clamps;
- truncating `(int)` casts of doubles;
- `String.valueOf(int)`;
- ASCII `toLowerCase`/`toUpperCase`;
- sorted key lists.

Message classes (the `Class` objects that `DataType` maps to and from) are
compared only by identity. The model numbers the 41 classes of the table
1 to 41, with each class's simple name beside its number; every other
number stands for a class the table does not name.

Doubles and floats are modelled as mathematical reals. Exceptions are
modelled as an error value: `Throws(...)` in a `Result`, or an
`Option<Exception>` returned by a method.

The code itself decides the following behaviours, and the model follows it:

- `InventoryManager.updateInformation` throws when the device byte of the
  model number is not a known `DeviceType`, because `DeviceType.fromByte`
  throws. A known device other than the drone or the controller is ignored.
  The timestamp is written before the throw.
- The swarm `Sync.add` of a sequence with no commands creates no entry for
  its index: the `for` loop that would create the entry never runs.
- `Drone.getPressure(unit)` returns 0 for a zero reading before it looks at
  the unit, so an unknown unit does not throw then.
- The receiver reads the header's length byte as a signed Java `byte` (see
  "## Findings"). The parser model itself uses the unsigned reading.

## Model

| member | source | states |
|---|---|---|
| DataTypes.CreateInstance | src/main/java/com/otabi/jcodroneedu/protocol/DataType.java:128-133 | an instance exists exactly for the types that have a factory, and it is of the type's message class |
| DataTypes.FromByteSound | src/main/java/com/otabi/jcodroneedu/protocol/DataType.java:149-151 | a type found for a byte has that byte as its value |
| DataTypes.FromByteValue | src/main/java/com/otabi/jcodroneedu/protocol/DataType.java:140-151 | looking up a type's own byte finds that type, since the byte values are distinct |
| DataTypes.FromByteNoneIffUnmapped | src/main/java/com/otabi/jcodroneedu/protocol/DataType.java:149-151 | the lookup gives null exactly for a byte that no type has |
| DataTypes.FromClassSound | src/main/java/com/otabi/jcodroneedu/protocol/DataType.java:153-155 | a type found for a class has that class as its message class |
| DataTypes.FromClassOfMessageClass | src/main/java/com/otabi/jcodroneedu/protocol/DataType.java:140-155 | looking up a type's message class finds that type |
| DataTypes.ClassInjective | src/main/java/com/otabi/jcodroneedu/protocol/DataType.java:140-147 | no two types share a message class, so no `put` into the class map overwrites another type |
| DataTypes.ValueInjective | src/main/java/com/otabi/jcodroneedu/protocol/DataType.java:30-101 | no two types share a byte value |
| DataTypes.AllTypesComplete | src/main/java/com/otabi/jcodroneedu/protocol/DataType.java:141 | `values()` lists every type |
| DataTypes.FillLookupMaps | src/main/java/com/otabi/jcodroneedu/protocol/DataType.java:140-147 | the static loop's two maps send each listed type's byte and class back to that type, and hold nothing else |
| DataTypes.BuildLookupMaps | src/main/java/com/otabi/jcodroneedu/protocol/DataType.java:137-155 | the maps built over all types answer exactly as `fromByte` and `fromClass` do |
| DeviceTypes.FromByteValue | src/main/java/com/otabi/jcodroneedu/protocol/DeviceType.java:42-49 | decoding a device's own byte gives that device |
| DeviceTypes.FromByteSound | src/main/java/com/otabi/jcodroneedu/protocol/DeviceType.java:42-49 | a decoded device has the decoded byte as its value |
| DeviceTypes.FromByteNoneIffUnmapped | src/main/java/com/otabi/jcodroneedu/protocol/DeviceType.java:42-49 | decoding fails exactly for a byte no device has |
| HeaderCodec.Size | src/main/java/com/otabi/jcodroneedu/protocol/Header.java:25-27 | a header is 4 bytes |
| HeaderCodec.PackLayout | src/main/java/com/otabi/jcodroneedu/protocol/Header.java:30-36 | pack writes data type, length, source device and target device, in that order |
| HeaderCodec.UnpackPack | src/main/java/com/otabi/jcodroneedu/protocol/Header.java:41-47 | unpacking a packed header gives it back and leaves the following bytes unread |
| HeaderCodec.UnpackUnknownDevice | src/main/java/com/otabi/jcodroneedu/protocol/Header.java:43-46 | unpack throws exactly when a device byte is unknown; an unknown data-type byte gives a null type instead |
| HeaderCodec.UnpackShort | src/main/java/com/otabi/jcodroneedu/protocol/Header.java:41-46 | fewer than 4 bytes make unpack throw |
| BuzzerModes.ValueRange | src/main/java/com/otabi/jcodroneedu/protocol/buzzer/BuzzerMode.java:11-46 | every mode value lies in 0..7 |
| BuzzerModes.ValueInjective | src/main/java/com/otabi/jcodroneedu/protocol/buzzer/BuzzerMode.java:11-46 | the mode values are distinct |
| BuzzerModes.FromValueValue | src/main/java/com/otabi/jcodroneedu/protocol/buzzer/BuzzerMode.java:70-75 | `fromValue(getValue(m))` is `m` |
| BuzzerModes.FromValueDomain | src/main/java/com/otabi/jcodroneedu/protocol/buzzer/BuzzerMode.java:70-77 | `fromValue` succeeds exactly on 0..7, and then returns the mode with that value |
| Notes.Semitone | src/main/java/com/otabi/jcodroneedu/protocol/buzzer/Note.java:9-38 | a pitch's position within its octave is 0..11 |
| Notes.PitchCodesConsecutive | src/main/java/com/otabi/jcodroneedu/protocol/buzzer/Note.java:9-38 | C1..B8 carry the codes 0x00..0x5F, each note one above the previous one, also across an octave boundary |
| Notes.SemitoneRoundTrip | src/main/java/com/otabi/jcodroneedu/protocol/buzzer/Note.java:9-38 | a pitch class is recovered from its position in the octave |
| Notes.FromValueValue | src/main/java/com/otabi/jcodroneedu/protocol/buzzer/Note.java:77-82 | `fromValue(getValue(n))` is `n` |
| Notes.FromValueSound | src/main/java/com/otabi/jcodroneedu/protocol/buzzer/Note.java:77-84 | `fromValue` returns a note with the value asked for, and throws exactly when no note has it |
| Notes.MusicalIffPitch | src/main/java/com/otabi/jcodroneedu/protocol/buzzer/Note.java:110-112 | a note is musical exactly when it is one of C1..B8; END_OF_TYPE, MUTE and FIN are not |
| BuzzerCodec.Default | src/main/java/com/otabi/jcodroneedu/protocol/buzzer/Buzzer.java:19-23 | the default buzzer message is STOP with the MUTE value and time 1 |
| BuzzerCodec.Pack | src/main/java/com/otabi/jcodroneedu/protocol/buzzer/Buzzer.java:45-54 | a packed buzzer message is 5 bytes |
| BuzzerCodec.ToArray | src/main/java/com/otabi/jcodroneedu/protocol/Serializable.java:40-45 | the default-order array of a buzzer message is 5 bytes |
| BuzzerCodec.ReadUnsignedShort | src/main/java/com/otabi/jcodroneedu/protocol/buzzer/Buzzer.java:64-65 | a short read and masked with 0xFFFF lies in 0..65535 |
| BuzzerCodec.StopCommand | src/main/java/com/otabi/jcodroneedu/protocol/buzzer/Buzzer.java:69-71 | `stop()` is the default message |
| BuzzerCodec.MuteCommand | src/main/java/com/otabi/jcodroneedu/protocol/buzzer/Buzzer.java:73-75 | `mute(d)` is MUTE mode with the MUTE value for `d` ms |
| BuzzerCodec.NoteCommand | src/main/java/com/otabi/jcodroneedu/protocol/buzzer/Buzzer.java:77-79 | `note(n, d)` is SCALE mode whose value decodes back to `n` |
| BuzzerCodec.FrequencyCommand | src/main/java/com/otabi/jcodroneedu/protocol/buzzer/Buzzer.java:81-83 | `frequency(hz, d)` is HZ mode with value `hz` |
| BuzzerCodec.ShortFieldRoundTrip | src/main/java/com/otabi/jcodroneedu/protocol/buzzer/Buzzer.java:52-65 | a value written with `(short)` and read back with `& 0xFFFF` comes back modulo 65536 |
| BuzzerCodec.UnpackPack | src/main/java/com/otabi/jcodroneedu/protocol/buzzer/Buzzer.java:50-66 | unpacking a packed message gives the mode back, value and time modulo 65536, and leaves the following bytes unread |
| BuzzerCodec.UnpackPackInRange | src/main/java/com/otabi/jcodroneedu/protocol/buzzer/Buzzer.java:50-66 | for value and time in 0..65535 unpack is the exact inverse of pack |
| BuzzerCodec.UnpackMasks | src/main/java/com/otabi/jcodroneedu/protocol/buzzer/Buzzer.java:64-65 | an unpacked value and time always lie in 0..65535 |
| BuzzerCodec.UnpackRejects | src/main/java/com/otabi/jcodroneedu/protocol/buzzer/Buzzer.java:57-63 | fewer than 5 bytes throw the size error; a mode byte above 7 throws |
| VersionCodec.Pack | src/main/java/com/otabi/jcodroneedu/protocol/linkmanager/Version.java:30-35 | 4 bytes: the build short, then minor, then major |
| VersionCodec.UnpackPack | src/main/java/com/otabi/jcodroneedu/protocol/linkmanager/Version.java:38-43 | unpack inverts pack and leaves the following bytes unread |
| VersionCodec.UnpackShortBuffer | src/main/java/com/otabi/jcodroneedu/protocol/linkmanager/Version.java:38-43 | fewer than 4 bytes underflow the buffer |
| VersionCodec.ToStringFields | src/main/java/com/otabi/jcodroneedu/protocol/linkmanager/Version.java:46-49 | the text is three decimal numbers joined by dots: major and minor as unsigned bytes, build as an unsigned short |
| DrawRectCodec.Default | src/main/java/com/otabi/jcodroneedu/protocol/display/DisplayDrawRect.java:25-33 | the default rectangle is white, filled, solid, at the origin with zero size |
| DrawRectCodec.Make | src/main/java/com/otabi/jcodroneedu/protocol/display/DisplayDrawRect.java:45-53 | the constructor narrows the coordinates with `(short)` and keeps short values unchanged |
| DrawRectCodec.Pack | src/main/java/com/otabi/jcodroneedu/protocol/display/DisplayDrawRect.java:78-91 | a packed rectangle is 11 bytes |
| DrawRectCodec.ToArray | src/main/java/com/otabi/jcodroneedu/protocol/display/DisplayDrawRect.java:94-99 | `toArray` packs little-endian |
| DrawRectCodec.UnpackPack | src/main/java/com/otabi/jcodroneedu/protocol/display/DisplayDrawRect.java:83-114 | unpack inverts pack in either byte order and leaves the following bytes unread |
| DrawRectCodec.ToArrayRoundTrip | src/main/java/com/otabi/jcodroneedu/protocol/display/DisplayDrawRect.java:94-114 | the little-endian array unpacks to the same rectangle |
| DrawRectCodec.UnpackRejectsShort | src/main/java/com/otabi/jcodroneedu/protocol/display/DisplayDrawRect.java:102-105 | fewer than 11 bytes throw the size error |
| DrawRectCodec.UnpackFillFlag | src/main/java/com/otabi/jcodroneedu/protocol/display/DisplayDrawRect.java:107-113 | with 11 bytes unpack succeeds, and the fill flag is true exactly when its byte is non-zero |
| DrawStringCodec.Make | src/main/java/com/otabi/jcodroneedu/protocol/display/DisplayDrawString.java:40-47 | a null message becomes empty; the coordinates are narrowed with `(short)` |
| DrawStringCodec.SetMessage | src/main/java/com/otabi/jcodroneedu/protocol/display/DisplayDrawString.java:62 | a null message becomes empty and no other field changes |
| DrawStringCodec.Size | src/main/java/com/otabi/jcodroneedu/protocol/display/DisplayDrawString.java:65-67 | the size is a signed byte, equal to 6 plus the message length while that is below 128 |
| DrawStringCodec.Pack | src/main/java/com/otabi/jcodroneedu/protocol/display/DisplayDrawString.java:70-76 | the six fixed bytes are followed by the message bytes |
| DrawStringCodec.UnpackPack | src/main/java/com/otabi/jcodroneedu/protocol/display/DisplayDrawString.java:70-101 | unpack takes every byte after the fixed part as the message, so it inverts pack |
| DrawStringCodec.ToArrayRoundTrip | src/main/java/com/otabi/jcodroneedu/protocol/display/DisplayDrawString.java:65-84 | up to 121 message bytes, the little-endian array unpacks to the same message; from 122 on the size wraps negative and the array allocation throws |
| DrawStringCodec.UnpackRejectsShort | src/main/java/com/otabi/jcodroneedu/protocol/display/DisplayDrawString.java:87-90 | fewer than 6 bytes throw the size error |
| DrawImageCodec.Default | src/main/java/com/otabi/jcodroneedu/protocol/display/DisplayDrawImage.java:29-35 | the default image is at the origin with zero size and no data |
| DrawImageCodec.Make | src/main/java/com/otabi/jcodroneedu/protocol/display/DisplayDrawImage.java:45-52 | null data becomes empty; the coordinates are narrowed with `(short)` |
| DrawImageCodec.SetImageData | src/main/java/com/otabi/jcodroneedu/protocol/display/DisplayDrawImage.java:67 | null data becomes empty and no other field changes |
| DrawImageCodec.Size | src/main/java/com/otabi/jcodroneedu/protocol/display/DisplayDrawImage.java:70-73 | the size is `(byte)(8 + length)`: a signed byte equal to 8 plus the length modulo 256 |
| DrawImageCodec.Pack | src/main/java/com/otabi/jcodroneedu/protocol/display/DisplayDrawImage.java:76-82 | the eight fixed bytes are followed by the image data |
| DrawImageCodec.UnpackPack | src/main/java/com/otabi/jcodroneedu/protocol/display/DisplayDrawImage.java:76-101 | unpack takes every byte after the fixed part as data, so it inverts pack |
| DrawImageCodec.UnpackRejectsShort | src/main/java/com/otabi/jcodroneedu/protocol/display/DisplayDrawImage.java:87-90 | fewer than 8 bytes throw the size error |
| DrawImageCodec.ToArrayDomain | src/main/java/com/otabi/jcodroneedu/protocol/Serializable.java:40-45 | the inherited `toArray` succeeds exactly while 8 plus the data length stays below 128 |
| DrawImageCodec.ToArrayIntended | src/main/java/com/otabi/jcodroneedu/protocol/display/DisplayDrawImage.java:84 | the corrected array: little-endian, sized by the real length |
| DrawImageCodec.IntendedRoundTrip | src/main/java/com/otabi/jcodroneedu/protocol/display/DisplayDrawImage.java:84-101 | the corrected array unpacks little-endian to the same image |
| DrawImageCodec.ByteOrderMismatch | src/main/java/com/otabi/jcodroneedu/protocol/display/DisplayDrawImage.java:84 | the inherited array is big-endian: read little-endian, x = 10 comes back as 2560 |
| DrawImageCodec.SizeWrapThrows | src/main/java/com/otabi/jcodroneedu/protocol/display/DisplayDrawImage.java:70-73 | a 240-byte image (128×30 pixels) has size -8, so `toArray` throws; the corrected array has 248 bytes |
| ReceiverModel.Initial | src/main/java/com/otabi/jcodroneedu/receiver/Receiver.java:53-59 | a new parser waits in START at index 0, with no ACK pending and nothing delivered |
| ReceiverModel.AckReceived | src/main/java/com/otabi/jcodroneedu/receiver/Receiver.java:266-274 | an ACK removes the pending entry for its type and completes it if there was one; nothing else changes |
| ReceiverModel.InitialValid | src/main/java/com/otabi/jcodroneedu/receiver/Receiver.java:53-86 | the initial state satisfies the parser invariant |
| ReceiverModel.StepValid | src/main/java/com/otabi/jcodroneedu/receiver/Receiver.java:88-123 | every byte keeps the invariant: the index stays within its section, the buffer holds the payload read so far (never more than the header length), and the calculated CRC is the CRC of the header and payload bytes consumed |
| ReceiverModel.NoiseIgnored | src/main/java/com/otabi/jcodroneedu/receiver/Receiver.java:115-131 | in an idle parser, any byte other than the first start byte changes nothing |
| ReceiverModel.WrongSecondStartByte | src/main/java/com/otabi/jcodroneedu/receiver/Receiver.java:133-139 | a wrong second start byte resets the parser to START, index 0 |
| ReceiverModel.LengthAboveMaxRejected | src/main/java/com/otabi/jcodroneedu/receiver/Receiver.java:154-159 | a length above the maximum payload resets the parser without delivering anything |
| ReceiverModel.HeaderEndsInEndOrData | src/main/java/com/otabi/jcodroneedu/receiver/Receiver.java:175-180 | after the header, length 0 goes straight to END and any other length to DATA, at index 0 |
| ReceiverModel.CrcMismatchResets | src/main/java/com/otabi/jcodroneedu/receiver/Receiver.java:198-215 | a received CRC (low byte first) that differs from the calculated one resets the parser; nothing is delivered and the ACK map is unchanged |
| ReceiverModel.DeliveredIffParsed | src/main/java/com/otabi/jcodroneedu/receiver/Receiver.java:236-256 | a frame is delivered exactly when it is not an ACK, its type has a factory and its message parses the payload; a payload that fails to parse changes nothing and reaches no handler |
| ReceiverModel.TrimNeverHandled | src/main/java/com/otabi/jcodroneedu/receiver/Receiver.java:237-241 | a type with no factory, such as Trim, is dropped without effect |
| ReceiverModel.AckRemovesOnlyItsEntry | src/main/java/com/otabi/jcodroneedu/receiver/Receiver.java:266-274 | an ACK removes only the entry it names and delivers nothing |
| ReceiverModel.Run | src/main/java/com/otabi/jcodroneedu/receiver/Receiver.java:88-123 | feeding any byte stream keeps the parser invariant |
| ReceiverModel.RunAppend | src/main/java/com/otabi/jcodroneedu/receiver/Receiver.java:88-123 | feeding two streams one after the other is feeding their concatenation |
| ReceiverModel.RunPayload | src/main/java/com/otabi/jcodroneedu/receiver/Receiver.java:187-196 | DATA buffers exactly `length` payload bytes, adds them to the CRC and then moves to END |
| ReceiverModel.RunHeader | src/main/java/com/otabi/jcodroneedu/receiver/Receiver.java:125-185 | the two start bytes and a valid header take an idle parser to DATA, or to END for an empty payload; the CRC so far covers the header bytes only |
| ReceiverModel.RunCrc | src/main/java/com/otabi/jcodroneedu/receiver/Receiver.java:198-215 | a matching CRC, low byte then high byte, processes the payload once and resets the parser |
| ReceiverModel.FrameDispatchedOnce | src/main/java/com/otabi/jcodroneedu/receiver/Receiver.java:125-215 | a whole well-formed frame fed to an idle parser is dispatched exactly once on its type and payload, and the parser is idle again |
| ReceiverModel.NegativeLengthNeverCompletes | src/main/java/com/otabi/jcodroneedu/receiver/Receiver.java:155-191 | as written, a length byte of 0x80 or above passes the maximum check and DATA never completes |
| ReceiverModel.UnsignedLengthAgreesBelow0x80 | src/main/java/com/otabi/jcodroneedu/receiver/Receiver.java:155-159 | below 0x80 the unsigned reading accepts exactly the lengths the code accepts; above the maximum, only the code's signed reading accepts a length |
| ReceiverModel.Receiver.constructor | src/main/java/com/otabi/jcodroneedu/receiver/Receiver.java:53-76 | the parser object starts in the initial state |
| ReceiverModel.Receiver.Reset | src/main/java/com/otabi/jcodroneedu/receiver/Receiver.java:78-86 | `reset` returns to START and clears the buffer, and keeps the ACK map |
| ReceiverModel.Receiver.ClearHeader | src/main/java/com/otabi/jcodroneedu/receiver/Receiver.java:81 | dropping the header clears its type, length and addresses and changes nothing else |
| ReceiverModel.Receiver.ClearMessage | src/main/java/com/otabi/jcodroneedu/receiver/Receiver.java:82-84 | clearing the buffer empties it and zeroes both CRCs, and changes nothing else |
| ReceiverModel.Receiver.ExpectAck | src/main/java/com/otabi/jcodroneedu/receiver/Receiver.java:260-262 | `expectAck` adds a pending entry for the type |
| ReceiverModel.Receiver.HasAckFuture | src/main/java/com/otabi/jcodroneedu/receiver/Receiver.java:263-265 | a future exists exactly for a pending type |
| ReceiverModel.Receiver.OnAckReceived | src/main/java/com/otabi/jcodroneedu/receiver/Receiver.java:266-274 | the object's fields change as `AckReceived` says |
| ReceiverModel.Receiver.HandleStart | src/main/java/com/otabi/jcodroneedu/receiver/Receiver.java:125-142 | the fields change as the START step says |
| ReceiverModel.Receiver.HandleHeader | src/main/java/com/otabi/jcodroneedu/receiver/Receiver.java:144-185 | the fields change as the HEADER step says |
| ReceiverModel.Receiver.HandleData | src/main/java/com/otabi/jcodroneedu/receiver/Receiver.java:187-196 | the fields change as the DATA step says |
| ReceiverModel.Receiver.ProcessPayload | src/main/java/com/otabi/jcodroneedu/receiver/Receiver.java:222-257 | dispatch by type: an ACK completes its entry, a type with no factory is dropped, a payload its message fails to parse is dropped before the handler lookup, any other frame is delivered |
| ReceiverModel.Receiver.HandleEnd | src/main/java/com/otabi/jcodroneedu/receiver/Receiver.java:198-215 | the fields change as the END step says |
| ReceiverModel.Receiver.HandleSection | src/main/java/com/otabi/jcodroneedu/receiver/Receiver.java:96-116 | the `switch` runs exactly the current section's handler, as `SectionStep` says |
| ReceiverModel.Receiver.Call | src/main/java/com/otabi/jcodroneedu/receiver/Receiver.java:88-123 | one `call` changes the fields as `Step` says, and keeps the invariant |
| BuzzerSequences.NoteError | src/main/java/com/otabi/jcodroneedu/buzzer/BuzzerSequence.java:225-237 | a note is refused, with an illegal-argument error, exactly when its frequency is outside 0..10000, its duration outside 1..10000 or its delay outside 0..10000 |
| BuzzerSequences.SumDurationsAppend | src/main/java/com/otabi/jcodroneedu/buzzer/BuzzerSequence.java:107-111 | appending a note adds its duration plus its delay to the total |
| BuzzerSequences.SumDurationsBounds | src/main/java/com/otabi/jcodroneedu/buzzer/BuzzerSequence.java:107-111 | for valid notes the total lies between one ms per note and 20000 ms per note |
| BuzzerSequences.TotalDurationExact | src/main/java/com/otabi/jcodroneedu/buzzer/BuzzerSequence.java:107-111 | the `int` total equals the exact sum (no overflow) for up to 107374 valid notes |
| BuzzerSequences.Builder.constructor | src/main/java/com/otabi/jcodroneedu/buzzer/BuzzerSequence.java:201-202 | a new builder has no notes |
| BuzzerSequences.Builder.AddNoteWithDelay | src/main/java/com/otabi/jcodroneedu/buzzer/BuzzerSequence.java:225-241 | a valid note is appended; an invalid one is refused and the list is unchanged |
| BuzzerSequences.Builder.AddNote | src/main/java/com/otabi/jcodroneedu/buzzer/BuzzerSequence.java:212-214 | `addNote(f, d)` behaves as `addNote(f, d, 0)` |
| BuzzerSequences.Builder.AddPause | src/main/java/com/otabi/jcodroneedu/buzzer/BuzzerSequence.java:252-259 | a pause of 1..10000 ms appends the note (0, p, 0); otherwise it is refused and nothing changes |
| BuzzerSequences.Builder.Build | src/main/java/com/otabi/jcodroneedu/buzzer/BuzzerSequence.java:268-278 | a sequence is built exactly when the name is non-null and not blank and there is a note; it holds the builder's notes; the name is checked first |
| BuzzerSequences.CreateSuccessSequence | src/main/java/com/otabi/jcodroneedu/buzzer/BuzzerSequence.java:291-296 | the built-in success sequence, every note of it valid |
| BuzzerSequences.CreateWarningSequence | src/main/java/com/otabi/jcodroneedu/buzzer/BuzzerSequence.java:304-310 | the built-in warning sequence, every note of it valid |
| BuzzerSequences.CreateErrorSequence | src/main/java/com/otabi/jcodroneedu/buzzer/BuzzerSequence.java:318-324 | the built-in error sequence, every note of it valid |
| BuzzerSequences.BuiltInDurations | src/main/java/com/otabi/jcodroneedu/buzzer/BuzzerSequence.java:291-324 | the built-ins last 290, 700 and 640 ms |
| BuzzerSequences.BuildsAccumulate | src/main/java/com/otabi/jcodroneedu/buzzer/BuzzerSequence.java:78-81 | a built sequence keeps a snapshot of the notes, while the builder goes on accumulating across builds |
| BuzzerSequenceRegistries.BuiltIns | src/main/java/com/otabi/jcodroneedu/buzzer/BuzzerSequenceRegistry.java:84-88 | the built-ins are success, warning and error, each under its own name and made of valid notes |
| BuzzerSequenceRegistries.RestoreIdempotent | src/main/java/com/otabi/jcodroneedu/buzzer/BuzzerSequenceRegistry.java:182-184 | restoring the built-ins twice is the same as restoring them once |
| BuzzerSequenceRegistries.BuzzerSequenceRegistry.constructor | src/main/java/com/otabi/jcodroneedu/buzzer/BuzzerSequenceRegistry.java:66-69 | a new registry holds exactly the built-ins |
| BuzzerSequenceRegistries.BuzzerSequenceRegistry.RegisterBuiltInSequences | src/main/java/com/otabi/jcodroneedu/buzzer/BuzzerSequenceRegistry.java:84-88 | the three built-ins are put into the map, replacing entries of the same name |
| BuzzerSequenceRegistries.BuzzerSequenceRegistry.Register | src/main/java/com/otabi/jcodroneedu/buzzer/BuzzerSequenceRegistry.java:103-112 | a null or blank name or a null sequence is refused and the map is unchanged; otherwise the entry is put, replacing an existing one without changing the count |
| BuzzerSequenceRegistries.BuzzerSequenceRegistry.Get | src/main/java/com/otabi/jcodroneedu/buzzer/BuzzerSequenceRegistry.java:120-122 | the sequence under the name, or null when there is none |
| BuzzerSequenceRegistries.BuzzerSequenceRegistry.Has | src/main/java/com/otabi/jcodroneedu/buzzer/BuzzerSequenceRegistry.java:130-132 | true exactly when the name is registered |
| BuzzerSequenceRegistries.BuzzerSequenceRegistry.Unregister | src/main/java/com/otabi/jcodroneedu/buzzer/BuzzerSequenceRegistry.java:143-145 | true exactly when the name was registered; afterwards it is absent and nothing else changes |
| BuzzerSequenceRegistries.BuzzerSequenceRegistry.List | src/main/java/com/otabi/jcodroneedu/buzzer/BuzzerSequenceRegistry.java:152-156 | the names, strictly sorted, each registered name once |
| BuzzerSequenceRegistries.BuzzerSequenceRegistry.Count | src/main/java/com/otabi/jcodroneedu/buzzer/BuzzerSequenceRegistry.java:163-165 | the number of registered names |
| BuzzerSequenceRegistries.BuzzerSequenceRegistry.Clear | src/main/java/com/otabi/jcodroneedu/buzzer/BuzzerSequenceRegistry.java:174-176 | the map becomes empty |
| BuzzerSequenceRegistries.BuzzerSequenceRegistry.RestoreBuiltIns | src/main/java/com/otabi/jcodroneedu/buzzer/BuzzerSequenceRegistry.java:182-184 | the built-ins are put back and custom entries under other names are kept |
| BuzzerSequenceRegistries.ClearThenRestoreTwice | src/main/java/com/otabi/jcodroneedu/buzzer/BuzzerSequenceRegistry.java:174-184 | clear and then restore twice leaves exactly the built-ins, listed as error, success, warning |
| BuzzerSequenceRegistries.SortedBuiltInNames | src/main/java/com/otabi/jcodroneedu/buzzer/BuzzerSequenceRegistry.java:152-156 | the sorted list of the three built-in names is error, success, warning |
| ErrorReports.ParseSensorErrors | src/main/java/com/otabi/jcodroneedu/ErrorData.java:255-263 | a sensor flag is in the set exactly when its bit is set in the mask and it is not NONE |
| ErrorReports.ParseStateErrors | src/main/java/com/otabi/jcodroneedu/ErrorData.java:265-273 | a state flag is in the set exactly when its bit is set in the mask and it is not NONE |
| ErrorReports.DoubleToInt | src/main/java/com/otabi/jcodroneedu/ErrorData.java:105 | Java's `(int)` of a double: truncation toward zero, saturating at the `int` bounds |
| ErrorReports.Create | src/main/java/com/otabi/jcodroneedu/ErrorData.java:87-93 | both raw masks are kept unchanged, both sets are decoded from them, and the timestamp is taken in milliseconds |
| ErrorReports.FromArray | src/main/java/com/otabi/jcodroneedu/ErrorData.java:101-106 | a report exists exactly for a non-null array of length 3; its masks are the `(int)` casts of elements 1 and 2 |
| ErrorReports.NoneNeverDecoded | src/main/java/com/otabi/jcodroneedu/ErrorData.java:255-273 | NONE is never in a decoded set |
| ErrorReports.UnknownBitsIgnored | src/main/java/com/otabi/jcodroneedu/ErrorData.java:255-273 | a mask with no known bit decodes to the empty set, whatever other bits it carries |
| ErrorReports.HasAnyErrorsIffKnownBits | src/main/java/com/otabi/jcodroneedu/ErrorData.java:199-201 | `hasAnyErrors` holds exactly when either mask has a known flag bit |
| ErrorReports.CalibratingAndLowBatteryBits | src/main/java/com/otabi/jcodroneedu/ErrorData.java:228-239 | `isCalibrating` is bit 0x8 of the sensor mask; `isLowBattery` is bit 0x8 of the state mask |
| ErrorReports.CriticalBits | src/main/java/com/otabi/jcodroneedu/ErrorData.java:246-251 | `hasCriticalErrors` holds exactly when the state mask has one of LOW_BATTERY, ATTITUDE_NOT_STABLE, TAKEOFF_FAILURE or PROPELLER_VIBRATION (0x78) |
| AutonomousMethods.AutonomousMethod.constructor | src/main/java/com/otabi/jcodroneedu/autonomous/AutonomousMethod.java:91-96 | a method starts with its name, its description and no parameters |
| AutonomousMethods.AutonomousMethod.AddParameter | src/main/java/com/otabi/jcodroneedu/autonomous/AutonomousMethod.java:139-141 | a definition is put under its name, replacing an existing one |
| AutonomousMethods.AutonomousMethod.GetParameterDefinitions | src/main/java/com/otabi/jcodroneedu/autonomous/AutonomousMethod.java:245-247 | a copy of the definitions |
| AutonomousMethods.AutonomousMethod.ValidateParameters | src/main/java/com/otabi/jcodroneedu/autonomous/AutonomousMethod.java:200-226 | the parameters pass exactly when every defined name is present and every given name is defined and in its inclusive range; a missing name is reported first, otherwise an unknown name or an out-of-range value |
| AutonomousMethods.AutonomousMethod.Execute | src/main/java/com/otabi/jcodroneedu/autonomous/AutonomousMethod.java:152-181 | the connection check comes before parameter validation, and the algorithm runs only if both pass; then a 0.5 s hover on success, and on failure a 1.0 s hover and a runtime error |
| AutonomousMethods.NewAvoidWall | src/main/java/com/otabi/jcodroneedu/autonomous/examples/AvoidWallAutonomousMethod.java:19-20 | avoidWall defines timeout 1..30 and distance 10..100 |
| AutonomousMethods.NewKeepDistance | src/main/java/com/otabi/jcodroneedu/autonomous/examples/KeepDistanceAutonomousMethod.java:19-20 | keepDistance defines timeout 1..30 and distance 10..100 |
| AutonomousMethods.BuiltInParametersValid | src/main/java/com/otabi/jcodroneedu/autonomous/AutonomousMethod.java:200-226 | for the built-ins' definitions, the parameters pass exactly when they are timeout 1..30 and distance 10..100 and nothing else |
| AutonomousMethodRegistries.AutonomousMethodRegistry.constructor | src/main/java/com/otabi/jcodroneedu/autonomous/AutonomousMethodRegistry.java:57-81 | a new registry holds exactly avoidWall and keepDistance |
| AutonomousMethodRegistries.AutonomousMethodRegistry.Register | src/main/java/com/otabi/jcodroneedu/autonomous/AutonomousMethodRegistry.java:89-99 | a name already present throws and leaves the map unchanged; otherwise the method is added under its name |
| AutonomousMethodRegistries.AutonomousMethodRegistry.GetMethod | src/main/java/com/otabi/jcodroneedu/autonomous/AutonomousMethodRegistry.java:108-118 | the method registered under the name, or an illegal-argument error for an unknown name |
| AutonomousMethodRegistries.AutonomousMethodRegistry.HasMethod | src/main/java/com/otabi/jcodroneedu/autonomous/AutonomousMethodRegistry.java:126-128 | true exactly when the name is registered |
| AutonomousMethodRegistries.AutonomousMethodRegistry.ListMethods | src/main/java/com/otabi/jcodroneedu/autonomous/AutonomousMethodRegistry.java:135-139 | the registered names, strictly sorted |
| AutonomousMethodRegistries.AutonomousMethodRegistry.Unregister | src/main/java/com/otabi/jcodroneedu/autonomous/AutonomousMethodRegistry.java:156-163 | true exactly when the name was registered; afterwards it is absent |
| AutonomousMethodRegistries.AutonomousMethodRegistry.ClearCustomMethods | src/main/java/com/otabi/jcodroneedu/autonomous/AutonomousMethodRegistry.java:169-187 | every name except the two built-ins is removed, and the built-ins keep their methods |
| AutonomousMethodRegistries.AutonomousMethodRegistry.GetMethodCount | src/main/java/com/otabi/jcodroneedu/autonomous/AutonomousMethodRegistry.java:281-283 | the number of registered methods |
| AutonomousMethodRegistries.BuiltInsListed | src/main/java/com/otabi/jcodroneedu/autonomous/AutonomousMethodRegistry.java:57-139 | a new registry lists exactly avoidWall, keepDistance |
| ParameterBuilders.ParameterBuilder.constructor | src/main/java/com/otabi/jcodroneedu/autonomous/ParameterBuilder.java:48-50 | a new builder is empty |
| ParameterBuilders.ParameterBuilder.Set | src/main/java/com/otabi/jcodroneedu/autonomous/ParameterBuilder.java:68-71 | the value is stored under the name, replacing an earlier one; other names are untouched |
| ParameterBuilders.ParameterBuilder.Speed | src/main/java/com/otabi/jcodroneedu/autonomous/ParameterBuilder.java:79-81 | writes key "speed" |
| ParameterBuilders.ParameterBuilder.Radius | src/main/java/com/otabi/jcodroneedu/autonomous/ParameterBuilder.java:89-91 | writes key "radius" |
| ParameterBuilders.ParameterBuilder.Direction | src/main/java/com/otabi/jcodroneedu/autonomous/ParameterBuilder.java:99-101 | writes key "direction" |
| ParameterBuilders.ParameterBuilder.Segments | src/main/java/com/otabi/jcodroneedu/autonomous/ParameterBuilder.java:109-111 | writes key "segments" |
| ParameterBuilders.ParameterBuilder.Duration | src/main/java/com/otabi/jcodroneedu/autonomous/ParameterBuilder.java:119-121 | writes key "seconds", not "duration" |
| ParameterBuilders.ParameterBuilder.SizeParameter | src/main/java/com/otabi/jcodroneedu/autonomous/ParameterBuilder.java:129-131 | writes key "size" |
| ParameterBuilders.ParameterBuilder.Build | src/main/java/com/otabi/jcodroneedu/autonomous/ParameterBuilder.java:138-140 | a copy of the current parameters |
| ParameterBuilders.ParameterBuilder.Size | src/main/java/com/otabi/jcodroneedu/autonomous/ParameterBuilder.java:148-150 | the number of parameters |
| ParameterBuilders.ParameterBuilder.HasParameter | src/main/java/com/otabi/jcodroneedu/autonomous/ParameterBuilder.java:158-160 | true exactly when the name is set |
| ParameterBuilders.ParameterBuilder.GetParameter | src/main/java/com/otabi/jcodroneedu/autonomous/ParameterBuilder.java:168-170 | the stored value, or null when the name is not set |
| ParameterBuilders.ParameterBuilder.Clear | src/main/java/com/otabi/jcodroneedu/autonomous/ParameterBuilder.java:177-180 | size 0 afterwards |
| ParameterBuilders.ParameterBuilder.Copy | src/main/java/com/otabi/jcodroneedu/autonomous/ParameterBuilder.java:187-191 | a new builder with the same parameters |
| ParameterBuilders.BuildThenSet | src/main/java/com/otabi/jcodroneedu/autonomous/ParameterBuilder.java:138-140 | a `set` after `build` does not change the built map |
| ParameterBuilders.CopyThenSet | src/main/java/com/otabi/jcodroneedu/autonomous/ParameterBuilder.java:187-191 | a `set` on the original does not change the copy |
| FlightControllers.Axis | src/main/java/com/otabi/jcodroneedu/FlightController.java:337-344 | an axis value sent through the signed-byte field is the value clamped to -100..100 |
| FlightControllers.GoAxesMeaning | src/main/java/com/otabi/jcodroneedu/FlightController.java:413-451 | `go` clears all axes and sets only the one its direction names, to plus or minus the power clamped to 0..100; yaw stays 0 and an unknown direction leaves every axis 0 |
| FlightControllers.GoCaseInsensitive | src/main/java/com/otabi/jcodroneedu/FlightController.java:426-445 | upper- or lower-casing the direction does not change the result of `go` |
| FlightControllers.ConvertToMetersSign | src/main/java/com/otabi/jcodroneedu/FlightController.java:703-721 | an unknown unit gives -1; a known unit keeps the sign of the distance, and metres are unchanged |
| FlightControllers.ConversionsAgree | src/main/java/com/otabi/jcodroneedu/FlightController.java:1529-1559 | `convertMillimeter` and `convertMeter` agree on mm, cm and m, and an unknown unit falls back to cm in both |
| FlightControllers.TurnPower | src/main/java/com/otabi/jcodroneedu/FlightController.java:847-848 | the turning power lies in 20..100 |
| FlightControllers.TurnTimeMs | src/main/java/com/otabi/jcodroneedu/FlightController.java:847-852 | the turning time lies in 0..2000 ms and is 0 exactly for 0 degrees |
| FlightControllers.DefaultTurnPower | src/main/java/com/otabi/jcodroneedu/FlightController.java:848 | with the default gain 10 the power is the angle's magnitude clamped to 20..100 |
| FlightControllers.JavaAbs | src/main/java/com/otabi/jcodroneedu/FlightController.java:918 | `Math.abs` on `int`: the magnitude, except that `Integer.MIN_VALUE` stays negative |
| FlightControllers.TurnLeftMinValueTurnsRight | src/main/java/com/otabi/jcodroneedu/FlightController.java:916-919 | as written, `turnLeft(Integer.MIN_VALUE)` passes -2^31 on, and it is clamped to -180, a right turn |
| FlightControllers.TurnMagnitude | src/main/java/com/otabi/jcodroneedu/FlightController.java:918 | the corrected angle is the magnitude capped at 179, and never negative |
| FlightControllers.TurnLeftAgreesExceptMinValue | src/main/java/com/otabi/jcodroneedu/FlightController.java:918 | the corrected angle equals the code's for every `int` except `Integer.MIN_VALUE` |
| FlightControllers.TurnRightMinValueTurnsHalfCircle | src/main/java/com/otabi/jcodroneedu/FlightController.java:968-974 | as written, `turnRight(Integer.MIN_VALUE)` negates -2^31 back to -2^31, which is clamped to -180: a 2000 ms turn instead of the 1988 ms of 179 degrees |
| FlightControllers.TurnRightAgreesExceptMinValue | src/main/java/com/otabi/jcodroneedu/FlightController.java:970-973 | for every other `int` the code's right-turn angle is the negated corrected angle, in -179..0 |
| FlightControllers.FlightController.constructor | src/main/java/com/otabi/jcodroneedu/FlightController.java:207-259 | all four axes start at 0 and nothing has been sent |
| FlightControllers.FlightController.SetRoll | src/main/java/com/otabi/jcodroneedu/FlightController.java:223-226 | roll becomes the value clamped to -100..100; the other axes are unchanged |
| FlightControllers.FlightController.SetPitch | src/main/java/com/otabi/jcodroneedu/FlightController.java:207-210 | pitch becomes the value clamped to -100..100; the other axes are unchanged |
| FlightControllers.FlightController.SetYaw | src/main/java/com/otabi/jcodroneedu/FlightController.java:239-242 | yaw becomes the value clamped to -100..100; the other axes are unchanged |
| FlightControllers.FlightController.SetThrottle | src/main/java/com/otabi/jcodroneedu/FlightController.java:256-259 | throttle becomes the value clamped to -100..100; the other axes are unchanged |
| FlightControllers.FlightController.SendControl | src/main/java/com/otabi/jcodroneedu/FlightController.java:337-344 | one control command with every axis clamped to -100..100 is sent; the stored axes are unchanged |
| FlightControllers.FlightController.SendControlWhile | src/main/java/com/otabi/jcodroneedu/FlightController.java:366-374 | nothing for a non-positive time; otherwise the command for that long, then a zero command |
| FlightControllers.FlightController.SendControlPosition | src/main/java/com/otabi/jcodroneedu/FlightController.java:386-395 | the position command sent has position ±10, velocity 0.5..2, heading ±360 and rotational velocity 10..360 |
| FlightControllers.FlightController.Go | src/main/java/com/otabi/jcodroneedu/FlightController.java:413-463 | the axes are set as `GoAxes` says; a known direction moves for the duration and then hovers 1 s; an unknown one sends nothing |
| FlightControllers.FlightController.MoveAlong | src/main/java/com/otabi/jcodroneedu/FlightController.java:505-649 | moveForward/Backward/Left/Right: nothing when the unit is unknown, otherwise one position command along ±x or ±y with the speed clamped to 0.5..2, then a sleep of distance / speed + 1 seconds in whole milliseconds |
| FlightControllers.MoveSleepCoversTravel | src/main/java/com/otabi/jcodroneedu/FlightController.java:516-517 | the sleep after a move lasts at least 1 s, longer than the travel time at the clamped speed, and at most the time at 0.5 m/s plus 1 s |
| FlightControllers.FlightController.Turn | src/main/java/com/otabi/jcodroneedu/FlightController.java:768-788 | the yaw power is clamped to ±100; with no duration one command, otherwise a timed command and a 0.5 s hover |
| FlightControllers.FlightController.TurnDegree | src/main/java/com/otabi/jcodroneedu/FlightController.java:835-867 | the angle is clamped to ±180, and the yaw power's sign follows the angle's sign |
| FlightControllers.FlightController.TurnLeft | src/main/java/com/otabi/jcodroneedu/FlightController.java:916-926 | turns left by the corrected angle with the default gain; for 0 degrees only the two hovers are sent |
| FlightControllers.FlightController.TurnRight | src/main/java/com/otabi/jcodroneedu/FlightController.java:968-974 | turns right by the negated corrected angle with the default gain; for 0 degrees only the two hovers are sent |
| DroneHelpers.SetTrim | src/main/java/com/otabi/jcodroneedu/Drone.java:1114-1135 | a trim is accepted exactly when roll and pitch are both in -100..100; roll is checked first; an accepted trim is sent three times with yaw and throttle 0 |
| DroneHelpers.ModeOf | src/main/java/com/otabi/jcodroneedu/Drone.java:4686-4728 | a mode exists exactly for the listed mode names |
| DroneHelpers.IntervalRanges | src/main/java/com/otabi/jcodroneedu/Drone.java:4686-4725 | solid is 255; any other mode's interval is (11 - speed) times its step, and a faster speed gives a shorter interval |
| DroneHelpers.ColorChannel | src/main/java/com/otabi/jcodroneedu/Drone.java:4522-4524 | a channel scales from 0..255 to 0..127 as the floor of c·127/255 |
| DroneHelpers.ColorChannelMonotone | src/main/java/com/otabi/jcodroneedu/Drone.java:4515-4527 | the scaling is monotone, and maps 0 to 0 and 255 to 127 |
| DroneHelpers.SetDroneLedMode | src/main/java/com/otabi/jcodroneedu/Drone.java:4675-4735 | accepted exactly when the channels are 0..255, the speed is 1..10 and the mode names a known mode, ignoring case; the message then has that mode, the scaled colour and its interval; a null mode is refused with its own message |
| DroneHelpers.LedModeCaseInsensitive | src/main/java/com/otabi/jcodroneedu/Drone.java:4689-4691 | upper-casing the mode name does not change acceptance |
| DroneHelpers.LabelIndex | src/main/java/com/otabi/jcodroneedu/Drone.java:2865-2880 | a colour label maps to an index in 0..8 |
| DroneHelpers.ListedLabelsMapToIndex | src/main/java/com/otabi/jcodroneedu/Drone.java:2865-2880 | each label in the table maps to its index |
| DroneHelpers.EveryLabelIndexReached | src/main/java/com/otabi/jcodroneedu/Drone.java:2865-2880 | every index 1..8 is reached by some label |
| DroneHelpers.UnlistedLabelIsZero | src/main/java/com/otabi/jcodroneedu/Drone.java:2865-2880 | any label outside the table, in any case, gives 0 |
| DroneHelpers.GetPressure | src/main/java/com/otabi/jcodroneedu/Drone.java:3123-3144 | 0 for a zero reading; otherwise a null unit throws, an unknown unit throws, and a known unit gives the reading divided by that unit's size in pascals |
| DroneHelpers.ConvertTemperature | src/main/java/com/otabi/jcodroneedu/Drone.java:3851-3863 | C, F and K are accepted in either case; anything else is an illegal argument |
| DroneHelpers.TemperatureScales | src/main/java/com/otabi/jcodroneedu/Drone.java:3851-3863 | Fahrenheit and Kelvin convert back to the Celsius input, and lower case agrees with upper case |
| DroneHelpers.DetectWallThreshold | src/main/java/com/otabi/jcodroneedu/Drone.java:2440-2442 | the double reading is compared with the `int` threshold: a wall exactly when the reading's floor is below the threshold, so the smallest threshold that sees it is floor + 1; never at a reading equal to the threshold; monotone in the threshold |
| DroneHelpers.ButtonPressedCases | src/main/java/com/otabi/jcodroneedu/Drone.java:6091-6103 | never pressed unless the event is Press or Down; never pressed for flag 0; pressed when the event is active and the flags share a bit with the flag, in particular when they equal a non-zero flag |
| DisplayControllers.PixelIndex | src/main/java/com/otabi/jcodroneedu/DisplayController.java:59-62 | every pixel of the 128×64 canvas has a place in the row-major canvas |
| DisplayControllers.Packed | src/main/java/com/otabi/jcodroneedu/DisplayController.java:237-238 | the packed screen is 128·64/8 = 1024 bytes |
| DisplayControllers.ColumnBit | src/main/java/com/otabi/jcodroneedu/DisplayController.java:254-261 | bit b of a column byte is set exactly when pixel (x, top + b) is black |
| DisplayControllers.Slot | src/main/java/com/otabi/jcodroneedu/DisplayController.java:251-262 | every pixel has a byte index below 1024 and a bit below 8 |
| DisplayControllers.PackedBit | src/main/java/com/otabi/jcodroneedu/DisplayController.java:251-262 | byte (y/8)·128 + x has bit y mod 8 set exactly when pixel (x, y) is black |
| DisplayControllers.SlotsDistinct | src/main/java/com/otabi/jcodroneedu/DisplayController.java:251-262 | two pixels never share a byte and bit |
| DisplayControllers.SlotsCover | src/main/java/com/otabi/jcodroneedu/DisplayController.java:251-262 | every byte and bit belongs to a pixel |
| DisplayControllers.WhitePacksToZero | src/main/java/com/otabi/jcodroneedu/DisplayController.java:82-83 | an all-white canvas packs to 1024 zero bytes |
| DisplayControllers.DisplayController.constructor | src/main/java/com/otabi/jcodroneedu/DisplayController.java:72-85 | a new canvas is all white, and the drawing colour is black |
| DisplayControllers.DisplayController.SetColor | src/main/java/com/otabi/jcodroneedu/DisplayController.java:94-97 | only the drawing colour changes |
| DisplayControllers.DisplayController.Clear | src/main/java/com/otabi/jcodroneedu/DisplayController.java:178-182 | every pixel becomes white |
| DisplayControllers.DisplayController.FillRectangle | src/main/java/com/otabi/jcodroneedu/DisplayController.java:130-132 | pixels inside the rectangle take the drawing colour and all others keep theirs |
| DisplayControllers.DisplayController.PackColumn | src/main/java/com/otabi/jcodroneedu/DisplayController.java:254-261 | the inner loop builds the column byte of eight pixels |
| DisplayControllers.DisplayController.ToByteArray | src/main/java/com/otabi/jcodroneedu/DisplayController.java:237-267 | the nested loops return a new array equal to the packed canvas |
| DisplayControllers.BlankCanvasBytes | src/main/java/com/otabi/jcodroneedu/DisplayController.java:72-85 | a freshly constructed display packs to 1024 zero bytes |
| ControllerInput.ControllerInputManager.constructor | src/main/java/com/otabi/jcodroneedu/ControllerInputManager.java:26-39 | flags 0, event "None_", timestamps and all joystick values 0 |
| ControllerInput.ControllerInputManager.UpdateButtonData | src/main/java/com/otabi/jcodroneedu/ControllerInputManager.java:57-64 | a null message changes nothing; otherwise time in seconds, flags and event are stored, with a null event stored as "None_"; the joystick is untouched |
| ControllerInput.ControllerInputManager.UpdateJoystickData | src/main/java/com/otabi/jcodroneedu/ControllerInputManager.java:75-88 | a null message changes nothing; otherwise the whole-second timestamp and both sticks' x, y, direction and event are stored; the buttons are untouched |
| ControllerInput.ControllerInputManager.ButtonDataArray | src/main/java/com/otabi/jcodroneedu/ControllerInputManager.java:101-103 | the button array has 3 entries: time, flags, event |
| ControllerInput.ControllerInputManager.JoystickDataArray | src/main/java/com/otabi/jcodroneedu/ControllerInputManager.java:113-119 | the joystick array has 9 entries |
| ControllerInput.ViewsMirror | src/main/java/com/otabi/jcodroneedu/ControllerInputManager.java:101-203 | the array views, the object views and the single-value getters agree field for field |
| Inventory.FormatFirmwareVersion | src/main/java/com/otabi/jcodroneedu/InventoryManager.java:257-262 | the text is empty exactly when there is no version |
| Inventory.InventoryManager.constructor | src/main/java/com/otabi/jcodroneedu/InventoryManager.java:29-51 | every counter is 0, every text empty and no model is known |
| Inventory.InventoryManager.UpdateCount | src/main/java/com/otabi/jcodroneedu/InventoryManager.java:58-66 | null changes nothing; otherwise the timestamp and the four counters are overwritten; the other caches are untouched |
| Inventory.InventoryManager.UpdateInformation | src/main/java/com/otabi/jcodroneedu/InventoryManager.java:73-89 | information goes to the drone or the controller fields according to the device byte of the model number; another known device changes only the timestamp; an unknown device byte throws after the timestamp is written |
| Inventory.InventoryManager.UpdateCpuId | src/main/java/com/otabi/jcodroneedu/InventoryManager.java:97-107 | a null id changes nothing; otherwise only the slot of the given device is written |
| Inventory.InventoryManager.CountDataArray | src/main/java/com/otabi/jcodroneedu/InventoryManager.java:136-144 | the count array has 5 entries: time, flight time, take-offs, landings, accidents |
| Inventory.InventoryManager.InformationDataArray | src/main/java/com/otabi/jcodroneedu/InventoryManager.java:152-160 | the information array has 5 entries |
| Inventory.InventoryManager.CpuIdDataArray | src/main/java/com/otabi/jcodroneedu/InventoryManager.java:168-174 | the CPU id array has 3 entries |
| Inventory.ArraysMirrorObjects | src/main/java/com/otabi/jcodroneedu/InventoryManager.java:136-218 | each array view holds the same values as its object view |
| Inventory.DeviceByteRoutes | src/main/java/com/otabi/jcodroneedu/InventoryManager.java:78-87 | for every non-negative model number `high·256 + low` the device byte is `high mod 256`: 0x10 routes to the drone and 0x20 to the controller |
| Inventory.ModelNumbersRoute | src/main/java/com/otabi/jcodroneedu/InventoryManager.java:78-87 | the Drone_3/Drone_4 drone numbers (0x00031001, 0x0003100A, 0x00041007) reach the drone slot and the controller numbers (0x00032001, 0x00042004) the controller slot |
| Swarm.Merge | reference/codrone_edu/swarm.py:432-439 | a sequence's commands are appended, in order, to its index's list; other indices are unchanged; an empty sequence adds no index |
| Swarm.MergeConcatenates | reference/codrone_edu/swarm.py:432-439 | adding two command lists for the same index one after the other is adding their concatenation |
| Swarm.MergeAllGrows | reference/codrone_edu/swarm.py:363-379 | later sequences only extend an index's list: an existing list stays as a prefix |
| Swarm.MaxStepsUnique | reference/codrone_edu/swarm.py:447-456 | the maximum number of steps is determined by the table |
| Swarm.Sequence.constructor | reference/codrone_edu/swarm.py:470-472 | a new sequence has its index and no commands |
| Swarm.Sequence.Add | reference/codrone_edu/swarm.py:518-526 | appends [name, args, kwargs] to the sequence's own list |
| Swarm.Sequence.GetSequence | reference/codrone_edu/swarm.py:528-529 | a one-entry table from the sequence's index to its commands |
| Swarm.Sync.constructor | reference/codrone_edu/swarm.py:363-379 | the table holds every given sequence merged in order |
| Swarm.Sync.Add | reference/codrone_edu/swarm.py:424-439 | the loop appends the sequence's commands to its index, as `Merge` says |
| Swarm.Sync.GetSize | reference/codrone_edu/swarm.py:444-445 | the number of distinct drone indices |
| Swarm.Sync.GetMaxNumSteps | reference/codrone_edu/swarm.py:447-456 | the longest list's length, or 0 for an empty table |
| Swarm.SyncTwo | reference/codrone_edu/swarm.py:424-439 | two sequences for the same drone are concatenated in the order added |

## Left out

- Serial I/O, `Drone.transfer`, the control-loop rate limiter, ACK timeouts, and the receiver's receive timeout, which reads the clock. The parser's `receiving` flag stands in for the start-time field.
- `sendControlWhile` repeats its command until a deadline. The model records one timed command followed by the zero command.
- Waits are recorded, not performed: `go`, `turn*` and `execute` record `MoveFor`/`HoverFor` entries, and the sleep after each `move*` a `SleepFor` entry. Nothing waits.
- The source's `moveDistance(x, y, z, velocity)` and `sendAbsolutePosition`, which are not part of this model.
- CRC16 is not part of this model. The parser takes the CRC step as a parameter `crc(byte, acc)`. The maximum payload size is also a parameter, and the start bytes are 0x0A, 0x55.
- Message classes are not parsed from the payload. Whether a type's message parses a payload without throwing is a configuration predicate, and a delivery records the type and the payload bytes.
- `processPayload`'s handler table is a fixed predicate over the types that have a handler.
- Doubles and floats are reals. `Math.pow` in the pressure/altitude code is not modelled.
- UTF-8 encoding: message strings are byte sequences.
- The display enums (`DisplayPixel`, `DisplayLine`, `DisplayFont`) are not part of this model. Their codes are kept as raw bytes.
- Graphics2D drawing other than `fillRect` and `clear` (lines, circles, outlines). The colour → black/white mapping is reduced to a boolean.
- Of DroneSystem.java, the `ErrorFlagsForSensor` and `ErrorFlagsForState` enums are modelled in `ErrorReports`, and the `ModelNumber` codes are kept as raw numbers in `Inventory`. Its other enums (flight modes, directions, cards, button events, joystick directions) are not part of this model. `CONTROL_VALUE_MIN/MAX`, the direction names and the unit names do not appear in DroneSystem.java; they are taken from the library's javadoc and the literal values in the calling code. The unit factors are the standard ones.
- Case mapping is ASCII only, not locale-dependent.
- Null names passed to the `ConcurrentHashMap`-backed registry would throw `NullPointerException`. The model uses non-null names there.
- The text of `getMethod`'s error lists the names in `HashMap` order. The model checks only the error kind.
- `generateDocumentation`, `generateUsageGuide`, `toString` and the print and log calls.
- The Python `Sync.run`, the print methods and the asyncio drone handling. Python `dict` key order is not modelled: the table is a map.
- `Inventory.InventoryManager.UpdateInformation`: the model number `NONE_` is modelled as no model.
- `DroneHelpers.ColorChannel`: defined only for 0..255, the only values `setDroneLEDMode` passes after its checks.
- `FlightControllers.FlightController.TurnLeft`: states the corrected behaviour, not the code's behaviour for `Integer.MIN_VALUE` (see "## Findings").
- `FlightControllers.FlightController.TurnRight`: states the corrected behaviour, not the code's 180-degree turn for `Integer.MIN_VALUE` (see "## Findings").
- `HeaderCodec.Pack`: requires a data type. A header whose type is null, as `unpack` leaves it for an unknown type byte, makes the code throw `NullPointerException` in `pack`; the model has no such call.
- `ReceiverModel.Receiver.ExpectAck`: pending acknowledgements are a set of types. The code maps each type to a future, and a second `expectAck` for the same type replaces the first future, which is then never completed; the set cannot show that.
- `ControllerInput.ControllerInputManager.UpdateJoystickData`: updates every field at once. In the code a null stick, direction or event throws part-way, after the timestamp and the fields before it have been written.
- `VersionCodec.Unpack` and `HeaderCodec.Unpack`: return only the error for a short buffer. The code writes the fields one by one, so a buffer that runs out part-way leaves the object partly updated.
- `BuzzerSequenceRegistries.BuzzerSequenceRegistry.List` and `AutonomousMethodRegistries.AutonomousMethodRegistry.ListMethods`: sort by code point. Java's `String.compareTo` compares UTF-16 code units, so names that mix supplementary characters with U+E000..U+FFFF can sort differently.
- `ReceiverModel.Receiver.HandleHeader`: reads the length as unsigned, not as the code's signed byte (see "## Findings").
- `ErrorReports.Create`: the `Instant` is a millisecond count. `Long` saturation of the millisecond product is not modelled.

## Findings

| source | as written | input that shows it | evidently intended | confidence | as-written member | corrected member |
|---|---|---|---|---|---|---|
| src/main/java/com/otabi/jcodroneedu/receiver/Receiver.java:155-159 | the length byte is a signed `byte`; 0x80..0xFF read as negative pass the `> MAX_PAYLOAD_SIZE` test, and `index == length - 1` is then never reached in DATA | bytes 0x0A 0x55, a valid type, length 0x80, then payload bytes: the buffer fills up and never reaches END | the length read as unsigned (`& 0xFF`) and checked against the maximum | not executed | ReceiverModel.NegativeLengthNeverCompletes | ReceiverModel.UnsignedLengthAgreesBelow0x80 |
| src/main/java/com/otabi/jcodroneedu/protocol/display/DisplayDrawImage.java:84 | `toArray` is inherited from `Serializable`, so the array is big-endian, while the class comment and the other draw messages use little-endian | x = 10 packs as 0x00 0x0A; read little-endian it is 2560 | a little-endian `toArray` like `DisplayDrawRect`/`DisplayDrawString` | not executed | DrawImageCodec.ByteOrderMismatch | DrawImageCodec.IntendedRoundTrip |
| src/main/java/com/otabi/jcodroneedu/protocol/display/DisplayDrawImage.java:70-73 | `getSize` is `(byte)(8 + length)`, so from 120 data bytes the size wraps negative and `ByteBuffer.allocate` throws | a 128×30 image with 240 data bytes: size -8 | an array sized by the real length | not executed | DrawImageCodec.SizeWrapThrows | DrawImageCodec.ToArrayIntended |
| src/main/java/com/otabi/jcodroneedu/FlightController.java:916-919 | `Math.min(179, Math.abs(degrees))` is `Integer.MIN_VALUE` for `Integer.MIN_VALUE`, which `turnDegree` clamps to -180: a right turn | `turnLeft(Integer.MIN_VALUE)` | a left turn by 179 degrees | not executed | FlightControllers.TurnLeftMinValueTurnsRight | FlightControllers.TurnLeftAgreesExceptMinValue |
| src/main/java/com/otabi/jcodroneedu/FlightController.java:968-974 | `-Math.min(179, Math.abs(degrees))` is `Integer.MIN_VALUE` again for `Integer.MIN_VALUE`, which `turnDegree` clamps to -180: a 2000 ms right turn | `turnRight(Integer.MIN_VALUE)` | a right turn by 179 degrees (1988 ms) | not executed | FlightControllers.TurnRightMinValueTurnsHalfCircle | FlightControllers.TurnRightAgreesExceptMinValue |
