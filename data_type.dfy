/**
 * The message type table of the drone protocol (protocol/DataType.java):
 * each type has a wire byte, optionally a message class and optionally a
 * factory that creates an empty message for the receiver to parse into.
 * The two lookup maps the enum fills in its static initialiser are built by
 * `BuildLookupMaps`; `FromByte` and `FromClass` are the lookups they answer.
 */
module DataTypes {
  import opened Common

  datatype DataType
    = None_
    | Ping
    | Ack
    | Error
    | Message
    | Address
    | Information
    | UpdateLocation
    | SystemInformation
    | Registration
    | Pairing
    | Rssi
    | Request
    | Control
    | Command
    | LightManual
    | LightMode
    | LightEvent
    | LightDefault
    | RawMotion
    | RawFlow
    | State
    | Attitude
    | Position
    | Altitude
    | Motion
    | Range
    | Flow
    | Count
    | Bias
    | Trim
    | Weight
    | Button
    | Joystick
    | Buzzer
    | DisplayClear
    | DisplayInvert
    | DisplayDrawPoint
    | DisplayDrawLine
    | DisplayDrawRect
    | DisplayDrawCircle
    | DisplayDrawString
    | CardClassify
    | CardRange
    | CardRaw
    | CardColor
    | CardList
    | CardFunctionList
    | InformationAssembledForController
    | InformationAssembledForEntry
    | EndOfType

  /** `value()`: the wire byte of each type. */
  function Value(t: DataType): Byte
  {
    match t
    case None_ => 0x00
    case Ping => 0x01
    case Ack => 0x02
    case Error => 0x03
    case Message => 0x05
    case Address => 0x06
    case Information => 0x07
    case UpdateLocation => 0x09
    case SystemInformation => 0x0C
    case Registration => 0x0D
    case Pairing => 0x12
    case Rssi => 0x13
    case Request => 0x04
    case Control => 0x10
    case Command => 0x11
    case LightManual => 0x20
    case LightMode => 0x21
    case LightEvent => 0x22
    case LightDefault => 0x23
    case RawMotion => 0x30
    case RawFlow => 0x31
    case State => 0x40
    case Attitude => 0x41
    case Position => 0x42
    case Altitude => 0x43
    case Motion => 0x44
    case Range => 0x45
    case Flow => 0x46
    case Count => 0x50
    case Bias => 0x51
    case Trim => 0x52
    case Weight => 0x53
    case Button => 0x70
    case Joystick => 0x71
    case Buzzer => 0x62
    case DisplayClear => 0x80
    case DisplayInvert => 0x81
    case DisplayDrawPoint => 0x82
    case DisplayDrawLine => 0x83
    case DisplayDrawRect => 0x84
    case DisplayDrawCircle => 0x85
    case DisplayDrawString => 0x86
    case CardClassify => 0x90
    case CardRange => 0x91
    case CardRaw => 0x92
    case CardColor => 0x93
    case CardList => 0x94
    case CardFunctionList => 0x95
    case InformationAssembledForController => 0xA0
    case InformationAssembledForEntry => 0xA1
    case EndOfType => 0xDC
  }

  /**
   * A Java message class, compared by identity. The 41 classes the table
   * names are numbered 1 to 41 in declaration order (each number's simple
   * class name is noted beside it below); every other number stands for a
   * class the table does not name.
   */
  type ClassId = nat

  /**
   * The message class of each type (`Control` is carried by `Quad8`);
   * `None` where the table has `null`.
   */
  function MessageClass(t: DataType): Option<ClassId>
  {
    match t
    case None_ => None
    case Ping => Some(1)                          // Ping
    case Ack => Some(2)                           // Ack
    case Error => Some(3)                         // Error
    case Message => Some(4)                       // Message
    case Address => Some(5)                       // Address
    case Information => Some(6)                   // Information
    case UpdateLocation => Some(7)                // UpdateLocation
    case SystemInformation => Some(8)             // SystemInformation
    case Registration => Some(9)                  // Registration
    case Pairing => Some(10)                      // Pairing
    case Rssi => Some(11)                         // Rssi
    case Request => Some(12)                      // Request
    case Control => Some(13)                      // Quad8
    case Command => Some(14)                      // Command
    case LightManual => Some(15)                  // LightManual
    case LightMode => Some(16)                    // LightMode
    case LightEvent => Some(17)                   // LightEvent
    case LightDefault => Some(18)                 // LightDefault
    case RawMotion => Some(19)                    // RawMotion
    case RawFlow => Some(20)                      // RawFlow
    case State => Some(21)                        // State
    case Attitude => Some(22)                     // Attitude
    case Position => Some(23)                     // Position
    case Altitude => Some(24)                     // Altitude
    case Motion => Some(25)                       // Motion
    case Range => Some(26)                        // Range
    case Flow => Some(27)                         // Flow
    case Count => Some(28)                        // Count
    case Bias => Some(29)                         // Bias
    case Trim => Some(30)                         // Trim
    case Weight => Some(31)                       // Weight
    case Button => Some(32)                       // Button
    case Joystick => Some(33)                     // Joystick
    case Buzzer => None
    case DisplayClear => None
    case DisplayInvert => None
    case DisplayDrawPoint => None
    case DisplayDrawLine => None
    case DisplayDrawRect => None
    case DisplayDrawCircle => None
    case DisplayDrawString => None
    case CardClassify => Some(34)                 // CardClassify
    case CardRange => Some(35)                    // CardRange
    case CardRaw => Some(36)                      // CardRaw
    case CardColor => Some(37)                    // CardColor
    case CardList => Some(38)                     // CardList
    case CardFunctionList => Some(39)             // CardFunctionList
    case InformationAssembledForController => Some(40) // InformationAssembledForController
    case InformationAssembledForEntry => Some(41) // InformationAssembledForEntry
    case EndOfType => None
  }

  /** Whether the table gives the type a factory (`createInstance` is non-null). */
  predicate HasFactory(t: DataType)
  {
    match t
    case None_ => false
    case Ping => true
    case Ack => true
    case Error => true
    case Message => true
    case Address => true
    case Information => true
    case UpdateLocation => true
    case SystemInformation => true
    case Registration => true
    case Pairing => true
    case Rssi => true
    case Request => false
    case Control => false
    case Command => false
    case LightManual => false
    case LightMode => false
    case LightEvent => false
    case LightDefault => false
    case RawMotion => true
    case RawFlow => true
    case State => true
    case Attitude => true
    case Position => true
    case Altitude => true
    case Motion => true
    case Range => true
    case Flow => true
    case Count => false
    case Bias => false
    case Trim => false
    case Weight => false
    case Button => true
    case Joystick => true
    case Buzzer => false
    case DisplayClear => false
    case DisplayInvert => false
    case DisplayDrawPoint => false
    case DisplayDrawLine => false
    case DisplayDrawRect => false
    case DisplayDrawCircle => false
    case DisplayDrawString => false
    case CardClassify => true
    case CardRange => true
    case CardRaw => true
    case CardColor => true
    case CardList => true
    case CardFunctionList => true
    case InformationAssembledForController => true
    case InformationAssembledForEntry => true
    case EndOfType => false
  }

  /** The constant at each position of the declaration (`DataType.values()[i]`). */
  function Declared(i: nat): DataType
    requires i < 51
  {
    match i
    case 0 => None_
    case 1 => Ping
    case 2 => Ack
    case 3 => Error
    case 4 => Message
    case 5 => Address
    case 6 => Information
    case 7 => UpdateLocation
    case 8 => SystemInformation
    case 9 => Registration
    case 10 => Pairing
    case 11 => Rssi
    case 12 => Request
    case 13 => Control
    case 14 => Command
    case 15 => LightManual
    case 16 => LightMode
    case 17 => LightEvent
    case 18 => LightDefault
    case 19 => RawMotion
    case 20 => RawFlow
    case 21 => State
    case 22 => Attitude
    case 23 => Position
    case 24 => Altitude
    case 25 => Motion
    case 26 => Range
    case 27 => Flow
    case 28 => Count
    case 29 => Bias
    case 30 => Trim
    case 31 => Weight
    case 32 => Button
    case 33 => Joystick
    case 34 => Buzzer
    case 35 => DisplayClear
    case 36 => DisplayInvert
    case 37 => DisplayDrawPoint
    case 38 => DisplayDrawLine
    case 39 => DisplayDrawRect
    case 40 => DisplayDrawCircle
    case 41 => DisplayDrawString
    case 42 => CardClassify
    case 43 => CardRange
    case 44 => CardRaw
    case 45 => CardColor
    case 46 => CardList
    case 47 => CardFunctionList
    case 48 => InformationAssembledForController
    case 49 => InformationAssembledForEntry
    case _ => EndOfType
  }

  /** Every constant, in declaration order (`DataType.values()`). */
  const AllTypes: seq<DataType> := seq(51, i requires 0 <= i < 51 => Declared(i))

  /** `fromByte`: the type whose wire byte is `b`, or `None` (Java `null`). */
  function FromByte(b: Byte): Option<DataType>
  {
    match b
    case 0x00 => Some(None_)
    case 0x01 => Some(Ping)
    case 0x02 => Some(Ack)
    case 0x03 => Some(Error)
    case 0x04 => Some(Request)
    case 0x05 => Some(Message)
    case 0x06 => Some(Address)
    case 0x07 => Some(Information)
    case 0x09 => Some(UpdateLocation)
    case 0x0C => Some(SystemInformation)
    case 0x0D => Some(Registration)
    case 0x10 => Some(Control)
    case 0x11 => Some(Command)
    case 0x12 => Some(Pairing)
    case 0x13 => Some(Rssi)
    case 0x20 => Some(LightManual)
    case 0x21 => Some(LightMode)
    case 0x22 => Some(LightEvent)
    case 0x23 => Some(LightDefault)
    case 0x30 => Some(RawMotion)
    case 0x31 => Some(RawFlow)
    case 0x40 => Some(State)
    case 0x41 => Some(Attitude)
    case 0x42 => Some(Position)
    case 0x43 => Some(Altitude)
    case 0x44 => Some(Motion)
    case 0x45 => Some(Range)
    case 0x46 => Some(Flow)
    case 0x50 => Some(Count)
    case 0x51 => Some(Bias)
    case 0x52 => Some(Trim)
    case 0x53 => Some(Weight)
    case 0x62 => Some(Buzzer)
    case 0x70 => Some(Button)
    case 0x71 => Some(Joystick)
    case 0x80 => Some(DisplayClear)
    case 0x81 => Some(DisplayInvert)
    case 0x82 => Some(DisplayDrawPoint)
    case 0x83 => Some(DisplayDrawLine)
    case 0x84 => Some(DisplayDrawRect)
    case 0x85 => Some(DisplayDrawCircle)
    case 0x86 => Some(DisplayDrawString)
    case 0x90 => Some(CardClassify)
    case 0x91 => Some(CardRange)
    case 0x92 => Some(CardRaw)
    case 0x93 => Some(CardColor)
    case 0x94 => Some(CardList)
    case 0x95 => Some(CardFunctionList)
    case 0xA0 => Some(InformationAssembledForController)
    case 0xA1 => Some(InformationAssembledForEntry)
    case 0xDC => Some(EndOfType)
    case _ => None
  }

  /** `fromClass`: the type carried by a message class, or `None`. */
  function FromClass(c: ClassId): Option<DataType>
  {
    match c
    case 1 => Some(Ping)                          // Ping
    case 2 => Some(Ack)                           // Ack
    case 3 => Some(Error)                         // Error
    case 4 => Some(Message)                       // Message
    case 5 => Some(Address)                       // Address
    case 6 => Some(Information)                   // Information
    case 7 => Some(UpdateLocation)                // UpdateLocation
    case 8 => Some(SystemInformation)             // SystemInformation
    case 9 => Some(Registration)                  // Registration
    case 10 => Some(Pairing)                      // Pairing
    case 11 => Some(Rssi)                         // Rssi
    case 12 => Some(Request)                      // Request
    case 13 => Some(Control)                      // Quad8
    case 14 => Some(Command)                      // Command
    case 15 => Some(LightManual)                  // LightManual
    case 16 => Some(LightMode)                    // LightMode
    case 17 => Some(LightEvent)                   // LightEvent
    case 18 => Some(LightDefault)                 // LightDefault
    case 19 => Some(RawMotion)                    // RawMotion
    case 20 => Some(RawFlow)                      // RawFlow
    case 21 => Some(State)                        // State
    case 22 => Some(Attitude)                     // Attitude
    case 23 => Some(Position)                     // Position
    case 24 => Some(Altitude)                     // Altitude
    case 25 => Some(Motion)                       // Motion
    case 26 => Some(Range)                        // Range
    case 27 => Some(Flow)                         // Flow
    case 28 => Some(Count)                        // Count
    case 29 => Some(Bias)                         // Bias
    case 30 => Some(Trim)                         // Trim
    case 31 => Some(Weight)                       // Weight
    case 32 => Some(Button)                       // Button
    case 33 => Some(Joystick)                     // Joystick
    case 34 => Some(CardClassify)                 // CardClassify
    case 35 => Some(CardRange)                    // CardRange
    case 36 => Some(CardRaw)                      // CardRaw
    case 37 => Some(CardColor)                    // CardColor
    case 38 => Some(CardList)                     // CardList
    case 39 => Some(CardFunctionList)             // CardFunctionList
    case 40 => Some(InformationAssembledForController) // InformationAssembledForController
    case 41 => Some(InformationAssembledForEntry) // InformationAssembledForEntry
    case _ => None
  }

  /**
   * `createInstance`: the class of the fresh empty message, or `None` when
   * the type has no factory.
   */
  function CreateInstance(t: DataType): (r: Option<ClassId>)
    ensures r.Some? <==> HasFactory(t)
    ensures r.Some? ==> MessageClass(t) == r
  {
    if HasFactory(t) then MessageClass(t) else None
  }

  /*
   * Each table round trip below is split by wire byte or class number into
   * ranges proved separately, which keeps every proof small.
   */

  /** A type found for a byte carries that byte. */
  lemma FromByteSound(b: Byte)
    ensures FromByte(b).Some? ==> Value(FromByte(b).value) == b
  {
    if b < 0x40 {
      FromByteSoundLow(b);
    } else if b < 0x90 {
      FromByteSoundMid(b);
    } else {
      FromByteSoundHigh(b);
    }
  }

  lemma FromByteSoundLow(b: Byte)
    requires b < 0x40
    ensures FromByte(b).Some? ==> Value(FromByte(b).value) == b
  {
  }

  lemma FromByteSoundMid(b: Byte)
    requires 0x40 <= b < 0x90
    ensures FromByte(b).Some? ==> Value(FromByte(b).value) == b
  {
  }

  lemma FromByteSoundHigh(b: Byte)
    requires b >= 0x90
    ensures FromByte(b).Some? ==> Value(FromByte(b).value) == b
  {
  }

  /** Looking up a type's wire byte finds that type. */
  lemma FromByteValue(t: DataType)
    ensures FromByte(Value(t)) == Some(t)
  {
    if Value(t) < 0x40 {
      FromByteValueLow(t);
    } else {
      FromByteValueHigh(t);
    }
  }

  lemma FromByteValueLow(t: DataType)
    requires Value(t) < 0x40
    ensures FromByte(Value(t)) == Some(t)
  {
  }

  lemma FromByteValueHigh(t: DataType)
    requires Value(t) >= 0x40
    ensures FromByte(Value(t)) == Some(t)
  {
  }

  /** A type found for a class has that class as its message class. */
  lemma FromClassSound(c: ClassId)
    ensures FromClass(c).Some? ==> MessageClass(FromClass(c).value) == Some(c)
  {
    if c <= 14 {
      FromClassSoundLow(c);
    } else if c <= 28 {
      FromClassSoundMid(c);
    } else if c <= 41 {
      FromClassSoundHigh(c);
    } else {
      FromClassUnnamed(c);
    }
  }

  lemma FromClassSoundLow(c: ClassId)
    requires c <= 14
    ensures FromClass(c).Some? ==> MessageClass(FromClass(c).value) == Some(c)
  {
  }

  lemma FromClassSoundMid(c: ClassId)
    requires 14 < c <= 28
    ensures FromClass(c).Some? ==> MessageClass(FromClass(c).value) == Some(c)
  {
  }

  lemma FromClassSoundHigh(c: ClassId)
    requires 28 < c <= 41
    ensures FromClass(c).Some? ==> MessageClass(FromClass(c).value) == Some(c)
  {
  }

  /** A class past the table's 41 carries no type. */
  lemma FromClassUnnamed(c: ClassId)
    requires c > 41
    ensures FromClass(c).None?
  {
  }

  /** Looking up a type's message class finds that type. */
  lemma FromClassOfMessageClass(t: DataType)
    requires MessageClass(t).Some?
    ensures FromClass(MessageClass(t).value) == Some(t)
  {
    if Value(t) < 0x40 {
      FromClassOfMessageClassLow(t);
    } else {
      FromClassOfMessageClassHigh(t);
    }
  }

  lemma FromClassOfMessageClassLow(t: DataType)
    requires Value(t) < 0x40
    ensures MessageClass(t).Some? ==> FromClass(MessageClass(t).value) == Some(t)
  {
  }

  lemma FromClassOfMessageClassHigh(t: DataType)
    requires Value(t) >= 0x40
    ensures MessageClass(t).Some? ==> FromClass(MessageClass(t).value) == Some(t)
  {
  }

  /** `fromByte` answers `null` exactly for the bytes no constant carries. */
  lemma FromByteNoneIffUnmapped(b: Byte)
    ensures FromByte(b).None? <==> forall t :: Value(t) != b
  {
    FromByteSound(b);
    forall t | Value(t) == b ensures FromByte(b).Some? { FromByteValue(t); }
  }

  /** The wire bytes are pairwise distinct, so no constant shadows another in the byte map. */
  lemma ValueInjective(s: DataType, t: DataType)
    requires Value(s) == Value(t)
    ensures s == t
  {
    FromByteValue(s);
    FromByteValue(t);
  }

  /** Every constant appears in `values()`. */
  lemma AllTypesComplete(t: DataType)
    ensures t in AllTypes
  {
    match t
    case None_ => assert AllTypes[0] == None_;
    case Ping => assert AllTypes[1] == Ping;
    case Ack => assert AllTypes[2] == Ack;
    case Error => assert AllTypes[3] == Error;
    case Message => assert AllTypes[4] == Message;
    case Address => assert AllTypes[5] == Address;
    case Information => assert AllTypes[6] == Information;
    case UpdateLocation => assert AllTypes[7] == UpdateLocation;
    case SystemInformation => assert AllTypes[8] == SystemInformation;
    case Registration => assert AllTypes[9] == Registration;
    case Pairing => assert AllTypes[10] == Pairing;
    case Rssi => assert AllTypes[11] == Rssi;
    case Request => assert AllTypes[12] == Request;
    case Control => assert AllTypes[13] == Control;
    case Command => assert AllTypes[14] == Command;
    case LightManual => assert AllTypes[15] == LightManual;
    case LightMode => assert AllTypes[16] == LightMode;
    case LightEvent => assert AllTypes[17] == LightEvent;
    case LightDefault => assert AllTypes[18] == LightDefault;
    case RawMotion => assert AllTypes[19] == RawMotion;
    case RawFlow => assert AllTypes[20] == RawFlow;
    case State => assert AllTypes[21] == State;
    case Attitude => assert AllTypes[22] == Attitude;
    case Position => assert AllTypes[23] == Position;
    case Altitude => assert AllTypes[24] == Altitude;
    case Motion => assert AllTypes[25] == Motion;
    case Range => assert AllTypes[26] == Range;
    case Flow => assert AllTypes[27] == Flow;
    case Count => assert AllTypes[28] == Count;
    case Bias => assert AllTypes[29] == Bias;
    case Trim => assert AllTypes[30] == Trim;
    case Weight => assert AllTypes[31] == Weight;
    case Button => assert AllTypes[32] == Button;
    case Joystick => assert AllTypes[33] == Joystick;
    case Buzzer => assert AllTypes[34] == Buzzer;
    case DisplayClear => assert AllTypes[35] == DisplayClear;
    case DisplayInvert => assert AllTypes[36] == DisplayInvert;
    case DisplayDrawPoint => assert AllTypes[37] == DisplayDrawPoint;
    case DisplayDrawLine => assert AllTypes[38] == DisplayDrawLine;
    case DisplayDrawRect => assert AllTypes[39] == DisplayDrawRect;
    case DisplayDrawCircle => assert AllTypes[40] == DisplayDrawCircle;
    case DisplayDrawString => assert AllTypes[41] == DisplayDrawString;
    case CardClassify => assert AllTypes[42] == CardClassify;
    case CardRange => assert AllTypes[43] == CardRange;
    case CardRaw => assert AllTypes[44] == CardRaw;
    case CardColor => assert AllTypes[45] == CardColor;
    case CardList => assert AllTypes[46] == CardList;
    case CardFunctionList => assert AllTypes[47] == CardFunctionList;
    case InformationAssembledForController => assert AllTypes[48] == InformationAssembledForController;
    case InformationAssembledForEntry => assert AllTypes[49] == InformationAssembledForEntry;
    case EndOfType => assert AllTypes[50] == EndOfType;
  }

  /** No two types share a message class, so no entry of the class map shadows another. */
  lemma ClassInjective(s: DataType, t: DataType)
    requires MessageClass(s).Some? && MessageClass(s) == MessageClass(t)
    ensures s == t
  {
    FromClassOfMessageClass(s);
    FromClassOfMessageClass(t);
  }

  /** `m` holds every type of `ts` under its wire byte, and nothing else. */
  ghost predicate ByteMapOf(ts: seq<DataType>, m: map<Byte, DataType>)
  {
    && (forall t :: t in ts ==> Value(t) in m && m[Value(t)] == t)
    && (forall b :: b in m ==> m[b] in ts && Value(m[b]) == b)
  }

  /** `m` holds every type of `ts` that has a class under that class, and nothing else. */
  ghost predicate ClassMapOf(ts: seq<DataType>, m: map<ClassId, DataType>)
  {
    && (forall t :: t in ts && MessageClass(t).Some? ==> MessageClass(t).value in m && m[MessageClass(t).value] == t)
    && (forall c :: c in m ==> m[c] in ts && MessageClass(m[c]) == Some(c))
  }

  lemma ByteMapStep(ts: seq<DataType>, t: DataType, m: map<Byte, DataType>)
    requires ByteMapOf(ts, m)
    ensures ByteMapOf(ts + [t], m[Value(t) := t])
  {
    forall u | u in ts && Value(u) == Value(t) ensures u == t {
      ValueInjective(u, t);
    }
  }

  lemma ClassMapStep(ts: seq<DataType>, t: DataType, m: map<ClassId, DataType>)
    requires ClassMapOf(ts, m)
    ensures ClassMapOf(ts + [t], if MessageClass(t).Some? then m[MessageClass(t).value := t] else m)
  {
    forall u | u in ts && MessageClass(u).Some? && MessageClass(u) == MessageClass(t) ensures u == t {
      ClassInjective(u, t);
    }
  }

  /**
   * The loop of the enum's static initialiser over a list of constants: put
   * every type under its wire byte, and every type that has a class under
   * its class.
   */
  method FillLookupMaps(ts: seq<DataType>) returns (byByte: map<Byte, DataType>, byClass: map<ClassId, DataType>)
    ensures forall t :: t in ts ==> Value(t) in byByte && byByte[Value(t)] == t
    ensures forall b :: b in byByte ==> byByte[b] in ts && Value(byByte[b]) == b
    ensures forall t :: t in ts && MessageClass(t).Some? ==>
      MessageClass(t).value in byClass && byClass[MessageClass(t).value] == t
    ensures forall c :: c in byClass ==> byClass[c] in ts && MessageClass(byClass[c]) == Some(c)
  {
    byByte := map[];
    byClass := map[];
    var i := 0;
    while i < |ts|
      invariant 0 <= i <= |ts|
      invariant ByteMapOf(ts[..i], byByte)
      invariant ClassMapOf(ts[..i], byClass)
    {
      var t := ts[i];
      ByteMapStep(ts[..i], t, byByte);
      ClassMapStep(ts[..i], t, byClass);
      assert ts[..i + 1] == ts[..i] + [t];
      byByte := byByte[Value(t) := t];
      if MessageClass(t).Some? {
        byClass := byClass[MessageClass(t).value := t];
      }
      i := i + 1;
    }
    assert ts[..i] == ts;
  }

  /**
   * The enum's static initialiser run over `values()`: the maps it builds
   * answer exactly what `FromByte` and `FromClass` answer.
   */
  method BuildLookupMaps() returns (byByte: map<Byte, DataType>, byClass: map<ClassId, DataType>)
    ensures forall b :: b in byByte <==> FromByte(b).Some?
    ensures forall b :: b in byByte ==> Some(byByte[b]) == FromByte(b)
    ensures forall c :: c in byClass <==> FromClass(c).Some?
    ensures forall c :: c in byClass ==> Some(byClass[c]) == FromClass(c)
  {
    byByte, byClass := FillLookupMaps(AllTypes);
    forall b | b in byByte ensures Some(byByte[b]) == FromByte(b) {
      FromByteValue(byByte[b]);
    }
    forall b | FromByte(b).Some? ensures b in byByte {
      FromByteSound(b);
      AllTypesComplete(FromByte(b).value);
    }
    forall c | c in byClass ensures Some(byClass[c]) == FromClass(c) {
      FromClassOfMessageClass(byClass[c]);
    }
    forall c | FromClass(c).Some? ensures c in byClass {
      FromClassSound(c);
      AllTypesComplete(FromClass(c).value);
    }
  }
}
