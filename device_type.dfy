/**
 * Device addresses of the protocol header (protocol/DeviceType.java).
 * `fromByte` throws for a byte no constant carries; the model answers `None`
 * for that case.
 */
module DeviceTypes {
  import opened Common

  datatype DeviceType
    = None_
    | Drone
    | Controller
    | Link
    | LinkServer
    | BleClient
    | BleServer
    | Range
    | Base
    | ByScratch
    | Scratch
    | Entry
    | Tester
    | Monitor
    | Updater
    | Encryptor
    | Whispering
    | Broadcasting

  /** `getValue()`: the wire byte of each device. */
  function Value(d: DeviceType): Byte
  {
    match d
    case None_ => 0x00
    case Drone => 0x10
    case Controller => 0x20
    case Link => 0x30
    case LinkServer => 0x31
    case BleClient => 0x32
    case BleServer => 0x33
    case Range => 0x40
    case Base => 0x70
    case ByScratch => 0x80
    case Scratch => 0x81
    case Entry => 0x82
    case Tester => 0xA0
    case Monitor => 0xA1
    case Updater => 0xA2
    case Encryptor => 0xA3
    case Whispering => 0xFE
    case Broadcasting => 0xFF
  }

  /** `fromByte`: the device carrying `b`; `None` where the source throws. */
  function FromByte(b: Byte): Option<DeviceType>
  {
    match b
    case 0x00 => Some(None_)
    case 0x10 => Some(Drone)
    case 0x20 => Some(Controller)
    case 0x30 => Some(Link)
    case 0x31 => Some(LinkServer)
    case 0x32 => Some(BleClient)
    case 0x33 => Some(BleServer)
    case 0x40 => Some(Range)
    case 0x70 => Some(Base)
    case 0x80 => Some(ByScratch)
    case 0x81 => Some(Scratch)
    case 0x82 => Some(Entry)
    case 0xA0 => Some(Tester)
    case 0xA1 => Some(Monitor)
    case 0xA2 => Some(Updater)
    case 0xA3 => Some(Encryptor)
    case 0xFE => Some(Whispering)
    case 0xFF => Some(Broadcasting)
    case _ => None
  }

  lemma FromByteValue(d: DeviceType)
    ensures FromByte(Value(d)) == Some(d)
  {
  }

  lemma FromByteSound(b: Byte)
    ensures FromByte(b).Some? ==> Value(FromByte(b).value) == b
  {
    if b < 0x40 {
    } else {
    }
  }

  /** `fromByte` fails exactly on the bytes no device carries. */
  lemma FromByteNoneIffUnmapped(b: Byte)
    ensures FromByte(b).None? <==> forall d :: Value(d) != b
  {
    FromByteSound(b);
    forall d | Value(d) == b ensures FromByte(b).Some? { FromByteValue(d); }
  }
}
