/**
 * The 4-byte message header (protocol/Header.java): data type, payload
 * length, sender and receiver. A `ByteBuffer` is modelled by the bytes it
 * holds: `Pack` gives the bytes `pack` writes, `Unpack` reads from the
 * remaining bytes and returns what is left after it.
 */
module HeaderCodec {
  import opened Common
  import DataTypes
  import DeviceTypes

  const HEADER_SIZE: int := 4

  /**
   * A header. The data type is `None` when `unpack` met a byte no type
   * carries (`DataType.fromByte` gives `null` and `unpack` stores it).
   */
  datatype Header = Header(
    dataType: Option<DataTypes.DataType>,
    length: Byte,
    from: DeviceTypes.DeviceType,
    to: DeviceTypes.DeviceType)

  /** `getSize()`. */
  function Size(): (n: int)
    ensures n == HEADER_SIZE
  {
    HEADER_SIZE
  }

  /**
   * `pack`: type, length, from, to, one byte each. A header without a type
   * would make `pack` throw, so packing needs one.
   */
  function Pack(h: Header): (r: seq<Byte>)
    requires h.dataType.Some?
  {
    [DataTypes.Value(h.dataType.value), h.length, DeviceTypes.Value(h.from), DeviceTypes.Value(h.to)]
  }

  /** `unpack` reading the header from `buf` and leaving the rest. */
  function Unpack(buf: seq<Byte>): (r: Result<(Header, seq<Byte>)>)
  {
    if |buf| < 2 then Throws(BufferUnderflow)
    else
      var dataType := DataTypes.FromByte(buf[0]);
      var length := buf[1];
      if |buf| < 3 then Throws(BufferUnderflow)
      else match DeviceTypes.FromByte(buf[2])
        case None => Throws(IllegalArgument("No DeviceType found"))
        case Some(from) =>
          if |buf| < 4 then Throws(BufferUnderflow)
          else match DeviceTypes.FromByte(buf[3])
            case None => Throws(IllegalArgument("No DeviceType found"))
            case Some(to) => Ok((Header(dataType, length, from, to), buf[4..]))
  }

  lemma PackLayout(h: Header)
    requires h.dataType.Some?
    ensures |Pack(h)| == Size()
    ensures Pack(h)[0] == DataTypes.Value(h.dataType.value) && Pack(h)[1] == h.length
    ensures Pack(h)[2] == DeviceTypes.Value(h.from) && Pack(h)[3] == DeviceTypes.Value(h.to)
  {
  }

  /** Unpacking what `pack` wrote gives the header back and consumes exactly four bytes. */
  lemma UnpackPack(h: Header, rest: seq<Byte>)
    requires h.dataType.Some?
    ensures Unpack(Pack(h) + rest) == Ok((h, rest))
  {
    var buf := Pack(h) + rest;
    DataTypes.FromByteValue(h.dataType.value);
    DeviceTypes.FromByteValue(h.from);
    DeviceTypes.FromByteValue(h.to);
    assert buf[4..] == rest;
  }

  /** An unknown sender or receiver byte makes `unpack` throw; an unknown type byte does not. */
  lemma UnpackUnknownDevice(buf: seq<Byte>)
    requires |buf| >= 4
    ensures Unpack(buf).Throws? <==>
      DeviceTypes.FromByte(buf[2]).None? || DeviceTypes.FromByte(buf[3]).None?
    ensures Unpack(buf).Ok? ==> Unpack(buf).value.0.dataType == DataTypes.FromByte(buf[0])
  {
  }

  /** Fewer than four bytes always underflow or fail on a device byte. */
  lemma UnpackShort(buf: seq<Byte>)
    requires |buf| < 4
    ensures Unpack(buf).Throws?
  {
  }
}
