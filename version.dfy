/**
 * Firmware version record (protocol/linkmanager/Version.java): a build
 * number (Java `short`) and minor and major numbers (Java `byte`s), four
 * bytes on the wire, printed as "major.minor.build" with the fields read as
 * unsigned numbers.
 */
module VersionCodec {
  import opened Common

  const VERSION_SIZE: int := 4

  type SignedByte = x: int | -128 <= x < 128
  type Short = x: int | SHORT_MIN <= x <= SHORT_MAX

  datatype Version = Version(build: Short, minor: SignedByte, major: SignedByte)

  /** `getSize()`. */
  function Size(): int { VERSION_SIZE }

  /** `pack`: the build short, then the minor byte, then the major byte. */
  function Pack(v: Version, order: Order): (r: seq<Byte>)
    ensures |r| == Size()
    ensures r[2] == ToByte(v.minor) && r[3] == ToByte(v.major)
  {
    ShortBytes(v.build, order) + [ToByte(v.minor), ToByte(v.major)]
  }

  /** `unpack`: reads the same three fields; a short buffer underflows. */
  function Unpack(buf: seq<Byte>, order: Order): Result<(Version, seq<Byte>)>
  {
    if |buf| < Size() then Throws(BufferUnderflow)
    else Ok((Version(ReadShort(buf[0], buf[1], order), Signed8(buf[2]), Signed8(buf[3])), buf[4..]))
  }

  /** `toString()`: `"%d.%d.%d"` of `major & 0xFF`, `minor & 0xFF`, `build & 0xFFFF`. */
  function ToString(v: Version): string
  {
    Decimal(v.major % 256) + "." + Decimal(v.minor % 256) + "." + Decimal(v.build % 65536)
  }

  lemma UnpackPack(v: Version, order: Order, rest: seq<Byte>)
    ensures Unpack(Pack(v, order) + rest, order) == Ok((v, rest))
  {
    var buf := Pack(v, order) + rest;
    ShortRoundTrip(v.build, order);
    assert buf[..2] == ShortBytes(v.build, order);
    assert buf[4..] == rest;
  }

  lemma UnpackShortBuffer(buf: seq<Byte>, order: Order)
    requires |buf| < Size()
    ensures Unpack(buf, order) == Throws(BufferUnderflow)
  {
  }

  /**
   * The printed form splits at its two dots into three decimal numerals,
   * which denote the unsigned major, minor and build numbers.
   */
  lemma ToStringFields(v: Version)
    ensures exists a, b, c ::
      ToString(v) == a + "." + b + "." + c &&
      IsDigits(a) && IsDigits(b) && IsDigits(c) &&
      DigitsValue(a) == v.major % 256 && DigitsValue(b) == v.minor % 256 && DigitsValue(c) == v.build % 65536
  {
    var a, b, c := Decimal(v.major % 256), Decimal(v.minor % 256), Decimal(v.build % 65536);
    DecimalRoundTrip(v.major % 256);
    DecimalRoundTrip(v.minor % 256);
    DecimalRoundTrip(v.build % 65536);
    assert ToString(v) == a + "." + b + "." + c;
  }
}
