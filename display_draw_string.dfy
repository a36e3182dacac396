/**
 * The draw-string display command (protocol/display/DisplayDrawString.java):
 * x and y shorts, the font and pixel codes, then the message's UTF-8 bytes;
 * this class sends them little-endian. The message is modelled by its UTF-8
 * bytes, and DisplayFont and DisplayPixel by their one-byte codes.
 */
module DrawStringCodec {
  import opened Common

  const FIXED_PART: int := 6

  type Short = x: int | SHORT_MIN <= x <= SHORT_MAX

  datatype DrawString = DrawString(x: Short, y: Short, font: Byte, pixel: Byte, message: seq<Byte>)

  /** The full constructor: `(short)` casts, and a `null` message becomes the empty one. */
  function Make(x: int, y: int, font: Byte, pixel: Byte, message: Option<seq<Byte>>): (r: DrawString)
    ensures r.x == ToShort(x) && r.y == ToShort(y) && r.font == font && r.pixel == pixel
    ensures r.message == if message.Some? then message.value else []
  {
    DrawString(ToShort(x), ToShort(y), font, pixel, if message.Some? then message.value else [])
  }

  /** `setMessage`: a `null` message becomes the empty one, nothing else changes. */
  function SetMessage(s: DrawString, message: Option<seq<Byte>>): (r: DrawString)
    ensures r.message == if message.Some? then message.value else []
    ensures r.x == s.x && r.y == s.y && r.font == s.font && r.pixel == s.pixel
  {
    s.(message := if message.Some? then message.value else [])
  }

  /** `getSize()`: `(byte) (6 + message length)`, a signed byte. */
  function Size(s: DrawString): (n: int)
    ensures -128 <= n < 128
    ensures FIXED_PART + |s.message| < 128 ==> n == FIXED_PART + |s.message|
  {
    Signed8(ToByte(FIXED_PART + |s.message|))
  }

  /** `pack`: x, y, font code, pixel code, then the message bytes. */
  function Pack(s: DrawString, order: Order): (b: seq<Byte>)
    ensures |b| == FIXED_PART + |s.message|
    ensures b[FIXED_PART..] == s.message
  {
    ShortBytes(s.x, order) + ShortBytes(s.y, order) + [s.font, s.pixel] + s.message
  }

  /** The overriding `toArray`: a little-endian buffer of `getSize()` bytes. */
  function ToArray(s: DrawString): Result<seq<Byte>>
  {
    AllocateAndPack(Size(s), Pack(s, LittleEndian))
  }

  /** `unpack`: at least 6 bytes; every remaining byte belongs to the message. */
  function Unpack(buf: seq<Byte>, order: Order): Result<DrawString>
  {
    if |buf| < FIXED_PART then Throws(InvalidDataSize(FIXED_PART, |buf|))
    else Ok(DrawString(ReadShort(buf[0], buf[1], order), ReadShort(buf[2], buf[3], order), buf[4], buf[5], buf[6..]))
  }

  lemma UnpackPack(s: DrawString, order: Order)
    ensures Unpack(Pack(s, order), order) == Ok(s)
  {
    var buf := Pack(s, order);
    ShortRoundTrip(s.x, order);
    ShortRoundTrip(s.y, order);
    assert buf[0..2] == ShortBytes(s.x, order);
    assert buf[2..4] == ShortBytes(s.y, order);
  }

  /**
   * `toArray` works while the size fits a signed byte (messages of at most
   * 121 bytes) and then decodes back to the command; longer messages make
   * `getSize()` wrap and `toArray` throw.
   */
  lemma ToArrayRoundTrip(s: DrawString)
    ensures |s.message| <= 121 ==> ToArray(s).Ok? && Unpack(ToArray(s).value, LittleEndian) == Ok(s)
    ensures 122 <= |s.message| ==> ToArray(s).Throws?
  {
    if |s.message| <= 121 {
      UnpackPack(s, LittleEndian);
    } else if |s.message| < 250 {
      assert Size(s) < 0;
    } else {
      assert Size(s) < FIXED_PART + |s.message|;
    }
  }

  lemma UnpackRejectsShort(buf: seq<Byte>, order: Order)
    requires |buf| < 6
    ensures Unpack(buf, order) == Throws(InvalidDataSize(6, |buf|))
  {
  }
}
