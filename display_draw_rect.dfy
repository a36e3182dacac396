/**
 * The draw-rectangle display command (protocol/display/DisplayDrawRect.java):
 * four shorts (x, y, width, height), then the pixel code, a fill flag and
 * the line-style code, 11 bytes; this class sends them little-endian.
 * DisplayPixel and DisplayLine are not part of this model: their constants
 * are carried by their one-byte codes.
 */
module DrawRectCodec {
  import opened Common

  const RECT_SIZE: int := 11

  type Short = x: int | SHORT_MIN <= x <= SHORT_MAX

  datatype DrawRect = DrawRect(x: Short, y: Short, width: Short, height: Short, pixel: Byte, fill: bool, line: Byte)

  /** The default constructor, given the codes of WHITE and SOLID. */
  function Default(white: Byte, solid: Byte): (r: DrawRect)
    ensures r.x == 0 && r.y == 0 && r.width == 0 && r.height == 0
    ensures r.pixel == white && r.fill && r.line == solid
  {
    DrawRect(0, 0, 0, 0, white, true, solid)
  }

  /** The full constructor: each coordinate goes through a `(short)` cast. */
  function Make(x: int, y: int, width: int, height: int, pixel: Byte, fill: bool, line: Byte): (r: DrawRect)
    ensures r.x == ToShort(x) && r.y == ToShort(y) && r.width == ToShort(width) && r.height == ToShort(height)
    ensures IsShort(x) ==> r.x == x
  {
    DrawRect(ToShort(x), ToShort(y), ToShort(width), ToShort(height), pixel, fill, line)
  }

  /** `getSize()`. */
  function Size(): int { RECT_SIZE }

  /** `pack`: x, y, width, height, pixel code, 1 or 0 for the fill flag, line code. */
  function Pack(r: DrawRect, order: Order): (b: seq<Byte>)
    ensures |b| == Size()
  {
    ShortBytes(r.x, order) + ShortBytes(r.y, order) + ShortBytes(r.width, order) + ShortBytes(r.height, order)
      + [r.pixel, if r.fill then 1 else 0, r.line]
  }

  /** The overriding `toArray`: a buffer of `getSize()` bytes set to little-endian. */
  function ToArray(r: DrawRect): (b: Result<seq<Byte>>)
    ensures b == Ok(Pack(r, LittleEndian))
  {
    AllocateAndPack(Size(), Pack(r, LittleEndian))
  }

  /** `unpack`: fewer than 11 remaining bytes throw; the fill flag reads as "byte is not 0". */
  function Unpack(buf: seq<Byte>, order: Order): Result<(DrawRect, seq<Byte>)>
  {
    if |buf| < Size() then Throws(InvalidDataSize(Size(), |buf|))
    else Ok((DrawRect(ReadShort(buf[0], buf[1], order), ReadShort(buf[2], buf[3], order),
                      ReadShort(buf[4], buf[5], order), ReadShort(buf[6], buf[7], order),
                      buf[8], buf[9] != 0, buf[10]), buf[11..]))
  }

  lemma UnpackPack(r: DrawRect, order: Order, rest: seq<Byte>)
    ensures Unpack(Pack(r, order) + rest, order) == Ok((r, rest))
  {
    var buf := Pack(r, order) + rest;
    ShortRoundTrip(r.x, order);
    ShortRoundTrip(r.y, order);
    ShortRoundTrip(r.width, order);
    ShortRoundTrip(r.height, order);
    assert buf[0..2] == ShortBytes(r.x, order);
    assert buf[2..4] == ShortBytes(r.y, order);
    assert buf[4..6] == ShortBytes(r.width, order);
    assert buf[6..8] == ShortBytes(r.height, order);
    assert buf[11..] == rest;
  }

  /** What `toArray` sends decodes, read little-endian, to the same rectangle. */
  lemma ToArrayRoundTrip(r: DrawRect)
    ensures ToArray(r).Ok? && Unpack(ToArray(r).value, LittleEndian) == Ok((r, []))
  {
    UnpackPack(r, LittleEndian, []);
    assert Pack(r, LittleEndian) + [] == Pack(r, LittleEndian);
  }

  lemma UnpackRejectsShort(buf: seq<Byte>, order: Order)
    requires |buf| < 11
    ensures Unpack(buf, order) == Throws(InvalidDataSize(11, |buf|))
  {
  }

  /** Any non-zero fill byte decodes as filled. */
  lemma UnpackFillFlag(buf: seq<Byte>, order: Order)
    requires |buf| >= 11
    ensures Unpack(buf, order).Ok? && (Unpack(buf, order).value.0.fill <==> buf[9] != 0)
  {
  }
}
