/**
 * The draw-image display command (protocol/display/DisplayDrawImage.java):
 * x, y, width and height shorts, then the bit-packed image bytes. The class
 * does not override `toArray`, so it is sent through the inherited default,
 * which allocates a big-endian buffer of `getSize()` bytes.
 */
module DrawImageCodec {
  import opened Common

  const FIXED_PART: int := 8

  type Short = x: int | SHORT_MIN <= x <= SHORT_MAX

  datatype DrawImage = DrawImage(x: Short, y: Short, width: Short, height: Short, imageData: seq<Byte>)

  /** The default constructor: zero position and size, no image data. */
  function Default(): (r: DrawImage)
    ensures r.x == 0 && r.y == 0 && r.width == 0 && r.height == 0 && r.imageData == []
  {
    DrawImage(0, 0, 0, 0, [])
  }

  /** The full constructor: `(short)` casts, and `null` data becomes an empty array. */
  function Make(x: int, y: int, width: int, height: int, imageData: Option<seq<Byte>>): (r: DrawImage)
    ensures r.x == ToShort(x) && r.y == ToShort(y) && r.width == ToShort(width) && r.height == ToShort(height)
    ensures r.imageData == if imageData.Some? then imageData.value else []
  {
    DrawImage(ToShort(x), ToShort(y), ToShort(width), ToShort(height), if imageData.Some? then imageData.value else [])
  }

  /** `setImageData`: `null` becomes an empty array, nothing else changes. */
  function SetImageData(img: DrawImage, imageData: Option<seq<Byte>>): (r: DrawImage)
    ensures r.imageData == if imageData.Some? then imageData.value else []
    ensures r.x == img.x && r.y == img.y && r.width == img.width && r.height == img.height
  {
    img.(imageData := if imageData.Some? then imageData.value else [])
  }

  /** `getSize()`: `(byte) (8 + data length)`, wrapping modulo 256 into a signed byte. */
  function Size(img: DrawImage): (n: int)
    ensures -128 <= n < 128
    ensures (n - (FIXED_PART + |img.imageData|)) % 256 == 0
  {
    Signed8(ToByte(FIXED_PART + |img.imageData|))
  }

  /** `pack`: the four shorts, then the image bytes. */
  function Pack(img: DrawImage, order: Order): (b: seq<Byte>)
    ensures |b| == FIXED_PART + |img.imageData|
    ensures b[FIXED_PART..] == img.imageData
  {
    ShortBytes(img.x, order) + ShortBytes(img.y, order) + ShortBytes(img.width, order) + ShortBytes(img.height, order)
      + img.imageData
  }

  /** The inherited `toArray`, as written: a big-endian buffer of `getSize()` bytes. */
  function ToArray(img: DrawImage): Result<seq<Byte>>
  {
    AllocateAndPack(Size(img), Pack(img, BigEndian))
  }

  /**
   * The bytes the command is meant to travel as: little-endian like the
   * other display commands, in a buffer as long as the packed command.
   */
  function ToArrayIntended(img: DrawImage): (b: seq<Byte>)
    ensures |b| == FIXED_PART + |img.imageData|
  {
    Pack(img, LittleEndian)
  }

  /** `unpack`: at least 8 bytes; every remaining byte is image data. */
  function Unpack(buf: seq<Byte>, order: Order): Result<DrawImage>
  {
    if |buf| < FIXED_PART then Throws(InvalidDataSize(FIXED_PART, |buf|))
    else Ok(DrawImage(ReadShort(buf[0], buf[1], order), ReadShort(buf[2], buf[3], order),
                      ReadShort(buf[4], buf[5], order), ReadShort(buf[6], buf[7], order), buf[8..]))
  }

  lemma UnpackPack(img: DrawImage, order: Order)
    ensures Unpack(Pack(img, order), order) == Ok(img)
  {
    var buf := Pack(img, order);
    ShortRoundTrip(img.x, order);
    ShortRoundTrip(img.y, order);
    ShortRoundTrip(img.width, order);
    ShortRoundTrip(img.height, order);
    assert buf[0..2] == ShortBytes(img.x, order);
    assert buf[2..4] == ShortBytes(img.y, order);
    assert buf[4..6] == ShortBytes(img.width, order);
    assert buf[6..8] == ShortBytes(img.height, order);
  }

  lemma UnpackRejectsShort(buf: seq<Byte>, order: Order)
    requires |buf| < 8
    ensures Unpack(buf, order) == Throws(InvalidDataSize(8, |buf|))
  {
  }

  /** The intended encoding decodes, read little-endian, to the same command, for any amount of data. */
  lemma IntendedRoundTrip(img: DrawImage)
    ensures Unpack(ToArrayIntended(img), LittleEndian) == Ok(img)
  {
    UnpackPack(img, LittleEndian);
  }

  /**
   * As written, the command at (10, 20) with two data bytes is sent
   * big-endian, and a little-endian reader sees x = 2560 instead of 10.
   */
  lemma ByteOrderMismatch()
    ensures var img := Make(10, 20, 2, 16, Some([0xFF, 0x80]));
      ToArray(img).Ok? && Unpack(ToArray(img).value, LittleEndian).Ok? &&
      Unpack(ToArray(img).value, LittleEndian).value.x == 2560 &&
      ToArrayIntended(img)[0] == 10
  {
    var img := Make(10, 20, 2, 16, Some([0xFF, 0x80]));
    assert img.x == 10;
    assert Pack(img, BigEndian)[0] == 0 && Pack(img, BigEndian)[1] == 10;
  }

  /**
   * As written, 240 bytes of image data make `getSize()` wrap to -8, so
   * `toArray` throws instead of producing the 248-byte command.
   */
  lemma SizeWrapThrows(data: seq<Byte>)
    requires |data| == 240
    ensures Size(Make(0, 0, 128, 30, Some(data))) == -8
    ensures ToArray(Make(0, 0, 128, 30, Some(data))).Throws?
    ensures |ToArrayIntended(Make(0, 0, 128, 30, Some(data)))| == 248
  {
  }

  /** As written, `toArray` succeeds exactly when 8 + data length fits a signed byte. */
  lemma ToArrayDomain(img: DrawImage)
    ensures ToArray(img).Ok? <==> FIXED_PART + |img.imageData| < 128
  {
    var n := FIXED_PART + |img.imageData|;
    if n >= 128 {
      if n < 256 {
        assert Size(img) == n - 256;
      } else {
        assert Size(img) < n;
      }
    }
  }
}
