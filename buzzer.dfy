/**
 * The buzzer command message (protocol/buzzer/Buzzer.java): a mode byte,
 * then the value (a note code or a frequency) and the duration, each as a
 * 16-bit short. Byte order is that of the buffer; the inherited `toArray`
 * uses a freshly allocated, hence big-endian, buffer.
 */
module BuzzerCodec {
  import opened Common
  import BuzzerModes
  import Notes

  const BUZZER_SIZE: int := 5

  /** A buzzer command; `value` and `time` are Java `int`s. */
  datatype Buzzer = Buzzer(mode: BuzzerModes.BuzzerMode, value: int, time: int)

  /** The default constructor: stopped, MUTE note code, 1 ms. */
  function Default(): (b: Buzzer)
    ensures b.mode == BuzzerModes.Stop && b.value == Notes.Value(Notes.Mute) && b.time == 1
  {
    Buzzer(BuzzerModes.Stop, Notes.Value(Notes.Mute), 1)
  }

  /** `getSize()`. */
  function Size(): int { BUZZER_SIZE }

  /** `pack`: `(byte) mode`, then `(short) value` and `(short) time`. */
  function Pack(b: Buzzer, order: Order): (r: seq<Byte>)
    ensures |r| == Size()
  {
    [ToByte(BuzzerModes.Value(b.mode))] + ShortBytes(ToShort(b.value), order) + ShortBytes(ToShort(b.time), order)
  }

  /** The inherited `toArray`: `pack` into a fresh big-endian buffer. */
  function ToArray(b: Buzzer): (r: seq<Byte>)
    ensures |r| == Size()
  {
    Pack(b, BigEndian)
  }

  /** `getShort() & 0xFFFF`. */
  function ReadUnsignedShort(b0: Byte, b1: Byte, order: Order): (r: int)
    ensures 0 <= r < 65536
  {
    ReadShort(b0, b1, order) % 65536
  }

  /**
   * `unpack`: fewer than five remaining bytes throw `InvalidDataSizeException`,
   * an unknown mode code throws from `BuzzerMode.fromValue`; otherwise value
   * and time are read as unsigned 16-bit numbers. The rest of the buffer is
   * returned.
   */
  function Unpack(buf: seq<Byte>, order: Order): (r: Result<(Buzzer, seq<Byte>)>)
  {
    if |buf| < Size() then Throws(InvalidDataSize(Size(), |buf|))
    else match BuzzerModes.FromValue(buf[0])
      case Throws(e) => Throws(e)
      case Ok(mode) =>
        Ok((Buzzer(mode, ReadUnsignedShort(buf[1], buf[2], order), ReadUnsignedShort(buf[3], buf[4], order)), buf[5..]))
  }

  /** `stop()`. */
  function StopCommand(): (b: Buzzer)
    ensures b == Default()
  {
    Buzzer(BuzzerModes.Stop, Notes.Value(Notes.Mute), 1)
  }

  /** `mute(duration)`. */
  function MuteCommand(duration: int): (b: Buzzer)
    ensures b.mode == BuzzerModes.Mute && b.value == Notes.Value(Notes.Mute) && b.time == duration
  {
    Buzzer(BuzzerModes.Mute, Notes.Value(Notes.Mute), duration)
  }

  /** `note(note, duration)`. */
  function NoteCommand(n: Notes.Note, duration: int): (b: Buzzer)
    ensures b.mode == BuzzerModes.Scale && Notes.FromValue(b.value) == Ok(n) && b.time == duration
  {
    Notes.FromValueValue(n);
    Buzzer(BuzzerModes.Scale, Notes.Value(n), duration)
  }

  /** `frequency(hz, duration)`. */
  function FrequencyCommand(hz: int, duration: int): (b: Buzzer)
    ensures b.mode == BuzzerModes.Hz && b.value == hz && b.time == duration
  {
    Buzzer(BuzzerModes.Hz, hz, duration)
  }

  /** The short `putShort((short) v)` writes is read back by `getShort() & 0xFFFF` as `v` modulo 2^16. */
  lemma ShortFieldRoundTrip(v: int, order: Order)
    ensures var s := ShortBytes(ToShort(v), order); ReadUnsignedShort(s[0], s[1], order) == v % 65536
  {
    ShortRoundTrip(ToShort(v), order);
  }

  /**
   * Unpacking packed bytes restores the mode and gives value and time
   * masked to 0..65535; both survive unchanged exactly when already in
   * that range.
   */
  lemma UnpackPack(b: Buzzer, order: Order, rest: seq<Byte>)
    ensures Unpack(Pack(b, order) + rest, order) ==
      Ok((Buzzer(b.mode, b.value % 65536, b.time % 65536), rest))
  {
    var buf := Pack(b, order) + rest;
    BuzzerModes.ValueRange(b.mode);
    BuzzerModes.FromValueValue(b.mode);
    ShortFieldRoundTrip(b.value, order);
    ShortFieldRoundTrip(b.time, order);
    assert buf[1..3] == ShortBytes(ToShort(b.value), order);
    assert buf[3..5] == ShortBytes(ToShort(b.time), order);
    assert buf[5..] == rest;
  }

  lemma UnpackPackInRange(b: Buzzer, order: Order)
    requires 0 <= b.value < 65536 && 0 <= b.time < 65536
    ensures Unpack(Pack(b, order), order) == Ok((b, []))
  {
    UnpackPack(b, order, []);
    assert Pack(b, order) + [] == Pack(b, order);
    assert b.value % 65536 == b.value && b.time % 65536 == b.time;
    assert Buzzer(b.mode, b.value % 65536, b.time % 65536) == b;
  }

  /** Every successfully unpacked value and time is in 0..65535. */
  lemma UnpackMasks(buf: seq<Byte>, order: Order)
    requires Unpack(buf, order).Ok?
    ensures 0 <= Unpack(buf, order).value.0.value < 65536
    ensures 0 <= Unpack(buf, order).value.0.time < 65536
  {
  }

  /** A buffer shorter than five bytes is rejected, and an unknown mode byte too. */
  lemma UnpackRejects(buf: seq<Byte>, order: Order)
    ensures |buf| < 5 ==> Unpack(buf, order) == Throws(InvalidDataSize(5, |buf|))
    ensures |buf| >= 5 && buf[0] > 7 ==> Unpack(buf, order).Throws?
  {
  }
}
