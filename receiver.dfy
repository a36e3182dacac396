/**
 * The byte-at-a-time frame parser (receiver/Receiver.java).
 *
 * A frame is two start bytes (0x0A, 0x55), a 4-byte header (data type,
 * payload length, from, to), `length` payload bytes and a CRC16 sent low
 * byte first. The CRC is folded over the header and payload bytes only.
 * A frame whose CRC matches is handed to `processPayload`: an ACK frame
 * completes the pending acknowledgement it names, a type with a factory is
 * parsed and passed to its handler, and any other type is dropped.
 *
 * `Step` is the specification of one `call(byte)`; the `Receiver` class at
 * the end updates its fields in place and is proved to follow `Step`.
 * The CRC16 routine and MAX_PAYLOAD_SIZE are not part of this model: they
 * are the `Config` the parser is built with.
 */
module ReceiverModel {
  import opened Common
  import DataTypes
  import DeviceTypes
  import HeaderCodec

  const START_BYTE_1: Byte := 0x0A
  const START_BYTE_2: Byte := 0x55

  /**
   * CRC16's byte update `calc(byte, crc)`, the largest accepted payload, and
   * whether a type's message class parses a payload without throwing (a
   * payload shorter than the message, say).
   */
  datatype Config = Config(crc: (Byte, int) -> int, maxPayload: nat, parses: (DataTypes.DataType, seq<Byte>) -> bool)

  datatype Section = Start | Header | Data | End

  /** A message created by its type's factory and parsed from the payload. */
  datatype Delivery = Delivery(dataType: DataTypes.DataType, payload: seq<Byte>, handled: bool)

  /**
   * The parser's fields. `receiving` stands for `timeReceiveStart > 0`;
   * `frame` records the header and payload bytes consumed so far (the bytes
   * the CRC is folded over). `pendingAcks` are the keys of the ACK map,
   * `completedAcks` the futures completed so far, in order, and `delivered`
   * the messages handed on.
   */
  datatype State = State(
    section: Section,
    index: int,
    receiving: bool,
    hdrType: Option<DataTypes.DataType>,
    hdrLength: Byte,
    hdrFrom: Option<DeviceTypes.DeviceType>,
    hdrTo: Option<DeviceTypes.DeviceType>,
    buffer: seq<Byte>,
    crcReceived: int,
    crcCalculated: int,
    frame: seq<Byte>,
    pendingAcks: set<DataTypes.DataType>,
    completedAcks: seq<DataTypes.DataType>,
    delivered: seq<Delivery>)

  /** The types `initializeHandlers` registers a handler for. */
  predicate HasHandler(t: DataTypes.DataType)
  {
    t in {DataTypes.State, DataTypes.Information, DataTypes.Attitude, DataTypes.Position, DataTypes.Altitude,
          DataTypes.CardColor, DataTypes.Trim, DataTypes.RawFlow, DataTypes.Flow}
  }

  /** The CRC folded over `bytes`, starting from `acc`. */
  function CrcOf(cfg: Config, bytes: seq<Byte>, acc: int): int
    decreases |bytes|
  {
    if bytes == [] then acc else CrcOf(cfg, bytes[1..], cfg.crc(bytes[0], acc))
  }

  lemma {:induction false} CrcOfAppend(cfg: Config, bytes: seq<Byte>, b: Byte, acc: int)
    ensures CrcOf(cfg, bytes + [b], acc) == cfg.crc(b, CrcOf(cfg, bytes, acc))
    decreases |bytes|
  {
    if bytes != [] {
      assert (bytes + [b])[1..] == bytes[1..] + [b];
      CrcOfAppend(cfg, bytes[1..], b, cfg.crc(bytes[0], acc));
    }
  }

  /** `reset()`: back to START with nothing buffered; the ACK map and the delivered messages stay. */
  function ResetState(s: State): State
  {
    State(Start, 0, false, None, 0, None, None, [], 0, 0, [], s.pendingAcks, s.completedAcks, s.delivered)
  }

  /** The parser as constructed: idle, no pending ACKs, nothing delivered. */
  function Initial(): (r: State)
    ensures r.section == Start && r.index == 0 && !r.receiving
    ensures r.pendingAcks == {} && r.completedAcks == [] && r.delivered == []
  {
    State(Start, 0, false, None, 0, None, None, [], 0, 0, [], {}, [], [])
  }

  /** Waiting for a first start byte, with nothing of a frame consumed. */
  predicate Idle(s: State)
  {
    s == ResetState(s)
  }

  /** `onAckReceived(t)`: complete and remove the entry for `t` if there is one; otherwise only a warning. */
  function AckReceived(s: State, t: DataTypes.DataType): (r: State)
    ensures r.pendingAcks == s.pendingAcks - {t}
    ensures r.completedAcks == if t in s.pendingAcks then s.completedAcks + [t] else s.completedAcks
    ensures r == s.(pendingAcks := r.pendingAcks, completedAcks := r.completedAcks)
  {
    if t in s.pendingAcks then s.(pendingAcks := s.pendingAcks - {t}, completedAcks := s.completedAcks + [t])
    else s
  }

  /**
   * `processPayload()` for a frame of type `t`. An ACK names the acknowledged
   * type in its first byte; an unknown byte there makes the ACK map lookup
   * throw, which the method catches. A type without a factory is dropped,
   * and so is a payload its message fails to parse: the exception is caught
   * before the handler is looked up.
   */
  function ProcessedState(cfg: Config, s: State, t: DataTypes.DataType): State
  {
    if t == DataTypes.Ack then
      if |s.buffer| > 0 then
        match DataTypes.FromByte(s.buffer[0])
        case None => s
        case Some(acked) => AckReceived(s, acked)
      else s
    else if !DataTypes.HasFactory(t) then s
    else if !cfg.parses(t, s.buffer) then s
    else s.(delivered := s.delivered + [Delivery(t, s.buffer, HasHandler(t))])
  }

  /** `handleStart`: the success flag and the new state. */
  function StartStep(s: State, b: Byte): (bool, State)
  {
    if s.index == 0 then
      if b == START_BYTE_1 then (true, s.(receiving := true)) else (false, s)
    else if s.index == 1 then
      if b == START_BYTE_2 then (true, s.(section := Header, index := 0)) else (false, s)
    else (true, s)
  }

  /**
   * `handleHeader`. The length byte is read as an unsigned number here; see
   * `LengthAcceptedAsWritten` for the signed reading the source performs.
   */
  function HeaderStep(cfg: Config, s: State, b: Byte): (bool, State)
  {
    var s' := s.(crcCalculated := cfg.crc(b, s.crcCalculated), frame := s.frame + [b]);
    if s.index == 0 then
      match DataTypes.FromByte(b)
      case None => (false, s)
      case Some(t) => (true, s'.(hdrType := Some(t), hdrLength := 0, hdrFrom := None, hdrTo := None))
    else if s.index == 1 then
      if b > cfg.maxPayload then (false, s.(hdrLength := b)) else (true, s'.(hdrLength := b))
    else if s.index == 2 then
      match DeviceTypes.FromByte(b)
      case None => (false, s)
      case Some(d) => (true, s'.(hdrFrom := Some(d)))
    else if s.index == 3 then
      match DeviceTypes.FromByte(b)
      case None => (false, s)
      case Some(d) =>
        (true, s'.(hdrTo := Some(d), section := if s.hdrLength == 0 then End else Data, index := 0))
    else (true, s')
  }

  /** `handleData`: buffer the byte; the last payload byte moves on to END. */
  function DataStep(cfg: Config, s: State, b: Byte): (bool, State)
  {
    var s' := s.(buffer := s.buffer + [b], crcCalculated := cfg.crc(b, s.crcCalculated), frame := s.frame + [b]);
    if s.index == s.hdrLength - 1 then (true, s'.(section := End, index := 0)) else (true, s')
  }

  /** `handleEnd`: low CRC byte, then high CRC byte and the comparison. */
  function EndStep(cfg: Config, s: State, b: Byte): (bool, State)
    requires s.hdrType.Some?
  {
    if s.index == 0 then (true, s.(crcReceived := b))
    else if s.index == 1 then
      var received := s.crcReceived + b * 256;
      if received == s.crcCalculated then
        (true, ResetState(ProcessedState(cfg, s.(crcReceived := received), s.hdrType.value)))
      else (false, s.(crcReceived := received))
    else (true, s)
  }

  /** One `call(byte)`: dispatch on the section, reset on failure, else advance the index within the section. */
  function SectionStep(cfg: Config, s: State, b: Byte): (bool, State)
    requires s.section == End ==> s.hdrType.Some?
  {
    match s.section
    case Start => StartStep(s, b)
    case Header => HeaderStep(cfg, s, b)
    case Data => DataStep(cfg, s, b)
    case End => EndStep(cfg, s, b)
  }

  function Step(cfg: Config, s: State, b: Byte): State
    requires s.section == End ==> s.hdrType.Some?
  {
    var (ok, s1) := SectionStep(cfg, s, b);
    if !ok then ResetState(s1)
    else if s1.receiving && s1.section == s.section then s1.(index := s1.index + 1)
    else s1
  }

  /**
   * The states `call` can be in between bytes. Each section bounds its
   * index; the buffer holds the payload bytes read so far and never more
   * than the header's length; the calculated CRC is the CRC of the header
   * and payload bytes consumed.
   */
  predicate Valid(cfg: Config, s: State)
  {
    && s.crcCalculated == CrcOf(cfg, s.frame, 0)
    && match s.section
      case Start =>
        && s.buffer == [] && s.frame == [] && s.hdrType == None && s.crcReceived == 0
        && ((s.index == 0 && !s.receiving) || (s.index == 1 && s.receiving))
      case Header =>
        && s.receiving && 0 <= s.index <= 3 && s.buffer == [] && |s.frame| == s.index && s.crcReceived == 0
        && (s.index >= 1 <==> s.hdrType.Some?)
        && (s.index >= 2 ==> s.hdrLength <= cfg.maxPayload)
      case Data =>
        && s.receiving && s.hdrType.Some? && 0 < s.hdrLength <= cfg.maxPayload
        && s.index == |s.buffer| < s.hdrLength && |s.frame| == 4 + |s.buffer| && s.frame[4..] == s.buffer
        && s.crcReceived == 0
      case End =>
        && s.receiving && s.hdrType.Some? && s.hdrLength <= cfg.maxPayload
        && |s.buffer| == s.hdrLength && |s.frame| == 4 + |s.buffer| && s.frame[4..] == s.buffer
        && (s.index == 0 || s.index == 1)
        && (s.index == 0 ==> s.crcReceived == 0)
        && (s.index == 1 ==> 0 <= s.crcReceived < 256)
  }

  lemma InitialValid(cfg: Config)
    ensures Valid(cfg, Initial())
  {
  }

  /** Every call keeps the parser in a valid state. */
  lemma StepValid(cfg: Config, s: State, b: Byte)
    requires Valid(cfg, s)
    ensures Valid(cfg, Step(cfg, s, b))
  {
    match s.section
    case Start =>
    case Header =>
      CrcOfAppend(cfg, s.frame, b, 0);
    case Data =>
      CrcOfAppend(cfg, s.frame, b, 0);
      assert (s.frame + [b])[4..] == s.buffer + [b];
    case End =>
  }

  /** Any byte other than the first start byte, in an idle parser, changes nothing. */
  lemma NoiseIgnored(cfg: Config, s: State, b: Byte)
    requires Idle(s) && b != START_BYTE_1
    ensures Step(cfg, s, b) == s
  {
  }

  /** A wrong second start byte resets the parser to START, index 0. */
  lemma WrongSecondStartByte(cfg: Config, s: State, b: Byte)
    requires Valid(cfg, s) && s.section == Start && s.index == 1 && b != START_BYTE_2
    ensures Step(cfg, s, b) == ResetState(s)
    ensures Idle(Step(cfg, s, b))
  {
  }

  /** A header length above the maximum rejects the frame. */
  lemma LengthAboveMaxRejected(cfg: Config, s: State, b: Byte)
    requires Valid(cfg, s) && s.section == Header && s.index == 1 && b > cfg.maxPayload
    ensures Idle(Step(cfg, s, b))
    ensures Step(cfg, s, b).delivered == s.delivered
  {
  }

  /** The last header byte moves to END for an empty payload and to DATA otherwise. */
  lemma HeaderEndsInEndOrData(cfg: Config, s: State, b: Byte)
    requires Valid(cfg, s) && s.section == Header && s.index == 3 && DeviceTypes.FromByte(b).Some?
    ensures Step(cfg, s, b).section == (if s.hdrLength == 0 then End else Data)
    ensures Step(cfg, s, b).index == 0
  {
  }

  /** A received CRC that differs from the calculated one resets the parser and delivers nothing. */
  lemma CrcMismatchResets(cfg: Config, s: State, b: Byte)
    requires Valid(cfg, s) && s.section == End && s.index == 1
    requires s.crcReceived + 256 * b != s.crcCalculated
    ensures Step(cfg, s, b) == ResetState(s.(crcReceived := s.crcReceived + 256 * b))
    ensures Step(cfg, s, b).delivered == s.delivered && Step(cfg, s, b).pendingAcks == s.pendingAcks
  {
  }

  /** The Trim handler is never reached: `Trim` has no factory, so its frames are dropped. */
  lemma TrimNeverHandled(cfg: Config, s: State)
    ensures ProcessedState(cfg, s, DataTypes.Trim) == s
  {
  }

  /**
   * A frame is handed on exactly when its type is not an ACK, has a factory
   * and its message parses the payload; the delivery then says whether a
   * handler runs. A payload that fails to parse reaches no handler.
   */
  lemma DeliveredIffParsed(cfg: Config, s: State, t: DataTypes.DataType)
    ensures var r := ProcessedState(cfg, s, t);
      |r.delivered| == |s.delivered| + 1 <==> t != DataTypes.Ack && DataTypes.HasFactory(t) && cfg.parses(t, s.buffer)
    ensures var r := ProcessedState(cfg, s, t);
      |r.delivered| == |s.delivered| + 1 ==> r.delivered == s.delivered + [Delivery(t, s.buffer, HasHandler(t))]
    ensures t != DataTypes.Ack && !cfg.parses(t, s.buffer) ==> ProcessedState(cfg, s, t) == s
  {
  }

  /** An ACK completes and removes only the entry it names. */
  lemma AckRemovesOnlyItsEntry(s: State, t: DataTypes.DataType, other: DataTypes.DataType)
    requires other != t
    ensures other in AckReceived(s, t).pendingAcks <==> other in s.pendingAcks
    ensures t !in AckReceived(s, t).pendingAcks
    ensures AckReceived(s, t).delivered == s.delivered
  {
  }

  // ------------------------------------------------------------ whole frames

  /** Feed bytes one `call` at a time. */
  function Run(cfg: Config, s: State, bytes: seq<Byte>): (r: State)
    requires Valid(cfg, s)
    ensures Valid(cfg, r)
    decreases |bytes|
  {
    if bytes == [] then s
    else
      StepValid(cfg, s, bytes[0]);
      Run(cfg, Step(cfg, s, bytes[0]), bytes[1..])
  }

  lemma {:induction false} RunAppend(cfg: Config, s: State, xs: seq<Byte>, ys: seq<Byte>)
    requires Valid(cfg, s)
    ensures Run(cfg, s, xs + ys) == Run(cfg, Run(cfg, s, xs), ys)
    decreases |xs|
  {
    if xs == [] {
      assert xs + ys == ys;
    } else {
      StepValid(cfg, s, xs[0]);
      assert (xs + ys)[1..] == xs[1..] + ys;
      RunAppend(cfg, Step(cfg, s, xs[0]), xs[1..], ys);
    }
  }

  /** The CRC value a sender computes for a header and payload. */
  function FrameCrc(cfg: Config, h: HeaderCodec.Header, payload: seq<Byte>): int
    requires h.dataType.Some?
  {
    CrcOf(cfg, HeaderCodec.Pack(h) + payload, 0)
  }

  /** The bytes of a frame as `Drone.transfer` lays them out: start bytes, header, payload, CRC low then high. */
  function EncodeFrame(cfg: Config, h: HeaderCodec.Header, payload: seq<Byte>): seq<Byte>
    requires h.dataType.Some?
    requires 0 <= FrameCrc(cfg, h, payload) < 65536
  {
    var c := FrameCrc(cfg, h, payload);
    [START_BYTE_1, START_BYTE_2] + HeaderCodec.Pack(h) + payload + [c % 256, c / 256]
  }

  /** The DATA section reads the payload bytes one by one and leaves for END after the last. */
  lemma {:induction false} RunPayload(cfg: Config, s: State, payload: seq<Byte>, k: nat)
    requires Valid(cfg, s) && s.section == Data && |payload| == s.hdrLength
    requires k == |s.buffer| < |payload| && s.buffer == payload[..k]
    ensures var r := Run(cfg, s, payload[k..]);
      && r.section == End && r.index == 0 && r.buffer == payload
      && r.frame == s.frame[..4] + payload
      && r == s.(section := End, index := 0, buffer := payload, frame := s.frame[..4] + payload,
                 crcCalculated := r.crcCalculated)
    decreases |payload| - k
  {
    var b := payload[k];
    StepValid(cfg, s, b);
    var s1 := Step(cfg, s, b);
    assert payload[k..] == [b] + payload[k + 1..];
    assert s.buffer + [b] == payload[..k + 1];
    assert s.frame == s.frame[..4] + s.buffer;
    if k + 1 == |payload| {
      assert payload[k + 1..] == [];
      assert payload[..k + 1] == payload;
    } else {
      RunPayload(cfg, s1, payload, k + 1);
    }
  }

  /** The start bytes and a valid header take an idle parser to DATA (or END for an empty payload). */
  lemma RunHeader(cfg: Config, s: State, h: HeaderCodec.Header)
    requires Valid(cfg, s) && Idle(s)
    requires h.dataType.Some? && h.length <= cfg.maxPayload
    ensures var hb := HeaderCodec.Pack(h);
      Run(cfg, s, [START_BYTE_1, START_BYTE_2] + hb) ==
      s.(section := if h.length == 0 then End else Data, index := 0, receiving := true,
         hdrType := h.dataType, hdrLength := h.length, hdrFrom := Some(h.from), hdrTo := Some(h.to),
         frame := hb, crcCalculated := CrcOf(cfg, hb, 0))
  {
    var hb := HeaderCodec.Pack(h);
    DataTypes.FromByteValue(h.dataType.value);
    DeviceTypes.FromByteValue(h.from);
    DeviceTypes.FromByteValue(h.to);
    var pre := [START_BYTE_1, START_BYTE_2] + hb;
    var r1 := Step(cfg, s, START_BYTE_1);
    var r2 := Step(cfg, r1, START_BYTE_2);
    var r3 := Step(cfg, r2, hb[0]);
    var r4 := Step(cfg, r3, hb[1]);
    var r5 := Step(cfg, r4, hb[2]);
    var r6 := Step(cfg, r5, hb[3]);
    StepValid(cfg, s, START_BYTE_1);
    StepValid(cfg, r1, START_BYTE_2);
    StepValid(cfg, r2, hb[0]);
    StepValid(cfg, r3, hb[1]);
    StepValid(cfg, r4, hb[2]);
    StepValid(cfg, r5, hb[3]);
    assert pre == [START_BYTE_1, START_BYTE_2, hb[0], hb[1], hb[2], hb[3]];
    assert Run(cfg, s, pre) == Run(cfg, r1, pre[1..]);
    assert Run(cfg, r1, pre[1..]) == Run(cfg, r2, pre[2..]);
    assert Run(cfg, r2, pre[2..]) == Run(cfg, r3, pre[3..]);
    assert Run(cfg, r3, pre[3..]) == Run(cfg, r4, pre[4..]);
    assert Run(cfg, r4, pre[4..]) == Run(cfg, r5, pre[5..]);
    assert Run(cfg, r5, pre[5..]) == Run(cfg, r6, []);
    assert r6.frame == [hb[0], hb[1], hb[2], hb[3]] == hb;
  }

  /** The two CRC bytes of a frame whose CRC matches hand the payload on and reset the parser. */
  lemma RunCrc(cfg: Config, s: State, c: int)
    requires Valid(cfg, s) && s.section == End && s.index == 0
    requires s.crcCalculated == c && 0 <= c < 65536
    ensures Run(cfg, s, [c % 256, c / 256]) == ResetState(ProcessedState(cfg, s, s.hdrType.value))
  {
    var tail := [c % 256, c / 256];
    var e1 := Step(cfg, s, c % 256);
    var e2 := Step(cfg, e1, c / 256);
    StepValid(cfg, s, c % 256);
    StepValid(cfg, e1, c / 256);
    assert tail[1..] == [c / 256];
    assert Run(cfg, s, tail) == Run(cfg, e1, tail[1..]);
    assert Run(cfg, e1, tail[1..]) == Run(cfg, e2, []);
    assert e1.crcReceived + (c / 256) * 256 == c;
  }

  /** What a reset parser keeps of `processPayload` depends only on the payload, the ACK map and the deliveries. */
  lemma ResetProcessedDependsOn(cfg: Config, a: State, b: State, t: DataTypes.DataType)
    requires a.buffer == b.buffer && a.pendingAcks == b.pendingAcks
    requires a.completedAcks == b.completedAcks && a.delivered == b.delivered
    ensures ResetState(ProcessedState(cfg, a, t)) == ResetState(ProcessedState(cfg, b, t))
  {
  }

  /**
   * A well-formed frame fed to an idle parser is dispatched exactly once
   * (`processPayload` runs on its type and payload) and the parser is idle
   * again afterwards.
   */
  lemma FrameDispatchedOnce(cfg: Config, s: State, h: HeaderCodec.Header, payload: seq<Byte>)
    requires Valid(cfg, s) && Idle(s)
    requires h.dataType.Some? && h.length == |payload| <= cfg.maxPayload
    requires 0 <= FrameCrc(cfg, h, payload) < 65536
    ensures Run(cfg, s, EncodeFrame(cfg, h, payload)) ==
      ResetState(ProcessedState(cfg, s.(buffer := payload), h.dataType.value))
  {
    var hb := HeaderCodec.Pack(h);
    var c := FrameCrc(cfg, h, payload);
    var pre := [START_BYTE_1, START_BYTE_2] + hb;
    var tail := [c % 256, c / 256];
    RunHeader(cfg, s, h);
    var s6 := Run(cfg, s, pre);
    var s7 := Run(cfg, s6, payload);
    if |payload| > 0 {
      assert payload[0..] == payload && payload[..0] == [];
      RunPayload(cfg, s6, payload, 0);
    }
    assert s7.section == End && s7.index == 0 && s7.buffer == payload && s7.frame == hb + payload;
    RunCrc(cfg, s7, c);
    ResetProcessedDependsOn(cfg, s7, s.(buffer := payload), h.dataType.value);
    RunAppend(cfg, s, pre, payload);
    RunAppend(cfg, s, pre + payload, tail);
    assert EncodeFrame(cfg, h, payload) == pre + payload + tail;
  }

  // ------------------------------------------------- the length byte as written

  /** The source's length test: the length byte is a signed Java `byte` compared with the maximum. */
  predicate LengthAcceptedAsWritten(b: Byte, maxPayload: nat)
  {
    !(Signed8(b) > maxPayload)
  }

  /** The source's DATA completion test `index == header.getLength() - 1`, on the signed length. */
  predicate DataCompleteAsWritten(index: int, b: Byte)
  {
    index == Signed8(b) - 1
  }

  /**
   * As written, a length byte of 0x80..0xFF passes the maximum check (it is
   * negative) and the DATA section then never completes: no index reached
   * by counting up from 0 satisfies the completion test, so the payload
   * buffer fills up and `put` overflows.
   */
  lemma NegativeLengthNeverCompletes(b: Byte, maxPayload: nat, index: nat)
    requires b >= 0x80
    ensures LengthAcceptedAsWritten(b, maxPayload)
    ensures !DataCompleteAsWritten(index, b)
  {
  }

  /** The unsigned reading the parser model uses accepts the same lengths as written below 0x80, and only those at most the maximum. */
  lemma UnsignedLengthAgreesBelow0x80(b: Byte, maxPayload: nat)
    ensures b < 0x80 ==> (LengthAcceptedAsWritten(b, maxPayload) <==> b <= maxPayload)
    ensures b >= 0x80 && maxPayload < b ==> LengthAcceptedAsWritten(b, maxPayload)
  {
  }

  // ------------------------------------------------------------- the class

  /** The parser object: fields updated in place by `call`. */
  class Receiver {
    const cfg: Config
    var section: Section
    var index: int
    var receiving: bool
    var hdrType: Option<DataTypes.DataType>
    var hdrLength: Byte
    var hdrFrom: Option<DeviceTypes.DeviceType>
    var hdrTo: Option<DeviceTypes.DeviceType>
    var buffer: seq<Byte>
    var crcReceived: int
    var crcCalculated: int
    ghost var frame: seq<Byte>
    var pendingAcks: set<DataTypes.DataType>
    var completedAcks: seq<DataTypes.DataType>
    var delivered: seq<Delivery>

    ghost function Abstract(): State
      reads this
    {
      State(section, index, receiving, hdrType, hdrLength, hdrFrom, hdrTo, buffer, crcReceived, crcCalculated,
            frame, pendingAcks, completedAcks, delivered)
    }

    ghost predicate Inv()
      reads this
    {
      Valid(cfg, Abstract())
    }

    constructor (crc: (Byte, int) -> int, maxPayload: nat, parses: (DataTypes.DataType, seq<Byte>) -> bool)
      ensures cfg == Config(crc, maxPayload, parses)
      ensures Abstract() == Initial() && Inv()
    {
      cfg := Config(crc, maxPayload, parses);
      section, index, receiving := Start, 0, false;
      hdrType, hdrLength, hdrFrom, hdrTo := None, 0, None, None;
      buffer, crcReceived, crcCalculated, frame := [], 0, 0, [];
      pendingAcks, completedAcks, delivered := {}, [], [];
    }

    method Reset()
      modifies this
      ensures Abstract() == ResetState(old(Abstract()))
    {
      section, index, receiving := Start, 0, false;
      ClearHeader();
      ClearMessage();
    }

    /** `header = null`. */
    method ClearHeader()
      modifies this
      ensures Abstract() == old(Abstract()).(hdrType := None, hdrLength := 0, hdrFrom := None, hdrTo := None)
    {
      hdrType, hdrLength, hdrFrom, hdrTo := None, 0, None, None;
    }

    /** `dataBuffer.clear()` and both CRCs back to 0. */
    method ClearMessage()
      modifies this
      ensures Abstract() == old(Abstract()).(buffer := [], crcReceived := 0, crcCalculated := 0, frame := [])
    {
      buffer, crcReceived, crcCalculated, frame := [], 0, 0, [];
    }

    method ExpectAck(t: DataTypes.DataType)
      modifies this
      ensures Abstract() == old(Abstract()).(pendingAcks := old(pendingAcks) + {t})
    {
      pendingAcks := pendingAcks + {t};
    }

    /** `getAckFuture(t) != null`. */
    method HasAckFuture(t: DataTypes.DataType) returns (r: bool)
      ensures r <==> t in pendingAcks
    {
      r := t in pendingAcks;
    }

    method OnAckReceived(t: DataTypes.DataType)
      modifies this
      ensures Abstract() == AckReceived(old(Abstract()), t)
    {
      if t in pendingAcks {
        pendingAcks := pendingAcks - {t};
        completedAcks := completedAcks + [t];
      }
    }

    method HandleStart(b: Byte) returns (success: bool)
      modifies this
      ensures (success, Abstract()) == StartStep(old(Abstract()), b)
    {
      success := true;
      if index == 0 {
        if b == START_BYTE_1 {
          receiving := true;
        } else {
          success := false;
        }
      } else if index == 1 {
        if b == START_BYTE_2 {
          section := Header;
          index := 0;
        } else {
          success := false;
        }
      }
    }

    method HandleHeader(b: Byte) returns (success: bool)
      modifies this
      ensures (success, Abstract()) == HeaderStep(cfg, old(Abstract()), b)
    {
      if index == 0 {
        var t := DataTypes.FromByte(b);
        if t.None? {
          return false;
        }
        hdrType, hdrLength, hdrFrom, hdrTo := t, 0, None, None;
      } else if index == 1 {
        hdrLength := b;
        if hdrLength > cfg.maxPayload {
          return false;
        }
      } else if index == 2 {
        var d := DeviceTypes.FromByte(b);
        if d.None? {
          return false;
        }
        hdrFrom := d;
      } else if index == 3 {
        var d := DeviceTypes.FromByte(b);
        if d.None? {
          return false;
        }
        hdrTo := d;
        section := if hdrLength == 0 then End else Data;
        index := 0;
      }
      crcCalculated := cfg.crc(b, crcCalculated);
      frame := frame + [b];
      success := true;
    }

    method HandleData(b: Byte) returns (success: bool)
      modifies this
      ensures (success, Abstract()) == DataStep(cfg, old(Abstract()), b)
    {
      buffer := buffer + [b];
      crcCalculated := cfg.crc(b, crcCalculated);
      frame := frame + [b];
      if index == hdrLength - 1 {
        section := End;
        index := 0;
      }
      success := true;
    }

    method ProcessPayload()
      requires hdrType.Some?
      modifies this
      ensures Abstract() == ProcessedState(cfg, old(Abstract()), old(hdrType.value))
    {
      var t := hdrType.value;
      if t == DataTypes.Ack {
        if |buffer| > 0 {
          var acked := DataTypes.FromByte(buffer[0]);
          if acked.Some? {
            OnAckReceived(acked.value);
          }
        }
        return;
      }
      if !DataTypes.HasFactory(t) || !cfg.parses(t, buffer) {
        return;
      }
      delivered := delivered + [Delivery(t, buffer, HasHandler(t))];
    }

    method HandleEnd(b: Byte) returns (success: bool)
      requires hdrType.Some?
      modifies this
      ensures (success, Abstract()) == EndStep(cfg, old(Abstract()), b)
    {
      success := true;
      if index == 0 {
        crcReceived := b;
      } else if index == 1 {
        crcReceived := crcReceived + b * 256;
        if crcReceived == crcCalculated {
          ProcessPayload();
          Reset();
        } else {
          success := false;
        }
      }
    }

    /** The `switch` of `call`: the handler of the current section. */
    method HandleSection(b: Byte) returns (success: bool)
      requires section == End ==> hdrType.Some?
      modifies this
      ensures (success, Abstract()) == SectionStep(cfg, old(Abstract()), b)
    {
      match section {
        case Start => success := HandleStart(b);
        case Header => success := HandleHeader(b);
        case Data => success := HandleData(b);
        case End => success := HandleEnd(b);
      }
    }

    /** `call(byte)`: one byte of the stream. */
    method Call(b: Byte)
      requires Inv()
      modifies this
      ensures Abstract() == Step(cfg, old(Abstract()), b)
      ensures Inv()
    {
      ghost var before := Abstract();
      StepValid(cfg, before, b);
      var sectionBefore := section;
      var success := HandleSection(b);
      if !success {
        Reset();
        return;
      }
      if receiving && section == sectionBefore {
        index := index + 1;
      }
    }
  }
}
