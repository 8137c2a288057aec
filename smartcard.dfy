/**
 * The smartcard reader persona (CCID): the reader's replies to bulk
 * PC_to_RDR messages, each assembled field by field with any one field
 * replaceable by the operator's test case; the slot-change notification
 * on the interrupt endpoint; the CCID class descriptor; and the
 * GET_CLOCK_FREQUENCIES class request.
 */
module Smartcard {
  import opened Common
  import opened Transport
  import opened Descriptors

  // ---------------------------------------------------------------------
  // Bulk replies

  /** A reply field after the slot number: one a test case may replace, by name, or a fixed one. */
  datatype Field = Settable(name: string, default: Bytes) | Fixed(bytes: Bytes)

  /**
   * How the reply to one command is laid out: the test-case prefix of its
   * field names, whether it consults the test case at all, the default
   * message type and message length, and the fields after bSeq.
   */
  datatype Layout = Layout(prefix: string, consults: bool, messageType: byte, dwLength: u32, tail: seq<Field>)

  const SetParameters := 0x61
  const IccPowerOn := 0x62
  const IccPowerOff := 0x63
  const GetSlotStatus := 0x65
  const Escape := 0x6b
  const XfrBlock := 0x6f
  const SetDataRateAndClockFrequency := 0x73

  const Atr: Bytes := [0x3b, 0x6e, 0x00, 0x00, 0x80, 0x31, 0x80, 0x66, 0xb0, 0x84, 0x12, 0x01, 0x6e, 0x01, 0x83, 0x00, 0x90, 0x00]

  /** The reply layout of each command the reader understands; `reserved` is the request's byte 7. */
  function LayoutOf(command: byte, reserved: byte): Option<Layout>
  {
    if command == SetParameters then
      Some(Layout("SetParameters", true, 0x82, 5,
        [Settable("bStatus", [0x00]), Settable("bError", [0x80]), Settable("bProtocolNum", [0x00]), Fixed([0x11, 0x00, 0x00, 0x0a, 0x00])]))
    else if command == IccPowerOn && reserved == 2 then
      Some(Layout("IccPowerOn", true, 0x80, 18,
        [Settable("bStatus", [0x00]), Settable("bError", [0x80]), Settable("bChainParameter", [0x00]), Fixed(Atr)]))
    else if command == IccPowerOn then
      Some(Layout("IccPowerOn", true, 0x80, 0,
        [Settable("bStatus", [0x40]), Settable("bError", [0xfe]), Settable("bChainParameter", [0x00])]))
    else if command == IccPowerOff then
      Some(Layout("IccPowerOff", true, 0x81, 0, [Settable("abRFU", [0x01])]))
    else if command == GetSlotStatus then
      Some(Layout("", false, 0x81, 0, [Fixed([0x01]), Fixed([0x00]), Fixed([0x00])]))
    else if command == Escape then
      Some(Layout("", false, 0x83, 0, [Fixed([0x41]), Fixed([0x0a]), Fixed([0x00])]))
    else if command == XfrBlock then
      Some(Layout("XfrBlock", true, 0x80, 2,
        [Settable("bStatus", [0x00]), Settable("bError", [0x80]), Settable("bChainParameter", [0x00]), Fixed([0x6a, 0x82])]))
    else if command == SetDataRateAndClockFrequency then
      Some(Layout("SetDataRateAndClockFrequency", true, 0x84, 8,
        [Settable("bStatus", [0x00]), Settable("bError", [0x80]), Settable("bRFU", [0x80]),
         Settable("dwClockFrequency", [0xA6, 0x0E, 0x00, 0x00]), Settable("dwDataRate", [0x60, 0x27, 0x00, 0x00])]))
    else None
  }

  /** A field's bytes: the test case's value when it names this field of this command, else the default. */
  function Value(tc: Option<Testcase>, consults: bool, name: string, default: Bytes): (b: Bytes)
    ensures consults && tc.Some? && tc.value.field == name ==> b == tc.value.value
    ensures !(consults && tc.Some? && tc.value.field == name) ==> b == default
  {
    if consults && tc.Some? && tc.value.field == name then tc.value.value else default
  }

  function FieldValue(tc: Option<Testcase>, l: Layout, f: Field): Bytes
  {
    match f
    case Settable(n, d) => Value(tc, l.consults, l.prefix + "_" + n, d)
    case Fixed(b) => b
  }

  function Default(f: Field): Bytes
  {
    match f
    case Settable(_, d) => d
    case Fixed(b) => b
  }

  /** The bytes of the fields after bSeq, in order. */
  function TailParts(tc: Option<Testcase>, l: Layout): (parts: seq<Bytes>)
    ensures |parts| == |l.tail|
  {
    seq(|l.tail|, k requires 0 <= k < |l.tail| => FieldValue(tc, l, l.tail[k]))
  }

  /** bMessageType, dwLength, bSlot, bSeq, and then the rest of the fields. */
  function Response(l: Layout, bSeq: byte, tc: Option<Testcase>): Bytes
  {
    Value(tc, l.consults, l.prefix + "_bMessageType", [l.messageType])
    + Value(tc, l.consults, l.prefix + "_dwLength", Le32(l.dwLength))
    + Value(tc, l.consults, l.prefix + "_bSlot", [0x00])
    + [bSeq]
    + Concat(TailParts(tc, l))
  }

  /** The names a test case can replace in this layout. */
  function Names(l: Layout): set<string>
  {
    if !l.consults then {}
    else
      {l.prefix + "_bMessageType", l.prefix + "_dwLength", l.prefix + "_bSlot"}
      + (set k | 0 <= k < |l.tail| && l.tail[k].Settable? :: l.prefix + "_" + l.tail[k].name)
  }

  /** The reply with every field at its default. */
  function DefaultResponse(l: Layout, bSeq: byte): Bytes
  {
    [l.messageType] + Le32(l.dwLength) + [0x00, bSeq]
      + Concat(seq(|l.tail|, k requires 0 <= k < |l.tail| => Default(l.tail[k])))
  }

  /**
   * The reply to a bulk message: commands that consult the test case raise
   * when there is none; an unknown command gets an empty reply.
   */
  function Reply(command: byte, reserved: byte, bSeq: byte, tc: Option<Testcase>): (r: Res<Bytes>)
    ensures LayoutOf(command, reserved).None? ==> r == Ok([])
    ensures r.Raise? <==> LayoutOf(command, reserved).Some? && LayoutOf(command, reserved).value.consults && tc.None?
  {
    match LayoutOf(command, reserved)
    case None => Ok([])
    case Some(l) => if l.consults && tc.None? then Raise(TypeError) else Ok(Response(l, bSeq, tc))
  }

  /** A test case that names no field of the layout leaves the reply at its defaults. */
  lemma {:induction false} UntouchedIsDefault(l: Layout, bSeq: byte, tc: Option<Testcase>)
    requires tc.Some? ==> tc.value.field !in Names(l)
    ensures Response(l, bSeq, tc) == DefaultResponse(l, bSeq)
  {
    var defaults := seq(|l.tail|, k requires 0 <= k < |l.tail| => Default(l.tail[k]));
    forall k | 0 <= k < |l.tail|
      ensures TailParts(tc, l)[k] == defaults[k]
    {
      if l.consults && l.tail[k].Settable? {
        assert l.prefix + "_" + l.tail[k].name in Names(l);
      }
    }
    assert TailParts(tc, l) == defaults;
  }

  /**
   * A test case that names one field replaces that field alone: every
   * other field keeps its default.
   */
  lemma {:induction false} OnlyNamedFieldReplaced(l: Layout, tc: Testcase, k: nat)
    requires l.consults && k < |l.tail|
    ensures var part := TailParts(Some(tc), l)[k];
      (l.tail[k].Settable? && tc.field == l.prefix + "_" + l.tail[k].name ==> part == tc.value)
      && (!(l.tail[k].Settable? && tc.field == l.prefix + "_" + l.tail[k].name) ==> part == Default(l.tail[k]))
  {
  }

  /** The message type each command's reply carries. */
  function ReplyType(command: byte): byte
  {
    if command == SetParameters then 0x82
    else if command == IccPowerOn || command == XfrBlock then 0x80
    else if command == IccPowerOff || command == GetSlotStatus then 0x81
    else if command == Escape then 0x83
    else 0x84
  }

  /** Unless replaced, the reply's first byte is the RDR_to_PC type answering the command, and bSeq is echoed at offset 6. */
  lemma {:induction false} ReplyHeader(command: byte, reserved: byte, bSeq: byte, tc: Option<Testcase>)
    requires LayoutOf(command, reserved).Some?
    requires var l := LayoutOf(command, reserved).value;
      tc.Some? ==> tc.value.field !in {l.prefix + "_bMessageType", l.prefix + "_dwLength", l.prefix + "_bSlot"}
    requires Reply(command, reserved, bSeq, tc).Ok?
    ensures var r := Reply(command, reserved, bSeq, tc).value;
      |r| >= 7 && r[0] == ReplyType(command) && r[6] == bSeq
  {
  }

  /** The fields after bSeq, at their defaults, for each layout: their total length. */
  lemma {:induction false} DefaultTailLength(command: byte, reserved: byte)
    requires LayoutOf(command, reserved).Some?
    ensures var l := LayoutOf(command, reserved).value;
      |Concat(seq(|l.tail|, k requires 0 <= k < |l.tail| => Default(l.tail[k])))|
        == if command == IccPowerOff then 1 else 3 + l.dwLength
  {
    var l := LayoutOf(command, reserved).value;
    var d := seq(|l.tail|, k requires 0 <= k < |l.tail| => Default(l.tail[k]));
    if command == IccPowerOff {
      ConcatFront(d);
    } else {
      ThreeFieldsThenRest(d);
    }
  }

  /** Three single-byte parts, then at most two more. */
  lemma {:induction false} ThreeFieldsThenRest(d: seq<Bytes>)
    requires 3 <= |d| <= 5 && |d[0]| == 1 && |d[1]| == 1 && |d[2]| == 1
    ensures |Concat(d)| == 3 + (if |d| > 3 then |d[3]| else 0) + (if |d| > 4 then |d[4]| else 0)
  {
    ConcatFront(d);
    ConcatFront(d[1..]);
    ConcatFront(d[2..]);
    if |d| > 3 {
      ConcatFront(d[3..]);
      if |d| > 4 {
        ConcatFront(d[4..]);
      }
    }
  }

  /**
   * With no field replaced, dwLength counts exactly the bytes after the
   * ten-byte header, except in the eight-byte IccPowerOff reply, whose
   * dwLength is 0.
   */
  lemma {:induction false} DefaultLengthConsistent(command: byte, reserved: byte, bSeq: byte)
    requires LayoutOf(command, reserved).Some?
    ensures var r := DefaultResponse(LayoutOf(command, reserved).value, bSeq);
      |r| >= 5 && (if command == IccPowerOff then |r| == 8 && Le32Value(r[1..5]) == 0 else Le32Value(r[1..5]) == |r| - 10)
  {
    var l := LayoutOf(command, reserved).value;
    var r := DefaultResponse(l, bSeq);
    DefaultTailLength(command, reserved);
    assert r[1..5] == Le32(l.dwLength);
    Le32RoundTrip(l.dwLength);
  }

  /** IccPowerOn: with byte 7 equal to 2 the card answers with status 0 and its ATR; otherwise with status 0x40, error 0xfe and no data. */
  lemma {:induction false} PowerOnAnswers(reserved: byte, bSeq: byte)
    ensures reserved == 2 ==>
      DefaultResponse(LayoutOf(IccPowerOn, reserved).value, bSeq) == [0x80, 18, 0, 0, 0, 0x00, bSeq, 0x00, 0x80, 0x00] + Atr
    ensures reserved != 2 ==>
      DefaultResponse(LayoutOf(IccPowerOn, reserved).value, bSeq) == [0x80, 0, 0, 0, 0, 0x00, bSeq, 0x40, 0xfe, 0x00]
  {
    var l := LayoutOf(IccPowerOn, reserved).value;
    var d := seq(|l.tail|, k requires 0 <= k < |l.tail| => Default(l.tail[k]));
    ConcatFront(d);
    ConcatFront(d[1..]);
    ConcatFront(d[2..]);
    if reserved == 2 {
      ConcatFront(d[3..]);
    }
  }

  /**
   * handle_data_available: `supported()` runs first; a message shorter than
   * eight bytes cannot supply its command, bSeq and byte 7; otherwise the
   * reply, possibly empty, goes out on bulk endpoint 2.
   */
  function DataOutcome(session: Session, data: Bytes): (o: Outcome)
    ensures o.supported
    ensures |data| < 8 ==> o.raised == Some(TypeError) && o.events == []
    ensures |data| >= 8 && Reply(data[0], data[7], data[6], session.testcase).Ok?
      ==> o.events == [Send(2, Reply(data[0], data[7], data[6], session.testcase).value)] && o.raised.None?
    ensures |data| >= 8 && Reply(data[0], data[7], data[6], session.testcase).Raise?
      ==> o.events == [] && o.raised == Some(TypeError)
  {
    if |data| < 8 then Outcome([], true, Some(TypeError))
    else match Reply(data[0], data[7], data[6], session.testcase)
      case Ok(r) => Outcome([Send(2, r)], true, None)
      case Raise(e) => Outcome([], true, Some(e))
  }

  // ---------------------------------------------------------------------
  // Interrupt endpoint

  /** RDR_to_PC_NotifySlotChange: slot 0 has a card, and it changed. */
  const InitialData: Bytes := [0x50, 0x03]

  class SmartcardInterface {
    const app: App
    /** Set once the slot-change notification has been sent. */
    var trigger: bool

    constructor (app: App)
      ensures this.app == app && !trigger
    {
      this.app := app;
      trigger := false;
    }

    /** handle_buffer_available: the notification goes out once, on the first call. */
    method HandleBufferAvailable()
      modifies this, app
      ensures trigger && app.stop == old(app.stop)
      ensures app.log == old(app.log) + (if old(trigger) then [] else [Send(3, InitialData)])
    {
      if !trigger {
        app.SendOnEndpoint(3, InitialData);
        trigger := true;
      }
    }
  }

  // ---------------------------------------------------------------------
  // Class descriptor and class request

  /** The CCID class descriptor, served under type 0x21. */
  /** bLength to dwProtocols. */
  const IccHead: Bytes := [
    0x36,                         // bLength
    0x21,                         // bDescriptorType
    0x10, 0x01,                   // bcdCCID 1.10
    0x00,                         // bMaxSlotIndex
    0x07,                         // bVoltageSupport
    0x03, 0x00, 0x00, 0x00        // dwProtocols
  ]
  const DwDefaultClock: Bytes := [0xA6, 0x0E, 0x00, 0x00]
  const DwMaximumClock: Bytes := [0x4C, 0x1D, 0x00, 0x00]
  const DwDataRate: Bytes := [0x60, 0x27, 0x00, 0x00]
  /** dwMaxDataRate to bMaxCCIDBusySlots. */
  const IccTail: Bytes := [
    0xB4, 0xC4, 0x04, 0x00,       // dwMaxDataRate
    0x00,                         // bNumDataRatesSupported
    0xFE, 0x00, 0x00, 0x00,       // dwMaxIFSD
    0x00, 0x00, 0x00, 0x00,       // dwSynchProtocols
    0x00, 0x00, 0x00, 0x00,       // dwMechanical
    0x30, 0x00, 0x01, 0x00,       // dwFeatures
    0x0F, 0x01, 0x00, 0x00,       // dwMaxCCIDMessageLength
    0x00,                         // bClassGetResponse
    0x00,                         // bClassEnvelope
    0x00, 0x00,                   // wLcdLayout
    0x00,                         // bPinSupport
    0x01                          // bMaxCCIDBusySlots
  ]

  /** The CCID class descriptor (section 5.1 of the USB CCID specification), field after field. */
  const IccDescriptor: Bytes := IccHead + DwDefaultClock + DwMaximumClock + [0x00] + DwDataRate + IccTail

  /**
   * The descriptor's length byte is its length, and the default clock and
   * data rate it advertises are the ones SetDataRateAndClockFrequency
   * answers with.
   */
  lemma IccDescriptorLayout()
    ensures |IccDescriptor| == 54 && IccDescriptor[0] == |IccDescriptor| && IccDescriptor[1] == 0x21
    ensures var l := LayoutOf(SetDataRateAndClockFrequency, 0).value;
      IccDescriptor[10..14] == Default(l.tail[3]) && IccDescriptor[19..23] == Default(l.tail[4])
    ensures Le32Value(IccDescriptor[10..14]) == 3750 && Le32Value(IccDescriptor[19..23]) == 10080
  {
    var l := LayoutOf(SetDataRateAndClockFrequency, 0).value;
    assert l.tail[3] == Settable("dwClockFrequency", [0xA6, 0x0E, 0x00, 0x00]);
    assert l.tail[4] == Settable("dwDataRate", [0x60, 0x27, 0x00, 0x00]);
    var front := IccHead + DwDefaultClock + DwMaximumClock + [0x00] + DwDataRate;
    assert IccDescriptor[19..23] == front[19..23] == DwDataRate;
    assert IccDescriptor[10..14] == front[10..14] == (IccHead + DwDefaultClock)[10..14] == DwDefaultClock;
  }

  /** The clock frequencies, in kHz, the reader reports. */
  const ClockFrequencies: seq<u32> := [
    12903, 25806, 51613, 103226, 206452, 412903, 825806, 154839, 258065, 17204, 34409, 68817, 137634,
    275269, 550538, 172043, 12403, 24806, 49612, 99225, 198450, 396899, 74419, 124031, 86022, 38710,
    64516, 10323, 20645, 41290, 82581, 165161, 30968, 18750, 37500, 75000, 150000, 300000, 600000,
    112500, 187500, 12500, 25000, 50000, 100000, 200000, 400000, 125000, 56250, 93750, 62500, 28125, 46875]

  /** GET_CLOCK_FREQUENCIES' reply: the frequencies as little-endian 32-bit values, back to back. */
  function ClockFrequencyReply(): (r: Bytes)
  {
    Concat(seq(|ClockFrequencies|, k requires 0 <= k < |ClockFrequencies| => Le32(ClockFrequencies[k])))
  }

  /** The reply is 53 four-byte entries, and entry `k` decodes to frequency `k`. */
  lemma {:induction false} ClockFrequencyEntries(k: nat)
    requires k < |ClockFrequencies|
    ensures |ClockFrequencyReply()| == 4 * |ClockFrequencies| == 212
    ensures Le32Value(ClockFrequencyReply()[4 * k..4 * k + 4]) == ClockFrequencies[k]
  {
    var parts := seq(|ClockFrequencies|, i requires 0 <= i < |ClockFrequencies| => Le32(ClockFrequencies[i]));
    ConcatUniformLength(parts, 4);
    ConcatUniformAt(parts, 4, k);
    Le32RoundTrip(ClockFrequencies[k]);
  }

  const GetClockFrequencies := 0x02

  function ClassCodes(): set<int>
  {
    {GetClockFrequencies}
  }

  /** The class request sends the frequency table on endpoint 0 and does not call `supported()`. */
  function ClassOutcome(code: int): (o: Outcome)
    requires code in ClassCodes()
    ensures o.events == [Send(0, ClockFrequencyReply())] && !o.supported && o.raised.None?
  {
    Outcome([Send(0, ClockFrequencyReply())], false, None)
  }

  /** USBSmartcardInterface: class 0x0b, the CCID descriptor, interrupt IN 3, bulk OUT 1 (commands) and bulk IN 2 (replies). */
  function NewSmartcardInterface(): (i: Interface)
    ensures i.number == 0 && i.iclass == 0x0b && i.deviceClass == Some(SmartcardClass)
    ensures 0x21 in i.table && i.table[0x21] == Blob(IccDescriptor)
    ensures |i.endpoints| == 3 && i.endpoints[0].handler == Some(SmartcardBuffer)
      && i.endpoints[1].number == 1 && i.endpoints[1].handler == Some(SmartcardData) && i.endpoints[2].number == 2
  {
    NewInterface(0, 0, 0x0b, 0, 0, 0,
      [Endpoint(3, 1, 3, 0, 0, 16384, 8, Some(SmartcardBuffer), None),
       Endpoint(1, 0, 2, 0, 0, 16384, 0, Some(SmartcardData), None),
       Endpoint(2, 1, 2, 0, 0, 16384, 0, None, None)],
      map[0x21 := Blob(IccDescriptor)], []).(deviceClass := Some(SmartcardClass))
  }
}
