/**
 * The eight-byte SETUP packet of a control transfer (section 9.3 of the
 * USB 2.0 specification), as USBDeviceRequest decodes it.
 */
module Setup {
  import opened Common

  datatype DeviceRequest = DeviceRequest(
    requestType: byte,  // bmRequestType
    request: byte,      // bRequest
    value: u16,         // wValue
    index: u16,         // wIndex
    length: u16,        // wLength
    data: Bytes)        // whatever followed the eight setup bytes

  /** Recipient codes (bits 4..0 of bmRequestType). */
  const RecipientDevice := 0
  const RecipientInterface := 1
  const RecipientEndpoint := 2
  const RecipientOther := 3

  /** Request type codes (bits 6..5 of bmRequestType). */
  const TypeStandard := 0
  const TypeClass := 1
  const TypeVendor := 2

  /**
   * Decoding a received packet. The first two bytes are subscripted
   * (IndexError when missing) and the next six are unpacked as three
   * little-endian 16-bit fields (struct.error when fewer remain).
   */
  function Parse(raw: Bytes): (r: Res<DeviceRequest>)
    ensures r.Ok? <==> |raw| >= 8
    ensures r.Raise? ==> r.exc == (if |raw| < 2 then IndexError else StructError)
  {
    if |raw| < 2 then Raise(IndexError)
    else if |raw| < 8 then Raise(StructError)
    else Ok(DeviceRequest(raw[0], raw[1], Le16Value(raw[2..4]), Le16Value(raw[4..6]), Le16Value(raw[6..8]), raw[8..]))
  }

  /** The packet a host sends for a request: the wire format Parse reads. */
  function Wire(r: DeviceRequest): (b: Bytes)
    ensures |b| == 8 + |r.data|
  {
    [r.requestType, r.request] + Le16(r.value) + Le16(r.index) + Le16(r.length) + r.data
  }

  /** Parsing the wire form of a request recovers it. */
  lemma {:induction false} ParseWire(r: DeviceRequest)
    ensures Parse(Wire(r)) == Ok(r)
  {
    var b := Wire(r);
    assert b[2..4] == Le16(r.value);
    assert b[4..6] == Le16(r.index);
    assert b[6..8] == Le16(r.length);
    assert b[8..] == r.data;
    Le16RoundTrip(r.value);
    Le16RoundTrip(r.index);
    Le16RoundTrip(r.length);
  }

  /** Every packet of at least eight bytes is the wire form of what it parses to. */
  lemma {:induction false} WireParse(raw: Bytes)
    requires |raw| >= 8
    ensures Parse(raw).Ok? && Wire(Parse(raw).value) == raw
  {
    Le16Inverse(raw[2..4]);
    Le16Inverse(raw[4..6]);
    Le16Inverse(raw[6..8]);
    assert raw == [raw[0], raw[1]] + raw[2..4] + raw[4..6] + raw[6..8] + raw[8..];
  }

  /** `raw()`: the three 16-bit fields high byte first, the trailing data dropped. */
  function Raw(r: DeviceRequest): (b: Bytes)
    ensures |b| == 8
  {
    [r.requestType, r.request] + Be16(r.value) + Be16(r.index) + Be16(r.length)
  }

  /** The 16-bit value with its two bytes exchanged. */
  function Swap16(x: u16): u16
  {
    (x % 0x100) * 0x100 + x / 0x100
  }

  /**
   * `raw()` is not the inverse of parsing: parsing its output gives back the
   * request with every 16-bit field byte-swapped and no data.
   */
  lemma {:induction false} ParseRaw(r: DeviceRequest)
    ensures var p := Parse(Raw(r));
      p.Ok? && p.value == DeviceRequest(r.requestType, r.request, Swap16(r.value), Swap16(r.index), Swap16(r.length), [])
  {
    var b := Raw(r);
    assert b == [r.requestType, r.request, r.value / 0x100, r.value % 0x100,
      r.index / 0x100, r.index % 0x100, r.length / 0x100, r.length % 0x100];
    assert b[2..4] == [r.value / 0x100, r.value % 0x100];
    assert b[4..6] == [r.index / 0x100, r.index % 0x100];
    assert b[6..8] == [r.length / 0x100, r.length % 0x100];
  }

  /** A request whose wValue has two different bytes does not survive `raw()` and parsing. */
  lemma RawNotInverse()
    ensures Parse(Raw(DeviceRequest(0, 6, 0x0100, 0, 0x40, []))) != Ok(DeviceRequest(0, 6, 0x0100, 0, 0x40, []))
  {
    ParseRaw(DeviceRequest(0, 6, 0x0100, 0, 0x40, []));
  }

  /** Bit 7: 0 host-to-device, 1 device-to-host. */
  function Direction(r: DeviceRequest): (d: int)
    ensures 0 <= d < 2
  {
    (r.requestType / 128) % 2
  }

  /** Bits 6..5. */
  function Type(r: DeviceRequest): (t: int)
    ensures 0 <= t < 4
  {
    (r.requestType / 32) % 4
  }

  /** Bits 4..0. */
  function Recipient(r: DeviceRequest): (c: int)
    ensures 0 <= c < 32
  {
    r.requestType % 32
  }

  /** The three fields are a partition of bmRequestType: together they give back the whole byte. */
  lemma FieldsReassemble(r: DeviceRequest)
    ensures 128 * Direction(r) + 32 * Type(r) + Recipient(r) == r.requestType
  {
  }

  /** Requests agree on bmRequestType exactly when they agree on all three fields. */
  lemma {:induction false} FieldsDetermineType(r: DeviceRequest, s: DeviceRequest)
    ensures r.requestType == s.requestType <==>
      (Direction(r) == Direction(s) && Type(r) == Type(s) && Recipient(r) == Recipient(s))
  {
    FieldsReassemble(r);
    FieldsReassemble(s);
  }

  /**
   * `get_index()`: wIndex names an interface for interface recipients and
   * (its low nibble) an endpoint for endpoint recipients; for any other
   * recipient the method falls off its end and gives None.
   */
  function Index(r: DeviceRequest): (i: Option<int>)
    ensures Recipient(r) == RecipientInterface ==> i == Some(r.index)
    ensures Recipient(r) == RecipientEndpoint ==> i.Some? && 0 <= i.value < 16 && (r.index - i.value) % 16 == 0
    ensures Recipient(r) != RecipientInterface && Recipient(r) != RecipientEndpoint ==> i.None?
  {
    var rec := Recipient(r);
    if rec == 1 then Some(r.index as int)
    else if rec == 2 then Some(r.index % 16)
    else None
  }
}
