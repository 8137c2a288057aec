/**
 * The mass-storage persona: the Bulk-Only Transport engine of the USB Mass
 * Storage Class Bulk-Only Transport specification 1.0 (command block
 * wrapper, section 5.1; command status wrapper, section 5.2) over a small
 * SCSI command set, and the disk image it reads and writes.
 */
module MassStorage {
  import opened Common
  import opened Transport
  import opened Descriptors
  import Mutation

  // ---------------------------------------------------------------------
  // Command block wrapper and command status wrapper

  datatype Cbw = Cbw(signature: Bytes, tag: Bytes, dataTransferLength: u32, flags: byte, lun: int, cbLength: int, cb: Bytes)

  /**
   * CommandBlockWrapper: the fields at their offsets, the LUN and the
   * command-block length masked, the command block taken as everything from
   * byte 15 on. The signature is not checked; a packet too short to hold
   * byte 14 is an IndexError.
   */
  function ParseCbw(data: Bytes): (r: Res<Cbw>)
    ensures r.Raise? <==> |data| < 15
    ensures r.Raise? ==> r.exc == IndexError
    ensures r.Ok? ==> (r.value.signature == data[0..4] && r.value.tag == data[4..8]
      && r.value.dataTransferLength == Le32Value(data[8..12]) && r.value.flags == data[12]
      && r.value.lun == data[13] % 16 && r.value.cbLength == data[14] % 32 && r.value.cb == data[15..])
  {
    if |data| < 15 then Raise(IndexError)
    else Ok(Cbw(data[0..4], data[4..8], Le32Value(data[8..12]), data[12], data[13] % 16, data[14] % 32, data[15..]))
  }

  /** A wrapper as a host writes it: "USBC", the tag, the transfer length, flags, LUN, command-block length, the block. */
  function WriteCbw(tag: Bytes, length: u32, flags: byte, lun: byte, cbLength: byte, cb: Bytes): (b: Bytes)
    requires |tag| == 4
  {
    [0x55, 0x53, 0x42, 0x43] + tag + Le32(length) + [flags, lun, cbLength] + cb
  }

  /** Parsing gives back every field a host wrote, the LUN and length within their bit fields. */
  lemma {:induction false} ParseWrittenCbw(tag: Bytes, length: u32, flags: byte, lun: byte, cbLength: byte, cb: Bytes)
    requires |tag| == 4 && lun < 16 && cbLength < 32
    ensures ParseCbw(WriteCbw(tag, length, flags, lun, cbLength, cb))
      == Ok(Cbw([0x55, 0x53, 0x42, 0x43], tag, length, flags, lun, cbLength, cb))
  {
    var b := WriteCbw(tag, length, flags, lun, cbLength, cb);
    assert b[0..4] == [0x55, 0x53, 0x42, 0x43];
    assert b[4..8] == tag;
    assert b[8..12] == Le32(length);
    assert b[15..] == cb;
    Le32RoundTrip(length);
  }

  /** The command status wrapper: "USBS", the tag, a zero residue, the status. */
  function Csw(tag: Bytes, status: byte): (r: Bytes)
    requires |tag| == 4
    ensures |r| == 13 && r[..4] == [0x55, 0x53, 0x42, 0x53] && r[4..8] == tag && r[8..12] == [0, 0, 0, 0] && r[12] == status
  {
    [0x55, 0x53, 0x42, 0x53] + tag + [0, 0, 0, 0, status]
  }

  // ---------------------------------------------------------------------
  // The disk image

  /** A block of an image, clipped to the image as a Python slice is. */
  function Sector(image: seq<byte>, blockSize: nat, address: nat): (r: Bytes)
    ensures (address + 1) * blockSize <= |image| ==> r == image[address * blockSize..(address + 1) * blockSize]
    ensures |r| <= blockSize
  {
    var s := Min(address * blockSize, |image|);
    var e := Min((address + 1) * blockSize, |image|);
    image[s..e]
  }

  /**
   * put_sector_data: the first block's worth of the data goes into the one
   * block at the address; mmap refuses a slice assignment whose sizes differ.
   */
  function PutSector(image: seq<byte>, blockSize: nat, address: nat, data: Bytes): (r: Res<seq<byte>>)
    ensures r.Ok? ==> |r.value| == |image|
    ensures (address + 1) * blockSize <= |image| && |data| >= blockSize ==> (r.Ok?
      && r.value[address * blockSize..(address + 1) * blockSize] == data[..blockSize]
      && r.value[..address * blockSize] == image[..address * blockSize]
      && r.value[(address + 1) * blockSize..] == image[(address + 1) * blockSize..])
  {
    var s := Min(address * blockSize, |image|);
    var e := Min((address + 1) * blockSize, |image|);
    var chunk := data[..Min(blockSize, |data|)];
    if |chunk| != e - s then Raise(IndexError)
    else
      var r := image[..s] + chunk + image[e..];
      assert r[s..e] == chunk;
      Ok(r)
  }

  /** get_sector_count: the last addressable block, `size / block_size - 1`. */
  function SectorCount(image: seq<byte>, blockSize: nat): int
    requires blockSize > 0
  {
    |image| / blockSize - 1
  }

  class DiskImage {
    const blockSize: nat
    /** The mapped image file, fixed in size. */
    const image: array<byte>

    constructor (contents: seq<byte>, blockSize: nat)
      requires blockSize > 0
      ensures this.blockSize == blockSize && image[..] == contents && fresh(image)
    {
      this.blockSize := blockSize;
      image := new byte[|contents|](k requires 0 <= k < |contents| => contents[k]);
    }

    method GetSectorData(address: nat) returns (r: Bytes)
      ensures r == Sector(image[..], blockSize, address)
    {
      var s := Min(address * blockSize, image.Length);
      var e := Min((address + 1) * blockSize, image.Length);
      r := image[s..e];
    }

    method PutSectorData(address: nat, data: Bytes) returns (raised: Option<Raised>)
      modifies image
      ensures var p := PutSector(old(image[..]), blockSize, address, data);
        (p.Ok? ==> raised.None? && image[..] == p.value) && (p.Raise? ==> raised == Some(p.exc) && image[..] == old(image[..]))
    {
      var s := Min(address * blockSize, image.Length);
      var e := Min((address + 1) * blockSize, image.Length);
      var chunk := data[..Min(blockSize, |data|)];
      if |chunk| != e - s {
        return Some(IndexError);
      }
      forall k | s <= k < e {
        image[k] := chunk[k - s];
      }
      assert image[..] == old(image[..])[..s] + chunk + old(image[..])[e..];
      return None;
    }
  }

  // ---------------------------------------------------------------------
  // SCSI commands

  const TestUnitReady := 0x00
  const RequestSense := 0x03
  const Read6 := 0x08
  const Write6 := 0x0A
  const Inquiry := 0x12
  const ModeSense6 := 0x1A
  const SendDiagnostic := 0x1D
  const PreventAllowMediumRemoval := 0x1E
  const ReadFormatCapacities := 0x23
  const ReadCapacity10 := 0x25
  const Read10 := 0x28
  const Write10 := 0x2A
  const Verify10 := 0x2F
  const SynchronizeCache := 0x35
  const ModeSense10 := 0x5A

  /** The `operations` table. */
  const Operations: set<int> := {Inquiry, RequestSense, TestUnitReady, ReadCapacity10, SendDiagnostic,
    PreventAllowMediumRemoval, Write10, Read10, Write6, Read6, Verify10, ModeSense6, ModeSense10,
    ReadFormatCapacities, SynchronizeCache}

  /** The mutation stage of each handler; SYNCHRONIZE CACHE has none. */
  function Stage(opcode: int): Option<string>
  {
    if opcode == Inquiry then Some("scsi_inquiry_response")
    else if opcode == RequestSense then Some("scsi_request_sense_response")
    else if opcode == TestUnitReady then Some("scsi_test_unit_ready_response")
    else if opcode == ReadCapacity10 then Some("scsi_read_capacity_10_response")
    else if opcode == SendDiagnostic then Some("scsi_send_diagnostic_response")
    else if opcode == PreventAllowMediumRemoval then Some("scsi_prevent_allow_medium_removal_response")
    else if opcode == Write10 then Some("scsi_write_10_response")
    else if opcode == Read10 then Some("scsi_read_10_response")
    else if opcode == Write6 then Some("scsi_write_6_response")
    else if opcode == Read6 then Some("scsi_read_6_response")
    else if opcode == Verify10 then Some("scsi_verify_10_response")
    else if opcode == ModeSense6 then Some("scsi_mode_sense_6_response")
    else if opcode == ModeSense10 then Some("scsi_mode_sense_10_response")
    else if opcode == ReadFormatCapacities then Some("scsi_read_format_capacities")
    else None
  }

  /** Standard INQUIRY data: removable direct-access device, then the vendor, product and revision strings. */
  function InquiryResponse(): (r: Bytes)
    ensures |r| == 36 && r[4] == 31 && r[4] == |r| - 5 && r[1] == 0x80
  {
    var part1 := [0x00, 0x80, 0x00, 0x01];
    var vendor := [0x50, 0x4E, 0x59, 0x20, 0x20, 0x20, 0x20, 0x20];       // "PNY     "
    var product := [0x55, 0x53, 0x42, 0x20, 0x32, 0x2E, 0x30, 0x20,
                    0x46, 0x44, 0x20, 0x20, 0x20, 0x20, 0x20, 0x20];      // "USB 2.0 FD      "
    var revision := [0x38, 0x2E, 0x30, 0x32];                             // "8.02"
    var part2 := [0x00, 0x00, 0x00] + vendor + product + revision;
    part1 + [|part2|] + part2
  }

  /** Fixed-format sense data: UNIT ATTENTION with additional sense code 0x3a (medium not present). */
  function RequestSenseResponse(): (r: Bytes)
    ensures |r| == 18 && r[0] == 0x70 && r[7] == 10 && r[7] == |r| - 8 && r[2] == 0x06 && r[12] == 0x3a
  {
    var part1 := [0x70, 0x00, 0x06] + Le32(0);
    var part2 := Le32(0) + [0x3a, 0x00, 0x00] + [0x00, 0x00, 0x00];
    part1 + [|part2|] + part2
  }

  /**
   * READ CAPACITY (10): the last block address packed little-endian (where
   * SCSI expects big-endian), then 0x00020000 packed little-endian, whose
   * bytes 00 00 02 00 are the big-endian block length 512.
   */
  function ReadCapacityResponse(lastLba: int): (r: Res<Bytes>)
    ensures r.Ok? <==> 0 <= lastLba < 0x1_0000_0000
    ensures r.Raise? ==> r.exc == StructError
    ensures r.Ok? ==> |r.value| == 8 && Le32Value(r.value[..4]) == lastLba && r.value[4..] == [0x00, 0x00, 0x02, 0x00]
  {
    if 0 <= lastLba < 0x1_0000_0000 then
      var r := Le32(lastLba) + Le32(0x0002_0000);
      assert r[..4] == Le32(lastLba);
      Le32RoundTrip(lastLba);
      Ok(r)
    else Raise(StructError)
  }

  /** MODE SENSE (6 and 10): page 0x1c gives a 12-byte reply led by its own remaining length; any other page gives 8 bytes. */
  function ModeSense(page: int): (r: Bytes)
    ensures page == 0x1c ==> |r| == 12 && r[0] == 11 && r[0] == |r| - 1
    ensures page != 0x1c ==> |r| == 8 && r[1..] == [0, 0, (if page == 0x3f then 8 else 0), 0, 0, 0, 0]
    ensures page == 0x3f ==> r[0] == 0x45
    ensures page != 0x1c && page != 0x3f ==> r[0] == 7 && r[0] == |r| - 1
  {
    if page == 0x1c then
      var body := [0x00, 0x00, 0x00] + [0x1c, 0x06, 0x00, 0x05, 0x00, 0x00, 0x00, 0x00];
      [|body|] + body
    else if page == 0x3f then [0x45, 0x00, 0x00, 0x08] + Le32(0)
    else [0x07, 0x00, 0x00, 0x00] + Le32(0)
  }

  /** One entry of the format-capacities list: number of blocks, descriptor code, block length. */
  datatype Capacity = Capacity(blocks: int, code: int, blockLength: int)

  const FormatCapacitiesList: seq<Capacity> := [Capacity(0x0000_1000, 0x00, 0x00_0200)]

  predicate Packable(c: Capacity)
  {
    0 <= c.blocks < 0x1_0000_0000 && 0 <= c.code < 0x100 && 0 <= c.blockLength < 0x1_0000_0000
  }

  /** One capacity descriptor: blocks and code, then the block length in its low three bytes. */
  function CapacityDescriptor(c: Capacity): (r: Bytes)
    requires Packable(c)
    ensures |r| == 8
  {
    Be32(c.blocks) + [c.code] + Be32(c.blockLength)[1..]
  }

  /** READ FORMAT CAPACITIES: a header giving, big-endian, the list's size in bytes, then the descriptors. */
  function FormatCapacities(list: seq<Capacity>): (r: Res<Bytes>)
  {
    if 8 * |list| >= 0x1_0000_0000 then Raise(StructError)
    else if exists k :: 0 <= k < |list| && !Packable(list[k]) then Raise(StructError)
    else Ok(Be32(8 * |list|) + Concat(seq(|list|, k requires 0 <= k < |list| => CapacityDescriptor(list[k]))))
  }

  /** The reply is `4 + 8n` bytes, the header counting the `8n` bytes that follow. */
  lemma {:induction false} FormatCapacitiesLength(list: seq<Capacity>)
    requires FormatCapacities(list).Ok?
    ensures var r := FormatCapacities(list).value; |r| == 4 + 8 * |list| && Be32Value(r[..4]) == |r| - 4
  {
    var parts := seq(|list|, k requires 0 <= k < |list| => CapacityDescriptor(list[k]));
    ConcatUniformLength(parts, 8);
    var r := FormatCapacities(list).value;
    assert r[..4] == Be32(8 * |list|);
    Be32RoundTrip(8 * |list|);
  }

  /** The emulated disk's one descriptor: 0x1000 blocks of 0x200 bytes. */
  lemma {:induction false} FormatCapacitiesOfDisk()
    ensures FormatCapacities(FormatCapacitiesList) == Ok([0, 0, 0, 8, 0x00, 0x00, 0x10, 0x00, 0x00, 0x00, 0x02, 0x00])
  {
    var parts := seq(|FormatCapacitiesList|, k requires 0 <= k < |FormatCapacitiesList| => CapacityDescriptor(FormatCapacitiesList[k]));
    assert Be32(0x1000) == [0x00, 0x00, 0x10, 0x00];
    assert Be32(0x200) == [0x00, 0x00, 0x02, 0x00];
    assert Be32(8) == [0, 0, 0, 8];
    assert parts[0] == [0x00, 0x00, 0x10, 0x00, 0x00, 0x00, 0x02, 0x00];
    assert Packable(FormatCapacitiesList[0]);
    assert |parts| == 1 && parts[..0] == [];
    assert Concat(parts) == Concat(parts[..0]) + parts[0];
    assert Concat(parts) == parts[0];
    assert !(exists k :: 0 <= k < |FormatCapacitiesList| && !Packable(FormatCapacitiesList[k]));
    assert FormatCapacities(FormatCapacitiesList) == Ok(Be32(8 * |FormatCapacitiesList|) + Concat(parts));
    assert Be32(8) + parts[0] == [0, 0, 0, 8, 0x00, 0x00, 0x10, 0x00, 0x00, 0x00, 0x02, 0x00];
  }

  /** The blocks READ(10) sends, one packet per block on endpoint 3, in address order. */
  function ReadBlocks(image: seq<byte>, blockSize: nat, base: nat, count: nat): (events: seq<Event>)
    ensures |events| == count
    ensures forall i :: 0 <= i < count ==> events[i] == Send(3, Sector(image, blockSize, base + i))
  {
    seq(count, i requires 0 <= i < count => Send(3, Sector(image, blockSize, base + i)))
  }

  /**
   * What running one handler did: the packets it sent itself, whether it
   * stopped the emulation, the write it opened (base block and length),
   * and its return value or exception.
   */
  datatype Cmd = Cmd(sent: seq<Event>, stop: bool, opens: Option<(nat, nat)>, result: Res<Mutation.Reply>)

  /** A handler with no effect of its own. */
  function Returns(result: Res<Mutation.Reply>): Cmd
  {
    Cmd([], false, None, result)
  }

  /** A handler with no effect of its own, under its mutation stage. */
  function Plain(session: Session, opcode: int, result: Res<Mutation.Reply>): Cmd
    requires Stage(opcode).Some?
  {
    Returns(Mutation.Mutable(session.mutation, Stage(opcode).value, result))
  }

  /** The handler the `operations` table holds for an opcode, run on a command block. */
  function Command(session: Session, opcode: int, cbw: Cbw, image: seq<byte>, blockSize: nat): (c: Cmd)
    requires opcode in Operations && blockSize > 0
  {
    var cb := cbw.cb;
    if opcode == SynchronizeCache then Returns(Ok(None))
    else if Mutation.Truthy(session.mutation(Stage(opcode).value)) then
      Returns(Ok(Some(session.mutation(Stage(opcode).value).value)))
    else if opcode == Inquiry then Plain(session, opcode, Ok(Some(InquiryResponse())))
    else if opcode == RequestSense then Plain(session, opcode, Ok(Some(RequestSenseResponse())))
    else if opcode == ReadCapacity10 then Plain(session, opcode, Mutation.Lift(ReadCapacityResponse(SectorCount(image, blockSize))))
    else if opcode in {SendDiagnostic, Write6, Read6, Verify10} then Plain(session, opcode, Raise(NotImplementedError))
    else if opcode == ModeSense6 || opcode == ModeSense10 then
      Plain(session, opcode, if |cb| < 3 then Raise(IndexError) else Ok(Some(ModeSense(cb[2] % 64))))
    else if opcode == ReadFormatCapacities then Plain(session, opcode, Mutation.Lift(FormatCapacities(FormatCapacitiesList)))
    else if opcode == Write10 then
      if |cb| < 9 then Returns(Raise(StructError))
      else Cmd([], false, Some((Be32Value(cb[1..5]), Be16Value(cb[7..9]) * blockSize)), Ok(None))
    else if opcode == Read10 then
      var stop := session.mode == 4;
      if |cb| < 9 then Cmd([], stop, None, Raise(StructError))
      else Cmd(ReadBlocks(image, blockSize, Be32Value(cb[1..5]), Be16Value(cb[7..9])), stop, None, Ok(None))
    else Returns(Ok(None))   // TEST UNIT READY, PREVENT ALLOW MEDIUM REMOVAL
  }

  /** Only an unmutated WRITE(10) whose block holds the address and count opens a write. */
  lemma CommandOpens(session: Session, opcode: int, cbw: Cbw, image: seq<byte>, blockSize: nat)
    requires opcode in Operations && blockSize > 0
    ensures var c := Command(session, opcode, cbw, image, blockSize);
      (c.opens.Some? <==> opcode == Write10 && !Mutation.Truthy(session.mutation(Stage(opcode).value)) && |cbw.cb| >= 9)
      && (c.opens.Some? ==> c.opens.value == (Be32Value(cbw.cb[1..5]), Be16Value(cbw.cb[7..9]) * blockSize))
  {
  }

  /** The transaction state of the interface. */
  datatype Engine = Engine(writeInProgress: bool, writeCbw: Option<Cbw>, writeBaseLba: nat, writeLength: nat, writeData: Bytes)

  /** An open write has the CBW whose tag its CSW will echo; with no write open, nothing is buffered. */
  predicate EngineValid(e: Engine)
  {
    (e.writeInProgress ==> e.writeCbw.Some? && |e.writeCbw.value.tag| == 4)
    && (!e.writeInProgress ==> e.writeData == [])
  }

  /** The effect of one received packet: new state and image, what was sent, whether to stop, the exception it ended with. */
  datatype Step = Step(engine: Engine, image: seq<byte>, events: seq<Event>, stop: bool, raised: Option<Raised>)

  /**
   * After the command to run is known: an exception stops everything
   * (no CSW); WRITE(10) returns before the CSW; otherwise the reply, if
   * non-empty, and then the CSW go out on endpoint 3. An unknown opcode
   * fails with status 2 and as many zero bytes as the host asked for.
   */
  function Dispatch(session: Session, e: Engine, image: seq<byte>, blockSize: nat, opcode: int, cbw: Cbw, stop: bool): (s: Step)
    requires blockSize > 0 && |cbw.tag| == 4
  {
    if opcode in Operations then
      var c := Command(session, opcode, cbw, image, blockSize);
      var e' := if c.opens.Some? then e.(writeCbw := Some(cbw), writeBaseLba := c.opens.value.0,
        writeLength := c.opens.value.1, writeInProgress := true) else e;
      if c.result.Raise? then Step(e', image, c.sent, stop || c.stop, Some(c.result.exc))
      else if opcode == Write10 then Step(e', image, c.sent, stop || c.stop, None)
      else
        var reply := if Mutation.Truthy(c.result.value) then [Send(3, c.result.value.value)] else [];
        Step(e', image, c.sent + reply + [Send(3, Csw(cbw.tag, 0))], stop || c.stop, None)
    else
      var reply := if cbw.dataTransferLength > 0 then [Send(3, seq(cbw.dataTransferLength, _ => 0))] else [];
      Step(e, image, reply + [Send(3, Csw(cbw.tag, 2))], stop, None)
  }

  /**
   * handle_data_available: `supported()`; the packet is parsed as a CBW
   * and its command-block byte 0 taken as the opcode, even when it is write
   * payload. An open write appends the payload; once the expected length is
   * reached, the first block is committed, the write closes and the command
   * runs against the write's CBW.
   */
  function DataAvailable(session: Session, e: Engine, image: seq<byte>, blockSize: nat, data: Bytes): (s: Step)
    requires blockSize > 0 && EngineValid(e)
  {
    var stop := session.mode == 1;
    match ParseCbw(data)
    case Raise(x) => Step(e, image, [], stop, Some(x))
    case Ok(cbw) =>
      if |cbw.cb| == 0 then Step(e, image, [], stop, Some(IndexError))
      else
        var opcode := cbw.cb[0];
        if !e.writeInProgress then Dispatch(session, e, image, blockSize, opcode, cbw, stop)
        else WriteStep(session, e, image, blockSize, opcode, data, stop)
  }

  /**
   * A payload packet while a WRITE(10) is open: buffered until the expected
   * length is reached, then written at the command's LBA and the command
   * completed under the opcode of the packet that filled it.
   */
  function WriteStep(session: Session, e: Engine, image: seq<byte>, blockSize: nat, opcode: int, data: Bytes, stop: bool): (s: Step)
    requires blockSize > 0 && EngineValid(e) && e.writeInProgress
  {
    var pending := e.writeData + data;
    var e1 := e.(writeData := pending);
    if |pending| < e.writeLength then Step(e1, image, [], stop, None)
    else match PutSector(image, blockSize, e.writeBaseLba, pending)
      case Raise(x) => Step(e1, image, [], stop, Some(x))
      case Ok(image') =>
        Dispatch(session, e1.(writeInProgress := false, writeData := []), image', blockSize, opcode, e.writeCbw.value, stop)
  }

  /** A command's own stop request is added to the one the packet already made. */
  lemma DispatchStop(session: Session, e: Engine, image: seq<byte>, blockSize: nat, opcode: int, cbw: Cbw, stop: bool)
    requires blockSize > 0 && |cbw.tag| == 4
    ensures var s := Dispatch(session, e, image, blockSize, opcode, cbw, false);
      Dispatch(session, e, image, blockSize, opcode, cbw, stop) == s.(stop := stop || s.stop)
  {
  }

  lemma WriteStepStop(session: Session, e: Engine, image: seq<byte>, blockSize: nat, opcode: int, data: Bytes, stop: bool)
    requires blockSize > 0 && EngineValid(e) && e.writeInProgress
    ensures var s := WriteStep(session, e, image, blockSize, opcode, data, false);
      WriteStep(session, e, image, blockSize, opcode, data, stop) == s.(stop := stop || s.stop)
  {
    var pending := e.writeData + data;
    if |pending| >= e.writeLength && PutSector(image, blockSize, e.writeBaseLba, pending).Ok? {
      DispatchStop(session, e.(writeData := pending).(writeInProgress := false, writeData := []),
        PutSector(image, blockSize, e.writeBaseLba, pending).value, blockSize, opcode, e.writeCbw.value, stop);
    }
  }

  /** Every step keeps the transaction state well formed. */
  lemma {:induction false} DataAvailableKeepsValid(session: Session, e: Engine, image: seq<byte>, blockSize: nat, data: Bytes)
    requires blockSize > 0 && EngineValid(e)
    ensures EngineValid(DataAvailable(session, e, image, blockSize, data).engine)
  {
  }

  /** The CSW of a command echoes its CBW's tag and reports success for a handled command, failure for an unknown one. */
  lemma {:induction false} CommandEndsWithCsw(session: Session, image: seq<byte>, blockSize: nat, data: Bytes)
    requires blockSize > 0 && |data| > 15
    requires var opcode := data[15]; opcode != Write10 && (opcode in Operations ==> Command(session, opcode, ParseCbw(data).value, image, blockSize).result.Ok?)
    ensures var s := DataAvailable(session, Engine(false, None, 0, 0, []), image, blockSize, data);
      s.raised.None? && |s.events| > 0
      && s.events[|s.events| - 1] == Send(3, Csw(data[4..8], if data[15] in Operations then 0 else 2))
  {
  }

  /** An unknown opcode is answered with exactly the requested number of zero bytes, then a failing CSW. */
  lemma {:induction false} UnknownOpcodeFails(session: Session, image: seq<byte>, blockSize: nat, data: Bytes)
    requires blockSize > 0 && |data| > 15 && data[15] !in Operations
    ensures var s := DataAvailable(session, Engine(false, None, 0, 0, []), image, blockSize, data);
      var n := Le32Value(data[8..12]);
      s.events == (if n > 0 then [Send(3, seq(n, _ => 0))] else []) + [Send(3, Csw(data[4..8], 2))]
  {
  }

  /**
   * WRITE(10) opens a write of the given number of blocks at the given
   * block address and sends nothing, not even a CSW.
   */
  lemma {:induction false} Write10Opens(session: Session, image: seq<byte>, blockSize: nat, data: Bytes)
    requires blockSize > 0 && |data| >= 24 && data[15] == Write10
    requires !Mutation.Truthy(session.mutation("scsi_write_10_response"))
    ensures var s := DataAvailable(session, Engine(false, None, 0, 0, []), image, blockSize, data);
      s.events == [] && s.raised.None? && s.engine.writeInProgress
      && s.engine.writeBaseLba == Be32Value(data[16..20]) && s.engine.writeLength == Be16Value(data[22..24]) * blockSize
      && s.engine.writeCbw == Some(ParseCbw(data).value) && s.image == image
  {
    var cb := data[15..];
    assert cb[1..5] == data[16..20];
    assert cb[7..9] == data[22..24];
  }

  /** While the payload is short of the expected length it is buffered and nothing is sent. */
  lemma {:induction false} ShortPayloadBuffered(session: Session, e: Engine, image: seq<byte>, blockSize: nat, data: Bytes)
    requires blockSize > 0 && EngineValid(e) && e.writeInProgress && |data| > 15
    requires |e.writeData| + |data| < e.writeLength
    ensures var s := DataAvailable(session, e, image, blockSize, data);
      s.events == [] && s.raised.None? && s.image == image && s.engine == e.(writeData := e.writeData + data)
  {
  }

  /**
   * Once the payload is complete its first block lands at the write's
   * address and nothing else in the image changes, the buffer empties, and
   * the write closes unless the payload's byte 15 opens another WRITE(10).
   * This holds whatever command that byte names.
   */
  lemma {:induction false} CompletedWriteCommits(session: Session, e: Engine, image: seq<byte>, blockSize: nat, data: Bytes)
    requires blockSize > 0 && EngineValid(e) && e.writeInProgress && |data| > 15
    requires |e.writeData| + |data| >= e.writeLength && |e.writeData| + |data| >= blockSize
    requires (e.writeBaseLba + 1) * blockSize <= |image|
    ensures var s := DataAvailable(session, e, image, blockSize, data);
      var a := e.writeBaseLba * blockSize;
      |s.image| == |image| && a + blockSize <= |image|
      && s.image[a..a + blockSize] == (e.writeData + data)[..blockSize]
      && s.image[..a] == image[..a] && s.image[a + blockSize..] == image[a + blockSize..]
      && s.engine.writeData == []
      && (data[15] != Write10 ==> !s.engine.writeInProgress)
  {
    var pending := e.writeData + data;
    assert (e.writeBaseLba + 1) * blockSize == e.writeBaseLba * blockSize + blockSize;
    var p := PutSector(image, blockSize, e.writeBaseLba, pending);
    assert p.Ok?;
  }

  /**
   * The command the completing packet names is answered under the write's
   * CBW: any opcode other than WRITE(10) whose handler returns ends with a
   * CSW echoing the write's tag, with status 0 for a known opcode and 2 for
   * an unknown one.
   */
  lemma {:induction false} CompletedWriteAnswers(session: Session, e: Engine, image: seq<byte>, blockSize: nat, data: Bytes)
    requires blockSize > 0 && EngineValid(e) && e.writeInProgress && |data| > 15
    requires |e.writeData| + |data| >= e.writeLength && |e.writeData| + |data| >= blockSize
    requires (e.writeBaseLba + 1) * blockSize <= |image|
    requires data[15] != Write10
    requires data[15] in Operations ==> Command(session, data[15], e.writeCbw.value,
      PutSector(image, blockSize, e.writeBaseLba, e.writeData + data).value, blockSize).result.Ok?
    ensures var s := DataAvailable(session, e, image, blockSize, data);
      s.raised.None? && |s.events| > 0
      && s.events[|s.events| - 1] == Send(3, Csw(e.writeCbw.value.tag, if data[15] in Operations then 0 else 2))
  {
    var pending := e.writeData + data;
    assert (e.writeBaseLba + 1) * blockSize == e.writeBaseLba * blockSize + blockSize;
    var p := PutSector(image, blockSize, e.writeBaseLba, pending);
    assert p.Ok?;
  }

  /** READ(10) sends the requested blocks in address order, then a successful CSW. */
  lemma {:induction false} Read10SendsBlocks(session: Session, image: seq<byte>, blockSize: nat, data: Bytes)
    requires blockSize > 0 && |data| >= 24 && data[15] == Read10
    requires !Mutation.Truthy(session.mutation("scsi_read_10_response"))
    ensures var s := DataAvailable(session, Engine(false, None, 0, 0, []), image, blockSize, data);
      s.raised.None? && s.stop == (session.mode == 1 || session.mode == 4)
      && s.events == ReadBlocks(image, blockSize, Be32Value(data[16..20]), Be16Value(data[22..24])) + [Send(3, Csw(data[4..8], 0))]
  {
    var cb := data[15..];
    assert cb[1..5] == data[16..20];
    assert cb[7..9] == data[22..24];
  }

  // ---------------------------------------------------------------------
  // The interface

  class MassStorageInterface {
    const app: App
    const disk: DiskImage
    var writeInProgress: bool
    var writeCbw: Option<Cbw>
    var writeBaseLba: nat
    var writeLength: nat
    var writeData: Bytes

    function State(): Engine
      reads this
    {
      Engine(writeInProgress, writeCbw, writeBaseLba, writeLength, writeData)
    }

    predicate Valid()
      reads this, disk
    {
      disk.blockSize > 0 && EngineValid(State())
    }

    constructor (app: App, disk: DiskImage)
      requires disk.blockSize > 0
      ensures this.app == app && this.disk == disk && Valid()
      ensures State() == Engine(false, None, 0, 0, [])
    {
      this.app := app;
      this.disk := disk;
      writeInProgress := false;
      writeCbw := None;
      writeBaseLba := 0;
      writeLength := 0;
      writeData := [];
    }

    /** handle_read_format_capacities' loop: the header, then one descriptor per list entry. */
    method FormatCapacitiesReply(list: seq<Capacity>) returns (r: Res<Bytes>)
      ensures r == FormatCapacities(list)
    {
      if 8 * |list| >= 0x1_0000_0000 {
        return Raise(StructError);
      }
      var response := Be32(8 * |list|);
      var k := 0;
      while k < |list|
        invariant 0 <= k <= |list|
        invariant forall i :: 0 <= i < k ==> Packable(list[i])
        invariant response == Be32(8 * |list|) + Concat(seq(k, i requires 0 <= i < k => CapacityDescriptor(list[i])))
      {
        if !Packable(list[k]) {
          return Raise(StructError);
        }
        ghost var before := seq(k, i requires 0 <= i < k => CapacityDescriptor(list[i]));
        ghost var after := seq(k + 1, i requires 0 <= i < k + 1 => CapacityDescriptor(list[i]));
        assert after[..k] == before;
        response := response + (Be32(list[k].blocks) + [list[k].code]) + Be32(list[k].blockLength)[1..];
        k := k + 1;
      }
      return Ok(response);
    }

    /** handle_read_10's loop: one packet per block. */
    method SendBlocks(base: nat, count: nat)
      modifies app
      ensures app.log == old(app.log) + ReadBlocks(disk.image[..], disk.blockSize, base, count) && app.stop == old(app.stop)
    {
      var i := 0;
      while i < count
        invariant 0 <= i <= count
        invariant app.log == old(app.log) + ReadBlocks(disk.image[..], disk.blockSize, base, i) && app.stop == old(app.stop)
      {
        var block := disk.GetSectorData(base + i);
        app.SendOnEndpoint(3, block);
        assert ReadBlocks(disk.image[..], disk.blockSize, base, i + 1)
          == ReadBlocks(disk.image[..], disk.blockSize, base, i) + [Send(3, block)];
        i := i + 1;
      }
    }

    /** Runs the handler for an opcode of the `operations` table. */
    method RunCommand(opcode: int, cbw: Cbw) returns (result: Res<Mutation.Reply>)
      requires opcode in Operations && disk.blockSize > 0
      modifies app
      ensures var c := Command(app.session, opcode, cbw, disk.image[..], disk.blockSize);
        result == c.result && app.log == old(app.log) + c.sent && app.stop == (old(app.stop) || c.stop)
    {
      var session := app.session;
      var cb := cbw.cb;
      if opcode == SynchronizeCache {
        return Ok(None);
      }
      var stage := Stage(opcode).value;
      var m := session.mutation(stage);
      if Mutation.Truthy(m) {
        return Ok(Some(m.value));
      }
      if opcode == Read10 {
        if session.mode == 4 {
          app.Stop();
        }
        if |cb| < 9 {
          return Raise(StructError);
        }
        SendBlocks(Be32Value(cb[1..5]), Be16Value(cb[7..9]));
        return Ok(None);
      }
      if opcode == ReadFormatCapacities {
        var r := FormatCapacitiesReply(FormatCapacitiesList);
        return Mutation.Lift(r);
      }
      if opcode == Write10 {
        return if |cb| < 9 then Raise(StructError) else Ok(None);
      }
      result := Command(session, opcode, cbw, disk.image[..], disk.blockSize).result;
    }

    /** Sends the reply and the CSW of a command that returned. */
    method Respond(reply: Mutation.Reply, tag: Bytes, status: byte)
      requires |tag| == 4
      modifies app
      ensures app.log == old(app.log) + (if Mutation.Truthy(reply) then [Send(3, reply.value)] else []) + [Send(3, Csw(tag, status))]
      ensures app.stop == old(app.stop)
    {
      if Mutation.Truthy(reply) {
        app.SendOnEndpoint(3, reply.value);
      }
      app.SendOnEndpoint(3, Csw(tag, status));
    }

    /** Runs a parsed command against the current image, as Dispatch describes. */
    method DispatchCommand(opcode: int, cbw: Cbw) returns (raised: Option<Raised>)
      requires Valid() && |cbw.tag| == 4
      modifies this, app
      ensures Valid()
      ensures var s := Dispatch(app.session, old(State()), disk.image[..], disk.blockSize, opcode, cbw, false);
        State() == s.engine && app.log == old(app.log) + s.events && app.stop == (old(app.stop) || s.stop) && raised == s.raised
    {
      if opcode !in Operations {
        var reply: Mutation.Reply := if cbw.dataTransferLength > 0 then Some(seq(cbw.dataTransferLength, _ => 0)) else None;
        Respond(reply, cbw.tag, 2);
        return None;
      }
      ghost var c := Command(app.session, opcode, cbw, disk.image[..], disk.blockSize);
      CommandOpens(app.session, opcode, cbw, disk.image[..], disk.blockSize);
      var result := RunCommand(opcode, cbw);
      var cb := cbw.cb;
      if opcode == Write10 && !Mutation.Truthy(app.session.mutation(Stage(opcode).value)) && |cb| >= 9 {
        writeCbw := Some(cbw);
        writeBaseLba := Be32Value(cb[1..5]);
        writeLength := Be16Value(cb[7..9]) * disk.blockSize;
        writeInProgress := true;
      }
      if result.Raise? {
        return Some(result.exc);
      }
      if opcode == Write10 {
        return None;
      }
      Respond(result.value, cbw.tag, 0);
      return None;
    }

    /** handle_data_available, as DataAvailable describes. */
    method HandleDataAvailable(data: Bytes) returns (raised: Option<Raised>)
      requires Valid()
      modifies this, app, disk.image
      ensures Valid()
      ensures var s := DataAvailable(app.session, old(State()), old(disk.image[..]), disk.blockSize, data);
        State() == s.engine && disk.image[..] == s.image && app.log == old(app.log) + s.events
        && app.stop == (old(app.stop) || s.stop) && raised == s.raised
    {
      app.Supported();
      var parsed := ParseCbw(data);
      if parsed.Raise? {
        return Some(parsed.exc);
      }
      var cbw := parsed.value;
      if |cbw.cb| == 0 {
        return Some(IndexError);
      }
      var opcode := cbw.cb[0];
      if writeInProgress {
        WriteStepStop(app.session, State(), disk.image[..], disk.blockSize, opcode, data, app.session.mode == 1);
        raised := ContinueWrite(opcode, data);
      } else {
        DispatchStop(app.session, State(), disk.image[..], disk.blockSize, opcode, cbw, app.session.mode == 1);
        raised := DispatchCommand(opcode, cbw);
      }
    }

    /** The write-in-progress branch of handle_data_available. */
    method ContinueWrite(opcode: int, data: Bytes) returns (raised: Option<Raised>)
      requires Valid() && writeInProgress
      modifies this, app, disk.image
      ensures Valid()
      ensures var s := WriteStep(app.session, old(State()), old(disk.image[..]), disk.blockSize, opcode, data, false);
        State() == s.engine && disk.image[..] == s.image && app.log == old(app.log) + s.events
        && app.stop == (old(app.stop) || s.stop) && raised == s.raised
    {
      writeData := writeData + data;
      if |writeData| < writeLength {
        return None;
      }
      var failed := disk.PutSectorData(writeBaseLba, writeData);
      if failed.Some? {
        return failed;
      }
      var cbw := writeCbw.value;
      writeInProgress := false;
      writeData := [];
      assert State() == old(State()).(writeData := old(writeData) + data).(writeInProgress := false, writeData := []);
      raised := DispatchCommand(opcode, cbw);
    }
  }

  // ---------------------------------------------------------------------
  // Class requests and interface

  const BulkOnlyReset := 0xFF
  const GetMaxLun := 0xFE

  function ClassCodes(): set<int>
  {
    {BulkOnlyReset, GetMaxLun}
  }

  /** Bulk-only reset answers with nothing, GET MAX LUN with LUN 0; neither calls `supported()`. */
  function ClassOutcome(code: int): (o: Outcome)
    requires code in ClassCodes()
    ensures code == BulkOnlyReset ==> o.events == [Send(0, [])]
    ensures code == GetMaxLun ==> o.events == [Send(0, [0x00])]
    ensures !o.supported && o.raised.None?
  {
    Outcome([Send(0, if code == BulkOnlyReset then [] else [0x00])], false, None)
  }

  /** USBMassStorageInterface: interface 0 with bulk OUT 1 (commands and payload) and bulk IN 3 (replies and CSWs). */
  function NewMassStorageInterface(iclass: byte, subclass: byte, protocol: byte): (i: Interface)
    ensures i.number == 0 && i.deviceClass == Some(MassStorageClass)
    ensures |i.endpoints| == 2 && i.endpoints[0].number == 1 && i.endpoints[0].handler == Some(MassStorageData)
      && i.endpoints[1].number == 3 && i.endpoints[1].handler.None?
  {
    NewInterface(0, 0, iclass, subclass, protocol, 0,
      [Endpoint(1, 0, 2, 0, 0, 16384, 0, Some(MassStorageData), None), Endpoint(3, 1, 2, 0, 0, 16384, 0, None, None)],
      map[], []).(deviceClass := Some(MassStorageClass))
  }
}
