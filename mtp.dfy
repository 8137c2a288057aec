/**
 * The MTP persona: a Media Transfer Protocol (PTP) responder on bulk
 * endpoints 1 (commands in) and 2 (data and responses out), its storage
 * table, and the Microsoft OS extended compatible-ID descriptor that makes
 * Windows bind its MTP driver.
 */
module Mtp {
  import opened Common
  import opened Transport
  import opened Descriptors
  import Mutation

  // ---------------------------------------------------------------------
  // Codes

  const CommandType := 1
  const DataType := 2
  const ResponseType := 3

  const OkCode := 0x2001
  const OperationNotSupported := 0x2005
  const ParameterNotSupported := 0x2006
  const InvalidStorageId := 0x2008
  const InvalidCodeFormat := 0x2016
  const InvalidDataset := 0xA806

  const GetDeviceInfo := 0x1001
  const OpenSession := 0x1002
  const CloseSession := 0x1003
  const GetStorageIds := 0x1004
  const GetStorageInfo := 0x1005

  /** The operations `command_handlers` registers; the others are commented out of the table. */
  const Handlers: set<int> := {GetDeviceInfo, OpenSession, CloseSession, GetStorageIds, GetStorageInfo}

  function OpStage(code: int): string
  {
    if code == GetDeviceInfo then "mtp_op_GetDeviceInfo_response"
    else if code == OpenSession then "mtp_op_OpenSession_response"
    else if code == CloseSession then "mtp_op_CloseSession_response"
    else if code == GetStorageIds then "mtp_op_GetStorageIDs_response"
    else "mtp_op_GetStorageInfo_response"
  }

  // ---------------------------------------------------------------------
  // Integer and string encoders

  function Le64(x: int): (r: Bytes)
    requires 0 <= x < 0x1_0000_0000_0000_0000
    ensures |r| == 8
  {
    Le32(x % 0x1_0000_0000) + Le32(x / 0x1_0000_0000)
  }

  function Le64Value(b: Bytes): int
    requires |b| == 8
  {
    Le32Value(b[..4]) + 0x1_0000_0000 * Le32Value(b[4..])
  }

  lemma {:induction false} Le64RoundTrip(x: int)
    requires 0 <= x < 0x1_0000_0000_0000_0000
    ensures Le64Value(Le64(x)) == x
  {
    var e := Le64(x);
    assert e[..4] == Le32(x % 0x1_0000_0000);
    assert e[4..] == Le32(x / 0x1_0000_0000);
    Le32RoundTrip(x % 0x1_0000_0000);
    Le32RoundTrip(x / 0x1_0000_0000);
  }

  /** MU8 (and MS8, which packs the same way). */
  function MU8(i: int): (r: Res<Bytes>)
    ensures r.Ok? <==> 0 <= i < 0x100
    ensures r.Raise? ==> r.exc == StructError
    ensures r.Ok? ==> r.value == [i]
  {
    if 0 <= i < 0x100 then Ok([i]) else Raise(StructError)
  }

  /** MU16 (and MS16): two little-endian bytes that decode to the value. */
  function MU16(i: int): (r: Res<Bytes>)
    ensures r.Ok? <==> 0 <= i < 0x1_0000
    ensures r.Raise? ==> r.exc == StructError
    ensures r.Ok? ==> |r.value| == 2 && Le16Value(r.value) == i
  {
    if 0 <= i < 0x1_0000 then Le16RoundTrip(i); Ok(Le16(i)) else Raise(StructError)
  }

  /** MU32 (and MS32): four little-endian bytes that decode to the value. */
  function MU32(i: int): (r: Res<Bytes>)
    ensures r.Ok? <==> 0 <= i < 0x1_0000_0000
    ensures r.Raise? ==> r.exc == StructError
    ensures r.Ok? ==> |r.value| == 4 && Le32Value(r.value) == i
  {
    if 0 <= i < 0x1_0000_0000 then Le32RoundTrip(i); Ok(Le32(i)) else Raise(StructError)
  }

  /** MU64 (and MS64): eight little-endian bytes that decode to the value. */
  function MU64(i: int): (r: Res<Bytes>)
    ensures r.Ok? <==> 0 <= i < 0x1_0000_0000_0000_0000
    ensures r.Raise? ==> r.exc == StructError
    ensures r.Ok? ==> |r.value| == 8 && Le64Value(r.value) == i
  {
    if 0 <= i < 0x1_0000_0000_0000_0000 then Le64RoundTrip(i); Ok(Le64(i)) else Raise(StructError)
  }

  /** A Python text value: a `str` or a byte string. */
  datatype Text = Str(chars: string) | Raw(bytes: Bytes)

  /**
   * MStr: a one-byte length, then the value itself. The length is packed
   * first, so an over-long value is a struct.error; a `str` that fits then
   * meets `bytes + str`, a TypeError.
   */
  function MStr(t: Text): (r: Res<Bytes>)
    ensures t.Raw? ==> (r.Ok? <==> |t.bytes| < 0x100)
    ensures t.Raw? && r.Ok? ==> |r.value| == 1 + |t.bytes| && r.value[0] == |t.bytes| && r.value[1..] == t.bytes
    ensures t.Str? ==> r.Raise? && r.exc == (if |t.chars| < 0x100 then TypeError else StructError)
  {
    var n := if t.Str? then |t.chars| else |t.bytes|;
    if n >= 0x100 then Raise(StructError)
    else if t.Str? then Raise(TypeError)
    else Ok([n] + t.bytes)
  }

  /** Python's `a + b` on two byte strings still to be computed: the left one is computed, and fails, first. */
  function Then(a: Res<Bytes>, b: Res<Bytes>): (r: Res<Bytes>)
    ensures r.Ok? <==> a.Ok? && b.Ok?
    ensures r.Ok? ==> r.value == a.value + b.value
    ensures a.Raise? ==> r == a
  {
    if a.Raise? then a else if b.Raise? then b else Ok(a.value + b.value)
  }

  datatype StorageInfo = StorageInfo(
    storageType: int, filesystemType: int, accessCapability: int,
    maxCapacity: int, freeSpaceBytes: int, freeSpaceObjects: int, description: Text, volumeId: Text)

  /** MtpStorageInfo.serialize: the PTP StorageInfo dataset, fields in order. */
  function Serialize(info: StorageInfo): (r: Res<Bytes>)
  {
    Then(Then(Then(Then(Then(Then(Then(
      MU16(info.storageType), MU16(info.filesystemType)), MU16(info.accessCapability)),
      MU64(info.maxCapacity)), MU64(info.freeSpaceBytes)), MU32(info.freeSpaceObjects)),
      MStr(info.description)), MStr(info.volumeId))
  }

  predicate Serializable(info: StorageInfo)
  {
    0 <= info.storageType < 0x1_0000 && 0 <= info.filesystemType < 0x1_0000 && 0 <= info.accessCapability < 0x1_0000
    && 0 <= info.maxCapacity < 0x1_0000_0000_0000_0000 && 0 <= info.freeSpaceBytes < 0x1_0000_0000_0000_0000
    && 0 <= info.freeSpaceObjects < 0x1_0000_0000
    && info.description.Raw? && |info.description.bytes| < 0x100 && info.volumeId.Raw? && |info.volumeId.bytes| < 0x100
  }

  /** A storage with byte-string texts serializes to 26 fixed bytes, then the two length-prefixed texts. */
  lemma {:induction false} StorageInfoLayout(info: StorageInfo)
    requires Serializable(info)
    ensures var r := Serialize(info); var d := info.description.bytes; var v := info.volumeId.bytes;
      r.Ok? && |r.value| == 28 + |d| + |v|
      && Le16Value(r.value[0..2]) == info.storageType && Le16Value(r.value[2..4]) == info.filesystemType
      && Le16Value(r.value[4..6]) == info.accessCapability && Le64Value(r.value[6..14]) == info.maxCapacity
      && Le64Value(r.value[14..22]) == info.freeSpaceBytes && Le32Value(r.value[22..26]) == info.freeSpaceObjects
      && r.value[26] == |d| && r.value[27..27 + |d|] == d && r.value[27 + |d|] == |v| && r.value[28 + |d|..] == v
  {
    var a := MU16(info.storageType).value;
    var b := MU16(info.filesystemType).value;
    var c := MU16(info.accessCapability).value;
    var m := MU64(info.maxCapacity).value;
    var f := MU64(info.freeSpaceBytes).value;
    var o := MU32(info.freeSpaceObjects).value;
    var ds := MStr(info.description).value;
    var vs := MStr(info.volumeId).value;
    var r := a + b + c + m + f + o + ds + vs;
    assert Serialize(info) == Ok(r);
    assert r[0..2] == a && r[2..4] == b && r[4..6] == c && r[6..14] == m && r[14..22] == f && r[22..26] == o;
    assert r[26..27 + |info.description.bytes|] == ds;
    assert r[27 + |info.description.bytes|..] == vs;
  }

  /** The storage table as written: descriptions and volume ids are `str`. */
  function AsWrittenStorage(description: string, volumeId: string): StorageInfo
  {
    StorageInfo(0x0001, 0x0002, 0x0000, 100000000, 90000000, 0xffffffff, Str(description), Str(volumeId))
  }

  const AsWrittenStorages: seq<(u32, StorageInfo)> := [
    (0x00010002, AsWrittenStorage("storage 1", "0x00010002")),
    (0x00010003, AsWrittenStorage("storage 2", "0x00010003")),
    (0x00010004, AsWrittenStorage("storage 3", "0x00010004"))]

  /** As written, every storage of the table fails to serialize: MStr meets a `str`. */
  lemma AsWrittenStorageInfoFails(k: nat)
    requires k < |AsWrittenStorages|
    ensures Serialize(AsWrittenStorages[k].1) == Raise(TypeError)
  {
  }

  /** The storage table with its texts as the ASCII byte strings they spell. */
  function Storage(description: string, volumeId: string): (s: StorageInfo)
    requires IsAscii(description) && IsAscii(volumeId) && |description| < 0x100 && |volumeId| < 0x100
    ensures Serializable(s)
  {
    StorageInfo(0x0001, 0x0002, 0x0000, 100000000, 90000000, 0xffffffff, Raw(Ascii(description)), Raw(Ascii(volumeId)))
  }

  const Storages: seq<(u32, StorageInfo)> := [
    (0x00010002, Storage("storage 1", "0x00010002")),
    (0x00010003, Storage("storage 2", "0x00010003")),
    (0x00010004, Storage("storage 3", "0x00010004"))]

  /** With byte strings every storage of the table serializes. */
  lemma CorrectedStorageInfoSerializes(k: nat)
    requires k < |Storages|
    ensures Serialize(Storages[k].1).Ok?
  {
    StorageInfoLayout(Storages[k].1);
  }

  /** `sid in self.storages` and `self.storages[sid]`. */
  function Lookup(storages: seq<(u32, StorageInfo)>, sid: int): (r: Option<StorageInfo>)
    ensures r.Some? <==> exists k :: 0 <= k < |storages| && storages[k].0 == sid
    ensures r.Some? ==> exists k :: 0 <= k < |storages| && storages[k] == (sid, r.value)
  {
    if storages == [] then None
    else if storages[0].0 == sid then Some(storages[0].1)
    else
      var r := Lookup(storages[1..], sid);
      assert forall k :: 0 < k < |storages| ==> storages[k] == storages[1..][k - 1];
      r
  }

  /** The storage ids, four little-endian bytes each, in table order. */
  function StorageIdList(storages: seq<(u32, StorageInfo)>): (r: Bytes)
  {
    Concat(seq(|storages|, k requires 0 <= k < |storages| => Le32(storages[k].0)))
  }

  lemma {:induction false} StorageIdListGrows(storages: seq<(u32, StorageInfo)>, k: nat)
    requires k < |storages|
    ensures StorageIdList(storages[..k + 1]) == StorageIdList(storages[..k]) + Le32(storages[k].0)
  {
    var longer := storages[..k + 1];
    var parts := seq(|longer|, i requires 0 <= i < |longer| => Le32(longer[i].0));
    assert parts[..k] == seq(k, i requires 0 <= i < k => Le32(storages[..k][i].0));
  }

  /** Entry `k` of the id list is bytes `4k..4k+4`, and decodes to the `k`-th storage's id. */
  lemma {:induction false} StorageIdEntries(storages: seq<(u32, StorageInfo)>, k: nat)
    requires k < |storages|
    ensures var r := StorageIdList(storages); |r| == 4 * |storages| && Le32Value(r[4 * k..4 * k + 4]) == storages[k].0
  {
    var parts := seq(|storages|, i requires 0 <= i < |storages| => Le32(storages[i].0));
    ConcatUniformLength(parts, 4);
    ConcatUniformAt(parts, 4, k);
    Le32RoundTrip(storages[k].0);
  }

  // ---------------------------------------------------------------------
  // Containers

  /** The generic container: length, type, code, transaction id, payload. */
  datatype Container = Container(length: u32, containerType: u16, code: u16, tid: u32, payload: Bytes)

  function EncodeContainer(c: Container): (b: Bytes)
    ensures |b| == 12 + |c.payload|
  {
    Le32(c.length) + Le16(c.containerType) + Le16(c.code) + Le32(c.tid) + c.payload
  }

  /** MtpContainer: a little-endian header unpacked from the first 12 bytes, the rest the payload. */
  function ParseContainer(data: Bytes): (r: Res<Container>)
    ensures r.Ok? <==> |data| >= 12
    ensures r.Raise? ==> r.exc == StructError
    ensures r.Ok? ==> r.value.payload == data[12..]
  {
    if |data| < 12 then Raise(StructError)
    else Ok(Container(Le32Value(data[0..4]), Le16Value(data[4..6]), Le16Value(data[6..8]), Le32Value(data[8..12]), data[12..]))
  }

  /** Parsing then encoding gives back the bytes. */
  lemma {:induction false} EncodeParsed(data: Bytes)
    requires |data| >= 12
    ensures EncodeContainer(ParseContainer(data).value) == data
  {
    Le32Inverse(data[0..4]);
    Le16Inverse(data[4..6]);
    Le16Inverse(data[6..8]);
    Le32Inverse(data[8..12]);
    assert data == data[0..4] + data[4..6] + data[6..8] + data[8..12] + data[12..];
  }

  /** Encoding then parsing gives back the container. */
  lemma {:induction false} ParseEncoded(c: Container)
    ensures ParseContainer(EncodeContainer(c)) == Ok(c)
  {
    var b := EncodeContainer(c);
    assert b[0..4] == Le32(c.length);
    assert b[4..6] == Le16(c.containerType);
    assert b[6..8] == Le16(c.code);
    assert b[8..12] == Le32(c.tid);
    assert b[12..] == c.payload;
    Le32RoundTrip(c.length);
    Le16RoundTrip(c.containerType);
    Le16RoundTrip(c.code);
    Le32RoundTrip(c.tid);
  }

  /** mtp_response: a bare Response container with the status and the transaction id (0 when there is no container). */
  function Response(tid: u32, status: u16): (r: Bytes)
  {
    EncodeContainer(Container(12, ResponseType, status, tid, []))
  }

  lemma ResponseParses(tid: u32, status: u16)
    ensures |Response(tid, status)| == 12
    ensures ParseContainer(Response(tid, status)) == Ok(Container(12, ResponseType, status, tid, []))
  {
    ParseEncoded(Container(12, ResponseType, status, tid, []));
  }

  /** mtp_data: a Data container whose declared length counts its header, carrying the command's code and transaction id. */
  function DataFor(c: Container, payload: Bytes): (r: Res<Bytes>)
    ensures r.Ok? <==> |payload| + 12 < 0x1_0000_0000
    ensures r.Raise? ==> r.exc == StructError
  {
    if |payload| + 12 >= 0x1_0000_0000 then Raise(StructError)
    else Ok(EncodeContainer(Container(|payload| + 12, DataType, c.code, c.tid, payload)))
  }

  lemma DataParses(c: Container, payload: Bytes)
    requires |payload| + 12 < 0x1_0000_0000
    ensures var r := DataFor(c, payload).value;
      |r| == |payload| + 12 && ParseContainer(r) == Ok(Container(|r|, DataType, c.code, c.tid, payload))
  {
    ParseEncoded(Container(|payload| + 12, DataType, c.code, c.tid, payload));
  }

  /** The DeviceInfo dataset op_GetDeviceInfo returns, as one fixed byte string. */
  const DeviceInfo: Bytes := [
    0x64, 0x00, 0x06, 0x00, 0x00, 0x00, 0x64, 0x00, 0x26, 0x6d, 0x00, 0x69, 0x00, 0x63, 0x00, 0x72,
    0x00, 0x6f, 0x00, 0x73, 0x00, 0x6f, 0x00, 0x66, 0x00, 0x74, 0x00, 0x2e, 0x00, 0x63, 0x00, 0x6f,
    0x00, 0x6d, 0x00, 0x3a, 0x00, 0x20, 0x00, 0x31, 0x00, 0x2e, 0x00, 0x30, 0x00, 0x3b, 0x00, 0x20,
    0x00, 0x61, 0x00, 0x6e, 0x00, 0x64, 0x00, 0x72, 0x00, 0x6f, 0x00, 0x69, 0x00, 0x64, 0x00, 0x2e,
    0x00, 0x63, 0x00, 0x6f, 0x00, 0x6d, 0x00, 0x3a, 0x00, 0x20, 0x00, 0x31, 0x00, 0x2e, 0x00, 0x30,
    0x00, 0x3b, 0x00, 0x00, 0x00, 0x00, 0x00, 0x1e, 0x00, 0x00, 0x00, 0x01, 0x10, 0x02, 0x10, 0x03,
    0x10, 0x04, 0x10, 0x05, 0x10, 0x06, 0x10, 0x07, 0x10, 0x08, 0x10, 0x09, 0x10, 0x0a, 0x10, 0x0b,
    0x10, 0x0c, 0x10, 0x0d, 0x10, 0x14, 0x10, 0x15, 0x10, 0x16, 0x10, 0x17, 0x10, 0x1b, 0x10, 0x01,
    0x98, 0x02, 0x98, 0x03, 0x98, 0x04, 0x98, 0x05, 0x98, 0x10, 0x98, 0x11, 0x98, 0xc1, 0x95, 0xc2,
    0x95, 0xc3, 0x95, 0xc4, 0x95, 0xc5, 0x95, 0x06, 0x00, 0x00, 0x00, 0x02, 0x40, 0x03, 0x40, 0x04,
    0x40, 0x05, 0x40, 0x06, 0x40, 0x01, 0xc8, 0x04, 0x00, 0x00, 0x00, 0x01, 0xd4, 0x02, 0xd4, 0x03,
    0x50, 0x01, 0x50, 0x00, 0x00, 0x00, 0x00, 0x1a, 0x00, 0x00, 0x00, 0x00, 0x30, 0x01, 0x30, 0x04,
    0x30, 0x05, 0x30, 0x08, 0x30, 0x09, 0x30, 0x0b, 0x30, 0x01, 0x38, 0x02, 0x38, 0x04, 0x38, 0x07,
    0x38, 0x08, 0x38, 0x0b, 0x38, 0x0d, 0x38, 0x01, 0xb9, 0x02, 0xb9, 0x03, 0xb9, 0x82, 0xb9, 0x83,
    0xb9, 0x84, 0xb9, 0x05, 0xba, 0x10, 0xba, 0x11, 0xba, 0x14, 0xba, 0x82, 0xba, 0x06, 0xb9, 0x08,
    0x73, 0x00, 0x61, 0x00, 0x6d, 0x00, 0x73, 0x00, 0x75, 0x00, 0x6e, 0x00, 0x67, 0x00, 0x00, 0x00,
    0x09, 0x47, 0x00, 0x54, 0x00, 0x2d, 0x00, 0x49, 0x00, 0x39, 0x00, 0x33, 0x00, 0x30, 0x00, 0x30,
    0x00, 0x00, 0x00, 0x04, 0x31, 0x00, 0x2e, 0x00, 0x30, 0x00, 0x00, 0x00, 0x11, 0x33, 0x00, 0x32,
    0x00, 0x33, 0x00, 0x30, 0x00, 0x64, 0x00, 0x30, 0x00, 0x64, 0x00, 0x31, 0x00, 0x63, 0x00, 0x32,
    0x00, 0x35, 0x00, 0x33, 0x00, 0x37, 0x00, 0x30, 0x00, 0x31, 0x00, 0x31, 0x00, 0x00, 0x00]

  // ---------------------------------------------------------------------
  // Operations and transactions

  /** What a handler left: its result, the response code, the session data. */
  datatype OpResult = OpResult(result: Option<Bytes>, code: int, sessionData: map<string, Bytes>)

  /**
   * A registered operation, run after the response code was reset to OK.
   * A non-empty mutation for its stage replaces the handler.
   */
  function Operation(source: Mutation.Source, storages: seq<(u32, StorageInfo)>, c: Container, sessionData: map<string, Bytes>): (r: Res<OpResult>)
    requires c.code in Handlers
  {
    var m := source(OpStage(c.code));
    if Mutation.Truthy(m) then Ok(OpResult(Some(m.value), OkCode, sessionData))
    else if c.code == GetDeviceInfo then
      (match DataFor(c, DeviceInfo)
       case Ok(d) => Ok(OpResult(Some(d), OkCode, sessionData))
       case Raise(x) => Raise(x))
    else if c.code == OpenSession then
      if c.length != 16 then Ok(OpResult(None, InvalidDataset, sessionData))
      else Ok(OpResult(None, OkCode, sessionData["session_id" := c.payload]))
    else if c.code == CloseSession then Ok(OpResult(None, OkCode, sessionData))
    else if c.code == GetStorageIds then
      (match DataFor(c, StorageIdList(storages))
       case Ok(d) => Ok(OpResult(Some(d), OkCode, sessionData))
       case Raise(x) => Raise(x))
    else
      if c.length != 16 then Ok(OpResult(None, ParameterNotSupported, sessionData))
      else if |c.payload| != 4 then Raise(StructError)
      else match Lookup(storages, Le32Value(c.payload))
        case None => Ok(OpResult(None, InvalidStorageId, sessionData))
        case Some(info) =>
          match Serialize(info)
          case Raise(x) => Raise(x)
          case Ok(s) =>
            match DataFor(c, s)
            case Ok(d) => Ok(OpResult(Some(d), OkCode, sessionData))
            case Raise(x) => Raise(x)
  }

  /** The device's state: `session_data`, `response_code` and `resp_queue` (front first). */
  datatype DeviceState = DeviceState(sessionData: map<string, Bytes>, responseCode: int, queue: seq<Bytes>)

  /** The header slices a registered command records in the session data. */
  function RecordHeader(sessionData: map<string, Bytes>, data: Bytes): map<string, Bytes>
    requires |data| >= 12
  {
    sessionData["container_length" := data[0..4]]["container_type" := data[4..6]]
      ["container_code" := data[6..8]]["transaction_id" := data[8..12]]
  }

  /** A transaction's end: a Data container or nothing, and the Response; or an exception out of the handler. */
  datatype Txn =
    | Answer(result: Option<Bytes>, response: Bytes, sessionData: map<string, Bytes>, responseCode: int)
    | Threw(sessionData: map<string, Bytes>, responseCode: int, exc: Raised)

  /** _handle_data: the checks in order, then the registered handler. */
  function Transaction(source: Mutation.Source, storages: seq<(u32, StorageInfo)>, st: DeviceState, data: Bytes): (t: Txn)
  {
    if |data| < 12 then Answer(None, Response(0, InvalidCodeFormat), st.sessionData, st.responseCode)
    else
      var c := ParseContainer(data).value;
      if |data| != c.length then Answer(None, Response(c.tid, InvalidCodeFormat), st.sessionData, st.responseCode)
      else if c.containerType == CommandType && c.code in Handlers then
        var recorded := RecordHeader(st.sessionData, data);
        match Operation(source, storages, c, recorded)
        case Raise(x) => Threw(recorded, OkCode, x)
        case Ok(o) => Answer(o.result, Response(c.tid, o.code), o.sessionData, o.code)
      else Answer(None, Response(c.tid, OperationNotSupported), st.sessionData, st.responseCode)
  }

  /** A rejected container is answered by a Response alone, with the reason and the transaction id it could read. */
  lemma {:induction false} RejectionsCarryNoData(source: Mutation.Source, storages: seq<(u32, StorageInfo)>, st: DeviceState, data: Bytes)
    requires |data| < 12 || Le32Value(data[0..4]) != |data| || Le16Value(data[4..6]) != CommandType || Le16Value(data[6..8]) !in Handlers
    ensures var t := Transaction(source, storages, st, data);
      t.Answer? && t.result.None? && t.sessionData == st.sessionData && t.responseCode == st.responseCode
      && ParseContainer(t.response) == Ok(Container(12, ResponseType,
        (if |data| < 12 || Le32Value(data[0..4]) != |data| then InvalidCodeFormat else OperationNotSupported),
        (if |data| < 12 then 0 else Le32Value(data[8..12])), []))
  {
    if |data| < 12 {
      ResponseParses(0, InvalidCodeFormat);
    } else {
      var c := ParseContainer(data).value;
      ResponseParses(c.tid, InvalidCodeFormat);
      ResponseParses(c.tid, OperationNotSupported);
    }
  }

  /**
   * A well-formed registered command records its header and answers with a
   * Response carrying the code its handler left, under its own transaction id.
   */
  lemma {:induction false} CommandAnswered(source: Mutation.Source, storages: seq<(u32, StorageInfo)>, st: DeviceState, data: Bytes)
    requires |data| >= 12 && Le32Value(data[0..4]) == |data| && Le16Value(data[4..6]) == CommandType && Le16Value(data[6..8]) in Handlers
    ensures var t := Transaction(source, storages, st, data);
      var o := Operation(source, storages, ParseContainer(data).value, RecordHeader(st.sessionData, data));
      (o.Ok? ==> t == Answer(o.value.result, Response(Le32Value(data[8..12]), o.value.code), o.value.sessionData, o.value.code))
      && (o.Raise? ==> t == Threw(RecordHeader(st.sessionData, data), OkCode, o.exc))
  {
  }

  /** OpenSession with a 16-byte container stores its payload as the session id and answers OK; any other length answers INVALID_DATASET and leaves the session data as it was. */
  lemma {:induction false} OpenSessionStoresId(source: Mutation.Source, storages: seq<(u32, StorageInfo)>, c: Container, sessionData: map<string, Bytes>)
    requires c.code == OpenSession && !Mutation.Truthy(source(OpStage(OpenSession)))
    ensures var r := Operation(source, storages, c, sessionData);
      r.Ok? && r.value.result.None?
      && (c.length == 16 ==> r.value.code == OkCode && r.value.sessionData == sessionData["session_id" := c.payload])
      && (c.length != 16 ==> r.value.code == InvalidDataset && r.value.sessionData == sessionData)
  {
  }

  /** GetStorageInfo: a malformed request or an unknown id gives a code and no data; a known id gives that storage's dataset. */
  lemma {:induction false} GetStorageInfoAnswers(source: Mutation.Source, storages: seq<(u32, StorageInfo)>, c: Container, sessionData: map<string, Bytes>)
    requires c.code == GetStorageInfo && !Mutation.Truthy(source(OpStage(GetStorageInfo)))
    requires c.length == 16 ==> |c.payload| == 4
    ensures var r := Operation(source, storages, c, sessionData);
      (c.length != 16 ==> r == Ok(OpResult(None, ParameterNotSupported, sessionData)))
      && (c.length == 16 && (forall k :: 0 <= k < |storages| ==> storages[k].0 != Le32Value(c.payload))
          ==> r == Ok(OpResult(None, InvalidStorageId, sessionData)))
      && (c.length == 16 && Lookup(storages, Le32Value(c.payload)).Some? && Serializable(Lookup(storages, Le32Value(c.payload)).value)
          ==> (r.Ok? && r.value.code == OkCode && r.value.result.Some?
            && ParseContainer(r.value.result.value) == Ok(Container(|r.value.result.value|, DataType, GetStorageInfo, c.tid,
              Serialize(Lookup(storages, Le32Value(c.payload)).value).value))))
  {
    if c.length == 16 {
      var found := Lookup(storages, Le32Value(c.payload));
      if found.Some? && Serializable(found.value) {
        StorageInfoLayout(found.value);
        DataParses(c, Serialize(found.value).value);
      }
    }
  }

  /** `resp_queue` front first; the next container out is the last one. */
  function Reverse<T>(s: seq<T>): (r: seq<T>)
    ensures |r| == |s|
  {
    if s == [] then [] else Reverse(s[1..]) + [s[0]]
  }

  lemma {:induction false} ReverseAppend<T>(s: seq<T>, x: T)
    ensures Reverse(s + [x]) == [x] + Reverse(s)
  {
    if s != [] {
      assert (s + [x])[1..] == s[1..] + [x];
      ReverseAppend(s[1..], x);
    } else {
      assert Reverse([x]) == Reverse([x][1..]) + [x];
    }
  }

  /** The containers waiting to go out, in the order they will: `insert(0, ...)` with `pop()` is first in, first out. */
  function Pending(queue: seq<Bytes>): seq<Bytes>
  {
    Reverse(queue)
  }

  /** handle_data: the Data container, if any, is queued before the Response. */
  function Enqueue(queue: seq<Bytes>, result: Option<Bytes>, response: Bytes): (q: seq<Bytes>)
    ensures Pending(q) == Pending(queue) + (if result.Some? then [result.value] else []) + [response]
  {
    var q1 := if result.Some? then [result.value] + queue else queue;
    assert Pending(q1) == Pending(queue) + (if result.Some? then [result.value] else []);
    var q := [response] + q1;
    assert q[1..] == q1;
    q
  }

  /** The device state after one packet of endpoint 1, and the exception it raised. */
  function HandleData(source: Mutation.Source, storages: seq<(u32, StorageInfo)>, st: DeviceState, data: Bytes): (r: (DeviceState, Option<Raised>))
  {
    match Transaction(source, storages, st, data)
    case Answer(result, response, sd, code) => (DeviceState(sd, code, Enqueue(st.queue, result, response)), None)
    case Threw(sd, code, x) => (DeviceState(sd, code, st.queue), Some(x))
  }

  class MtpDevice {
    const app: App
    const storages: seq<(u32, StorageInfo)>
    var sessionData: map<string, Bytes>
    /** Set before each registered handler runs; never read before that. */
    var responseCode: int
    var queue: seq<Bytes>

    function State(): DeviceState
      reads this
    {
      DeviceState(sessionData, responseCode, queue)
    }

    constructor (app: App)
      ensures this.app == app && storages == Storages && sessionData == map[] && queue == []
    {
      this.app := app;
      storages := Storages;
      sessionData := map[];
      responseCode := OkCode;
      queue := [];
    }

    /** op_GetStorageIDs' loop over the storage table. */
    method StorageIds() returns (sids: Bytes)
      ensures sids == StorageIdList(storages)
    {
      sids := [];
      var k := 0;
      while k < |storages|
        invariant 0 <= k <= |storages|
        invariant sids == StorageIdList(storages[..k])
      {
        StorageIdListGrows(storages, k);
        sids := sids + Le32(storages[k].0);
        k := k + 1;
      }
      assert storages[..k] == storages;
    }

    /** handle_data: the transaction, then its containers queued. */
    /** The registered handler of a command; GetStorageIDs builds its id list in a loop. */
    method RunOperation(c: Container, sd: map<string, Bytes>) returns (o: Res<OpResult>)
      requires c.code in Handlers
      ensures o == Operation(app.session.mutation, storages, c, sd)
    {
      var source := app.session.mutation;
      if c.code == GetStorageIds && !Mutation.Truthy(source(OpStage(c.code))) {
        var sids := StorageIds();
        o := match DataFor(c, sids) case Ok(d) => Ok(OpResult(Some(d), OkCode, sd)) case Raise(x) => Raise(x);
      } else {
        o := Operation(source, storages, c, sd);
      }
    }

    method HandleDataAvailable(data: Bytes) returns (raised: Option<Raised>)
      modifies this
      ensures (State(), raised) == HandleData(app.session.mutation, storages, old(State()), data)
    {
      ghost var t := Transaction(app.session.mutation, storages, State(), data);
      var result: Option<Bytes>;
      var response: Bytes;
      if |data| < 12 {
        result, response := None, Response(0, InvalidCodeFormat);
      } else {
        var c := ParseContainer(data).value;
        if |data| != c.length {
          result, response := None, Response(c.tid, InvalidCodeFormat);
        } else if c.containerType == CommandType && c.code in Handlers {
          sessionData := RecordHeader(sessionData, data);
          responseCode := OkCode;
          var o := RunOperation(c, sessionData);
          if o.Raise? {
            return Some(o.exc);
          }
          sessionData := o.value.sessionData;
          responseCode := o.value.code;
          result, response := o.value.result, Response(c.tid, responseCode);
        } else {
          result, response := None, Response(c.tid, OperationNotSupported);
        }
      }
      queue := Enqueue(queue, result, response);
      return None;
    }

    /** get_data: the oldest queued container, or None when the queue is empty. */
    method GetData() returns (r: Option<Bytes>)
      modifies this
      ensures old(Pending(queue)) == [] ==> r.None? && queue == old(queue)
      ensures old(Pending(queue)) != [] ==> r == Some(old(Pending(queue))[0]) && Pending(queue) == old(Pending(queue))[1..]
      ensures sessionData == old(sessionData) && responseCode == old(responseCode)
    {
      if queue == [] {
        return None;
      }
      var n := |queue| - 1;
      r := Some(queue[n]);
      var rest := queue[..n];
      assert queue == rest + [queue[n]];
      ReverseAppend(rest, queue[n]);
      queue := rest;
    }
  }

  /** Two containers queued by one transaction come out in order: its Data, then its Response. */
  lemma {:induction false} DataBeforeResponse(source: Mutation.Source, storages: seq<(u32, StorageInfo)>, st: DeviceState, data: Bytes)
    requires st.queue == []
    ensures var t := Transaction(source, storages, st, data);
      var r := HandleData(source, storages, st, data);
      t.Answer? ==> Pending(r.0.queue) == (if t.result.Some? then [t.result.value] else []) + [t.response]
  {
  }

  // ---------------------------------------------------------------------
  // The interface

  class MtpInterface {
    const app: App
    const device: MtpDevice

    constructor (app: App)
      ensures this.app == app && fresh(device) && device.app == app && device.queue == [] && device.sessionData == map[]
    {
      this.app := app;
      device := new MtpDevice(app);
    }

    /** handle_ep1_data_available. */
    method HandleEp1DataAvailable(data: Bytes) returns (raised: Option<Raised>)
      modifies device
      ensures (device.State(), raised) == HandleData(device.app.session.mutation, device.storages, old(device.State()), data)
    {
      raised := device.HandleDataAvailable(data);
    }

    /** handle_ep2_buffer_available: the oldest queued container goes out on endpoint 2, unless it is empty. */
    method HandleEp2BufferAvailable()
      modifies device, app
      ensures old(Pending(device.queue)) == [] ==> device.queue == old(device.queue) && app.log == old(app.log)
      ensures old(Pending(device.queue)) != [] ==>
        Pending(device.queue) == old(Pending(device.queue))[1..]
        && app.log == old(app.log) + (if old(Pending(device.queue))[0] != [] then [Send(2, old(Pending(device.queue))[0])] else [])
      ensures app.stop == old(app.stop)
    {
      var resp := device.GetData();
      if resp.Some? && resp.value != [] {
        app.SendOnEndpoint(2, resp.value);
      }
    }
  }

  /** USBMtpInterface's descriptor: vendor-specific class, bulk OUT 1, bulk IN 2, interrupt IN 3. */
  function NewMtpInterface(): (i: Interface)
    ensures i.number == 0 && i.iclass == 0xff && i.subclass == 0xff && i.protocol == 0
    ensures |i.endpoints| == 3
    ensures i.endpoints[0].number == 1 && i.endpoints[0].direction == 0 && i.endpoints[0].handler == Some(MtpCommandData)
    ensures i.endpoints[1].number == 2 && i.endpoints[1].direction == 1 && i.endpoints[1].handler == Some(MtpResponseBuffer)
    ensures i.endpoints[2].number == 3 && i.endpoints[2].transferType == 3 && i.endpoints[2].interval == 32
  {
    NewInterface(0, 0, 0xff, 0xff, 0, 0,
      [Endpoint(1, 0, 2, 0, 0, 512, 0, Some(MtpCommandData), None),
       Endpoint(2, 1, 2, 0, 0, 512, 0, Some(MtpResponseBuffer), None),
       Endpoint(3, 1, 3, 0, 0, 512, 32, Some(MtpEventBuffer), None)],
      map[], [])
  }

  // ---------------------------------------------------------------------
  // Microsoft OS extended compatible-ID descriptor

  /** `pad`: zeros up to the length; a longer value is left as it is. */
  function Pad(data: Bytes, padLength: int): (r: Bytes)
    ensures |r| == (if |data| < padLength then padLength else |data|)
    ensures r[..|data|] == data
    ensures forall k :: |data| <= k < |r| ==> r[k] == 0
  {
    data + seq(if |data| < padLength then padLength - |data| else 0, _ => 0)
  }

  /** One function section: first interface, reserved byte, compatible id, sub-compatible id, reserved bytes. */
  datatype Section = Section(firstInterface: byte, reserved: byte, compatibleId: Bytes, subCompatibleId: Bytes, reserved2: Bytes)

  function SectionBytes(s: Section): (r: Bytes)
    ensures |r| == 2 + |s.compatibleId| + |s.subCompatibleId| + |s.reserved2|
  {
    [s.firstInterface, s.reserved] + s.compatibleId + s.subCompatibleId + s.reserved2
  }

  /** The one section: interface 0, compatible id "MTP". */
  const MtpSections: seq<Section> := [Section(0x00, 0x01, Pad([0x4D, 0x54, 0x50], 8), Pad([], 8), Pad([], 6))]

  function Properties(sections: seq<Section>): Bytes
  {
    Concat(seq(|sections|, k requires 0 <= k < |sections| => SectionBytes(sections[k])))
  }

  /**
   * handle_msos_vendor_extended_config_descriptor: the length, the header
   * (version 1.00, index 0, the section count, 7 reserved bytes), the
   * sections.
   */
  function CompatIdDescriptor(sections: seq<Section>): (r: Res<Bytes>)
  {
    if |sections| >= 0x100 then Raise(StructError)
    else
      var payload := Le16(0x0100) + Le16(0x0000) + [|sections|] + Pad([0x00], 7) + Properties(sections);
      if |payload| + 4 >= 0x1_0000_0000 then Raise(StructError)
      else Ok(Le32(|payload| + 4) + payload)
  }

  /** The descriptor's first four bytes give its own length, byte 8 the number of sections. */
  lemma {:induction false} CompatIdDescriptorLength(sections: seq<Section>)
    requires CompatIdDescriptor(sections).Ok?
    ensures var r := CompatIdDescriptor(sections).value;
      |r| >= 16 && Le32Value(r[..4]) == |r| && r[8] == |sections| && r[16..] == Properties(sections)
  {
    var payload := Le16(0x0100) + Le16(0x0000) + [|sections|] + Pad([0x00], 7) + Properties(sections);
    var r := CompatIdDescriptor(sections).value;
    assert r[..4] == Le32(|payload| + 4);
    Le32RoundTrip(|payload| + 4);
  }

  /** With sections of the standard widths (ids of at most 8 bytes, at most 6 reserved bytes, padded), the descriptor is `16 + 24·count` bytes. */
  lemma {:induction false} CompatIdDescriptorSize(sections: seq<Section>)
    requires |sections| < 0x100
    requires forall k :: 0 <= k < |sections| ==> |SectionBytes(sections[k])| == 24
    ensures var r := CompatIdDescriptor(sections); r.Ok? && |r.value| == 16 + 24 * |sections|
  {
    var parts := seq(|sections|, k requires 0 <= k < |sections| => SectionBytes(sections[k]));
    ConcatUniformLength(parts, 24);
  }

  /** The emulated device's descriptor: 40 bytes, one section naming "MTP". */
  lemma {:induction false} MtpCompatIdDescriptor()
    ensures var r := CompatIdDescriptor(MtpSections);
      r.Ok? && |r.value| == 40 && r.value[18..26] == [0x4D, 0x54, 0x50, 0, 0, 0, 0, 0]
  {
    var parts := seq(|MtpSections|, k requires 0 <= k < |MtpSections| => SectionBytes(MtpSections[k]));
    assert |parts| == 1 && parts[..0] == [];
    assert Properties(MtpSections) == Concat(parts[..0]) + parts[0];
    CompatIdDescriptorSize(MtpSections);
    CompatIdDescriptorLength(MtpSections);
    var r := CompatIdDescriptor(MtpSections).value;
    assert r[16..] == SectionBytes(MtpSections[0]);
    assert r[18..26] == r[16..][2..10];
  }

  const VendorCodes: set<int> := {0x00}

  /** USBMsosVendor.handle_all: the descriptor (or its mutation) on endpoint 0; `supported()` is not called. */
  function VendorOutcome(session: Session, code: int): (o: Outcome)
    requires code in VendorCodes
    ensures !o.supported
    ensures o.raised.None? && |o.events| == 1
    ensures !Mutation.Truthy(session.mutation("msos_vendor_extended_config_descriptor")) ==>
      CompatIdDescriptor(MtpSections).Ok? && o.events == [Send(0, CompatIdDescriptor(MtpSections).value)]
    ensures Mutation.Truthy(session.mutation("msos_vendor_extended_config_descriptor")) ==>
      o.events == [Send(0, session.mutation("msos_vendor_extended_config_descriptor").value)]
  {
    MtpCompatIdDescriptor();
    var r := Mutation.MutableRes(session.mutation, "msos_vendor_extended_config_descriptor", CompatIdDescriptor(MtpSections));
    Outcome([Send(0, r.value)], false, None)
  }
}
