/**
 * The printer persona: the IEEE 1284 GET_DEVICE_ID class request, the two
 * printer interfaces, and the end-of-job rule on received print data.
 */
module Printer {
  import opened Common
  import opened Transport
  import opened Descriptors

  /** The device-ID dictionary, in its insertion order. */
  const DeviceIdFields: seq<(string, string)> := [
    ("MFG", "Hewlett-Packard"),
    ("CMD", "PJL,PML,PCLXL,POSTSCRIPT,PCL"),
    ("MDL", "HP Color LaserJet CP1515n"),
    ("CLS", "PRINTER"),
    ("DES", "Hewlett-Packard Color LaserJet CP1515n"),
    ("MEM", "MEM=55MB"),
    ("COMMENT", "RES=600x8")]

  /** The class request the printer class answers, and its mutation stage. */
  const GetDeviceId := 0x00
  const DeviceIdStage := "get_device_id_response"

  /** `request_handlers` is built from the keys of `local_handlers`. */
  function ClassCodes(): set<int>
  {
    {GetDeviceId}
  }

  /** `sep.join(items)` */
  function Join(items: seq<string>, sep: string): string
  {
    if items == [] then ""
    else if |items| == 1 then items[0]
    else Join(items[..|items| - 1], sep) + sep + items[|items| - 1]
  }

  /** The `K:V` entries of the fields. */
  function Entries(fields: seq<(string, string)>): (r: seq<string>)
    ensures |r| == |fields|
  {
    seq(|fields|, k requires 0 <= k < |fields| => fields[k].0 + ":" + fields[k].1)
  }

  /** The device-ID string: the entries joined by ';' and one more ';'. */
  function DeviceIdText(fields: seq<(string, string)>): string
  {
    Join(Entries(fields), ";") + ";"
  }

  /** Joining and then appending the separator is the same as terminating every item by it. */
  lemma {:induction false} JoinThenTerminate(items: seq<string>, sep: string)
    requires |items| > 0
    ensures Join(items, sep) + sep == Concat(seq(|items|, k requires 0 <= k < |items| => items[k] + sep))
  {
    var terminated := seq(|items|, k requires 0 <= k < |items| => items[k] + sep);
    if |items| > 1 {
      var front := items[..|items| - 1];
      JoinThenTerminate(front, sep);
      assert terminated[..|terminated| - 1] == seq(|front|, k requires 0 <= k < |front| => front[k] + sep);
    }
  }

  /** A join of `n` items of at most `bound` characters has at most `n * (bound + |sep|)` characters. */
  lemma {:induction false} JoinLength(items: seq<string>, sep: string, bound: nat)
    requires forall k :: 0 <= k < |items| ==> |items[k]| <= bound
    ensures |Join(items, sep)| <= |items| * (bound + |sep|)
  {
    if |items| > 1 {
      JoinLength(items[..|items| - 1], sep, bound);
      assert (|items| - 1) * (bound + |sep|) + (bound + |sep|) == |items| * (bound + |sep|);
    }
  }

  /** The fixed device ID is short enough for its 16-bit character count. */
  lemma DeviceIdFits()
    ensures |DeviceIdText(DeviceIdFields)| < 0x1_0000
  {
    var entries := Entries(DeviceIdFields);
    assert forall k :: 0 <= k < |entries| ==> |entries[k]| <= 64;
    JoinLength(entries, ";", 64);
  }

  /** Every field, in order, appears as `K:V;`. */
  lemma DeviceIdTextTerminatesEveryEntry(fields: seq<(string, string)>)
    requires |fields| > 0
    ensures DeviceIdText(fields)
      == Concat(seq(|fields|, k requires 0 <= k < |fields| => fields[k].0 + ":" + fields[k].1 + ";"))
  {
    var entries := Entries(fields);
    JoinThenTerminate(entries, ";");
    assert seq(|entries|, k requires 0 <= k < |entries| => entries[k] + ";")
      == seq(|fields|, k requires 0 <= k < |fields| => fields[k].0 + ":" + fields[k].1 + ";");
  }

  /**
   * The GET_DEVICE_ID reply: the character count packed big-endian
   * (struct.error beyond 16 bits) and the UTF-8 encoded string.
   */
  function DeviceIdResponse(fields: seq<(string, string)>): (r: Res<Bytes>)
    ensures r.Ok? <==> |DeviceIdText(fields)| < 0x1_0000
    ensures r.Ok? ==> r.value == Be16(|DeviceIdText(fields)|) + Utf8(DeviceIdText(fields))
  {
    var text := DeviceIdText(fields);
    if |text| >= 0x1_0000 then Raise(StructError) else Ok(Be16(|text|) + Utf8(text))
  }

  /**
   * For an ASCII device ID the two-byte prefix gives, big-endian, exactly
   * the number of bytes that follow it.
   */
  lemma {:induction false} DeviceIdLengthPrefix(fields: seq<(string, string)>)
    requires IsAscii(DeviceIdText(fields)) && |DeviceIdText(fields)| < 0x1_0000
    ensures var r := DeviceIdResponse(fields).value;
      |r| >= 2 && Be16Value(r[..2]) == |r| - 2 && r[2..] == Ascii(DeviceIdText(fields))
  {
    var text := DeviceIdText(fields);
    var r := DeviceIdResponse(fields).value;
    Utf8OfAscii(text);
    assert r[..2] == Be16(|text|);
    assert r[2..] == Utf8(text);
  }

  /**
   * The prefix counts characters, not encoded bytes: a field with a
   * non-ASCII character makes the prefix smaller than the payload.
   */
  lemma {:induction false} DeviceIdPrefixCountsCharacters(fields: seq<(string, string)>, k: nat)
    requires k < |DeviceIdText(fields)| && DeviceIdText(fields)[k] as int >= 0x80 && |DeviceIdText(fields)| < 0x1_0000
    ensures var r := DeviceIdResponse(fields).value; Be16Value(r[..2]) < |r| - 2
  {
    var text := DeviceIdText(fields);
    var r := DeviceIdResponse(fields).value;
    Utf8LongerThanNonAscii(text, k);
    assert r[..2] == Be16(|text|);
  }

  /**
   * `handle_all` for GET_DEVICE_ID: a mutation is used whenever it is not
   * None, even when it is empty; otherwise the device ID is built.
   */
  function ClassReply(mutation: string -> Option<Bytes>): (r: Res<Bytes>)
    ensures mutation(DeviceIdStage).Some? ==> r == Ok(mutation(DeviceIdStage).value)
    ensures mutation(DeviceIdStage).None? ==> r == DeviceIdResponse(DeviceIdFields)
    ensures r.Ok?
  {
    DeviceIdFits();
    match mutation(DeviceIdStage)
    case Some(m) => Ok(m)
    case None => DeviceIdResponse(DeviceIdFields)
  }

  // ---------------------------------------------------------------------
  // Interfaces

  /**
   * USBPrinterInterface: interface 0 has bulk OUT endpoint 1 and IN 0x81,
   * interface 1 has OUT 0x0b and IN 0x8b; the OUT endpoint delivers print
   * data. Any other number leaves `endpoints` unbound.
   */
  function NewPrinterInterface(number: byte, iclass: byte, subclass: byte, protocol: byte): (r: Res<Interface>)
    ensures r.Ok? <==> number == 0 || number == 1
    ensures r.Raise? ==> r.exc == UnboundLocalError
    ensures r.Ok? ==> (|r.value.endpoints| == 2
      && r.value.endpoints[0].number == (if number == 0 then 1 else 0x0b)
      && r.value.endpoints[1].number == (if number == 0 then 0x81 else 0x8b)
      && r.value.endpoints[0].handler == Some(PrinterData) && r.value.endpoints[1].handler.None?
      && r.value.deviceClass == Some(PrinterClass))
  {
    // direction 0 = OUT, 1 = IN; transfer type 2 = bulk
    var out := Endpoint(if number == 0 then 1 else 0x0b, 0, 2, 0, 0, 16384, 0xff, Some(PrinterData), None);
    var inEp := Endpoint(if number == 0 then 0x81 else 0x8b, 1, 2, 0, 0, 16384, 0, None, None);
    if number != 0 && number != 1 then Raise(UnboundLocalError)
    else Ok(NewInterface(number, 0, iclass, subclass, protocol, 0, [out, inEp], map[], []).(deviceClass := Some(PrinterClass)))
  }

  // ---------------------------------------------------------------------
  // Print data

  const EndOfJob: Bytes := [0x45, 0x4F, 0x4A, 0x0A]   // "EOJ\n"

  /** The end-of-job marker starts at position `k` of the packet. */
  predicate MarkerAt(data: Bytes, k: nat)
  {
    k + 4 <= |data| && data[k..k + 4] == EndOfJob
  }

  /** The packet, read as Latin-1 text, contains "EOJ\n". */
  predicate ContainsEndOfJob(data: Bytes)
  {
    exists k: nat :: k < |data| && MarkerAt(data, k)
  }

  /** The state of a printer interface while it receives a job. */
  class PrinterInterface {
    const app: App
    /** True once any print data has arrived. */
    var writing: bool
    /** The PCL file's contents: every received packet, appended. */
    var file: Bytes

    constructor (app: App)
      ensures this.app == app && !writing && file == []
    {
      this.app := app;
      writing := false;
      file := [];
    }

    /** handle_data_available: append to the file; a packet holding the end-of-job marker stops the emulation. */
    method HandleDataAvailable(data: Bytes)
      modifies this, app
      ensures writing && file == old(file) + data
      ensures app.log == old(app.log) && app.stop == (old(app.stop) || ContainsEndOfJob(data))
    {
      writing := true;
      file := file + data;
      if exists k: nat :: k < |data| && MarkerAt(data, k) {
        app.Stop();
      }
    }
  }

  /**
   * The marker is looked for in each packet on its own: a job whose marker
   * straddles two packets never stops the emulation, although the file
   * holds the marker.
   */
  lemma {:induction false} EndOfJobIsPerPacket()
    ensures !ContainsEndOfJob([0x45, 0x4F]) && !ContainsEndOfJob([0x4A, 0x0A])
    ensures ContainsEndOfJob([0x45, 0x4F] + [0x4A, 0x0A])
  {
    assert MarkerAt([0x45, 0x4F] + [0x4A, 0x0A], 0);
  }
}
