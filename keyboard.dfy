/**
 * The keyboard persona: its HID class and report descriptors, the key
 * queue typed out one key per free interrupt buffer, and the substitution
 * of placeholder ids.
 */
module Keyboard {
  import opened Common
  import opened Transport
  import opened Descriptors
  import Mutation

  // ---------------------------------------------------------------------
  // This file's own `mutable` decorator

  /**
   * The decorator as this file defines it: announcing a truthy mutation
   * goes through `self.logger`, which no interface has, so a mutation is
   * never returned; without one the producer's own value stands.
   */
  function MutableAsWritten(source: Mutation.Source, stage: string, computed: Res<Bytes>): (r: Res<Bytes>)
    ensures Mutation.Truthy(source(stage)) ==> r == Raise(AttributeError)
    ensures !Mutation.Truthy(source(stage)) ==> r == computed
  {
    if Mutation.Truthy(source(stage)) then Raise(AttributeError) else computed
  }

  /** Any truthy mutation of a keyboard stage raises instead of being delivered. */
  lemma AsWrittenNeverDeliversMutation(source: Mutation.Source, stage: string, computed: Res<Bytes>)
    requires Mutation.Truthy(source(stage))
    ensures MutableAsWritten(source, stage, computed) != Mutation.MutableRes(source, stage, computed)
  {
  }

  // ---------------------------------------------------------------------
  // Class requests

  const GetReport := 0x01
  const SetReport := 0x09
  const SetIdle := 0x0a

  /** USBKeyboardClass.setup_request_handlers. */
  function ClassCodes(): set<int>
  {
    {GetReport, SetReport, SetIdle}
  }

  /** Each of the three handlers sends a zero-length reply on endpoint 0 and does not call `supported()`. */
  function ClassOutcome(code: int): (o: Outcome)
    requires code in ClassCodes()
    ensures o.events == [Send(0, [])] && !o.supported && o.raised.None?
  {
    Outcome([Send(0, [])], false, None)
  }

  // ---------------------------------------------------------------------
  // Descriptors

  /** get_report_descriptor's items, concatenated. */
  const ReportDescriptor: Bytes := [
    0x05, 0x01, 0x09, 0x06, 0xA1, 0x01, 0x05, 0x07, 0x19, 0xE0, 0x29, 0xE7,
    0x15, 0x00, 0x25, 0x01, 0x75, 0x01, 0x95, 0x08, 0x81, 0x02, 0x95, 0x01,
    0x75, 0x08, 0x81, 0x01, 0x19, 0x00, 0x29, 0x65, 0x15, 0x00, 0x25, 0x65,
    0x75, 0x08, 0x95, 0x01, 0x81, 0x00, 0xc0]

  /** The report descriptor under its mutation stage; a report descriptor ends its collection. */
  function ReportDescriptorReply(source: Mutation.Source): (r: Bytes)
    ensures Mutation.Truthy(source("hid_report_descriptor")) ==> r == source("hid_report_descriptor").value
    ensures !Mutation.Truthy(source("hid_report_descriptor")) ==> |r| == 43 && r[|r| - 1] == 0xc0
  {
    Mutation.MutableRes(source, "hid_report_descriptor", Ok(ReportDescriptor)).value
  }

  /** The HID descriptor after its length byte: type, bcdHID 1.10, country, one descriptor of type report, its length truncated to 16 bits. */
  function HidBody(reportLength: nat): (b: Bytes)
    ensures |b| == 8 && b[0] == 0x21 && b[5] == 0x22
    ensures Le16Value(b[6..]) == reportLength % 0x1_0000
  {
    var b := [0x21, 0x10, 0x01, 0x00, 0x01, 0x22, reportLength % 0x100, (reportLength / 0x100) % 0x100];
    assert b[6..] == [reportLength % 0x100, (reportLength / 0x100) % 0x100];
    b
  }

  /**
   * get_hid_descriptor: a test case naming "HID_bLength" supplies the length
   * field; otherwise it is the true length. With no test case at all the
   * lookup `testcase[1]` raises.
   */
  function HidDescriptorBody(session: Session): (r: Res<Bytes>)
    ensures session.testcase.None? <==> r == Raise(TypeError)
    ensures r.Ok? ==> |r.value| >= 8 && r.value[|r.value| - 8..] == HidBody(|ReportDescriptorReply(session.mutation)|)
  {
    var body := HidBody(|ReportDescriptorReply(session.mutation)|);
    match session.testcase
    case None => Raise(TypeError)
    case Some(tc) => if tc.field == "HID_bLength" then Ok(tc.value + body) else Ok([|body| + 1] + body)
  }

  /**
   * The HID descriptor under its mutation stage, with the corrected
   * decorator: a truthy mutation is the reply verbatim, even with no test
   * case; otherwise the computed descriptor or its TypeError.
   */
  function HidDescriptor(session: Session): (r: Res<Bytes>)
    ensures Mutation.Truthy(session.mutation("hid_descriptor")) ==> r == Ok(session.mutation("hid_descriptor").value)
    ensures !Mutation.Truthy(session.mutation("hid_descriptor")) ==> (r.Raise? <==> session.testcase.None?)
    ensures !Mutation.Truthy(session.mutation("hid_descriptor")) && r.Ok? ==>
      |r.value| >= 8 && r.value[|r.value| - 8..] == HidBody(|ReportDescriptorReply(session.mutation)|)
  {
    Mutation.MutableRes(session.mutation, "hid_descriptor", HidDescriptorBody(session))
  }

  /** Without an override the descriptor is nine bytes, the first holding the length and the last two the report length. */
  lemma {:induction false} HidDescriptorLayout(session: Session)
    requires session.testcase.Some? && session.testcase.value.field != "HID_bLength"
    requires !Mutation.Truthy(session.mutation("hid_descriptor"))
    ensures var r := HidDescriptor(session);
      r.Ok? && |r.value| == 9 && r.value[0] == 9 && r.value[1] == 0x21
      && Le16Value(r.value[7..]) == |ReportDescriptorReply(session.mutation)| % 0x1_0000
  {
    var body := HidBody(|ReportDescriptorReply(session.mutation)|);
    var r := HidDescriptor(session).value;
    assert r == [9] + body;
    assert r[7..] == body[6..];
  }

  /** An override replaces only the length field: the rest is the computed descriptor. */
  lemma {:induction false} HidOverrideReplacesLengthOnly(session: Session)
    requires session.testcase.Some? && session.testcase.value.field == "HID_bLength"
    requires !Mutation.Truthy(session.mutation("hid_descriptor"))
    ensures var r := HidDescriptor(session); var v := session.testcase.value.value;
      r.Ok? && |r.value| == |v| + 8 && r.value[..|v|] == v && r.value[|v|..] == HidBody(|ReportDescriptorReply(session.mutation)|)
  {
    var v := session.testcase.value.value;
    var body := HidBody(|ReportDescriptorReply(session.mutation)|);
    assert HidDescriptor(session).value == v + body;
  }

  /** USBKeyboardInterface: interface 0 of class 3 serving the HID and report descriptors, with interrupt IN endpoint 3. */
  function NewKeyboardInterface(session: Session): (i: Interface)
    ensures i.number == 0 && i.iclass == 3 && i.deviceClass == Some(KeyboardClass)
    ensures 0x21 in i.table && i.table[0x21] == Computed(HidDescriptor(session))
    ensures 0x22 in i.table && i.table[0x22] == Computed(Ok(ReportDescriptorReply(session.mutation)))
    ensures |i.endpoints| == 1 && i.endpoints[0].number == 3 && i.endpoints[0].handler == Some(KeyboardBuffer)
  {
    NewInterface(0, 0, 3, 0, 0, 0, [Endpoint(3, 1, 3, 0, 0, 16384, 10, Some(KeyboardBuffer), None)],
      map[0x21 := Computed(HidDescriptor(session)), 0x22 := Computed(Ok(ReportDescriptorReply(session.mutation)))], [])
    .(deviceClass := Some(KeyboardClass))
  }

  // ---------------------------------------------------------------------
  // Typing

  /** Ten empty keys, then the usage codes the keyboard types. */
  const InitialKeys: seq<byte> := [0, 0, 0, 0, 0, 0, 0, 0, 0, 0, 0x0f, 0x00, 0x16, 0x00, 0x28, 0x00]

  /** The boot-protocol report that types one key. */
  function KeyReport(key: byte): (r: Bytes)
    ensures |r| == 3 && r[2] == key && r[..2] == [0, 0]
  {
    [0, 0, key]
  }

  /** The reports sent for a queue of keys, in the order they are sent. */
  function Typed(keys: seq<byte>): (events: seq<Event>)
    ensures |events| == |keys|
  {
    if keys == [] then [] else [Send(3, KeyReport(keys[0]))] + Typed(keys[1..])
  }

  class KeyboardInterface {
    const app: App
    /** The keys still to type, next first. */
    var keys: seq<byte>

    constructor (app: App)
      ensures this.app == app && keys == InitialKeys
    {
      this.app := app;
      keys := InitialKeys;
    }

    /**
     * handle_buffer_available: type the next key on endpoint 3; with the
     * queue empty, stop the emulation in mode 1 and send nothing.
     */
    method HandleBufferAvailable()
      modifies this, app
      ensures old(keys) == [] ==> keys == [] && app.log == old(app.log) && app.stop == (old(app.stop) || app.session.mode == 1)
      ensures old(keys) != [] ==> (keys == old(keys)[1..] && app.log == old(app.log) + Typed(old(keys)[..1])
        && app.stop == old(app.stop))
    {
      if keys == [] {
        if app.session.mode == 1 {
          app.Stop();
        }
        return;
      }
      var letter := keys[0];
      keys := keys[1..];
      app.SendOnEndpoint(3, KeyReport(letter));
    }
  }

  /** Report `k` is the key at position `k`. */
  lemma {:induction false} TypedReports(keys: seq<byte>, k: nat)
    requires k < |keys|
    ensures Typed(keys)[k] == Send(3, KeyReport(keys[k]))
  {
    if k > 0 {
      TypedReports(keys[1..], k - 1);
    }
  }

  /** Typing a queue key by key sends the same reports as typing its front and then its back. */
  lemma {:induction false} TypedSplits(front: seq<byte>, back: seq<byte>)
    ensures Typed(front + back) == Typed(front) + Typed(back)
  {
    if front != [] {
      TypedSplits(front[1..], back);
      assert (front + back)[1..] == front[1..] + back;
    } else {
      assert front + back == back;
    }
  }

  /**
   * Keys go out first in, first out: after the calls that sent reports so
   * far, the log holds the reports of the keys typed, and the queue holds
   * the rest.
   */
  lemma {:induction false} TypingIsFifo(queue: seq<byte>, n: nat)
    requires n < |queue|
    ensures Typed(queue[..n]) + Typed(queue[n..n + 1]) == Typed(queue[..n + 1])
    ensures queue[n..][1..] == queue[n + 1..]
  {
    TypedSplits(queue[..n], queue[n..n + 1]);
    assert queue[..n] + queue[n..n + 1] == queue[..n + 1];
  }

  // ---------------------------------------------------------------------
  // Device

  /** USBKeyboardDevice: the placeholder ids become a Dell keyboard's ids; other ids are kept. */
  function SubstituteIds(vid: u16, pid: u16, rev: u16): (ids: (u16, u16, u16))
    ensures ids.0 == (if vid == 0x1111 then 0x413c else vid)
    ensures ids.1 == (if pid == 0x2222 then 0x2107 else pid)
    ensures ids.2 == (if rev == 0x3333 then 0x0178 else rev)
  {
    (if vid == 0x1111 then 0x413c else vid, if pid == 0x2222 then 0x2107 else pid, if rev == 0x3333 then 0x0178 else rev)
  }
}
