/**
 * The CDC ACM persona: two class requests answered from a stage/default
 * table, and a control interface and a data interface with different
 * endpoints and class-specific descriptors.
 */
module Cdc {
  import opened Common
  import opened Transport
  import opened Descriptors

  const SetControlLineState := 0x22
  const SetLineCoding := 0x20

  /** `local_responses`: the mutation stage and default reply for each class request. */
  function LocalResponses(): (t: map<int, (string, Bytes)>)
    ensures t.Keys == {SetControlLineState, SetLineCoding}
    ensures forall code :: code in t ==> t[code].1 == []
  {
    map[SetControlLineState := ("cdc_set_control_line_state", []),
        SetLineCoding := ("cdc_set_line_coding", [])]
  }

  /** `request_handlers`: one handler (handle_all) per key of the response table. */
  function ClassCodes(): set<int>
  {
    LocalResponses().Keys
  }

  /**
   * handle_all: the stage's mutation whenever it is not None (an empty one
   * included), else the default reply, sent on endpoint 0, and then
   * `supported()`.
   */
  function ClassOutcome(session: Session, code: int): (o: Outcome)
    requires code in ClassCodes()
    ensures o.supported && o.raised.None? && |o.events| == 1 && o.events[0].Send? && o.events[0].endpoint == 0
    ensures session.mutation(LocalResponses()[code].0).Some? ==> o.events[0].data == session.mutation(LocalResponses()[code].0).value
    ensures session.mutation(LocalResponses()[code].0).None? ==> o.events[0].data == []
  {
    var (stage, default) := LocalResponses()[code];
    var reply := match session.mutation(stage) case Some(m) => m case None => default;
    ReplyAndSupported(reply)
  }

  /** The class-specific functional descriptors of the control interface: header, call management, ACM, union. */
  const ControlCsConfigs: seq<seq<int>> := [[0x00, 0x1001], [0x01, 0x03, 0x01], [0x02, 0x06], [0x06, 0x00, 0x01]]

  /**
   * USBCDCInterface: interface 0 gets the interrupt IN endpoint 0x83 and the
   * four functional descriptors; interface 1 gets bulk IN 0x81 and bulk OUT
   * 0x02 (which receives data) and none. Any other number leaves the locals
   * unbound.
   */
  function NewCdcInterface(number: byte, iclass: byte, subclass: byte, protocol: byte): (r: Res<Interface>)
    ensures r.Ok? <==> number == 0 || number == 1
    ensures r.Raise? ==> r.exc == UnboundLocalError
    ensures r.Ok? && number == 0 ==> (|r.value.endpoints| == 1 && r.value.endpoints[0].number == 0x83
      && r.value.endpoints[0].transferType == 3 && |r.value.csInterfaces| == 4
      && (forall k :: 0 <= k < 4 ==> r.value.csInterfaces[k] == CsInterface(ControlCsConfigs[k], 2, 2, 1)))
    ensures r.Ok? && number == 1 ==> (|r.value.endpoints| == 2 && r.value.csInterfaces == []
      && r.value.endpoints[0].number == 0x81 && r.value.endpoints[1].number == 0x02
      && r.value.endpoints[1].handler == Some(CdcData))
    ensures r.Ok? ==> r.value.deviceClass == Some(CdcClass) && r.value.number == number
  {
    var control := [Endpoint(0x83, 1, 3, 0, 0, 0x2000, 0xff, None, None)];
    var data := [Endpoint(0x81, 1, 2, 0, 0, 0x2000, 0, None, None), Endpoint(0x02, 0, 2, 0, 0, 0x2000, 0, Some(CdcData), None)];
    var cs := seq(4, k requires 0 <= k < 4 => CsInterface(ControlCsConfigs[k], 2, 2, 1));
    if number == 0 then Ok(NewInterface(number, 0, iclass, subclass, protocol, 0, control, map[], cs).(deviceClass := Some(CdcClass)))
    else if number == 1 then Ok(NewInterface(number, 0, iclass, subclass, protocol, 0, data, map[], []).(deviceClass := Some(CdcClass)))
    else Raise(UnboundLocalError)
  }
}
