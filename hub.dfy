/**
 * The hub persona: the hub class descriptor its interface serves, and the
 * class handlers that are never installed.
 */
module Hub {
  import opened Common
  import opened Descriptors
  import Mutation

  const HubDescriptorType := 0x29

  /** get_hub_descriptor: `pack('<BBBHBBBB', 9, 0x29, 4, 0xe000, 0x32, 0x64, 0, 0xff)`. */
  function HubDescriptor(): (r: Bytes)
    ensures |r| == 9 && r[0] == |r| && r[1] == HubDescriptorType
    ensures r[2] == 4 && Le16Value(r[3..5]) == 0xe000
    ensures r[5..] == [0x32, 0x64, 0x00, 0xff]
  {
    var r := [9, HubDescriptorType, 4] + Le16(0xe000) + [0x32, 0x64, 0, 0xff];
    assert r[3..5] == Le16(0xe000);
    Le16RoundTrip(0xe000);
    r
  }

  /** The interface's table entry for type 0x29, under the `hub_descriptor` mutation stage. */
  function HubDescriptorReply(source: Mutation.Source): (r: Res<Bytes>)
    ensures Mutation.Truthy(source("hub_descriptor")) ==> r == Ok(source("hub_descriptor").value)
    ensures !Mutation.Truthy(source("hub_descriptor")) ==> r == Ok(HubDescriptor())
  {
    Mutation.MutableRes(source, "hub_descriptor", Ok(HubDescriptor()))
  }

  /** USBHubInterface: interface 0 of class 9, with interrupt IN endpoint 2 asking for data to send. */
  function NewHubInterface(source: Mutation.Source): (i: Interface)
    ensures i.number == 0 && i.iclass == 9 && i.deviceClass == Some(HubClass)
    ensures HubDescriptorType in i.table && i.table[HubDescriptorType] == Computed(HubDescriptorReply(source))
    ensures |i.endpoints| == 1 && i.endpoints[0].number == 2 && i.endpoints[0].transferType == 3
      && i.endpoints[0].handler == Some(HubBuffer)
  {
    NewInterface(0, 0, 9, 0, 0, 0, [Endpoint(2, 1, 3, 0, 0, 16384, 0x0c, Some(HubBuffer), None)],
      map[HubDescriptorType := Computed(HubDescriptorReply(source))], []).(deviceClass := Some(HubClass))
  }

  /** The codes `setup_local_handlers` would install: GET_HUB_STATUS and SET_PORT_FEATURE. */
  const LocalCodes: set<int> := {0x00, 0x03}

  function LocalReply(code: int): (r: Bytes)
    requires code in LocalCodes
    ensures code == 0x00 ==> r == [0x61, 0x61, 0x61, 0x61]
    ensures code == 0x03 ==> r == []
  {
    if code == 0x00 then [0x61, 0x61, 0x61, 0x61] else []
  }

  /** USBClass never calls `setup_local_handlers`, so the hub class answers no request. */
  function ClassCodes(): (codes: set<int>)
    ensures forall code :: code in LocalCodes ==> code !in codes
  {
    {}
  }
}
