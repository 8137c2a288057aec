/**
 * USBDevice: the string table, the standard descriptors, the request
 * router (recipient, then type, then the entity's request table) and the
 * device state that SET_ADDRESS and SET_CONFIGURATION drive (section 9.4 of
 * the USB 2.0 specification).
 */
module Device {
  import opened Common
  import opened Transport
  import opened Setup
  import opened Descriptors
  import Mutation
  import Requests
  import Hub

  /** The device states the code uses (section 9.1.1 of the USB 2.0 specification). */
  datatype UsbState = Detached | Powered | AddressState | Configured

  // ---------------------------------------------------------------------
  // String table

  /** `list.index`: the first position holding the string, if any. */
  function IndexOf(strings: seq<string>, s: string): (r: Option<nat>)
    ensures r.Some? ==> r.value < |strings| && strings[r.value] == s && forall k :: 0 <= k < r.value ==> strings[k] != s
    ensures r.None? ==> forall k :: 0 <= k < |strings| ==> strings[k] != s
  {
    if strings == [] then None
    else if strings[0] == s then Some(0)
    else match IndexOf(strings[1..], s)
      case None => None
      case Some(k) => Some(k + 1)
  }

  /** get_string_id as written: a present string gives its 0-based position, a new one is appended and gets the new length. */
  function StringIdAsWritten(strings: seq<string>, s: string): (r: (int, seq<string>))
  {
    match IndexOf(strings, s)
    case Some(k) => (k, strings)
    case None => (|strings| + 1, strings + [s])
  }

  /**
   * get_string_id with the 1-based numbering of string descriptors kept for
   * present strings too: the id names the string, and the table only grows
   * at its end.
   */
  function StringId(strings: seq<string>, s: string): (r: (nat, seq<string>))
    ensures 1 <= r.0 <= |r.1| && r.1[r.0 - 1] == s
    ensures |strings| <= |r.1| <= |strings| + 1 && r.1[..|strings|] == strings
    ensures (exists k :: 0 <= k < |strings| && strings[k] == s) <==> r.1 == strings
  {
    match IndexOf(strings, s)
    case Some(k) => (k + 1, strings)
    case None => (|strings| + 1, strings + [s])
  }

  lemma StringIdKeeps(strings: seq<string>, s: string, k: nat)
    requires k < |strings|
    ensures StringId(strings, s).1[k] == strings[k]
  {
    assert StringId(strings, s).1[..|strings|][k] == strings[k];
  }

  /**
   * The constructor's loop: each configuration gets the id of its name,
   * registered in order; the table only grows at its end.
   */
  method NameConfigurations(strings: seq<string>, configurations: seq<Configuration>)
    returns (table: seq<string>, named: seq<Configuration>)
    ensures |named| == |configurations|
    ensures forall k :: 0 <= k < |named| ==>
      named[k] == configurations[k].(stringIndex := named[k].stringIndex)
      && 1 <= named[k].stringIndex <= |table| && table[named[k].stringIndex - 1] == named[k].name
    ensures |strings| <= |table| && table[..|strings|] == strings
  {
    table, named := strings, configurations;
    var k := 0;
    while k < |named|
      invariant 0 <= k <= |named| == |configurations|
      invariant forall j :: 0 <= j < |named| ==> named[j] == configurations[j].(stringIndex := named[j].stringIndex)
      invariant forall j :: 0 <= j < k ==>
        1 <= named[j].stringIndex <= |table| && table[named[j].stringIndex - 1] == named[j].name
      invariant |strings| <= |table| && table[..|strings|] == strings
    {
      var (csi, next) := StringId(table, named[k].name);
      assert forall j :: 0 <= j < |table| ==> next[j] == next[..|table|][j] == table[j];
      table := next;
      named := named[k := named[k].(stringIndex := csi)];
      k := k + 1;
    }
  }

  /** As written, asking again for a string already in the table gives the id of the string before it. */
  lemma AsWrittenStringIdOffByOne()
    ensures var t := ["Vendor", "Product"];
      StringIdAsWritten(t, "Product") == (1, t) && t[1 - 1] != "Product" && StringId(t, "Product") == (2, t)
  {
    var t := ["Vendor", "Product"];
    assert t[0] != "Product";
    assert t[1..] == ["Product"];
  }

  // ---------------------------------------------------------------------
  // Standard descriptors

  /** The device descriptor's fixed parameters, as a persona passes them. */
  datatype Identity = Identity(
    deviceClass: int, deviceSubclass: int, protocol: int, maxPacketSize0: int,
    vendorId: nat, productId: nat, deviceRev: nat)

  const UsbSpecVersion := 0x0002

  /** Low byte, high byte; the source's shifts and masks. */
  function LowHigh(x: nat): (r: seq<int>)
    ensures |r| == 2 && 0 <= r[0] < 0x100 && 0 <= r[1] < 0x100 && r[0] + 0x100 * r[1] == x % 0x1_0000
  {
    [x % 0x100, (x / 0x100) % 0x100]
  }

  /** get_descriptor (type 1): eighteen bytes; bytearray() rejects a field outside 0..255 with ValueError. */
  function DeviceDescriptorBody(id: Identity, manufacturer: int, product: int, serial: int, configurations: nat): (r: Res<Bytes>)
    ensures r.Raise? ==> r.exc == ValueError
    ensures r.Ok? ==> (|r.value| == 18 && r.value[0] == 18 && r.value[1] == 1
      && r.value[2] == UsbSpecVersion / 0x100 && r.value[3] == UsbSpecVersion % 0x100
      && r.value[8] as int + 0x100 * r.value[9] as int == id.vendorId % 0x1_0000
      && r.value[10] as int + 0x100 * r.value[11] as int == id.productId % 0x1_0000
      && r.value[12] as int + 0x100 * r.value[13] as int == id.deviceRev % 0x1_0000
      && r.value[14..17] == [manufacturer, product, serial] && r.value[17] == configurations)
    ensures (0 <= id.deviceClass < 0x100 && 0 <= id.deviceSubclass < 0x100 && 0 <= id.protocol < 0x100
      && 0 <= id.maxPacketSize0 < 0x100 && 0 <= manufacturer < 0x100 && 0 <= product < 0x100
      && 0 <= serial < 0x100 && configurations < 0x100) ==> r.Ok?
  {
    var v, p, d := LowHigh(id.vendorId), LowHigh(id.productId), LowHigh(id.deviceRev);
    ByteList([18, 1, (UsbSpecVersion / 0x100) % 0x100, UsbSpecVersion % 0x100,
      id.deviceClass, id.deviceSubclass, id.protocol, id.maxPacketSize0,
      v[0], v[1], p[0], p[1], d[0], d[1], manufacturer, product, serial, configurations])
  }

  /** get_device_qualifier_descriptor (type 6): ten bytes, closing with the configuration count and a reserved zero. */
  function QualifierBody(id: Identity, configurations: nat): (r: Res<Bytes>)
    ensures r.Raise? ==> r.exc == ValueError
    ensures r.Ok? ==> (|r.value| == 10 && r.value[0] == 10 && r.value[1] == 6
      && r.value[4..8] == [id.deviceClass, id.deviceSubclass, id.protocol, id.maxPacketSize0]
      && r.value[8] == configurations && r.value[9] == 0)
  {
    ByteList([10, 6, (UsbSpecVersion / 0x100) % 0x100, UsbSpecVersion % 0x100,
      id.deviceClass, id.deviceSubclass, id.protocol, id.maxPacketSize0, configurations, 0])
  }

  /** get_string0_descriptor: the language table, US English (0x0409). */
  const String0: Bytes := [4, 3, 9, 4]

  /**
   * get_string_descriptor: the string `num` names, or `strings[0]` when there
   * is none, as UTF-16 without its byte-order mark, after a length byte and
   * the type 3.
   */
  function StringDescriptorBody(strings: seq<string>, num: nat): (r: Res<Bytes>)
    requires num >= 1
    ensures |strings| == 0 ==> r == Raise(IndexError)
  {
    if |strings| == 0 then Raise(IndexError)
    else
      var s := if num - 1 < |strings| then strings[num - 1] else strings[0];
      var u := Utf16(s)[2..];
      if |u| + 2 >= 0x100 then Raise(ValueError) else Ok([|u| + 2, 3] + u)
  }

  /** A string descriptor is its own length, type 3, and the code units of the string the index names (else of the first). */
  lemma {:induction false} StringDescriptorLayout(strings: seq<string>, num: nat)
    requires num >= 1 && |strings| > 0
    requires StringDescriptorBody(strings, num).Ok?
    ensures var r := StringDescriptorBody(strings, num).value;
      var s := if num <= |strings| then strings[num - 1] else strings[0];
      |r| >= 2 && r[0] == |r| && r[1] == 3 && r[2..] == Le16Units(Utf16Units(s))
  {
    var s := if num <= |strings| then strings[num - 1] else strings[0];
    assert Utf16(s)[2..] == Le16Units(Utf16Units(s));
  }

  /** The id the corrected table gives a string selects that string's descriptor. */
  lemma StringIdSelectsString(strings: seq<string>, s: string)
    requires StringDescriptorBody(StringId(strings, s).1, StringId(strings, s).0).Ok?
    ensures var (id, t) := StringId(strings, s);
      StringDescriptorBody(t, id).value[2..] == Le16Units(Utf16Units(s))
  {
    var (id, t) := StringId(strings, s);
    StringDescriptorLayout(t, id);
  }

  /** handle_get_hub_descriptor_request, written out byte by byte. */
  const DeviceHubDescriptor: Bytes := [9, 0x29, 4, 0xe000 % 0x100, (0xe000 / 0x100) % 0x100, 0x32, 0x64, 0, 0xff]

  /** The device's hub descriptor is byte for byte the hub interface's. */
  lemma {:induction false} HubDescriptorsAgree()
    ensures DeviceHubDescriptor == Hub.HubDescriptor()
  {
    assert Le16(0xe000) == [0x00, 0xe0];
  }

  // ---------------------------------------------------------------------
  // What a request finds

  /** The parts of a device fixed once it is built. */
  datatype Assembly = Assembly(
    identity: Identity, configurations: seq<Configuration>, strings: seq<string>,
    manufacturerId: int, productId: int, serialId: int,
    vendor: Option<VendorHandler>,  // `device_vendor`; None when the persona sets none
    descriptors: map<int, Bytes>,   // the constructor's `descriptors` argument
    ext: Externals)

  /** The parts the standard requests change. */
  datatype Snapshot = Snapshot(
    state: UsbState, address: int, configNum: int,
    configuration: Option<nat>,               // index into the configurations; None before SET_CONFIGURATION
    endpoints: Option<map<int, Endpoint>>,    // `endpoints`, which exists only after SET_CONFIGURATION
    trigger: bool)                            // `supported_device_class_trigger`

  predicate WellFormed(asm: Assembly, snap: Snapshot)
  {
    (snap.configuration.Some? ==> snap.configuration.value < |asm.configurations| && snap.endpoints.Some?)
    && (snap.state == Configured ==> snap.configuration.Some?)
  }

  /** get_configuration_descriptor: the indexed configuration, configuration 0 for an index past the end. */
  function ConfigurationFor(configurations: seq<Configuration>, num: nat): (r: Res<Configuration>)
    ensures num < |configurations| ==> r == Ok(configurations[num])
    ensures num >= |configurations| > 0 ==> r == Ok(configurations[0])
    ensures |configurations| == 0 ==> r == Raise(IndexError)
  {
    if num < |configurations| then Ok(configurations[num])
    else if |configurations| > 0 then Ok(configurations[0])
    else Raise(IndexError)
  }

  /** The device's descriptor table: five built-in types over the persona's own entries; None for a type it lacks. */
  function DeviceDescriptorFor(asm: Assembly, source: Mutation.Source, dtype: int, dindex: nat): (r: Res<Option<Bytes>>)
    ensures r.Ok? && r.value.None? <==> dtype !in {1, 2, 3, 6, 0x29} && dtype !in asm.descriptors
  {
    var count := |asm.configurations|;
    if dtype == 1 then
      Lift(Mutation.MutableRes(source, "device_descriptor",
        DeviceDescriptorBody(asm.identity, asm.manufacturerId, asm.productId, asm.serialId, count)))
    else if dtype == 2 then
      match ConfigurationFor(asm.configurations, dindex)
      case Raise(x) => Raise(x)
      case Ok(c) => Lift(ConfigurationDescriptorSpec(asm.ext, source, c))
    else if dtype == 3 then
      if dindex == 0 then Lift(Mutation.MutableRes(source, "string_descriptor_zero", Ok(String0)))
      else Lift(Mutation.MutableRes(source, "string_descriptor", StringDescriptorBody(asm.strings, dindex)))
    else if dtype == 0x29 then Lift(Mutation.MutableRes(source, "hub_descriptor", Ok(DeviceHubDescriptor)))
    else if dtype == 6 then Lift(Mutation.MutableRes(source, "device_qualifier_descriptor", QualifierBody(asm.identity, count)))
    else if dtype in asm.descriptors then Ok(Some(asm.descriptors[dtype]))
    else Ok(None)
  }

  function Lift(r: Res<Bytes>): (o: Res<Option<Bytes>>)
    ensures o.Ok? <==> r.Ok?
  {
    if r.Raise? then Raise(r.exc) else Ok(Some(r.value))
  }

  /** A non-empty descriptor goes out cut to wLength; a missing or empty one stalls. */
  function Answer(r: Option<Bytes>, length: nat, stallWhenEmpty: bool): (o: Outcome)
    ensures r.Some? && r.value != [] ==> o.events == [Send(0, r.value[..Min(length, |r.value|)])]
    ensures (r.None? || r.value == []) ==> o.events == (if stallWhenEmpty then [StallEp0] else [])
    ensures !o.supported && o.raised.None?
  {
    if r.Some? && r.value != [] then Outcome([Send(0, r.value[..Min(length, |r.value|)])], false, None)
    else Outcome(if stallWhenEmpty then [StallEp0] else [], false, None)
  }

  /** handle_get_descriptor_request: the type is wValue's high byte, the index its low byte. */
  function GetDescriptorOutcome(asm: Assembly, source: Mutation.Source, req: DeviceRequest): (o: Outcome)
    requires req.length >= 0
  {
    match DeviceDescriptorFor(asm, source, req.value / 0x100, req.value % 0x100)
    case Raise(x) => Failed(x)
    case Ok(r) => Answer(r, req.length, true)
  }

  /** A configuration request is answered with the configuration's descriptor cut to wLength, configuration 0 standing in for an index past the end. */
  lemma {:induction false} ConfigurationRequestAnswered(asm: Assembly, source: Mutation.Source, req: DeviceRequest)
    requires req.value / 0x100 == 2 && |asm.configurations| > 0
    requires ConfigurationDescriptorSpec(asm.ext, source, ConfigurationFor(asm.configurations, req.value % 0x100).value).Ok?
    ensures var c := if req.value % 0x100 < |asm.configurations| then asm.configurations[req.value % 0x100] else asm.configurations[0];
      var d := ConfigurationDescriptorSpec(asm.ext, source, c).value;
      GetDescriptorOutcome(asm, source, req).events == [Send(0, d[..Min(req.length, |d|)])]
  {
    var c := ConfigurationFor(asm.configurations, req.value % 0x100).value;
    ConfigurationTotalLength(asm.ext, source, c);
  }

  /** USBInterface.handle_get_descriptor_request and handle_set_interface_request. */
  function InterfaceOutcome(ext: Externals, source: Mutation.Source, i: Interface, req: DeviceRequest): (o: Outcome)
    ensures req.request == 0x0b ==> o.events == [StallEp0]
    ensures req.request != 0x0b && req.value / 0x100 !in i.table ==> o.raised == Some(KeyError) && o.events == []
  {
    if req.request == 0x0b then Outcome([StallEp0], false, None)
    else
      var dtype := req.value / 0x100;
      if dtype !in i.table then Failed(KeyError)
      else
        var r := match i.table[dtype]
          case Blob(b) => Ok(b)
          case Computed(v) => v
          case InterfaceItself => InterfaceDescriptorSpec(ext, source, i);
        if r.Raise? then Failed(r.exc) else Answer(Some(r.value), req.length, false)
  }

  // ---------------------------------------------------------------------
  // Endpoint map

  /** The endpoints of the interfaces, in order. */
  function AllEndpoints(ifs: seq<Interface>): seq<Endpoint>
  {
    Concat(seq(|ifs|, k requires 0 <= k < |ifs| => ifs[k].endpoints))
  }

  /** Endpoints entered by number one after the other; a later one replaces an earlier one with the same number. */
  function MapOf(eps: seq<Endpoint>): (m: map<int, Endpoint>)
    ensures forall n :: n in m <==> exists k :: 0 <= k < |eps| && eps[k].number == n
  {
    if eps == [] then map[]
    else
      var m := MapOf(eps[..|eps| - 1])[eps[|eps| - 1].number := eps[|eps| - 1]];
      assert forall k :: 0 <= k < |eps| - 1 ==> eps[..|eps| - 1][k] == eps[k];
      m
  }

  /** The map holds, for every number, the last endpoint with that number. */
  lemma {:induction false} LastDuplicateWins(eps: seq<Endpoint>, k: nat)
    requires k < |eps| && forall j :: k < j < |eps| ==> eps[j].number != eps[k].number
    ensures eps[k].number in MapOf(eps) && MapOf(eps)[eps[k].number] == eps[k]
  {
    var n := |eps| - 1;
    if k < n {
      var front := eps[..n];
      assert forall j :: k < j < n ==> front[j] == eps[j];
      LastDuplicateWins(front, k);
    }
  }

  lemma MapOfAppend(eps: seq<Endpoint>, e: Endpoint)
    ensures MapOf(eps + [e]) == MapOf(eps)[e.number := e]
  {
    assert (eps + [e])[..|eps|] == eps;
  }

  lemma {:induction false} AllEndpointsGrows(ifs: seq<Interface>, i: nat)
    requires i < |ifs|
    ensures AllEndpoints(ifs[..i + 1]) == AllEndpoints(ifs[..i]) + ifs[i].endpoints
  {
    var longer := ifs[..i + 1];
    var parts := seq(|longer|, k requires 0 <= k < |longer| => longer[k].endpoints);
    assert parts[..i] == seq(i, k requires 0 <= k < i => ifs[..i][k].endpoints);
  }

  function EndpointMap(ifs: seq<Interface>): map<int, Endpoint>
  {
    MapOf(AllEndpoints(ifs))
  }

  // ---------------------------------------------------------------------
  // Router

  /** What a request is addressed to. */
  datatype Entity = DeviceEntity | InterfaceEntity(iface: Interface) | EndpointEntity(endpoint: Endpoint)

  /**
   * The recipient: the device; the interface wIndex's low byte numbers
   * (None past the end); the endpoint of that number; interface 0 for
   * "other" (the hub hack). Interface and other recipients need a
   * configuration and endpoint ones the endpoint map, and raise
   * AttributeError before SET_CONFIGURATION.
   */
  function RecipientOf(asm: Assembly, snap: Snapshot, req: DeviceRequest): (r: Res<Option<Entity>>)
    requires WellFormed(asm, snap)
  {
    var rec := Recipient(req);
    if rec == RecipientDevice then Ok(Some(DeviceEntity))
    else if rec == RecipientInterface || rec == RecipientOther then
      if snap.configuration.None? then Raise(AttributeError)
      else
        var ifs := asm.configurations[snap.configuration.value].interfaces;
        if rec == RecipientInterface then
          if req.index % 0x100 < |ifs| then Ok(Some(InterfaceEntity(ifs[req.index % 0x100]))) else Ok(None)
        else if |ifs| == 0 then Raise(IndexError)
        else Ok(Some(InterfaceEntity(ifs[0])))
    else if rec == RecipientEndpoint then
      if snap.endpoints.None? then Raise(AttributeError)
      else
        var n := Index(req).value;
        if n in snap.endpoints.value then Ok(Some(EndpointEntity(snap.endpoints.value[n]))) else Ok(None)
    else Ok(None)
  }

  /** The object whose request table is consulted. */
  datatype Handler =
    | DeviceStandard
    | InterfaceStandard(iface: Interface)
    | EndpointStandard(endpoint: Endpoint)
    | ClassRequests(handler: ClassHandler, owner: Interface)
    | VendorRequests(vendor: VendorHandler)

  /**
   * The handler entity: the recipient itself for standard requests, its
   * `device_class` for class requests and its `device_vendor` for vendor
   * ones. The device's `device_class` is its class code: 0 stalls, 9 (hub)
   * sends the request to the device's own table, any other has no table.
   * A device without a vendor object has no `device_vendor` attribute.
   */
  function HandlerEntity(asm: Assembly, e: Entity, reqType: int): (r: Res<Option<Handler>>)
  {
    if reqType == TypeStandard then
      Ok(Some(match e
        case DeviceEntity => DeviceStandard
        case InterfaceEntity(i) => InterfaceStandard(i)
        case EndpointEntity(p) => EndpointStandard(p)))
    else if reqType == TypeClass then
      match e
      case DeviceEntity =>
        if asm.identity.deviceClass == 0 then Ok(None)
        else if asm.identity.deviceClass == 9 then Ok(Some(DeviceStandard))
        else Raise(AttributeError)
      case InterfaceEntity(i) => if i.deviceClass.None? then Ok(None) else Ok(Some(ClassRequests(i.deviceClass.value, i)))
      case EndpointEntity(_) => Ok(None)
    else if reqType == TypeVendor then
      match e
      case DeviceEntity => if asm.vendor.None? then Raise(AttributeError) else Ok(Some(VendorRequests(asm.vendor.value)))
      case InterfaceEntity(_) => Ok(None)
      case EndpointEntity(_) => Raise(AttributeError)
    else Ok(None)
  }

  /** The standard request table of table 9-4 of the USB 2.0 specification, as the device registers it. */
  const DeviceCodes: set<int> := {0, 1, 3, 5, 6, 7, 8, 9, 10, 11, 12}
  const InterfaceCodes: set<int> := {0x06, 0x0b}
  const EndpointCodes: set<int> := {1}

  function Codes(h: Handler): set<int>
  {
    match h
    case DeviceStandard => DeviceCodes
    case InterfaceStandard(_) => InterfaceCodes
    case EndpointStandard(_) => EndpointCodes
    case ClassRequests(c, _) => Requests.ClassCodes(c)
    case VendorRequests(v) => Requests.VendorCodes(v)
  }

  datatype Decision = Stall | StopEmulation | Run(handler: Handler) | Crash(exc: Raised) | StallThenCrash(exc: Raised)

  /**
   * handle_request as written. With no handler for the code, modes 1, 2
   * and 3 stop the emulation; any other mode stalls and, lacking a
   * `return`, goes on to call the missing handler: None is not callable.
   */
  function RouteAsWritten(asm: Assembly, snap: Snapshot, mode: int, req: DeviceRequest): (d: Decision)
    requires WellFormed(asm, snap)
  {
    match RecipientOf(asm, snap, req)
    case Raise(x) => Crash(x)
    case Ok(None) => Stall
    case Ok(Some(e)) =>
      match HandlerEntity(asm, e, Type(req))
      case Raise(x) => Crash(x)
      case Ok(None) => Stall
      case Ok(Some(h)) =>
        if req.request in Codes(h) then Run(h)
        else if mode == 1 || mode == 2 || mode == 3 then StopEmulation
        else StallThenCrash(TypeError)
  }

  /** The router with the `return` after the stall. */
  function Route(asm: Assembly, snap: Snapshot, mode: int, req: DeviceRequest): (d: Decision)
    requires WellFormed(asm, snap)
    ensures !d.StallThenCrash?
    ensures d.Run? ==> req.request in Codes(d.handler)
  {
    var d := RouteAsWritten(asm, snap, mode, req);
    if d.StallThenCrash? then Stall else d
  }

  /** The two differ exactly where the missing `return` bites, and there only by the exception. */
  lemma RouteCorrectsOnlyTheMissingReturn(asm: Assembly, snap: Snapshot, mode: int, req: DeviceRequest)
    requires WellFormed(asm, snap)
    ensures RouteAsWritten(asm, snap, mode, req) != Route(asm, snap, mode, req) <==>
      RouteAsWritten(asm, snap, mode, req) == StallThenCrash(TypeError)
  {
  }

  /** A standard device request with an unknown code, outside modes 1 to 3, stalls and then raises as written. */
  lemma {:induction false} AsWrittenRouterCallsNone(asm: Assembly, snap: Snapshot)
    requires WellFormed(asm, snap)
    ensures RouteAsWritten(asm, snap, 0, DeviceRequest(0x00, 2, 0, 0, 0, [])) == StallThenCrash(TypeError)
    ensures Route(asm, snap, 0, DeviceRequest(0x00, 2, 0, 0, 0, [])) == Stall
  {
    var req := DeviceRequest(0x00, 2, 0, 0, 0, []);
    assert Recipient(req) == 0 && Type(req) == 0;
  }

  /** Without a recipient, or with one that has no entity for the request's type, the router stalls and runs nothing. */
  lemma {:induction false} MissingEntityStalls(asm: Assembly, snap: Snapshot, mode: int, req: DeviceRequest)
    requires WellFormed(asm, snap)
    requires RecipientOf(asm, snap, req) == Ok(None)
      || (RecipientOf(asm, snap, req).Ok? && RecipientOf(asm, snap, req).value.Some?
          && HandlerEntity(asm, RecipientOf(asm, snap, req).value.value, Type(req)) == Ok(None))
    ensures Route(asm, snap, mode, req) == Stall
  {
  }

  // ---------------------------------------------------------------------
  // Running a request

  datatype StepResult = StepResult(snap: Snapshot, events: seq<Event>, stops: bool, raised: Option<Raised>)

  /** A handler outcome on the transport: `supported()` stops the emulation in mode 1. */
  function Emitted(snap: Snapshot, o: Outcome, mode: int): StepResult
  {
    StepResult(snap, o.events, o.supported && mode == 1, o.raised)
  }

  /** The standard device requests that only answer. */
  function DeviceOutcome(asm: Assembly, source: Mutation.Source, req: DeviceRequest): (o: Outcome)
    requires req.request in DeviceCodes - {5, 9}
    ensures !o.supported
  {
    var code := req.request;
    if code == 0 then Outcome([Send(0, [0x01, 0x00])], false, None)          // GET_STATUS: self-powered
    else if code == 3 || code == 11 then Outcome([Send(0, [])], false, None) // SET_FEATURE, SET_INTERFACE
    else if code == 6 then GetDescriptorOutcome(asm, source, req)
    else if code == 8 then Outcome([Send(0, [0x01])], false, None)           // GET_CONFIGURATION
    else if code == 10 then
      Outcome(if req.index == 0 then [Send(0, [0x00])] else [StallEp0], false, None)  // GET_INTERFACE
    else Outcome([], false, None)                                            // CLEAR_FEATURE, SET_DESCRIPTOR, SYNCH_FRAME
  }

  /**
   * handle_set_configuration_request: configuration `wValue - 1`, with
   * Python's negative indexing (wValue 0 selects the last); the trigger and
   * number are recorded even when the index is out of range.
   */
  function SetConfigurationStep(asm: Assembly, snap: Snapshot, mode: int, value: int): (s: StepResult)
  {
    var n := value - 1;
    var count := |asm.configurations|;
    var recorded := snap.(trigger := true, configNum := n);
    var idx := if n < 0 then count + n else n;
    if idx < 0 || idx >= count then StepResult(recorded, [], false, Some(IndexError))
    else StepResult(recorded.(configuration := Some(idx), state := Configured,
      endpoints := Some(EndpointMap(asm.configurations[idx].interfaces))), [AckStatusStage], mode == 1, None)
  }

  /** The handlers that only answer, on the transport. */
  function HandlerOutcome(asm: Assembly, session: Session, h: Handler, req: DeviceRequest): Outcome
    requires req.request in Codes(h) && !(h.DeviceStandard? && req.request in {5, 9})
  {
    match h
    case DeviceStandard => DeviceOutcome(asm, session.mutation, req)
    case InterfaceStandard(i) => InterfaceOutcome(asm.ext, session.mutation, i, req)
    case EndpointStandard(_) =>   // CLEAR_FEATURE
      Outcome(if session.mode != 2 then [Send(0, [])] else [], false, None)
    case ClassRequests(c, _) => Requests.ClassOutcome(c, session, req.request)
    case VendorRequests(v) => Requests.VendorOutcome(v, session, req.request)
  }

  function RunHandler(asm: Assembly, snap: Snapshot, session: Session, h: Handler, req: DeviceRequest): StepResult
    requires req.request in Codes(h)
  {
    if h.DeviceStandard? && req.request == 5 then
      StepResult(snap.(address := req.value, state := AddressState), [AckStatusStage], false, None)
    else if h.DeviceStandard? && req.request == 9 then SetConfigurationStep(asm, snap, session.mode, req.value)
    else Emitted(snap, HandlerOutcome(asm, session, h, req), session.mode)
  }

  /** handle_request: what one SETUP packet does to the device and the transport. */
  function RequestStep(asm: Assembly, snap: Snapshot, session: Session, req: DeviceRequest): (s: StepResult)
    requires WellFormed(asm, snap)
  {
    match Route(asm, snap, session.mode, req)
    case Stall => StepResult(snap, [StallEp0], false, None)
    case StopEmulation => StepResult(snap, [], true, None)
    case Crash(x) => StepResult(snap, [], false, Some(x))
    case StallThenCrash(_) => assert false; StepResult(snap, [], false, None)   // the corrected router never stalls and then crashes
    case Run(h) => RunHandler(asm, snap, session, h, req)
  }

  /** Every request keeps the device well formed: Configured always comes with a configuration and its endpoint map. */
  lemma {:induction false} RequestStepKeepsWellFormed(asm: Assembly, snap: Snapshot, session: Session, req: DeviceRequest)
    requires WellFormed(asm, snap)
    ensures WellFormed(asm, RequestStep(asm, snap, session, req).snap)
  {
  }

  /**
   * SET_ADDRESS stores wValue and enters the Address state from any state,
   * Configured included; SET_CONFIGURATION with a valid number enters
   * Configured with that configuration's endpoints, acknowledges, and stops
   * the emulation in mode 1.
   */
  lemma {:induction false} StandardStateChanges(asm: Assembly, snap: Snapshot, session: Session, req: DeviceRequest)
    requires WellFormed(asm, snap) && Recipient(req) == RecipientDevice && Type(req) == TypeStandard
    ensures req.request == 5 ==>
      RequestStep(asm, snap, session, req) == StepResult(snap.(address := req.value, state := AddressState), [AckStatusStage], false, None)
    ensures req.request == 9 && 1 <= req.value <= |asm.configurations| ==>
      var s := RequestStep(asm, snap, session, req);
      s.snap.state == Configured && s.snap.configuration == Some(req.value - 1)
      && s.snap.endpoints == Some(EndpointMap(asm.configurations[req.value - 1].interfaces))
      && s.events == [AckStatusStage] && s.stops == (session.mode == 1) && s.raised.None?
  {
  }

  // ---------------------------------------------------------------------
  // The device object

  class UsbDevice {
    const app: App
    const identity: Identity
    const vendor: Option<VendorHandler>
    const descriptors: map<int, Bytes>
    const ext: Externals
    const strings: seq<string>
    const configurations: seq<Configuration>
    const manufacturerStringId: int
    const productStringId: int
    const serialStringId: int
    var state: UsbState
    var address: int
    var configNum: int
    var configuration: Option<nat>
    var endpoints: Option<map<int, Endpoint>>
    var trigger: bool

    function Parts(): Assembly
      reads this
    {
      Assembly(identity, configurations, strings, manufacturerStringId, productStringId, serialStringId, vendor, descriptors, ext)
    }

    function State(): Snapshot
      reads this
    {
      Snapshot(state, address, configNum, configuration, endpoints, trigger)
    }

    predicate Valid()
      reads this
    {
      WellFormed(Parts(), State())
    }

    /** Every string id the device handed out names its string. */
    predicate IdsNameStrings()
      reads this
    {
      (1 <= manufacturerStringId <= |strings| && 1 <= productStringId <= |strings| && 1 <= serialStringId <= |strings|)
      && (forall k :: 0 <= k < |configurations| ==>
        1 <= configurations[k].stringIndex <= |strings| && strings[configurations[k].stringIndex - 1] == configurations[k].name)
    }

    /**
     * USBDevice.__init__: the three device strings and each configuration's
     * string registered in that order, the device Detached with no
     * configuration.
     */
    constructor (app: App, identity: Identity, manufacturer: string, product: string, serial: string,
        configurations: seq<Configuration>, descriptors: map<int, Bytes>, vendor: Option<VendorHandler>, ext: Externals)
      ensures this.app == app && this.identity == identity && this.vendor == vendor && this.descriptors == descriptors
      ensures |this.configurations| == |configurations|
      ensures forall k :: 0 <= k < |configurations| ==>
        this.configurations[k] == configurations[k].(stringIndex := this.configurations[k].stringIndex)
      ensures IdsNameStrings()
      ensures strings[manufacturerStringId - 1] == manufacturer && strings[productStringId - 1] == product
        && strings[serialStringId - 1] == serial
      ensures state == Detached && configuration.None? && endpoints.None? && configNum == -1 && address == 0 && !trigger
      ensures Valid()
    {
      var (m, t1) := StringId([], manufacturer);
      var (p, t2) := StringId(t1, product);
      StringIdKeeps(t1, product, m - 1);
      var (s, t3) := StringId(t2, serial);
      StringIdKeeps(t2, serial, m - 1);
      StringIdKeeps(t2, serial, p - 1);
      var table, named := NameConfigurations(t3, configurations);
      assert table[m - 1] == table[..|t3|][m - 1];
      assert table[p - 1] == table[..|t3|][p - 1];
      assert table[s - 1] == table[..|t3|][s - 1];
      this.app := app;
      this.identity := identity;
      this.vendor := vendor;
      this.descriptors := descriptors;
      this.ext := ext;
      strings := table;
      this.configurations := named;
      manufacturerStringId, productStringId, serialStringId := m, p, s;
      state := Detached;
      address := 0;
      configNum := -1;
      configuration := None;
      endpoints := None;
      trigger := false;
    }

    /** connect: the host sees the device powered. */
    method Connect()
      modifies this
      ensures state == Powered
      ensures address == old(address) && configuration == old(configuration) && endpoints == old(endpoints)
        && configNum == old(configNum) && trigger == old(trigger) && Parts() == old(Parts())
    {
      state := Powered;
    }

    /** The endpoint map's nested loop over the interfaces and their endpoints. */
    method CollateEndpoints(ifs: seq<Interface>) returns (m: map<int, Endpoint>)
      ensures m == EndpointMap(ifs)
    {
      m := map[];
      var i := 0;
      while i < |ifs|
        invariant 0 <= i <= |ifs|
        invariant m == MapOf(AllEndpoints(ifs[..i]))
      {
        ghost var before := AllEndpoints(ifs[..i]);
        var eps := ifs[i].endpoints;
        var j := 0;
        assert before + eps[..0] == before;
        while j < |eps|
          invariant 0 <= j <= |eps|
          invariant m == MapOf(before + eps[..j])
        {
          assert before + eps[..j + 1] == (before + eps[..j]) + [eps[j]];
          MapOfAppend(before + eps[..j], eps[j]);
          m := m[eps[j].number := eps[j]];
          j := j + 1;
        }
        assert eps[..j] == eps;
        AllEndpointsGrows(ifs, i);
        i := i + 1;
      }
      assert ifs[..i] == ifs;
    }

    /** handle_set_configuration_request. */
    method SetConfiguration(value: int) returns (raised: Option<Raised>)
      requires Valid()
      modifies this, app
      ensures Valid()
      ensures var s := SetConfigurationStep(old(Parts()), old(State()), app.session.mode, value);
        State() == s.snap && Parts() == old(Parts()) && app.log == old(app.log) + s.events
        && app.stop == (old(app.stop) || s.stops) && raised == s.raised
    {
      trigger := true;
      configNum := value - 1;
      var idx := if configNum < 0 then |configurations| + configNum else configNum;
      if idx < 0 || idx >= |configurations| {
        return Some(IndexError);
      }
      configuration := Some(idx);
      state := Configured;
      var m := CollateEndpoints(configurations[idx].interfaces);
      endpoints := Some(m);
      app.AckStatus();
      app.Supported();
      return None;
    }

    /** handle_request. */
    method HandleRequest(req: DeviceRequest) returns (raised: Option<Raised>)
      requires Valid()
      modifies this, app
      ensures Valid()
      ensures var s := RequestStep(old(Parts()), old(State()), app.session, req);
        State() == s.snap && Parts() == old(Parts()) && app.log == old(app.log) + s.events
        && app.stop == (old(app.stop) || s.stops) && raised == s.raised
    {
      var d := Route(Parts(), State(), app.session.mode, req);
      match d {
        case Stall =>
          app.StallEndpoint0();
          return None;
        case StopEmulation =>
          app.Stop();
          return None;
        case Crash(x) =>
          return Some(x);
        case StallThenCrash(_) =>
          assert false;
        case Run(h) =>
          if h.DeviceStandard? && req.request == 5 {
            address := req.value;
            state := AddressState;
            app.AckStatus();
            return None;
          }
          if h.DeviceStandard? && req.request == 9 {
            raised := SetConfiguration(req.value);
            return;
          }
          var o := HandlerOutcome(Parts(), app.session, h, req);
          app.Perform(o);
          return o.raised;
      }
    }

    /**
     * handle_data_available and handle_buffer_available: the callback of
     * the endpoint with that number, only once Configured.
     */
    method EndpointCallback(epNum: int) returns (target: Option<Callback>)
      requires Valid()
      ensures target.Some? ==> (state == Configured && endpoints.Some? && epNum in endpoints.value
        && endpoints.value[epNum].handler == target)
      ensures state == Configured && epNum in endpoints.value && endpoints.value[epNum].handler.Some? ==> target.Some?
    {
      if state == Configured && epNum in endpoints.value {
        return endpoints.value[epNum].handler;
      }
      return None;
    }
  }
}
