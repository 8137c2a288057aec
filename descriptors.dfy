/**
 * The descriptor tree a device is assembled from (USBConfiguration,
 * USBInterface, USBCSEndpoint) and the serialisation of its levels. The tree
 * is built once and never changes, so its nodes are values; a child's
 * back-reference to its parent is the parent's number.
 */
module Descriptors {
  import opened Common
  import Mutation

  /** The persona callback an endpoint hands received data or a free IN buffer to. */
  datatype Callback =
    | MassStorageData | MtpCommandData | MtpResponseBuffer | MtpEventBuffer
    | KeyboardBuffer | SmartcardBuffer | SmartcardData | PrinterData | CdcData | FtdiData | HubBuffer

  /** The class-request handler object an interface's `device_class` holds. */
  datatype ClassHandler = KeyboardClass | MassStorageClass | SmartcardClass | PrinterClass | CdcClass | HubClass

  /** The vendor-request handler object a device's `device_vendor` holds. */
  datatype VendorHandler = MsosVendor | FtdiVendor

  /** A USBEndpoint with the parameters the personas give it and the interface it was attached to. */
  datatype Endpoint = Endpoint(
    number: int, direction: int, transferType: int, syncType: int, usageType: int,
    maxPacketSize: int, interval: int, handler: Option<Callback>, owner: Option<int>)

  /** A USBCSInterface: its class-specific configuration list and class triple. */
  datatype CsInterface = CsInterface(config: seq<int>, iclass: int, subclass: int, protocol: int)

  /** One entry of an interface's descriptor table. */
  datatype Entry =
    | Blob(bytes: Bytes)          // a stored byte string
    | Computed(value: Res<Bytes>) // a persona method, with what calling it gives (its mutation already applied)
    | InterfaceItself             // the interface's own get_descriptor, under type 4

  /**
   * Serialisations that belong to classes outside this model: USBEndpoint
   * and USBCSInterface descriptors, and USB.interface_class_to_descriptor_type.
   */
  datatype Externals = Externals(
    endpointDescriptor: Endpoint -> Bytes,
    csInterfaceDescriptor: CsInterface -> Bytes,
    classDescriptorType: int -> Option<int>)

  const InterfaceDescriptorType := 4

  datatype Interface = Interface(
    number: byte, alternate: byte, iclass: byte, subclass: byte, protocol: byte, stringIndex: byte,
    endpoints: seq<Endpoint>, csInterfaces: seq<CsInterface>,
    table: map<int, Entry>,               // `descriptors`
    deviceClass: Option<ClassHandler>,    // `device_class`; `device_vendor` is always None
    configuration: Option<int>)           // back-reference: the owning configuration's index

  datatype Configuration = Configuration(
    index: byte, name: string, stringIndex: int,
    interfaces: seq<Interface>, attributes: byte, maxPower: byte)

  /**
   * USBInterface.__init__: the table gains type 4 for the interface's own
   * descriptor, every endpoint's back-reference names this interface, and
   * the interface is not yet in a configuration.
   */
  function NewInterface(
    number: byte, alternate: byte, iclass: byte, subclass: byte, protocol: byte, stringIndex: byte,
    endpoints: seq<Endpoint>, table: map<int, Entry>, csInterfaces: seq<CsInterface>): (i: Interface)
    ensures i.table == table[InterfaceDescriptorType := InterfaceItself]
    ensures |i.endpoints| == |endpoints|
    ensures forall k :: 0 <= k < |endpoints| ==> i.endpoints[k] == endpoints[k].(owner := Some(number as int))
    ensures i.configuration.None? && i.deviceClass.None?
  {
    Interface(number, alternate, iclass, subclass, protocol, stringIndex,
      seq(|endpoints|, k requires 0 <= k < |endpoints| => endpoints[k].(owner := Some(number as int))),
      csInterfaces, table[InterfaceDescriptorType := InterfaceItself], None, None)
  }

  /**
   * USBConfiguration.__init__: attributes 0xe0 and maximum power 0x32, no
   * string index yet, and every interface's back-reference set to this
   * configuration.
   */
  function NewConfiguration(index: byte, name: string, interfaces: seq<Interface>): (c: Configuration)
    ensures c.index == index && c.name == name && c.stringIndex == 0
    ensures c.attributes == 0xe0 && c.maxPower == 0x32
    ensures |c.interfaces| == |interfaces|
    ensures forall k :: 0 <= k < |interfaces| ==> c.interfaces[k] == interfaces[k].(configuration := Some(index as int))
  {
    Configuration(index, name, 0,
      seq(|interfaces|, k requires 0 <= k < |interfaces| => interfaces[k].(configuration := Some(index as int))),
      0xe0, 0x32)
  }

  // ---------------------------------------------------------------------
  // Interface descriptor (USBInterface.get_descriptor)

  /** The nine-byte standard header; bytearray() rejects more than 255 endpoints. */
  function InterfaceHeader(i: Interface): (r: Res<Bytes>)
    ensures r.Ok? <==> |i.endpoints| < 0x100
    ensures r.Ok? ==> (|r.value| == 9 && r.value[0] == 9 && r.value[1] == InterfaceDescriptorType
      && r.value[2] == i.number && r.value[4] == |i.endpoints| && r.value[5] == i.iclass)
  {
    var fields := [9, InterfaceDescriptorType, i.number as int, i.alternate as int, |i.endpoints|,
      i.iclass as int, i.subclass as int, i.protocol as int, i.stringIndex as int];
    assert fields[4] == |i.endpoints|;
    ByteList(fields)
  }

  /** The value of one table entry when the interface looks it up for itself. */
  function EntryValue(e: Entry): (r: Res<Bytes>)
    ensures e.InterfaceItself? ==> r == Raise(RecursionError)
  {
    match e
    case Blob(b) => Ok(b)
    case Computed(v) => v
    case InterfaceItself => Raise(RecursionError)    // get_descriptor looking itself up never returns
  }

  /**
   * The class descriptor that follows the header: present only for a
   * non-zero interface class whose descriptor type is known and non-zero,
   * and then taken from the table (KeyError when the table lacks it).
   */
  function ClassPart(ext: Externals, i: Interface): (r: Res<Bytes>)
    ensures (i.iclass == 0 || ext.classDescriptorType(i.iclass).None? || ext.classDescriptorType(i.iclass) == Some(0)) ==> r == Ok([])
    ensures i.iclass != 0 && ext.classDescriptorType(i.iclass).Some? && ext.classDescriptorType(i.iclass).value != 0 ==>
      var t := ext.classDescriptorType(i.iclass).value;
      r == if t in i.table then EntryValue(i.table[t]) else Raise(KeyError)
  {
    if i.iclass == 0 then Ok([])
    else match ext.classDescriptorType(i.iclass)
      case None => Ok([])
      case Some(t) =>
        if t == 0 then Ok([])
        else if t !in i.table then Raise(KeyError)
        else EntryValue(i.table[t])
  }

  function CsInterfaceBytes(ext: Externals, cs: seq<CsInterface>): Bytes
  {
    if cs == [] then [] else CsInterfaceBytes(ext, cs[..|cs| - 1]) + ext.csInterfaceDescriptor(cs[|cs| - 1])
  }

  function EndpointBytes(ext: Externals, eps: seq<Endpoint>): Bytes
  {
    if eps == [] then [] else EndpointBytes(ext, eps[..|eps| - 1]) + ext.endpointDescriptor(eps[|eps| - 1])
  }

  /** What get_descriptor computes when no mutation replaces it. */
  function InterfaceBody(ext: Externals, i: Interface): Res<Bytes>
  {
    var header := InterfaceHeader(i);
    var classPart := ClassPart(ext, i);
    if header.Raise? then header
    else if classPart.Raise? then classPart
    else Ok(header.value + classPart.value + CsInterfaceBytes(ext, i.csInterfaces) + EndpointBytes(ext, i.endpoints))
  }

  /** get_descriptor as the configuration and GET_DESCRIPTOR call it, under mutable('interface_descriptor'). */
  function InterfaceDescriptorSpec(ext: Externals, source: Mutation.Source, i: Interface): Res<Bytes>
  {
    var m := source("interface_descriptor");
    if Mutation.Truthy(m) then Ok(m.value) else InterfaceBody(ext, i)
  }

  /**
   * The interface descriptor is its nine-byte header, the class descriptor,
   * every class-specific interface descriptor and every endpoint descriptor,
   * in that order.
   */
  lemma {:induction false} InterfaceDescriptorLayout(ext: Externals, source: Mutation.Source, i: Interface)
    requires !Mutation.Truthy(source("interface_descriptor"))
    requires |i.endpoints| < 0x100 && ClassPart(ext, i).Ok?
    ensures var r := InterfaceDescriptorSpec(ext, source, i);
      r.Ok? && r.value[..9] == InterfaceHeader(i).value
      && r.value[4] == |i.endpoints|
      && |r.value| == 9 + |ClassPart(ext, i).value| + |CsInterfaceBytes(ext, i.csInterfaces)| + |EndpointBytes(ext, i.endpoints)|
  {
    var r := InterfaceDescriptorSpec(ext, source, i);
    assert r.value == InterfaceHeader(i).value + ClassPart(ext, i).value + CsInterfaceBytes(ext, i.csInterfaces) + EndpointBytes(ext, i.endpoints);
  }

  /** USBInterface.get_descriptor, accumulating the descriptor as the source does. */
  method InterfaceDescriptor(ext: Externals, source: Mutation.Source, i: Interface) returns (r: Res<Bytes>)
    ensures r == InterfaceDescriptorSpec(ext, source, i)
  {
    var m := source("interface_descriptor");
    if Mutation.Truthy(m) {
      return Ok(m.value);
    }
    var header := InterfaceHeader(i);
    if header.Raise? {
      return header;
    }
    var d := header.value;
    var classPart := ClassPart(ext, i);
    if classPart.Raise? {
      return classPart;
    }
    d := d + classPart.value;
    var k := 0;
    while k < |i.csInterfaces|
      invariant 0 <= k <= |i.csInterfaces|
      invariant d == header.value + classPart.value + CsInterfaceBytes(ext, i.csInterfaces[..k])
    {
      assert i.csInterfaces[..k + 1][..k] == i.csInterfaces[..k];
      d := d + ext.csInterfaceDescriptor(i.csInterfaces[k]);
      k := k + 1;
    }
    assert i.csInterfaces[..k] == i.csInterfaces;
    var prefix := d;
    k := 0;
    while k < |i.endpoints|
      invariant 0 <= k <= |i.endpoints|
      invariant d == prefix + EndpointBytes(ext, i.endpoints[..k])
    {
      assert i.endpoints[..k + 1][..k] == i.endpoints[..k];
      d := d + ext.endpointDescriptor(i.endpoints[k]);
      k := k + 1;
    }
    assert i.endpoints[..k] == i.endpoints;
    return Ok(d);
  }

  // ---------------------------------------------------------------------
  // Configuration descriptor (USBConfiguration.get_descriptor)

  /** The interface descriptors of a configuration, concatenated; the first exception ends the loop. */
  function InterfacesSpec(ext: Externals, source: Mutation.Source, ifs: seq<Interface>): Res<Bytes>
  {
    if ifs == [] then Ok([])
    else
      var front := InterfacesSpec(ext, source, ifs[..|ifs| - 1]);
      var last := InterfaceDescriptorSpec(ext, source, ifs[|ifs| - 1]);
      if front.Raise? then front
      else if last.Raise? then last
      else Ok(front.value + last.value)
  }

  /**
   * The nine-byte header, packed with '<BBHBBBBB' (struct.error when the
   * total length or a byte field is out of range), followed by the
   * interface descriptors.
   */
  function ConfigurationDescriptorSpec(ext: Externals, source: Mutation.Source, c: Configuration): Res<Bytes>
  {
    var body := InterfacesSpec(ext, source, c.interfaces);
    if body.Raise? then body
    else if |body.value| + 9 >= 0x1_0000 || |c.interfaces| >= 0x100 || !(0 <= c.stringIndex < 0x100) then Raise(StructError)
    else Ok([9, 2] + Le16(|body.value| + 9) + [|c.interfaces|, c.index, c.stringIndex, c.attributes, c.maxPower] + body.value)
  }

  /**
   * wTotalLength is the length of the whole descriptor, bNumInterfaces the
   * number of interfaces, then the index, string index, bmAttributes and
   * bMaxPower, and the interface descriptors follow the header.
   */
  lemma {:induction false} ConfigurationTotalLength(ext: Externals, source: Mutation.Source, c: Configuration)
    requires ConfigurationDescriptorSpec(ext, source, c).Ok?
    ensures var d := ConfigurationDescriptorSpec(ext, source, c).value;
      |d| >= 9 && d[0] == 9 && d[1] == 2 && Le16Value(d[2..4]) == |d|
      && d[4] == |c.interfaces| && d[5] == c.index && d[6] == c.stringIndex
      && d[7] == c.attributes && d[8] == c.maxPower
      && d[9..] == InterfacesSpec(ext, source, c.interfaces).value
  {
    var d := ConfigurationDescriptorSpec(ext, source, c).value;
    var body := InterfacesSpec(ext, source, c.interfaces).value;
    assert d[2..4] == Le16(|body| + 9);
    Le16RoundTrip(|body| + 9);
  }

  /** Without errors, the interface part is exactly each interface's descriptor in order. */
  lemma {:induction false} InterfacesConcatenate(ext: Externals, source: Mutation.Source, ifs: seq<Interface>)
    requires forall k :: 0 <= k < |ifs| ==> InterfaceDescriptorSpec(ext, source, ifs[k]).Ok?
    ensures InterfacesSpec(ext, source, ifs).Ok?
    ensures InterfacesSpec(ext, source, ifs).value
      == Concat(seq(|ifs|, k requires 0 <= k < |ifs| => InterfaceDescriptorSpec(ext, source, ifs[k]).value))
    decreases |ifs|
  {
    if ifs != [] {
      var front := ifs[..|ifs| - 1];
      InterfacesConcatenate(ext, source, front);
      var parts := seq(|ifs|, k requires 0 <= k < |ifs| => InterfaceDescriptorSpec(ext, source, ifs[k]).value);
      var frontParts := seq(|front|, k requires 0 <= k < |front| => InterfaceDescriptorSpec(ext, source, front[k]).value);
      assert parts[..|parts| - 1] == frontParts;
    }
  }

  /** The first interface whose descriptor raises decides the configuration's exception. */
  lemma {:induction false} InterfaceErrorPropagates(ext: Externals, source: Mutation.Source, ifs: seq<Interface>, j: nat)
    requires j < |ifs| && InterfaceDescriptorSpec(ext, source, ifs[j]).Raise?
    requires forall k :: 0 <= k < j ==> InterfaceDescriptorSpec(ext, source, ifs[k]).Ok?
    ensures InterfacesSpec(ext, source, ifs) == InterfaceDescriptorSpec(ext, source, ifs[j])
    decreases |ifs|
  {
    if j < |ifs| - 1 {
      InterfaceErrorPropagates(ext, source, ifs[..|ifs| - 1], j);
    } else {
      InterfacesConcatenate(ext, source, ifs[..j]);
    }
  }

  /** USBConfiguration.get_descriptor, accumulating the interface descriptors as the source does. */
  method ConfigurationDescriptor(ext: Externals, source: Mutation.Source, c: Configuration) returns (r: Res<Bytes>)
    ensures r == ConfigurationDescriptorSpec(ext, source, c)
  {
    var body := InterfaceDescriptors(ext, source, c.interfaces);
    if body.Raise? {
      return body;
    }
    var d := body.value;
    var total := |d| + 9;
    if total >= 0x1_0000 || |c.interfaces| >= 0x100 || !(0 <= c.stringIndex < 0x100) {
      return Raise(StructError);
    }
    return Ok([9, 2] + Le16(total) + [|c.interfaces|, c.index, c.stringIndex, c.attributes, c.maxPower] + d);
  }

  /** The loop over the interfaces, stopping at the first that raises. */
  method InterfaceDescriptors(ext: Externals, source: Mutation.Source, ifs: seq<Interface>) returns (r: Res<Bytes>)
    ensures r == InterfacesSpec(ext, source, ifs)
  {
    var d: Bytes := [];
    var k := 0;
    while k < |ifs|
      invariant 0 <= k <= |ifs|
      invariant InterfacesSpec(ext, source, ifs[..k]) == Ok(d)
    {
      var one := InterfaceDescriptor(ext, source, ifs[k]);
      InterfacesStep(ext, source, ifs, k);
      if one.Raise? {
        InterfacesRaiseFrom(ext, source, ifs, k + 1);
        return one;
      }
      d := d + one.value;
      k := k + 1;
    }
    assert ifs[..k] == ifs;
    return Ok(d);
  }

  lemma InterfacesStep(ext: Externals, source: Mutation.Source, ifs: seq<Interface>, k: nat)
    requires k < |ifs|
    ensures var front := InterfacesSpec(ext, source, ifs[..k]);
      var last := InterfaceDescriptorSpec(ext, source, ifs[k]);
      InterfacesSpec(ext, source, ifs[..k + 1])
        == if front.Raise? then front else if last.Raise? then last else Ok(front.value + last.value)
  {
    assert ifs[..k + 1][..k] == ifs[..k];
  }

  /** Once a prefix of the interfaces raises, the whole list raises the same way. */
  lemma {:induction false} InterfacesRaiseFrom(ext: Externals, source: Mutation.Source, ifs: seq<Interface>, n: nat)
    requires n <= |ifs| && InterfacesSpec(ext, source, ifs[..n]).Raise?
    ensures InterfacesSpec(ext, source, ifs) == InterfacesSpec(ext, source, ifs[..n])
    decreases |ifs| - n
  {
    if n < |ifs| {
      assert ifs[..n + 1][..n] == ifs[..n];
      InterfacesRaiseFrom(ext, source, ifs, n + 1);
    } else {
      assert ifs[..n] == ifs;
    }
  }

  // ---------------------------------------------------------------------
  // Class-specific endpoint (USBCSEndpoint)

  /** A USBCSEndpoint, whose configuration bytes are [subtype, number, attributes, lock-delay units, lock delay, ...]. */
  datatype CsEndpoint = CsEndpoint(config: Bytes, owner: Option<int>)

  /** The endpoint number the constructor reads from the configuration; IndexError when it is too short. */
  function CsEndpointNumber(e: CsEndpoint): (r: Res<int>)
    ensures r.Ok? <==> |e.config| >= 2
    ensures r.Ok? ==> r.value == e.config[1]
  {
    if |e.config| < 2 then Raise(IndexError) else Ok(e.config[1] as int)
  }

  /**
   * get_descriptor: only the EP_GENERAL subtype (1) assigns the fields, so
   * any other subtype reaches pack() with unbound locals.
   */
  function CsEndpointDescriptor(e: CsEndpoint): (r: Res<Bytes>)
    ensures |e.config| == 0 ==> r == Raise(IndexError)
    ensures |e.config| > 0 && e.config[0] != 1 ==> r == Raise(UnboundLocalError)
  {
    if |e.config| == 0 then Raise(IndexError)
    else if e.config[0] != 1 then Raise(UnboundLocalError)
    else if |e.config| < 5 then Raise(StructError)
    else Ok([7, 37, 1, e.config[2], e.config[3]] + Le16(e.config[4] as int))
  }

  /** A descriptor read back field by field: (length, type, subtype, attributes, lock-delay units, lock delay). */
  function CsEndpointFields(d: Bytes): (int, int, int, int, int, int)
    requires |d| == 7
  {
    (d[0], d[1], d[2], d[3], d[4], Le16Value(d[5..7]))
  }

  /**
   * An EP_GENERAL configuration of at least five bytes gives a seven-byte
   * CS_ENDPOINT descriptor carrying its attributes, lock-delay units and
   * (widened to 16 bits) lock delay.
   */
  lemma {:induction false} CsEndpointDescriptorFields(e: CsEndpoint)
    requires |e.config| >= 5 && e.config[0] == 1
    ensures var r := CsEndpointDescriptor(e);
      r.Ok? && |r.value| == 7 && CsEndpointFields(r.value) == (7, 37, 1, e.config[2] as int, e.config[3] as int, e.config[4] as int)
  {
    var d := CsEndpointDescriptor(e).value;
    assert d[5..7] == Le16(e.config[4] as int);
    Le16RoundTrip(e.config[4] as int);
  }
}
