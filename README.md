# umap USB device emulator: protocol core in Dafny

umap impersonates USB devices so that it can probe how a host reacts to
them. It decodes the host's 8-byte SETUP packets and answers with the
standard descriptors of section 9.6 of the USB 2.0 specification. It
routes each request by recipient and type to a device, interface,
endpoint, class or vendor handler. It drives the Detached, Powered,
Address and Configured states through SET_ADDRESS and SET_CONFIGURATION.
On the bulk and interrupt endpoints it emulates several personas:

- a SCSI disk over the USB Mass Storage Bulk-Only Transport;
- an MTP/PTP responder;
- a HID keyboard;
- a CCID smart-card reader;
- an IEEE 1284 printer;
- a CDC modem;
- an FTDI serial adapter;
- a hub.

A fuzzer can replace almost any computed reply through the `mutable(stage)`
hook.

This project models that core and proves what each part promises. Each
module follows one source file:

| module | source file | what it holds |
|---|---|---|
| `Common` | — | Bytes, little- and big-endian packing, Python exception tags. |
| `Transport` | — | The application object, whose log of sends, stalls and status acknowledgements records everything the device does to the bus, and whose `stop` flag records `supported()`. |
| `Mutation` | `devices/wrappers.py` | The `mutable` wrapper, both as written and corrected. |
| `Setup` | `USBDeviceRequest` | SETUP-packet decoding. |
| `Descriptors` | `USBConfiguration`, `USBInterface`, `USBCSEndpoint` | The descriptor tree and its serialisation. |
| `Device` | `USBDevice` | The string table, the descriptors, `GET_DESCRIPTOR`, the router, the state machine, and the device object (a class whose fields the requests update). |
| `Requests` | — | The class and vendor request tables, one per persona. |
| `MassStorage`, `Mtp`, `Keyboard`, `Smartcard`, `Printer`, `Cdc`, `Ftdi`, `Hub` | `devices/USB*.py` | The personas' byte-level behaviour. |

Objects that the source updates in place are Dafny classes:

- the device;
- the mass-storage interface and its disk-image array;
- the MTP device and response queue;
- the keyboard key queue;
- the smart-card trigger;
- the printer's job state.

Each method is proved equal to a pure step function, and the properties are
lemmas about those functions.

The fuzzer's mutation source is a function from stage name to optional
bytes, fixed for a session (`Session.mutation`). The operating mode is
`Session.mode` and the current test case is `Session.testcase`.

Where the code and its evident intent differ, the model follows the code, except for the five defects listed under "## Findings". For those the model uses the corrected behaviour, and proves the as-written behaviour in a separate member. Everywhere else it follows the code:

- MTP rejections use INVALID_CODE_FORMAT.
- A request to an interface or endpoint before SET_CONFIGURATION raises AttributeError. It does not stall.
- `put_sector_data` writes only the first block of a completed write.
- SET_ADDRESS moves a Configured device back to Address.
- The opcode handled after a completed write comes from the payload packet.
- The device's CLEAR_FEATURE sends nothing, because its send is commented out.

## Model

| member | source | states |
|---|---|---|
| Common.ByteList | USBDevice.py:120-139 | `bytearray` of a list succeeds exactly when every element is a byte, and then holds those values in order. Otherwise the error is ValueError. |
| Common.Le16RoundTrip | USBConfiguration.py:38-48 | Reading back a little-endian `'<H'` field gives the packed value. |
| Common.Le16Inverse | USBConfiguration.py:38-48 | Every two bytes are the little-endian packing of the value read from them. |
| Common.Le32RoundTrip | devices/USBMassStorage.py:438-443 | Reading back a little-endian 32-bit field gives the packed value. |
| Common.Le32Inverse | devices/USBMassStorage.py:438-443 | Every four bytes are the little-endian packing of the value read from them. |
| Common.Be32RoundTrip | devices/USBMassStorage.py:231 | Reading back a big-endian `'>I'` field gives the packed value. |
| Common.Be32Inverse | devices/USBMassStorage.py:231 | Every four bytes are the big-endian packing of the value read from them. |
| Common.Utf8Char | devices/USBPrinter.py:48 | A character encodes to 1 to 4 bytes, and to exactly one byte, itself, exactly when it is ASCII. |
| Common.Utf8 | devices/USBPrinter.py:48 | `str.encode()` of n characters yields between n and 4·n bytes. |
| Common.Utf8OfAscii | devices/USBPrinter.py:48 | The UTF-8 encoding of an ASCII string is its character codes. |
| Common.Utf8LongerThanNonAscii | devices/USBPrinter.py:48 | A string with a non-ASCII character encodes to more bytes than it has characters. |
| Common.Utf16 | USBDevice.py:376 | `encode('utf-16')` yields the byte-order mark FF FE followed by two bytes per UTF-16 code unit. |
| Setup.Parse | USBDevice.py:508-515 | Parsing succeeds exactly on packets of at least 8 bytes. A packet shorter than 2 bytes raises IndexError; any other short packet raises struct.error. |
| Setup.ParseWire | USBDevice.py:508-515 | Parsing a request's wire form gives back every field. The wire form is type, request, then little-endian wValue, wIndex and wLength at bytes 2 to 7, then the data. |
| Setup.WireParse | USBDevice.py:508-515 | Every packet of 8 or more bytes is the wire form of what it parses to, with `data` being everything after byte 8. |
| Setup.Raw | USBDevice.py:523-530 | `raw()` is always 8 bytes and drops the data. |
| Setup.ParseRaw | USBDevice.py:523-530 | Parsing `raw()`'s output gives the request with every 16-bit field byte-swapped, so `raw()` writes the high byte first. |
| Setup.RawNotInverse | USBDevice.py:523-530 | A concrete GET_DESCRIPTOR request does not survive `raw()` followed by parsing. |
| Setup.Direction | USBDevice.py:532-533 | The direction is one bit. |
| Setup.Type | USBDevice.py:535-536 | The type is two bits. |
| Setup.Recipient | USBDevice.py:538-539 | The recipient is five bits. |
| Setup.FieldsReassemble | USBDevice.py:532-539 | Direction is bit 7, type is bits 5 and 6, and recipient is bits 0 to 4: `128·dir + 32·type + rec == bmRequestType`. |
| Setup.FieldsDetermineType | USBDevice.py:532-539 | Two requests have equal bmRequestType exactly when they agree on direction, type and recipient. |
| Setup.Index | USBDevice.py:543-549 | The index is the full wIndex for an interface recipient, its low nibble for an endpoint recipient, and nothing for any other recipient. |
| Transport.ReplyAndSupported | devices/USBCDC.py:35-36 | A handler that sends a reply and calls `supported()` emits exactly that send on endpoint 0. |
| Transport.App.SendOnEndpoint | USBDevice.py:277 | A send appends one Send event and leaves `stop` unchanged. |
| Transport.App.StallEndpoint0 | USBDevice.py:190 | A stall appends one StallEp0 event. |
| Transport.App.AckStatus | USBDevice.py:111-112 | The status-stage acknowledgement appends one AckStatusStage event. |
| Transport.App.Supported | USBBase.py:20-29 | `supported()` sends nothing, and sets `stop` exactly in mode 1. |
| Transport.App.Stop | USBDevice.py:220-223 | Stopping the emulation sets `stop` and sends nothing. |
| Transport.App.Perform | USBDevice.py:238-239 | Running a handler appends its events in order. It sets `stop` iff the handler called `supported()` in mode 1. |
| Mutation.Forwarded | devices/wrappers.py:8 | `args[1:]` forwards one argument fewer than it received. |
| Mutation.MutableRes | devices/wrappers.py:3-9 | The corrected wrapper. A truthy mutation replaces the computed value; otherwise the computed result, a value or an exception, passes through unchanged. |
| Mutation.MutationReplacesHandler | devices/wrappers.py:4-9 | With a truthy mutation the result is that mutation verbatim, whatever the wrapped function and its arguments, as written and corrected. The function is never called. |
| Mutation.NoMutationPassesThrough | devices/wrappers.py:7-9 | Without a truthy mutation the wrapped result, or its exception, is returned unchanged. |
| Mutation.EmptyMutationIgnored | devices/wrappers.py:5-8 | An empty mutation counts as no mutation. |
| Mutation.AsWrittenDropsFirstArgument | devices/wrappers.py:8 | As written, a wrapped handler that declares a positional parameter raises TypeError whenever no mutation is present. |
| Mutation.CorrectedForwardsArguments | devices/wrappers.py:8 | Forwarding all arguments makes the wrapper return exactly the wrapped function's result. |
| Mutation.CorrectedForwardsDeclared | devices/wrappers.py:3-9 | The corrected wrapper, forwarding exactly the arguments the wrapped function declares, returns the wrapped result without a mutation and the mutation when it is truthy. |
| Mutation.AsWrittenServesExtraArgument | devices/wrappers.py:8 | As written, a call with one argument more than the function declares (`response(dindex)` on `get_descriptor(self)`) reaches the function with the extra one dropped. |
| Mutation.ForwardAllBreaksExtraArgument | devices/wrappers.py:8 | Forwarding every argument (`func(self, *args)`) makes that same call raise TypeError. |
| Descriptors.NewInterface | USBInterface.py:13-41 | Construction registers type 4 for the interface's own descriptor and sets every endpoint's back-reference to this interface. The interface has no configuration and no class object. |
| Descriptors.NewConfiguration | USBConfiguration.py:9-22 | Construction gives attributes 0xe0, power 0x32 and string index 0, and sets every interface's back-reference to this configuration, changing nothing else. |
| Descriptors.InterfaceHeader | USBInterface.py:90-104 | The header is 9 bytes: 9, 4, number, …, `len(endpoints)`, class, … `bytearray` rejects more than 255 endpoints. |
| Descriptors.ClassPart | USBInterface.py:106-112 | The class descriptor appears only for a non-zero class whose descriptor type is known and non-zero. It comes from the table, and a missing entry is a KeyError. |
| Descriptors.InterfaceDescriptorLayout | USBInterface.py:87-120 | Without a mutation the descriptor starts with the header. Its length is 9 plus the class part, the CS-interface descriptors and the endpoint descriptors, and nothing else is emitted. |
| Descriptors.InterfaceDescriptor | USBInterface.py:87-120 | The accumulating loops produce exactly the header, the class part, every CS-interface descriptor and every endpoint descriptor, in that order. A mutation replaces all of it. |
| Descriptors.ConfigurationTotalLength | USBConfiguration.py:30-49 | Byte 0 is 9 and byte 1 is 2. Little-endian bytes 2 and 3 equal the whole output length. Byte 4 is the interface count, bytes 5 and 6 are the index and string index, and bytes 7 and 8 are bmAttributes and bMaxPower (0xe0 and 0x32 as `NewConfiguration` builds it). The interface descriptors follow. |
| Descriptors.InterfacesConcatenate | USBConfiguration.py:31-33 | Without errors, the body is each interface's descriptor concatenated in list order. |
| Descriptors.InterfaceErrorPropagates | USBConfiguration.py:31-33 | The first interface whose descriptor raises decides the configuration's exception. |
| Descriptors.ConfigurationDescriptor | USBConfiguration.py:30-49 | The loop and `pack('<BBHBBBBB')` give the header plus the body. struct.error is raised unless `wTotalLength` fits in 16 bits and the count and string index fit in a byte. |
| Descriptors.InterfaceDescriptors | USBConfiguration.py:31-33 | The accumulating loop equals the concatenation specification and stops at the first exception. |
| Descriptors.CsEndpointNumber | USBCSEndpoint.py:12 | The endpoint number is `cs_config[1]`, with IndexError for shorter configurations. |
| Descriptors.CsEndpointDescriptor | USBCSEndpoint.py:29-46 | An empty configuration raises IndexError. Any subtype other than EP_GENERAL leaves the fields unbound, so UnboundLocalError is raised. |
| Descriptors.CsEndpointDescriptorFields | USBCSEndpoint.py:30-44 | An EP_GENERAL descriptor is exactly 7 bytes, read back as 7, 37, 1, `cs_config[2]`, `cs_config[3]` and little-endian `cs_config[4]`. |
| Device.IndexOf | USBDevice.py:67 | `list.index` finds the first occurrence, or reports the string absent from the whole list. |
| Device.StringId | USBDevice.py:65-72 | Corrected `get_string_id`: the id is 1-based and names the string. The table only grows, by at most one, keeping its prefix, and it is unchanged iff the string was present. |
| Device.StringIdKeeps | USBDevice.py:65-72 | Entries already in the table are never moved. |
| Device.NameConfigurations | USBDevice.py:53-55 | Every configuration gets the string id of its name, and nothing else about it changes. The table keeps its prefix. |
| Device.AsWrittenStringIdOffByOne | USBDevice.py:66-67 | As written, a present string gets its 0-based position. For `["Vendor","Product"]` that is 1, which names "Vendor"; the corrected id is 2. |
| Device.DeviceDescriptorBody | USBDevice.py:114-141 | 18 bytes: 18 and 1, then the high and low byte of `usb_spec_version`. Vendor, product and release are little-endian at 8 to 13, then the three string ids, then the configuration count. The only error is ValueError, and it cannot occur when every field is a byte. |
| Device.QualifierBody | USBDevice.py:145-167 | 10 bytes of type 6. The class triple and ep0 packet size are at 4 to 7, then the configuration count and 0. |
| Device.StringDescriptorBody | USBDevice.py:373-388 | An empty string table raises IndexError. |
| Device.StringDescriptorLayout | USBDevice.py:373-388 | Byte 0 is the payload length plus 2 and byte 1 is 3. The payload is the BOM-stripped UTF-16 of `strings[num-1]`, or of `strings[0]` for an out-of-range index. |
| Device.StringIdSelectsString | USBDevice.py:374-388 | The descriptor for the id `StringId` assigns carries exactly that string. |
| Device.HubDescriptorsAgree | USBDevice.py:397-419 | The device's own hub descriptor is byte-identical to the hub persona's. |
| Device.ConfigurationFor | USBDevice.py:357-361 | Index `num` selects that configuration, an index past the end falls back to configuration 0, and an empty list raises IndexError. |
| Device.DeviceDescriptorFor | USBDevice.py:337-340 | A descriptor is missing exactly when its type is neither one the device registers (1, 2, 3, 6, 0x29) nor in the descriptor map. (corrected; as written: see Findings) |
| Device.Answer | USBDevice.py:342-351 | A non-empty reply is sent truncated to `min(wLength, len)`. A missing or empty one stalls for the device and sends nothing for an interface. No answer raises or calls `supported()`. |
| Device.ConfigurationRequestAnswered | USBDevice.py:321-355 | A configuration request selects by the low byte of wValue, falling back to configuration 0, and sends its descriptor truncated to wLength. |
| Device.InterfaceOutcome | USBInterface.py:48-83 | Interface SET_INTERFACE stalls. An interface GET_DESCRIPTOR of an unregistered type raises KeyError and sends nothing. |
| Device.MapOf | USBDevice.py:462-465 | An endpoint number is in the map exactly when some endpoint has it. |
| Device.LastDuplicateWins | USBDevice.py:462-465 | The map holds, for each number, the last endpoint with it. |
| Device.Route | USBDevice.py:169-242 | The router with the missing `return` restored never stalls and then crashes. When it runs a handler, that handler's table has the request code. |
| Device.RouteCorrectsOnlyTheMissingReturn | USBDevice.py:218-239 | As written and corrected, the router differs exactly where the as-written one stalls and then raises TypeError. |
| Device.AsWrittenRouterCallsNone | USBDevice.py:233-239 | In mode 0 an unknown standard device code stalls and then calls None (TypeError) as written, and only stalls when corrected. |
| Device.MissingEntityStalls | USBDevice.py:187-207 | A missing recipient, or a recipient with no entity for the request's type, stalls and runs nothing. |
| Device.DeviceOutcome | USBDevice.py:265-305 | The standard device handlers other than SET_ADDRESS and SET_CONFIGURATION never call `supported()`. |
| Device.RequestStepKeepsWellFormed | USBDevice.py:169-242 | Every request keeps the device well formed: Configured always comes with a configuration in range and its endpoint map. |
| Device.StandardStateChanges | USBDevice.py:308-468 | SET_ADDRESS stores wValue, enters Address from any state and acks. SET_CONFIGURATION n (1 ≤ n ≤ count) selects configuration n−1 and rebuilds its endpoint map. It enters Configured, acks, and stops in mode 1. |
| Device.UsbDevice.constructor | USBDevice.py:16-63 | The strings are interned in order manufacturer, product, serial, configuration names, and each id names its string. The device starts Detached, unconfigured, with address 0 and config number −1. (corrected; as written: see Findings) |
| Device.UsbDevice.Connect | USBDevice.py:90-94 | The state becomes Powered and nothing else changes. |
| Device.UsbDevice.CollateEndpoints | USBDevice.py:461-465 | The nested loop builds exactly the number→endpoint map of the configuration's endpoints. |
| Device.UsbDevice.SetConfiguration | USBDevice.py:444-468 | The new state, log and stop flag are those of the SET_CONFIGURATION step. This includes Python's negative index for wValue 0, and an IndexError after recording the trigger. |
| Device.UsbDevice.HandleRequest | USBDevice.py:169-242 | The new state, log, stop flag and exception are those of `RequestStep`, and the device stays well formed. (corrected; as written: see Findings) |
| Device.UsbDevice.EndpointCallback | USBDevice.py:244-259 | An endpoint callback runs iff the device is Configured and the endpoint number is in the map with a handler. |
| Ftdi.ReplaceCr | devices/USBFtdi.py:160 | Replacing CR by CR LF lengthens the data by its number of CRs. |
| Ftdi.UndoReplaceCr | devices/USBFtdi.py:160 | Undoing the replacement gives back the input, so every other byte keeps its order. |
| Ftdi.NoBareCr | devices/USBFtdi.py:160 | After the replacement every CR is followed by LF. |
| Ftdi.Reply | devices/USBFtdi.py:156-162 | The reply is `01 00` followed by `data[1:]` with CR expanded. Its length is `2 + (len−1) + count(CR)`. |
| Ftdi.NewFtdiInterface | devices/USBFtdi.py:115-154 | The interface is vendor class ff/ff/ff, with data endpoint 1 (out, with a handler) and endpoint 3 (in). |
| Ftdi.HandleDataAvailable | devices/USBFtdi.py:156-162 | A data packet sends exactly the reply on endpoint 3. |
| Ftdi.LocalReply | devices/USBFtdi.py:31-109 | Every handler returns empty bytes except get_latency_timer, which returns `01`. |
| Ftdi.VendorCodes | devices/USBFtdi.py:17-29 | No local handler is in the vendor table, which nothing fills. |
| Ftdi.ModemCtrl | devices/USBFtdi.py:42-45 | DTR, RTS, DTR-enable and RTS-enable are bits 0, 1, 8 and 9 of wValue. |
| Hub.HubDescriptor | devices/USBHub.py:69-89 | 9 bytes: 9, 0x29, 4 ports, little-endian 0xe000, 0x32, 0x64, 0, 0xff. |
| Hub.HubDescriptorReply | devices/USBHub.py:68-89 | A truthy mutation replaces the hub descriptor; otherwise it is sent as built. The same holds as written, because `get_hub_descriptor(self, **kwargs)` loses only the extra index (see Mutation.AsWrittenServesExtraArgument). |
| Hub.NewHubInterface | devices/USBHub.py:34-66 | The interface has class 9, the hub descriptor under type 0x29, and interrupt endpoint 2 with a handler. |
| Hub.LocalReply | devices/USBHub.py:22-28 | GET_HUB_STATUS returns four 0x61 bytes and SET_PORT_FEATURE returns empty. |
| Hub.ClassCodes | devices/USBHub.py:16-20 | No local handler is in the class table, which nothing fills. |
| Keyboard.MutableAsWritten | devices/USBKeyboard.py:12-22 | The local wrapper as written: with a truthy mutation it raises AttributeError (there is no `logger`); otherwise it passes the computed result through. |
| Keyboard.AsWrittenNeverDeliversMutation | devices/USBKeyboard.py:15-17 | As written, a truthy mutation is never delivered, whereas the corrected wrapper delivers it. |
| Keyboard.ClassOutcome | devices/USBKeyboard.py:33-50 | GET_REPORT, SET_REPORT and SET_IDLE each send one empty reply on endpoint 0. |
| Keyboard.ReportDescriptorReply | devices/USBKeyboard.py:130-180 | The report descriptor is the mutation when one is given, else the 43-byte descriptor ending in END_COLLECTION. (corrected; as written: see Findings) |
| Keyboard.HidBody | devices/USBKeyboard.py:102-120 | 8 bytes: 0x21 … 0x22, then the report length as little-endian 16-bit. |
| Keyboard.HidDescriptor | devices/USBKeyboard.py:101-128 | A truthy mutation is the reply verbatim. Otherwise the reply raises TypeError exactly without a test case, and ends in the 8-byte HID body (corrected; as written: see Findings). |
| Keyboard.HidDescriptorBody | devices/USBKeyboard.py:101-128 | Without a test case the `testcase[1]` subscript raises TypeError. Otherwise the descriptor ends with the 8-byte body. |
| Keyboard.HidDescriptorLayout | devices/USBKeyboard.py:102-128 | With no bLength override the HID descriptor is 9 bytes, with byte 0 equal to 9, then type 0x21 and `wDescriptorLength` = report length. |
| Keyboard.HidOverrideReplacesLengthOnly | devices/USBKeyboard.py:122-127 | The HID_bLength test case replaces only the length prefix. |
| Keyboard.NewKeyboardInterface | devices/USBKeyboard.py:56-99 | The interface has class 3, the HID and report descriptors under 0x21 and 0x22, and interrupt endpoint 3 with a handler. |
| Keyboard.KeyReport | devices/USBKeyboard.py:195-201 | A key report is `[0, 0, key]`. |
| Keyboard.KeyboardInterface.constructor | devices/USBKeyboard.py:96-99 | The queue starts as ten zero keys followed by 0x0f 0x00 0x16 0x00 0x28 0x00. |
| Keyboard.KeyboardInterface.HandleBufferAvailable | devices/USBKeyboard.py:182-201 | The first key is popped and its report sent on endpoint 3. With the queue empty nothing is sent, and `stop` is set only in mode 1. |
| Keyboard.TypedReports | devices/USBKeyboard.py:195-201 | The k-th report typed is the report of the k-th key, on endpoint 3. |
| Keyboard.TypingIsFifo | devices/USBKeyboard.py:182-193 | Popping one key per call types the queue in order: the reports after n+1 calls are those after n, followed by key n. |
| Keyboard.SubstituteIds | devices/USBKeyboard.py:212-217 | The placeholders 0x1111, 0x2222 and 0x3333 become 0x413c, 0x2107 and 0x0178, and other ids are kept. |
| MassStorage.ParseCbw | devices/USBMassStorage.py:434-448 | The tag is bytes 4 to 8 and the length is little-endian 8 to 11. LUN is `b13 & 0x0f` and cb length is `b14 & 0x1f`. `cb` is everything from byte 15, and the signature is not checked. Fewer than 15 bytes raise IndexError. |
| MassStorage.ParseWrittenCbw | devices/USBMassStorage.py:434-448 | Parsing a CBW a host wrote gives back every field. |
| MassStorage.Csw | devices/USBMassStorage.py:389-399 | The CSW is 13 bytes: "USBS", the echoed tag, four zero bytes, then the status. |
| MassStorage.Sector | devices/USBMassStorage.py:420-424 | A sector is the bytes `[a·bs, (a+1)·bs)`, or fewer at the end of the image. |
| MassStorage.PutSector | devices/USBMassStorage.py:426-431 | Writing keeps the image size, puts `data[:bs]` into block `a` and leaves all other bytes unchanged. |
| MassStorage.DiskImage.GetSectorData | devices/USBMassStorage.py:420-424 | Reading the array gives the sector specification. |
| MassStorage.DiskImage.PutSectorData | devices/USBMassStorage.py:426-431 | Writing in place gives the sector specification, or raises and leaves the image unchanged. |
| MassStorage.InquiryResponse | devices/USBMassStorage.py:157-173 | INQUIRY is 36 bytes, with byte 1 = 0x80 (removable) and byte 4 = 31, the number of bytes that follow. |
| MassStorage.RequestSenseResponse | devices/USBMassStorage.py:176-200 | REQUEST SENSE is 18 bytes: 0x70 … byte 7 = 10 (the bytes that follow), with sense code 0x3a. |
| MassStorage.ReadCapacityResponse | devices/USBMassStorage.py:208-215 | READ CAPACITY is the last LBA little-endian followed by `00 00 02 00`. struct.error unless the LBA fits in 32 bits. |
| MassStorage.ModeSense | devices/USBMassStorage.py:275-305 | Page 0x1c gives 12 bytes with byte 0 = 11. Any other page gives 8 bytes: 0x45 and block-descriptor length 8 for page 0x3f, otherwise 7. |
| MassStorage.FormatCapacitiesLength | devices/USBMassStorage.py:316-323 | READ FORMAT CAPACITIES is `4 + 8n` bytes, with a big-endian header of `8n`. |
| MassStorage.FormatCapacitiesOfDisk | devices/USBMassStorage.py:316-323 | The emulated list gives the exact 12 bytes. |
| MassStorage.ReadBlocks | devices/USBMassStorage.py:259-261 | READ(10) sends exactly `num_blocks` packets on endpoint 3. Packet i is sector `base+i`. |
| MassStorage.CommandOpens | devices/USBMassStorage.py:226-241 | Only an unmutated WRITE(10) opens a write. Its base is big-endian `cb[1:5]`, and its length is big-endian `cb[7:9]` times the block size. (corrected; as written: see Findings) |
| MassStorage.DataAvailableKeepsValid | devices/USBMassStorage.py:329-399 | Every packet keeps the write engine consistent: an open write always carries the CBW (4-byte tag) its CSW echoes, and with no write open nothing is buffered. |
| MassStorage.CommandEndsWithCsw | devices/USBMassStorage.py:366-399 | Any command other than WRITE(10) that does not raise ends with a CSW echoing its tag. Its status is 0 for a known opcode and 2 for an unknown one. (corrected; as written: see Findings) |
| MassStorage.UnknownOpcodeFails | devices/USBMassStorage.py:377-399 | An unknown opcode sends `data_transfer_length` zero bytes, when that is positive, and then a CSW with status 2. |
| MassStorage.Write10Opens | devices/USBMassStorage.py:366-373 | WRITE(10) sends nothing and opens a write with its LBA, length and CBW. The image is unchanged. (corrected; as written: see Findings) |
| MassStorage.ShortPayloadBuffered | devices/USBMassStorage.py:350-358 | Below `write_length`, a packet is appended and nothing is sent. |
| MassStorage.CompletedWriteCommits | devices/USBMassStorage.py:350-366 | Whatever opcode the payload carries, reaching `write_length` writes the first block of the buffer at the base LBA, keeps the image size and every other byte, empties the buffer, and closes the write unless the payload's byte 15 is WRITE(10). |
| MassStorage.CompletedWriteAnswers | devices/USBMassStorage.py:350-399 | After a completed write, any payload opcode other than WRITE(10) whose command returns ends with a CSW echoing the write CBW's tag: status 0 for a known opcode, 2 for an unknown one. (corrected; as written: see Findings) |
| MassStorage.Read10SendsBlocks | devices/USBMassStorage.py:243-261 | READ(10) streams its blocks in order and then the CSW. It stops the emulation in mode 1 (`supported()`) or mode 4. (corrected; as written: see Findings) |
| MassStorage.MassStorageInterface.constructor | devices/USBMassStorage.py:81-154 | The interface starts with no write in progress: no CBW, LBA 0, length 0, empty buffer. |
| MassStorage.MassStorageInterface.FormatCapacitiesReply | devices/USBMassStorage.py:316-323 | The accumulating loop equals the READ FORMAT CAPACITIES specification. |
| MassStorage.MassStorageInterface.SendBlocks | devices/USBMassStorage.py:259-261 | The per-block loop logs exactly `ReadBlocks`. |
| MassStorage.MassStorageInterface.RunCommand | devices/USBMassStorage.py:366-376 | Running a handler logs what it sends and returns its (possibly mutated) reply or exception. (corrected; as written: see Findings) |
| MassStorage.MassStorageInterface.Respond | devices/USBMassStorage.py:384-399 | A truthy reply is sent on endpoint 3, and then the CSW always is. |
| MassStorage.MassStorageInterface.DispatchCommand | devices/USBMassStorage.py:366-399 | Dispatching one opcode matches the `Dispatch` step. (corrected; as written: see Findings) |
| MassStorage.MassStorageInterface.HandleDataAvailable | devices/USBMassStorage.py:329-399 | State, disk image, log, stop flag and exception after one packet are those of `DataAvailable`. (corrected; as written: see Findings) |
| MassStorage.MassStorageInterface.ContinueWrite | devices/USBMassStorage.py:350-364 | A packet during an open write matches the `WriteStep` step. (corrected; as written: see Findings) |
| MassStorage.ClassOutcome | devices/USBMassStorage.py:59-72 | Bulk-Only Mass Storage Reset sends an empty reply, and GET MAX LUN sends `00`. |
| MassStorage.NewMassStorageInterface | devices/USBMassStorage.py:81-122 | The interface has bulk endpoint 1 carrying the data handler and endpoint 3 without one. |
| Mtp.Le64RoundTrip | devices/USBMtp.py:196-197 | Reading back a little-endian `'<Q'` field gives the packed value. |
| Mtp.MU8 | devices/USBMtp.py:172-173 | One byte, or struct.error outside 0..255. |
| Mtp.MU16 | devices/USBMtp.py:180-181 | Two little-endian bytes equal to i, or struct.error outside 16 bits. |
| Mtp.MU32 | devices/USBMtp.py:188-189 | Four little-endian bytes equal to i, or struct.error outside 32 bits. |
| Mtp.MU64 | devices/USBMtp.py:196-197 | Eight little-endian bytes equal to i, or struct.error outside 64 bits. |
| Mtp.MStr | devices/USBMtp.py:160-165 | For fewer than 256 bytes, the output is a 1-byte length followed by the bytes; longer input raises struct.error. A `str` operand raises TypeError, or struct.error when it is 256 characters or longer. |
| Mtp.StorageInfoLayout | devices/USBMtp.py:212-222 | The output is 26 fixed little-endian bytes (type, fs, access, capacities, free objects) followed by the two length-prefixed strings. |
| Mtp.AsWrittenStorageInfoFails | devices/USBMtp.py:248-258 | Every storage as written holds `str` values, so serialising it raises TypeError. |
| Mtp.CorrectedStorageInfoSerializes | devices/USBMtp.py:248-258 | With the strings as bytes, every storage serialises. |
| Mtp.Lookup | devices/USBMtp.py:379-382 | A storage is found exactly when its id is in the table, and what is found is its entry. |
| Mtp.StorageIdEntries | devices/USBMtp.py:366-371 | The id list has 4 bytes per storage, and entry k is storage k's id, little-endian, in table order. |
| Mtp.ParseContainer | devices/USBMtp.py:148-157 | Parsing succeeds exactly on 12 or more bytes, and the payload is the rest. |
| Mtp.EncodeParsed | devices/USBMtp.py:148-157 | Re-encoding a parsed container gives back the input. |
| Mtp.ParseEncoded | devices/USBMtp.py:148-157 | Parsing an encoded container gives back its fields: length u32, type u16, code u16, tid u32, payload. |
| Mtp.ResponseParses | devices/USBMtp.py:225-227 | A response is 12 bytes: length 12, type 3, the status and the tid. |
| Mtp.DataFor | devices/USBMtp.py:234-235 | A Data container packs unless its length overflows 32 bits. |
| Mtp.DataParses | devices/USBMtp.py:234-235 | A Data container has length `len+12`, type 2, the command's code and tid, then the payload. |
| Mtp.RejectionsCarryNoData | devices/USBMtp.py:309-330 | A rejection produces no Data container and changes no session data. Short or mislength containers get INVALID_CODE_FORMAT, with tid 0 when shorter than 12 bytes. Anything else gets OPERATION_NOT_SUPPORTED. |
| Mtp.CommandAnswered | devices/USBMtp.py:319-328 | A registered command records the header slices and resets the code to OK before its handler runs. It is answered under its tid with the code the handler left. (corrected; as written: see Findings) |
| Mtp.OpenSessionStoresId | devices/USBMtp.py:354-360 | A length other than 16 gives INVALID_DATASET; otherwise the payload is stored as `session_id`. (corrected; as written: see Findings) |
| Mtp.GetStorageInfoAnswers | devices/USBMtp.py:373-383 | A length other than 16 gives PARAMETER_NOT_SUPPORTED and an unknown id gives INVALID_STORAGE_ID. Otherwise the reply is a Data container of the serialised storage. (corrected; as written: see Findings) |
| Mtp.Enqueue | devices/USBMtp.py:298-307 | Inserting at the front of the pop-from-the-back list queues the Data container, if any, and then the Response behind everything already pending. |
| Mtp.MtpDevice.constructor | devices/USBMtp.py:243-296 | The device starts with no session data and an empty queue over the storage table. (corrected; as written: see Findings) |
| Mtp.MtpDevice.StorageIds | devices/USBMtp.py:366-371 | The accumulating loop gives the storage-id list. (corrected; as written: see Findings) |
| Mtp.MtpDevice.RunOperation | devices/USBMtp.py:326-383 | Running a handler gives the operation specification. (corrected; as written: see Findings) |
| Mtp.MtpDevice.HandleDataAvailable | devices/USBMtp.py:298-330 | State and exception after one container are those of `HandleData`. (corrected; as written: see Findings) |
| Mtp.MtpDevice.GetData | devices/USBMtp.py:332-334 | An empty queue returns None. Otherwise the oldest pending container is popped. |
| Mtp.DataBeforeResponse | devices/USBMtp.py:298-307 | A transaction's Data container comes out before its Response. |
| Mtp.MtpInterface.constructor | devices/USBMtp.py:529-531 | The interface owns a fresh MTP device with an empty queue. |
| Mtp.MtpInterface.HandleEp1DataAvailable | devices/USBMtp.py:588-591 | Endpoint 1 data is handed to the MTP device. |
| Mtp.MtpInterface.HandleEp2BufferAvailable | devices/USBMtp.py:593-597 | Each free IN buffer pops one container and sends it on endpoint 2 when it is non-empty. With the queue empty nothing is sent. |
| Mtp.NewMtpInterface | devices/USBMtp.py:529-581 | The interface has class ff/ff/00, bulk out 1, bulk in 2, and interrupt 3 with interval 32. |
| Mtp.Pad | devices/USBMtp.py:628-630 | `pad` keeps the data and appends zeros up to the length, and never truncates. |
| Mtp.CompatIdDescriptorLength | devices/USBMtp.py:632-645 | The first 4 bytes, little-endian, equal the total length. Byte 8 is the section count, and the sections follow byte 16. |
| Mtp.CompatIdDescriptorSize | devices/USBMtp.py:632-645 | With 24-byte sections the total is `16 + 24·count`. |
| Mtp.MtpCompatIdDescriptor | devices/USBMtp.py:632-645 | The emulated descriptor is 40 bytes, with "MTP" padded to 8 bytes as its compatible id. |
| Mtp.VendorOutcome | devices/USBMtp.py:607-623 | The MS OS vendor request sends the descriptor, or its mutation, on endpoint 0, and never calls `supported()`. (corrected; as written: see Findings) |
| Printer.JoinThenTerminate | devices/USBPrinter.py:45-46 | `sep.join(items) + sep` terminates every item with `sep`. |
| Printer.DeviceIdTextTerminatesEveryEntry | devices/USBPrinter.py:45-46 | The device ID is every field as `K:V;`, in dict order. |
| Printer.DeviceIdResponse | devices/USBPrinter.py:35-49 | The reply is the big-endian character count followed by the UTF-8 string. struct.error beyond 16 bits. |
| Printer.DeviceIdLengthPrefix | devices/USBPrinter.py:47-48 | For an ASCII ID, the 2-byte prefix gives exactly the number of bytes that follow. |
| Printer.DeviceIdPrefixCountsCharacters | devices/USBPrinter.py:47-48 | The prefix counts characters, so a non-ASCII character makes it smaller than the payload. |
| Printer.ClassReply | devices/USBPrinter.py:27-31 | A mutation that is not None, even an empty one, is used verbatim. Otherwise the device ID is built. The reply never raises. |
| Printer.DeviceIdFits | devices/USBPrinter.py:36-47 | The fixed device ID has fewer than 65536 characters, so `pack('>H', len(device_id))` does not raise. |
| Printer.NewPrinterInterface | devices/USBPrinter.py:55-132 | Interface 0 gets endpoints 1/0x81 and interface 1 gets 0x0b/0x8b. Any other number leaves `endpoints` unbound (UnboundLocalError). |
| Printer.PrinterInterface.constructor | devices/USBPrinter.py:55-59 | The interface starts not writing, with an empty job. |
| Printer.PrinterInterface.HandleDataAvailable | devices/USBPrinter.py:140-153 | A packet is appended to the job and sends nothing. It sets `stop` exactly when it contains `EOJ\n`. |
| Printer.EndOfJobIsPerPacket | devices/USBPrinter.py:148-153 | A marker split across two packets is not seen, but the same bytes in one packet are. |
| Cdc.LocalResponses | devices/USBCDC.py:21-28 | Only 0x20 and 0x22 have handlers, each with an empty default reply. |
| Cdc.ClassOutcome | devices/USBCDC.py:30-36 | One send on endpoint 0: a mutation that is not None verbatim, else the empty default. `supported()` then runs. |
| Cdc.NewCdcInterface | devices/USBCDC.py:42-148 | Interface 0 gets interrupt endpoint 0x83 and the four CS tuples (header 0x1001, call management 3/1, ACM 6, union 0→1). Interface 1 gets bulk 0x81/0x02 and no CS descriptors. Any other number is an UnboundLocalError. |
| Requests.PrinterOutcome | devices/USBPrinter.py:27-33 | The printer's `handle_all` sends its reply on endpoint 0 and then calls `supported()`. The built device ID never raises. |
| Requests.ClassOutcome | USBDevice.py:212-239 | Every class handler that does not raise sends exactly one reply on endpoint 0. |
| Requests.ClassSupported | USBClass.py:35-44 | Among class handlers, only the printer's and the CDC's call `supported()`. |
| Requests.HubAnswersNoClassRequest | devices/USBHub.py:16-20 | The hub's class table is empty. |
| Requests.VendorOutcome | devices/USBMtp.py:615-620 | Every vendor request sends exactly one reply on endpoint 0 without raising under the corrected wrapper; as written, `handler(req)` (devices/USBMtp.py:617) raises TypeError. (corrected; as written: see Findings) |
| Smartcard.Value | devices/USBSmartcard.py:161-185 | A field takes the test case's value exactly when the test case names it, and its default otherwise. |
| Smartcard.Reply | devices/USBSmartcard.py:137-428 | An unknown command gives an empty reply. A reply raises exactly when its command consults the test case and there is none. |
| Smartcard.UntouchedIsDefault | devices/USBSmartcard.py:159-413 | A test case naming none of the command's fields leaves the default reply. |
| Smartcard.OnlyNamedFieldReplaced | devices/USBSmartcard.py:161-185 | Only the field the test case names is replaced by its value, and every other field keeps its default. |
| Smartcard.ReplyHeader | devices/USBSmartcard.py:188-195 | Unless the test case replaces a header field, byte 0 is the RDR_to_PC type answering the command: 0x82 for SetParameters, 0x80 for IccPowerOn and XfrBlock, 0x81 for IccPowerOff and GetSlotStatus, 0x83 for Escape, and 0x84 otherwise. The request's bSeq is echoed at offset 6. |
| Smartcard.DefaultTailLength | devices/USBSmartcard.py:159-421 | With defaults, the fields after bSeq are `3 + dwLength` bytes, or 1 for IccPowerOff. |
| Smartcard.DefaultLengthConsistent | devices/USBSmartcard.py:159-421 | With defaults, dwLength counts exactly the bytes after the 10-byte header. The IccPowerOff reply is 8 bytes with dwLength 0. |
| Smartcard.PowerOnAnswers | devices/USBSmartcard.py:198-268 | IccPowerOn with `data[7] == 2` gives status 0 and the 18-byte ATR. Otherwise it gives status 0x40, error 0xfe and no data. |
| Smartcard.DataOutcome | devices/USBSmartcard.py:137-428 | The handler always calls `supported()` and sends the reply on endpoint 2, an empty reply for unknown commands included. A packet under 8 bytes or a missing test case raises TypeError. |
| Smartcard.SmartcardInterface.constructor | devices/USBSmartcard.py:133-135 | The trigger starts unset. |
| Smartcard.SmartcardInterface.HandleBufferAvailable | devices/USBSmartcard.py:430-433 | The first call sends `50 03` on endpoint 3 and sets the trigger. Later calls send nothing. |
| Smartcard.IccDescriptorLayout | devices/USBSmartcard.py:31-77 | The CCID class descriptor is 54 bytes with byte 0 equal to its length. Its default clock and data rate are those SetDataRate echoes (3.75 MHz, 10080 bps). |
| Smartcard.ClockFrequencyEntries | devices/USBSmartcard.py:22-24 | The clock-frequency reply is 53 little-endian 32-bit entries, in list order. |
| Smartcard.ClassOutcome | devices/USBSmartcard.py:17-24 | GET_CLOCK_FREQUENCIES sends the table on endpoint 0. |
| Smartcard.NewSmartcardInterface | devices/USBSmartcard.py:79-133 | The interface has class 0x0b and the ICC descriptor under 0x21. Its endpoints are interrupt 3, bulk out 1 carrying the data handler, and bulk in 2. |

## Left out

- The network relay branches (`server_running`) of the mass-storage and smart-card data handlers, and `devices/networking.py`: these are socket I/O and a busy-wait on another thread.
- `umap_stack.py` and `fuzzer.py`: these are command-line plumbing, file polling and sleeps.
- `devices/USBAudio.py` and `devices/USBVendorSpecific.py`: these personas only send literal bytes.
- The MAXUSB/Facedancer application, `USB.py`, `USBEndpoint` and `USBCSInterface` are not part of this model. Endpoint and CS-interface descriptors and `interface_class_to_descriptor_type` are parameters (`Descriptors.Externals`).
- Endpoint objects answer standard requests from USBCSEndpoint's table (code 1). They have no class object, and their vendor attribute raises AttributeError, because USBEndpoint's own table is not part of this model.
- `USBDevice.disconnect` and `run`: these only call into the application and close sockets.
- `print`, `fingerprint` traces, `fplog` writes and verbosity counters: these are logging only.
- The printer's PCL file is a byte sequence in the model. The file name (a timestamp) and flushing are left out.
- The disk image is an array of bytes. `mmap`, opening and `flush` are left out.
- Strings in the string table are Dafny strings, encoded with a model of UTF-16 over code points.
- MassStorage.ReadCapacityResponse: `get_sector_count` divides with `/` and truncates through `int()`. The model uses integer division, which agrees for the non-negative sizes a file has.
- The personas' constructors pass `maxusb_app=` to base constructors that take `app`. The model builds the assembled object graph directly, with constructor functions per interface (`NewMassStorageInterface`, …), and does not model the failing keyword call. In that assembled graph every `maxusb_app` reference (an interface's, a class object's, and `configuration.device.maxusb_app`) is read as the application object `app` (USBBase.py:9). Only the keyboard class (devices/USBKeyboard.py:30) and the keyboard and mass-storage interfaces (devices/USBKeyboard.py:57, devices/USBMassStorage.py:83) set a `maxusb_app` of their own, and no device does. As written every other reference raises AttributeError; the members below use `app` instead.
- MassStorage.ClassOutcome: sends through `interface.configuration.device.maxusb_app` (devices/USBMassStorage.py:69, 72); the model uses the application object, where as written this raises AttributeError.
- MassStorage.ReadBlocks: sends each block through `configuration.device.maxusb_app` (devices/USBMassStorage.py:261); the model uses the application object, where as written this raises AttributeError.
- MassStorage.Read10SendsBlocks: sends the blocks and the CSW through `configuration.device.maxusb_app` (devices/USBMassStorage.py:261, 399); the model uses the application object, where as written this raises AttributeError.
- MassStorage.CommandEndsWithCsw: sends the CSW through `configuration.device.maxusb_app` (devices/USBMassStorage.py:399); the model uses the application object, where as written this raises AttributeError.
- MassStorage.UnknownOpcodeFails: sends the padding and the CSW through `configuration.device.maxusb_app` (devices/USBMassStorage.py:387, 399); the model uses the application object, where as written this raises AttributeError.
- MassStorage.CompletedWriteAnswers: sends the CSW through `configuration.device.maxusb_app` (devices/USBMassStorage.py:399); the model uses the application object, where as written this raises AttributeError.
- MassStorage.MassStorageInterface.SendBlocks: sends through `configuration.device.maxusb_app` (devices/USBMassStorage.py:261); the model uses the application object, where as written this raises AttributeError.
- MassStorage.MassStorageInterface.RunCommand: logs the READ(10) sends made through `configuration.device.maxusb_app` (devices/USBMassStorage.py:261); the model uses the application object, where as written this raises AttributeError.
- MassStorage.MassStorageInterface.Respond: sends the reply and the CSW through `configuration.device.maxusb_app` (devices/USBMassStorage.py:387, 399); the model uses the application object, where as written this raises AttributeError.
- MassStorage.MassStorageInterface.DispatchCommand: sends through `configuration.device.maxusb_app` (devices/USBMassStorage.py:261, 387, 399); the model uses the application object, where as written this raises AttributeError.
- MassStorage.MassStorageInterface.HandleDataAvailable: sends through `configuration.device.maxusb_app` (devices/USBMassStorage.py:261, 387, 399); the model uses the application object, where as written this raises AttributeError.
- Smartcard.ClassOutcome: sends through the class object's `maxusb_app` (devices/USBSmartcard.py:24), while USBClass.py:15 sets only `app`; the model uses the application object, where as written this raises AttributeError.
- Smartcard.Reply: reads the test case through the interface's `maxusb_app` (devices/USBSmartcard.py:147, 161ff), which the interface never sets; the model uses the application object, where as written this raises AttributeError.
- Smartcard.Value: reads the test case through the interface's unset `maxusb_app` (devices/USBSmartcard.py:161-185); the model uses the application object, where as written this raises AttributeError.
- Smartcard.UntouchedIsDefault: reads the test case through the interface's unset `maxusb_app` (devices/USBSmartcard.py:161ff); the model uses the application object, where as written this raises AttributeError.
- Smartcard.OnlyNamedFieldReplaced: reads the test case through the interface's unset `maxusb_app` (devices/USBSmartcard.py:161-185); the model uses the application object, where as written this raises AttributeError.
- Smartcard.DataOutcome: reads the interface's unset `maxusb_app` (devices/USBSmartcard.py:147) before any reply, and sends through `configuration.device.maxusb_app` (:428); the model uses the application object, where as written this raises AttributeError.
- Smartcard.SmartcardInterface.HandleBufferAvailable: sends through `configuration.device.maxusb_app` (devices/USBSmartcard.py:432) before setting the trigger; the model uses the application object, where as written this raises AttributeError.
- Keyboard.KeyboardInterface.HandleBufferAvailable: sends through `configuration.device.maxusb_app` (devices/USBKeyboard.py:201); the model uses the application object, where as written this raises AttributeError.
- Keyboard.TypedReports: types the reports sent through `configuration.device.maxusb_app` (devices/USBKeyboard.py:201); the model uses the application object, where as written this raises AttributeError.
- Keyboard.NewKeyboardInterface: the keyboard interface's constructor calls its wrapped HID getters (devices/USBKeyboard.py:59-60) before `super().__init__` sets `self.app`, and the wrapper's `get_mutation` reads `self.app`, so as written construction raises AttributeError. The model builds the interface as if `app` were already set.
- `USBDevice.__init__`'s default `descriptors={}` is shared between devices and is updated in place. The model gives each device its own map.
- The USBInterface table entry for type 4 is the interface's own `get_descriptor`. Looking it up as a class descriptor would recurse forever, and the model reports that case as RecursionError.
- The USBMtpInterface constructor calls `add_string_with_id`, which no class shown defines. The model leaves this call out.
- The hub's `handle_buffer_available` only returns (under a mutation), so the model records no event for it.
- The MTP handlers that are registered only in comments are left out. Only the five registered codes run.
- The router's mode-1 handler-missing path writes to `fplog`. Only its `stop` is modelled.

## Findings

| source | as written | input that shows it | evidently intended | confidence | as-written member | corrected member |
|---|---|---|---|---|---|---|
| devices/wrappers.py:8 | The wrapper calls `func(self, *args[1:])`, so the first argument after `self` is dropped. | Any wrapped handler with a positional parameter, with no mutation. Examples: `handler(cbw)` on every SCSI handler (devices/USBMassStorage.py:369), `handler(container)` on every MTP operation (devices/USBMtp.py:327), `handler(req)` on `handle_msos_vendor_extended_config_descriptor(self, req)` (devices/USBMtp.py:617). The call raises TypeError. | Forward exactly the arguments the wrapped function declares. Forwarding all of them (`func(self, *args)`) would break USBInterface.py:67, which calls `response(dindex)` on `get_descriptor(self)` (USBInterface.py:88), `get_hub_descriptor(self, **kwargs)` (devices/USBHub.py:69) and the HID getters (devices/USBKeyboard.py:101, 130). | high (not executed) | Mutation.AsWrittenDropsFirstArgument | Mutation.CorrectedForwardsDeclared |
| USBDevice.py:233-239 | In modes other than 1 to 3, a missing handler stalls with no `return` and then calls `handler(req)` with `handler` None. | A standard device request with bRequest 2 in mode 0: a stall, then TypeError. | Stall and return. | high (not executed) | Device.AsWrittenRouterCallsNone | Device.Route |
| USBDevice.py:66-67 | `get_string_id` returns `strings.index(s)` for a present string. That is 0-based, while new strings get 1-based ids. | Strings ["Vendor","Product"] and "Product" again: the id is 1, which names "Vendor". | The 1-based id `index + 1`. | high (not executed) | Device.AsWrittenStringIdOffByOne | Device.StringIdSelectsString |
| devices/USBMtp.py:248-258 | The storage descriptions and volume ids are `str`, which MStr concatenates to bytes. | GetStorageInfo for storage 0x00010002: TypeError while serialising. | Byte strings. | high (not executed) | Mtp.AsWrittenStorageInfoFails | Mtp.CorrectedStorageInfoSerializes |
| devices/USBKeyboard.py:17 | The local `mutable` logs through `self.logger`, which the keyboard classes never define. | Any truthy mutation for `hid_descriptor` (devices/USBKeyboard.py:101) or `hid_report_descriptor` (:130): AttributeError instead of the mutation. | Deliver the mutation, as `devices/wrappers.py` does. | medium (not executed) | Keyboard.AsWrittenNeverDeliversMutation | Mutation.MutableRes |
