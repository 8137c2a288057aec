/**
 * Class and vendor requests: the `request_handlers` table of each
 * USBClass and USBVendor object of the personas, and what its handler does
 * with a request, as one outcome on the transport.
 */
module Requests {
  import opened Common
  import opened Transport
  import opened Descriptors
  import Keyboard
  import MassStorage
  import Smartcard
  import Printer
  import Cdc
  import Hub
  import Mtp
  import Ftdi

  /** The request codes a class handler object answers. */
  function ClassCodes(h: ClassHandler): set<int>
  {
    match h
    case KeyboardClass => Keyboard.ClassCodes()
    case MassStorageClass => MassStorage.ClassCodes()
    case SmartcardClass => Smartcard.ClassCodes()
    case PrinterClass => Printer.ClassCodes()
    case CdcClass => Cdc.ClassCodes()
    case HubClass => Hub.ClassCodes()
  }

  /** The printer's `handle_all`: the reply on endpoint 0, then `supported()`. */
  function PrinterOutcome(session: Session): (o: Outcome)
    ensures o.supported
    ensures Printer.ClassReply(session.mutation).Ok? ==> o == ReplyAndSupported(Printer.ClassReply(session.mutation).value)
  {
    match Printer.ClassReply(session.mutation)
    case Ok(r) => ReplyAndSupported(r)
    case Raise(x) => Outcome([], false, Some(x))   // raised before `supported()`; the fixed device ID never raises
  }

  /** Running the handler the table holds for a code. */
  function ClassOutcome(h: ClassHandler, session: Session, code: int): (o: Outcome)
    requires code in ClassCodes(h)
    ensures o.raised.None? ==> |o.events| == 1 && o.events[0].Send? && o.events[0].endpoint == 0
  {
    match h
    case KeyboardClass => Keyboard.ClassOutcome(code)
    case MassStorageClass => MassStorage.ClassOutcome(code)
    case SmartcardClass => Smartcard.ClassOutcome(code)
    case PrinterClass => PrinterOutcome(session)
    case CdcClass => Cdc.ClassOutcome(session, code)
    case HubClass => assert false; Outcome([], false, None)
  }

  /** Only the printer and CDC handlers report the class as supported. */
  lemma ClassSupported(h: ClassHandler, session: Session, code: int)
    requires code in ClassCodes(h)
    ensures ClassOutcome(h, session, code).supported <==> h == PrinterClass || h == CdcClass
  {
  }

  /** The hub's class table is empty: its handlers are built by a method nothing calls. */
  lemma HubAnswersNoClassRequest(code: int)
    ensures code !in ClassCodes(HubClass)
  {
  }

  function VendorCodes(v: VendorHandler): set<int>
  {
    match v
    case MsosVendor => Mtp.VendorCodes
    case FtdiVendor => Ftdi.VendorCodes()
  }

  function VendorOutcome(v: VendorHandler, session: Session, code: int): (o: Outcome)
    requires code in VendorCodes(v)
    ensures o.raised.None? && !o.supported && |o.events| == 1 && o.events[0].Send? && o.events[0].endpoint == 0
  {
    match v
    case MsosVendor => Mtp.VendorOutcome(session, code)
    case FtdiVendor => assert false; Outcome([], false, None)
  }
}
