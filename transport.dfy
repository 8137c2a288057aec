/**
 * The emulator's view of the USB transport (the MAX342x driver object the
 * device classes call `app`). Every call the core makes on it is recorded
 * as an event in an append-only log, so that a handler's observable effect
 * is the events it appends and whether it asks the emulation to stop.
 */
module Transport {
  import opened Common

  /** One thing the emulator does on the wire. */
  datatype Event =
    | Send(endpoint: int, data: Bytes)   // send_on_endpoint(ep, data)
    | StallEp0                           // stall_ep0()
    | AckStatusStage                     // ack_status_stage()

  /** A test case injected by the operator: the descriptor field it names and the bytes that replace that field. */
  datatype Testcase = Testcase(field: string, value: Bytes)

  /**
   * The fixed parameters of one emulation session: the operating mode
   * (1 identifies the host's supported classes, 2 and 3 fuzz, others
   * emulate), the test case (None when the operator gave none), and the
   * mutation source, which answers a stage name with replacement bytes or
   * None.
   */
  datatype Session = Session(mode: int, testcase: Option<Testcase>, mutation: string -> Option<Bytes>)

  /**
   * What a request handler does: the events it performs in order, whether
   * it then calls `supported()`, and the exception, if any, it ends with.
   */
  datatype Outcome = Outcome(events: seq<Event>, supported: bool, raised: Option<Raised>)

  /** A handler that sends one reply on endpoint 0 and then calls `supported()`. */
  function ReplyAndSupported(reply: Bytes): (o: Outcome)
    ensures o.events == [Send(0, reply)] && o.supported && o.raised.None?
  {
    Outcome([Send(0, reply)], true, None)
  }

  /** A handler that ends with an exception before it does anything. */
  function Failed(exc: Raised): (o: Outcome)
    ensures o.events == [] && !o.supported && o.raised == Some(exc)
  {
    Outcome([], false, Some(exc))
  }

  class App {
    const session: Session
    /** Everything sent, stalled or acknowledged so far, oldest first. */
    var log: seq<Event>
    /** The flag that ends the emulation loop. */
    var stop: bool

    constructor (session: Session)
      ensures this.session == session && log == [] && !stop
    {
      this.session := session;
      log := [];
      stop := false;
    }

    method SendOnEndpoint(endpoint: int, data: Bytes)
      modifies this
      ensures log == old(log) + [Send(endpoint, data)] && stop == old(stop)
    {
      log := log + [Send(endpoint, data)];
    }

    method StallEndpoint0()
      modifies this
      ensures log == old(log) + [StallEp0] && stop == old(stop)
    {
      log := log + [StallEp0];
    }

    method AckStatus()
      modifies this
      ensures log == old(log) + [AckStatusStage] && stop == old(stop)
    {
      log := log + [AckStatusStage];
    }

    /** `supported()`: in mode 1 the host has accepted the class, so emulation stops. */
    method Supported()
      modifies this
      ensures log == old(log) && stop == (old(stop) || session.mode == 1)
    {
      if session.mode == 1 {
        stop := true;
      }
    }

    method Stop()
      modifies this
      ensures log == old(log) && stop
    {
      stop := true;
    }

    /** Carries out a handler's outcome on the transport, one event at a time. */
    method Perform(o: Outcome)
      modifies this
      ensures log == old(log) + o.events
      ensures stop == (old(stop) || (o.supported && session.mode == 1))
    {
      var k := 0;
      while k < |o.events|
        invariant 0 <= k <= |o.events|
        invariant log == old(log) + o.events[..k] && stop == old(stop)
      {
        match o.events[k] {
          case Send(ep, data) => SendOnEndpoint(ep, data);
          case StallEp0 => StallEndpoint0();
          case AckStatusStage => AckStatus();
        }
        assert o.events[..k + 1] == o.events[..k] + [o.events[k]];
        k := k + 1;
      }
      assert o.events[..k] == o.events;
      if o.supported {
        Supported();
      }
    }
  }
}
