/**
 * The FTDI serial persona: the echo that answers every packet received on
 * the bulk OUT endpoint, and the vendor handlers.
 */
module Ftdi {
  import opened Common
  import opened Transport
  import opened Descriptors

  const CR: byte := 0x0d
  const LF: byte := 0x0a

  /** `bytes.replace(b'\r', b'\r\n')` */
  function ReplaceCr(s: Bytes): (r: Bytes)
    ensures |r| == |s| + CountCr(s)
  {
    if s == [] then [] else (if s[0] == CR then [CR, LF] else [s[0]]) + ReplaceCr(s[1..])
  }

  function CountCr(s: Bytes): nat
  {
    if s == [] then 0 else (if s[0] == CR then 1 else 0) + CountCr(s[1..])
  }

  /** The inverse transform: every CR LF pair back to CR. */
  function UndoCrLf(t: Bytes): Bytes
  {
    if t == [] then []
    else if |t| >= 2 && t[0] == CR && t[1] == LF then [CR] + UndoCrLf(t[2..])
    else [t[0]] + UndoCrLf(t[1..])
  }

  /** Nothing is lost: the original bytes come back, in order. */
  lemma {:induction false} UndoReplaceCr(s: Bytes)
    ensures UndoCrLf(ReplaceCr(s)) == s
  {
    if s != [] {
      UndoReplaceCr(s[1..]);
      var t := ReplaceCr(s);
      if s[0] == CR {
        assert t == [CR, LF] + ReplaceCr(s[1..]);
        assert t[2..] == ReplaceCr(s[1..]);
      } else {
        assert t == [s[0]] + ReplaceCr(s[1..]);
        assert t[1..] == ReplaceCr(s[1..]);
      }
    }
  }

  /** Every CR of the result is followed by an LF. */
  lemma {:induction false} NoBareCr(s: Bytes)
    ensures var r := ReplaceCr(s); forall k :: 0 <= k < |r| && r[k] == CR ==> k + 1 < |r| && r[k + 1] == LF
  {
    if s != [] {
      NoBareCr(s[1..]);
      var head: Bytes := if s[0] == CR then [CR, LF] else [s[0]];
      var r := ReplaceCr(s);
      assert r == head + ReplaceCr(s[1..]);
      forall k | 0 <= k < |r| && r[k] == CR
        ensures k + 1 < |r| && r[k + 1] == LF
      {
        if k >= |head| {
          assert r[k] == ReplaceCr(s[1..])[k - |head|];
        }
      }
    }
  }

  /** handle_data_available's reply: `01 00`, then everything after the first byte with CR widened to CR LF. */
  function Reply(data: Bytes): (r: Bytes)
    ensures |r| == 2 + (if data == [] then 0 else |data| - 1 + CountCr(data[1..]))
    ensures r[..2] == [1, 0]
    ensures data != [] ==> UndoCrLf(r[2..]) == data[1..]
  {
    var rest := if data == [] then [] else data[1..];
    var r := [1, 0] + ReplaceCr(rest);
    assert r[2..] == ReplaceCr(rest);
    UndoReplaceCr(rest);
    r
  }

  /** The FTDI interface: bulk OUT endpoint 1 receives, bulk IN endpoint 3 carries the echo; vendor class 0xff. */
  function NewFtdiInterface(number: byte): (i: Interface)
    ensures i.iclass == 0xff && i.subclass == 0xff && i.protocol == 0xff && i.number == number
    ensures |i.endpoints| == 2 && i.endpoints[0].number == 1 && i.endpoints[0].direction == 0
      && i.endpoints[0].handler == Some(FtdiData) && i.endpoints[1].number == 3 && i.endpoints[1].handler.None?
  {
    NewInterface(number, 0, 0xff, 0xff, 0xff, 0,
      [Endpoint(1, 0, 2, 0, 0, 16384, 0, Some(FtdiData), None), Endpoint(3, 1, 2, 0, 0, 16384, 0, None, None)],
      map[], [])
  }

  /** handle_data_available: the reply goes out on endpoint 3 through the owning device's transport. */
  method HandleDataAvailable(app: App, data: Bytes)
    modifies app
    ensures app.log == old(app.log) + [Send(3, Reply(data))] && app.stop == old(app.stop)
  {
    app.SendOnEndpoint(3, Reply(data));
  }

  // ---------------------------------------------------------------------
  // Vendor requests

  /** The codes `setup_local_handlers` would install. */
  const LocalCodes: set<int> := {0, 1, 2, 3, 4, 5, 6, 7, 9, 10}

  const GetLatencyTimer := 10

  /** What each local handler returns when no mutation replaces it. */
  function LocalReply(code: int): (r: Bytes)
    requires code in LocalCodes
    ensures code == GetLatencyTimer <==> r == [1]
    ensures code != GetLatencyTimer ==> r == []
  {
    if code == GetLatencyTimer then [1] else []
  }

  /**
   * `request_handlers` is the class attribute, which stays empty:
   * USBVendor's constructor calls `setup_request_handlers`, not
   * `setup_local_handlers`, so no vendor request reaches a local handler.
   */
  function VendorCodes(): (codes: set<int>)
    ensures forall code :: code in LocalCodes ==> code !in codes
  {
    {}
  }

  /** modem_ctrl's view of wValue: DTR, RTS, DTR-enable and RTS-enable. */
  datatype ModemLines = ModemLines(dtr: int, rts: int, dtrEnable: int, rtsEnable: int)

  function ModemCtrl(value: u16): (m: ModemLines)
    ensures m.dtr in {0, 1} && m.rts in {0, 1} && m.dtrEnable in {0, 1} && m.rtsEnable in {0, 1}
    ensures value % 4 == m.dtr + 2 * m.rts
    ensures (value / 0x100) % 4 == m.dtrEnable + 2 * m.rtsEnable
  {
    LowBits(value);
    LowBits(value / 0x100);
    assert (value / 0x100) / 2 == value / 0x200;
    ModemLines(value % 2, (value / 2) % 2, (value / 0x100) % 2, (value / 0x200) % 2)
  }

  /** The two low bits of a number, one at a time. */
  lemma LowBits(x: nat)
    ensures x % 4 == x % 2 + 2 * ((x / 2) % 2)
  {
    var q := x / 4;
    assert x == 4 * q + x % 4;
    assert x / 2 == 2 * q + (x % 4) / 2;
  }
}
