/**
 * Values shared by the whole model: bytes, optional values, the Python
 * exceptions the emulator can raise, and the fixed-width integer encodings
 * the `struct` module produces.
 */
module Common {

  /** One octet, as a Python `bytes` element. */
  type byte = x: int | 0 <= x < 0x100

  /** A Python `bytes`/`bytearray` value. */
  type Bytes = seq<byte>

  type u16 = x: int | 0 <= x < 0x1_0000
  type u32 = x: int | 0 <= x < 0x1_0000_0000

  datatype Option<T> = None | Some(value: T)

  /**
   * The exceptions the modelled code can raise. Each one names the Python
   * exception class the corresponding line of the emulator raises.
   */
  datatype Raised =
    | TypeError           // calling None, a missing argument, str + bytes, ord(b'')
    | IndexError          // subscript out of range, wrong-size mmap slice assignment
    | KeyError            // missing dictionary key
    | AttributeError      // attribute not yet created (e.g. `endpoints` before SET_CONFIGURATION)
    | StructError         // struct.pack / struct.unpack out of range or wrong length
    | ValueError          // bytearray() element outside 0..255
    | NotImplementedError // SCSI opcodes the emulator declares but does not implement
    | UnboundLocalError   // a local variable assigned only on some branches
    | RecursionError      // a descriptor producer that calls itself

  /** The outcome of a Python call: a value, or an exception that propagates. */
  datatype Res<T> = Ok(value: T) | Raise(exc: Raised)

  /** Python `bytearray([...])`/`bytes([...])`: every element must be an octet. */
  function ByteList(xs: seq<int>): (r: Res<Bytes>)
    ensures r.Ok? <==> forall k :: 0 <= k < |xs| ==> 0 <= xs[k] < 0x100
    ensures r.Ok? ==> r.value == xs
    ensures r.Raise? ==> r.exc == ValueError
  {
    if forall k :: 0 <= k < |xs| ==> 0 <= xs[k] < 0x100 then Ok(seq(|xs|, k requires 0 <= k < |xs| => xs[k] as byte))
    else Raise(ValueError)
  }

  /** `struct.pack('<H', x)` */
  function Le16(x: u16): (r: Bytes)
    ensures |r| == 2
  {
    [x % 0x100, x / 0x100]
  }

  /** `struct.pack('<I', x)` */
  function Le32(x: u32): (r: Bytes)
    ensures |r| == 4
  {
    Le16(x % 0x1_0000) + Le16(x / 0x1_0000)
  }

  /** `struct.pack('>H', x)` */
  function Be16(x: u16): (r: Bytes)
    ensures |r| == 2
  {
    [x / 0x100, x % 0x100]
  }

  /** `struct.pack('>I', x)` */
  function Be32(x: u32): (r: Bytes)
    ensures |r| == 4
  {
    Be16(x / 0x1_0000) + Be16(x % 0x1_0000)
  }

  /** `struct.unpack('<H', b)` */
  function Le16Value(b: Bytes): (v: u16)
    requires |b| == 2
  {
    b[0] as int + 0x100 * (b[1] as int)
  }

  /** `struct.unpack('<I', b)` */
  function Le32Value(b: Bytes): (v: u32)
    requires |b| == 4
  {
    Le16Value(b[0..2]) + 0x1_0000 * Le16Value(b[2..4])
  }

  /** `struct.unpack('>H', b)` */
  function Be16Value(b: Bytes): (v: u16)
    requires |b| == 2
  {
    0x100 * (b[0] as int) + b[1] as int
  }

  /** `struct.unpack('>I', b)` */
  function Be32Value(b: Bytes): (v: u32)
    requires |b| == 4
  {
    0x1_0000 * Be16Value(b[0..2]) + Be16Value(b[2..4])
  }

  lemma Le16RoundTrip(x: u16)
    ensures Le16Value(Le16(x)) == x
  {
  }

  lemma Le16Inverse(b: Bytes)
    requires |b| == 2
    ensures Le16(Le16Value(b)) == b
  {
  }

  lemma {:induction false} Le32RoundTrip(x: u32)
    ensures Le32Value(Le32(x)) == x
  {
    var e := Le32(x);
    assert e[0..2] == Le16(x % 0x1_0000);
    assert e[2..4] == Le16(x / 0x1_0000);
    Le16RoundTrip(x % 0x1_0000);
    Le16RoundTrip(x / 0x1_0000);
  }

  lemma {:induction false} Le32Inverse(b: Bytes)
    requires |b| == 4
    ensures Le32(Le32Value(b)) == b
  {
    var v := Le32Value(b);
    assert v % 0x1_0000 == Le16Value(b[0..2]);
    assert v / 0x1_0000 == Le16Value(b[2..4]);
    Le16Inverse(b[0..2]);
    Le16Inverse(b[2..4]);
    assert b == b[0..2] + b[2..4];
  }

  lemma {:induction false} Be32RoundTrip(x: u32)
    ensures Be32Value(Be32(x)) == x
  {
    var e := Be32(x);
    assert e[0..2] == Be16(x / 0x1_0000);
    assert e[2..4] == Be16(x % 0x1_0000);
  }

  lemma {:induction false} Be32Inverse(b: Bytes)
    requires |b| == 4
    ensures Be32(Be32Value(b)) == b
  {
    var v := Be32Value(b);
    assert v / 0x1_0000 == Be16Value(b[0..2]);
    assert v % 0x1_0000 == Be16Value(b[2..4]);
    assert b == b[0..2] + b[2..4];
  }

  /** Python's `min(a, b)`. */
  function Min(a: int, b: int): int
  {
    if a <= b then a else b
  }

  /** The concatenation of a list of sequences, as `b''.join(parts)` or `''.join(parts)`. */
  function Concat<T>(parts: seq<seq<T>>): (r: seq<T>)
  {
    if parts == [] then [] else Concat(parts[..|parts| - 1]) + parts[|parts| - 1]
  }

  /** Concatenation splits at any point of the list. */
  lemma {:induction false} ConcatAppend<T>(a: seq<seq<T>>, b: seq<seq<T>>)
    ensures Concat(a + b) == Concat(a) + Concat(b)
  {
    if b != [] {
      ConcatAppend(a, b[..|b| - 1]);
      assert (a + b)[..|a + b| - 1] == a + b[..|b| - 1];
    } else {
      assert a + b == a;
    }
  }

  /** The first part comes first. */
  lemma {:induction false} ConcatFront<T>(parts: seq<seq<T>>)
    requires |parts| > 0
    ensures Concat(parts) == parts[0] + Concat(parts[1..])
  {
    ConcatAppend([parts[0]], parts[1..]);
    assert parts == [parts[0]] + parts[1..];
    assert Concat([parts[0]]) == Concat([parts[0]][..0]) + parts[0];
    assert [parts[0]][..0] == [];
  }

  /** Parts of one width `w` make a sequence `w` times as long as the list. */
  lemma {:induction false} ConcatUniformLength<T>(parts: seq<seq<T>>, w: nat)
    requires forall k :: 0 <= k < |parts| ==> |parts[k]| == w
    ensures |Concat(parts)| == w * |parts|
  {
    if parts != [] {
      var n := |parts| - 1;
      ConcatUniformLength(parts[..n], w);
      MulSucc(w, n);
    }
  }

  /** Parts of one width `w` lie side by side: part `k` is at offset `w * k`. */
  lemma {:induction false} ConcatUniformAt<T>(parts: seq<seq<T>>, w: nat, k: nat)
    requires forall i :: 0 <= i < |parts| ==> |parts[i]| == w
    requires k < |parts|
    ensures w * k + w <= |Concat(parts)| && Concat(parts)[w * k..w * k + w] == parts[k]
  {
    var n := |parts| - 1;
    var front := parts[..n];
    var c := Concat(front);
    assert Concat(parts) == c + parts[n];
    ConcatUniformLength(front, w);
    MulSucc(w, k);
    if k < n {
      ConcatUniformAt(front, w, k);
      MulMonotone(w, k + 1, n);
    }
  }

  lemma MulSucc(w: nat, k: nat)
    ensures w * (k + 1) == w * k + w
  {
  }

  lemma MulMonotone(w: nat, a: nat, b: nat)
    requires a <= b
    ensures w * a <= w * b
  {
  }

  /** A string made of code points below 0x80, which `str.encode()` maps one character to one byte. */
  predicate IsAscii(s: string)
  {
    forall k :: 0 <= k < |s| ==> s[k] as int < 0x80
  }

  /** `s.encode()` for an ASCII string. */
  function Ascii(s: string): (r: Bytes)
    requires IsAscii(s)
    ensures |r| == |s|
    ensures forall k :: 0 <= k < |s| ==> r[k] == s[k] as int
  {
    seq(|s|, k requires 0 <= k < |s| => s[k] as int as byte)
  }

  /** The UTF-8 encoding of one code point, as `str.encode()` produces it. */
  function Utf8Char(c: char): (r: Bytes)
    ensures 1 <= |r| <= 4
    ensures (c as int < 0x80) <==> |r| == 1
    ensures c as int < 0x80 ==> r == [c as int]
  {
    var n := c as int;
    if n < 0x80 then [n]
    else if n < 0x800 then [0xC0 + n / 0x40, 0x80 + n % 0x40]
    else if n < 0x1_0000 then [0xE0 + n / 0x1000, 0x80 + (n / 0x40) % 0x40, 0x80 + n % 0x40]
    else [0xF0 + n / 0x4_0000, 0x80 + (n / 0x1000) % 0x40, 0x80 + (n / 0x40) % 0x40, 0x80 + n % 0x40]
  }

  /** `s.encode()`: the UTF-8 encoding of a string. */
  function Utf8(s: string): (r: Bytes)
    ensures |s| <= |r| <= 4 * |s|
  {
    if s == [] then [] else Utf8(s[..|s| - 1]) + Utf8Char(s[|s| - 1])
  }

  /** An ASCII string encodes to one byte per character, each its code point. */
  lemma {:induction false} Utf8OfAscii(s: string)
    requires IsAscii(s)
    ensures Utf8(s) == Ascii(s)
  {
    if s != [] {
      Utf8OfAscii(s[..|s| - 1]);
      assert Ascii(s) == Ascii(s[..|s| - 1]) + [s[|s| - 1] as int];
    }
  }

  /** A string of which some character is not ASCII encodes to more bytes than it has characters. */
  lemma {:induction false} Utf8LongerThanNonAscii(s: string, k: nat)
    requires k < |s| && s[k] as int >= 0x80
    ensures |Utf8(s)| > |s|
  {
    if k < |s| - 1 {
      Utf8LongerThanNonAscii(s[..|s| - 1], k);
    }
  }

  /** The UTF-16 code units of a string: one per code point below 0x10000, a surrogate pair otherwise. */
  function Utf16Units(s: string): (r: seq<u16>)
    ensures |s| <= |r| <= 2 * |s|
  {
    if s == [] then []
    else
      var n := s[|s| - 1] as int;
      Utf16Units(s[..|s| - 1])
        + (if n < 0x1_0000 then [n] else [0xD800 + (n - 0x1_0000) / 0x400, 0xDC00 + (n - 0x1_0000) % 0x400])
  }

  function Le16Units(units: seq<u16>): (r: Bytes)
    ensures |r| == 2 * |units|
  {
    if units == [] then [] else Le16Units(units[..|units| - 1]) + Le16(units[|units| - 1])
  }

  /**
   * `s.encode('utf-16')` on a little-endian host: the byte-order mark
   * FF FE, then each code unit low byte first.
   */
  function Utf16(s: string): (r: Bytes)
    ensures |r| == 2 + 2 * |Utf16Units(s)|
    ensures r[..2] == [0xFF, 0xFE]
  {
    [0xFF, 0xFE] + Le16Units(Utf16Units(s))
  }
}
