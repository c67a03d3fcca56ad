/**
 * The uplink payload encoder of src/send_lora.py, `send_data`: the scaling of
 * the five means to integers, the control byte, the 15-byte big-endian frame
 * of format '>cIhhhhh', and its rendering as lowercase hexadecimal (Base16 of
 * section 8 of RFC 4648, with lowercase digits).
 */
module Payload {
  import opened Outcomes
  import Channels

  type Byte = x: int | 0 <= x < 256

  const FRAME_SIZE := 15
  const VERSION := 1
  const TEST_FLAG := 128
  // Bits 4 to 6 of the control byte carry the device number.
  const DEVICE_UNIT := 16
  const U32_BOUND := 0x1_0000_0000
  const U16_BOUND := 0x1_0000
  const I16_MIN := -0x8000
  const I16_MAX := 0x7FFF

  // ---------------------------------------------------------------- scaling

  /** `n` is `x` with its fractional part dropped: no further from zero, and less than 1 away. */
  predicate TowardZero(n: int, x: real)
  {
    && (0.0 <= x ==> n as real <= x < n as real + 1.0)
    && (x < 0.0 ==> n as real - 1.0 < x <= n as real)
  }

  /** Python's `int()` on a number: truncation toward zero. */
  function Truncate(x: real): (n: int)
    ensures TowardZero(n, x)
  {
    if x >= 0.0 then x.Floor else -((-x).Floor)
  }

  /** The five means scaled as the source does: ×100, and ×1000 for the wind speed. */
  datatype Scaled = Scaled(sun: int, temperature: int, globe: int, humidity: int, wind: int)

  function Scale(s: Channels.Sample): (v: Scaled)
    ensures TowardZero(v.sun, s.radiation * 100.0) && TowardZero(v.temperature, s.temperature * 100.0)
    ensures TowardZero(v.globe, s.globe * 100.0) && TowardZero(v.humidity, s.humidity * 100.0)
    ensures TowardZero(v.wind, s.wind * 1000.0)
  {
    Scaled(Truncate(s.radiation * 100.0), Truncate(s.temperature * 100.0), Truncate(s.globe * 100.0),
           Truncate(s.humidity * 100.0), Truncate(s.wind * 1000.0))
  }

  /**
   * A reading scaled by 100 fits a signed 16-bit field exactly when it lies
   * strictly between -327.69 and 327.68; a solar radiation of 327.68 W/m² or
   * more makes the frame unpackable.
   */
  lemma HundredthsFit(x: real)
    ensures IsI16(Truncate(x * 100.0)) <==> -327.69 < x < 327.68
  {
    var y := x * 100.0;
    if y >= 0.0 {
      assert y.Floor as real <= y < y.Floor as real + 1.0;
    } else {
      assert (-y).Floor as real <= -y < (-y).Floor as real + 1.0;
    }
  }

  /**
   * The wind speed is scaled by 1000, so it fits its signed 16-bit field
   * exactly when it lies strictly between -32.769 and 32.768 m/s.
   */
  lemma WindFit(x: real)
    ensures IsI16(Truncate(x * 1000.0)) <==> -32.769 < x < 32.768
  {
    var y := x * 1000.0;
    if y >= 0.0 {
      assert y.Floor as real <= y < y.Floor as real + 1.0;
    } else {
      assert (-y).Floor as real <= -y < (-y).Floor as real + 1.0;
    }
  }

  // ----------------------------------------------------------- control byte

  /** The control byte: version 1, +128 for a test frame, the device number in bits 4 to 6. */
  function Control(isTest: bool, device: int): (c: Byte)
    ensures VersionOf(c) == VERSION && IsTestOf(c) == isTest
    ensures DeviceOf(c) == if 0 <= device < 8 then device else 0
  {
    VERSION + (if isTest then TEST_FLAG else 0) + (if 0 <= device < 8 then DEVICE_UNIT * device else 0)
  }

  function VersionOf(control: Byte): int { control % 16 }
  function DeviceOf(control: Byte): int { control / 16 % 8 }
  predicate IsTestOf(control: Byte) { control >= 128 }

  /** Builds the control byte by successive additions, testing set membership as the source does. */
  method BuildControl(isTest: bool, device: int) returns (control: Byte)
    ensures control == Control(isTest, device)
  {
    var c := VERSION;
    if isTest {
      c := c + TEST_FLAG;
    }
    if device in {1, 3, 5, 7} {
      c := c + 16;
    }
    if device in {2, 3, 6, 7} {
      c := c + 32;
    }
    if device in {4, 5, 6, 7} {
      c := c + 64;
    }
    control := c;
  }

  /** The control byte decodes back into its three fields. */
  lemma ControlFields(isTest: bool, device: int)
    ensures VersionOf(Control(isTest, device)) == VERSION
    ensures IsTestOf(Control(isTest, device)) == isTest
    ensures DeviceOf(Control(isTest, device)) == if 0 <= device < 8 then device else 0
    ensures 0 <= device < 8 ==> Control(isTest, device) == 1 + 16 * device + (if isTest then 128 else 0)
    ensures !(0 <= device < 8) ==> Control(isTest, device) == if isTest then 129 else 1
  {
  }

  // ------------------------------------------------------------------ frame

  predicate IsU32(x: int) { 0 <= x < U32_BOUND }
  predicate IsI16(x: int) { I16_MIN <= x <= I16_MAX }

  /** `struct.pack_into` accepts the timestamp as 'I' and the five values as 'h'. */
  predicate Packable(stamp: int, v: Scaled)
  {
    IsU32(stamp) && IsI16(v.sun) && IsI16(v.temperature) && IsI16(v.globe) && IsI16(v.humidity) && IsI16(v.wind)
  }

  /** Big-endian unsigned 32-bit field. */
  function U32BE(x: int): (b: seq<Byte>)
    requires IsU32(x)
    ensures |b| == 4
  {
    [x / 0x100_0000, x / 0x1_0000 % 256, x / 256 % 256, x % 256]
  }

  /** Big-endian two's-complement signed 16-bit field. */
  function I16BE(x: int): (b: seq<Byte>)
    requires IsI16(x)
    ensures |b| == 2
  {
    var u := x % U16_BOUND;
    [u / 256, u % 256]
  }

  function ReadU32BE(b: seq<Byte>): int
    requires |b| == 4
  {
    ((b[0] as int * 256 + b[1]) * 256 + b[2]) * 256 + b[3]
  }

  function ReadI16BE(b: seq<Byte>): int
    requires |b| == 2
  {
    var u := b[0] as int * 256 + b[1];
    if u > I16_MAX then u - U16_BOUND else u
  }

  /** The '>cIhhhhh' frame: control, timestamp, then sun, temperature, globe, humidity, wind. */
  function Frame(control: Byte, stamp: int, v: Scaled): (f: seq<Byte>)
    requires Packable(stamp, v)
    ensures |f| == FRAME_SIZE
  {
    [control] + U32BE(stamp) + I16BE(v.sun) + I16BE(v.temperature) + I16BE(v.globe)
      + I16BE(v.humidity) + I16BE(v.wind)
  }

  datatype Fields = Fields(control: Byte, stamp: int, values: Scaled)

  /** Reads a 15-byte frame back into its fields. */
  function Unpack(f: seq<Byte>): (r: Fields)
    requires |f| == FRAME_SIZE
    ensures Packable(r.stamp, r.values)
  {
    U32Canonical(f[1..5]);
    I16Canonical(f[5..7]);
    I16Canonical(f[7..9]);
    I16Canonical(f[9..11]);
    I16Canonical(f[11..13]);
    I16Canonical(f[13..15]);
    Fields(f[0], ReadU32BE(f[1..5]),
           Scaled(ReadI16BE(f[5..7]), ReadI16BE(f[7..9]), ReadI16BE(f[9..11]),
                  ReadI16BE(f[11..13]), ReadI16BE(f[13..15])))
  }

  lemma U32RoundTrip(x: int)
    requires IsU32(x)
    ensures ReadU32BE(U32BE(x)) == x
  {
    var b := U32BE(x);
    assert b[0] as int * 256 + b[1] == x / 0x1_0000;
    assert (b[0] as int * 256 + b[1]) * 256 + b[2] == x / 256;
  }

  lemma U32Canonical(b: seq<Byte>)
    requires |b| == 4
    ensures IsU32(ReadU32BE(b)) && U32BE(ReadU32BE(b)) == b
  {
    var x := ReadU32BE(b);
    var hi := (b[0] as int * 256 + b[1]) * 256 + b[2];
    assert x / 256 == hi && x % 256 == b[3];
    assert hi / 256 == b[0] as int * 256 + b[1] && hi % 256 == b[2];
    assert x / 0x1_0000 == hi / 256;
    assert x / 0x100_0000 == (b[0] as int * 256 + b[1]) / 256;
  }

  lemma I16RoundTrip(x: int)
    requires IsI16(x)
    ensures ReadI16BE(I16BE(x)) == x
  {
  }

  lemma I16Canonical(b: seq<Byte>)
    requires |b| == 2
    ensures IsI16(ReadI16BE(b)) && I16BE(ReadI16BE(b)) == b
  {
  }

  /** The offsets of the fields in a concatenation laid out as '>cIhhhhh'. */
  lemma FieldOffsets(c: seq<Byte>, a: seq<Byte>, b: seq<Byte>, d: seq<Byte>, e: seq<Byte>, g: seq<Byte>, h: seq<Byte>)
    requires |c| == 1 && |a| == 4 && |b| == 2 && |d| == 2 && |e| == 2 && |g| == 2 && |h| == 2
    ensures var f := c + a + b + d + e + g + h;
      && f[1..5] == a && f[5..7] == b && f[7..9] == d && f[9..11] == e && f[11..13] == g && f[13..15] == h
  {
  }

  /** A 15-byte string holding each field at its offset is the frame of those fields. */
  lemma FrameFromFields(m: seq<Byte>, control: Byte, stamp: int, v: Scaled)
    requires |m| == FRAME_SIZE && Packable(stamp, v)
    requires m[0] == control && m[1..5] == U32BE(stamp)
    requires m[5..7] == I16BE(v.sun) && m[7..9] == I16BE(v.temperature) && m[9..11] == I16BE(v.globe)
    requires m[11..13] == I16BE(v.humidity) && m[13..15] == I16BE(v.wind)
    ensures m == Frame(control, stamp, v)
  {
    assert m == [m[0]] + m[1..5] + m[5..7] + m[7..9] + m[9..11] + m[11..13] + m[13..15];
  }

  /** Decoding a packed frame returns exactly the fields that were packed. */
  lemma UnpackFrame(control: Byte, stamp: int, v: Scaled)
    requires Packable(stamp, v)
    ensures Unpack(Frame(control, stamp, v)) == Fields(control, stamp, v)
  {
    FieldOffsets([control], U32BE(stamp), I16BE(v.sun), I16BE(v.temperature), I16BE(v.globe),
                 I16BE(v.humidity), I16BE(v.wind));
    U32RoundTrip(stamp);
    I16RoundTrip(v.sun);
    I16RoundTrip(v.temperature);
    I16RoundTrip(v.globe);
    I16RoundTrip(v.humidity);
    I16RoundTrip(v.wind);
  }

  /** Every 15-byte string is the frame of the fields it decodes to. */
  lemma FrameOfUnpack(f: seq<Byte>)
    requires |f| == FRAME_SIZE
    ensures Packable(Unpack(f).stamp, Unpack(f).values)
    ensures Frame(Unpack(f).control, Unpack(f).stamp, Unpack(f).values) == f
  {
    U32Canonical(f[1..5]);
    I16Canonical(f[5..7]);
    I16Canonical(f[7..9]);
    I16Canonical(f[9..11]);
    I16Canonical(f[11..13]);
    I16Canonical(f[13..15]);
    assert f == [f[0]] + f[1..5] + f[5..7] + f[7..9] + f[9..11] + f[11..13] + f[13..15];
  }

  /** Writes a big-endian unsigned 32-bit field at offset `at`. */
  method PutU32(msg: array<Byte>, at: nat, x: int)
    requires at + 4 <= msg.Length && IsU32(x)
    modifies msg
    ensures msg[at..at + 4] == U32BE(x)
    ensures forall i :: 0 <= i < msg.Length && !(at <= i < at + 4) ==> msg[i] == old(msg[i])
  {
    msg[at] := x / 0x100_0000;
    msg[at + 1] := x / 0x1_0000 % 256;
    msg[at + 2] := x / 256 % 256;
    msg[at + 3] := x % 256;
  }

  /** Writes a big-endian signed 16-bit field at offset `at`. */
  method PutI16(msg: array<Byte>, at: nat, x: int)
    requires at + 2 <= msg.Length && IsI16(x)
    modifies msg
    ensures msg[at..at + 2] == I16BE(x)
    ensures forall i :: 0 <= i < msg.Length && !(at <= i < at + 2) ==> msg[i] == old(msg[i])
  {
    var u := x % U16_BOUND;
    msg[at] := u / 256;
    msg[at + 1] := u % 256;
  }

  /**
   * `struct.pack_into('>cIhhhhh', msg, 0, ...)`: writes the fields in order and
   * stops with an error at the first one out of range. On error the caller
   * discards the buffer, so its contents are left unspecified.
   */
  method PackInto(msg: array<Byte>, control: Byte, stamp: int, v: Scaled) returns (ok: bool)
    requires msg.Length == FRAME_SIZE
    modifies msg
    ensures ok == Packable(stamp, v)
    ensures ok ==> msg[..] == Frame(control, stamp, v)
  {
    msg[0] := control;
    if !IsU32(stamp) {
      return false;
    }
    PutU32(msg, 1, stamp);
    if !IsI16(v.sun) {
      return false;
    }
    PutI16(msg, 5, v.sun);
    if !IsI16(v.temperature) {
      return false;
    }
    PutI16(msg, 7, v.temperature);
    if !IsI16(v.globe) {
      return false;
    }
    PutI16(msg, 9, v.globe);
    if !IsI16(v.humidity) {
      return false;
    }
    PutI16(msg, 11, v.humidity);
    if !IsI16(v.wind) {
      return false;
    }
    PutI16(msg, 13, v.wind);
    ok := true;
    FrameFromFields(msg[..], control, stamp, v);
  }

  // -------------------------------------------------------------------- hex

  const HEX_DIGITS := "0123456789abcdef"

  predicate IsLowerHexDigit(c: char)
  {
    '0' <= c <= '9' || 'a' <= c <= 'f'
  }

  /** '{:02x}'.format(b) */
  function HexByte(b: Byte): string
  {
    [HEX_DIGITS[b / 16], HEX_DIGITS[b % 16]]
  }

  /** ''.join('{:02x}'.format(x) for x in msg) */
  function Hex(bytes: seq<Byte>): (s: string)
    ensures |s| == 2 * |bytes|
  {
    if bytes == [] then "" else HexByte(bytes[0]) + Hex(bytes[1..])
  }

  /** Characters 2k and 2k+1 of the hex string are the high and low digits of byte k. */
  lemma {:induction false} HexAt(bytes: seq<Byte>, k: int)
    requires 0 <= k < |bytes|
    ensures Hex(bytes)[2 * k] == HEX_DIGITS[bytes[k] / 16]
    ensures Hex(bytes)[2 * k + 1] == HEX_DIGITS[bytes[k] % 16]
  {
    if k > 0 {
      HexAt(bytes[1..], k - 1);
    }
  }

  /** Every character of the hex string is a lowercase hexadecimal digit. */
  lemma HexIsLowercase(bytes: seq<Byte>)
    ensures forall i :: 0 <= i < |Hex(bytes)| ==> IsLowerHexDigit(Hex(bytes)[i])
  {
    forall i | 0 <= i < |Hex(bytes)|
      ensures IsLowerHexDigit(Hex(bytes)[i])
    {
      HexAt(bytes, i / 2);
      assert i == 2 * (i / 2) || i == 2 * (i / 2) + 1;
    }
  }

  // -------------------------------------------------------------- send_data

  /** The frame `send_data` hands to the transport, or None where `struct.pack_into` raises. */
  function Encoded(isTest: bool, stamp: int, s: Channels.Sample, device: int): (r: Option<seq<Byte>>)
    ensures r.Some? <==> Packable(stamp, Scale(s))
    ensures r.Some? ==> |r.value| == FRAME_SIZE && Unpack(r.value) == Fields(Control(isTest, device), stamp, Scale(s))
  {
    var v := Scale(s);
    if Packable(stamp, v) then
      UnpackFrame(Control(isTest, device), stamp, v);
      Some(Frame(Control(isTest, device), stamp, v))
    else None
  }

  /**
   * The encoding half of `send_data`: scale the means, build the control byte,
   * pack the frame into a new 15-byte buffer and render it as hex.
   */
  method EncodeData(isTest: bool, stamp: int, s: Channels.Sample, device: int)
    returns (msg: array<Byte>, ok: bool, hexaOut: string)
    ensures fresh(msg) && msg.Length == FRAME_SIZE
    ensures ok == Encoded(isTest, stamp, s, device).Some?
    ensures ok ==> msg[..] == Encoded(isTest, stamp, s, device).value && hexaOut == Hex(msg[..])
  {
    var v := Scale(s);
    var control := BuildControl(isTest, device);
    msg := new Byte[FRAME_SIZE](_ => 0);
    ok := PackInto(msg, control, stamp, v);
    hexaOut := "";
    if ok {
      hexaOut := Hex(msg[..]);
    }
  }
}
