/**
 * src/arduino.rs: the 12-byte frame `ArduinoMessage::new` builds for the
 * motor board. Three 0x0A start bytes, then three fields each introduced by
 * a 0x0D separator: checksum and command, payload 1 big-endian, payload 2
 * big-endian.
 */
module Arduino {
  import opened Shared

  type u8 = x: int | 0 <= x < 0x100
  type u16 = x: int | 0 <= x < 0x1_0000

  const FRAME_LENGTH := 12
  const START: u8 := 0x0A
  const SEPARATOR: u8 := 0x0D

  datatype ArduinoMessage = ArduinoMessage(data: seq<u8>)

  /** `BigEndian::write_u16`: the high byte, then the low byte. */
  function BigEndian(p: u16): (r: (u8, u8))
    ensures r.0 * 0x100 + r.1 == p
  {
    (p / 0x100, p % 0x100)
  }

  /** `BigEndian::read_u16`: the value of a high byte followed by a low byte. */
  function ReadBigEndian(hi: u8, lo: u8): (r: u16)
    ensures r / 0x100 == hi && r % 0x100 == lo
  {
    hi * 0x100 + lo
  }

  /** Splitting and reading back are inverse, in both directions. */
  lemma BigEndianRoundTrip(p: u16, hi: u8, lo: u8)
    ensures ReadBigEndian(BigEndian(p).0, BigEndian(p).1) == p
    ensures BigEndian(ReadBigEndian(hi, lo)) == (hi, lo)
  {
  }

  /**
   * The checksum: command, the separator value 0x0D and both payloads summed
   * as `u32` (the sum is below 2^18, so it never wraps) and truncated to its
   * low byte.
   */
  function Checksum(command: u8, payload1: u16, payload2: u16): u8
  {
    (command + 0x0D + payload1 + payload2) % 0x100
  }

  /** `ArduinoMessage::new`. */
  function New(command: u8, payload1: u16, payload2: u16): (r: ArduinoMessage)
    ensures |r.data| == FRAME_LENGTH
    ensures r.data[0] == r.data[1] == r.data[2] == START
    ensures r.data[3] == r.data[6] == r.data[9] == SEPARATOR
    ensures r.data[4] == (command + 13 + payload1 + payload2) % 256
    ensures r.data[5] == command
    ensures ReadBigEndian(r.data[7], r.data[8]) == payload1
    ensures ReadBigEndian(r.data[10], r.data[11]) == payload2
  {
    var (p1a, p1b) := BigEndian(payload1);
    var (p2a, p2b) := BigEndian(payload2);
    ArduinoMessage([
      START, START, START,
      SEPARATOR,
      Checksum(command, payload1, payload2),
      command,
      SEPARATOR,
      p1a, p1b,
      SEPARATOR,
      p2a, p2b
    ])
  }

  /** The framing bytes of a well-formed frame. */
  predicate WellFramed(data: seq<u8>)
  {
    |data| == FRAME_LENGTH
    && data[0] == START && data[1] == START && data[2] == START
    && data[3] == SEPARATOR && data[6] == SEPARATOR && data[9] == SEPARATOR
  }

  /**
   * The receiving side's reading of a frame: its command and payloads when
   * the framing bytes and the checksum are right, nothing otherwise.
   */
  function Decode(data: seq<u8>): (r: Option<(u8, u16, u16)>)
    ensures r.Some? ==> WellFramed(data) && data[5] == r.value.0
  {
    if !WellFramed(data) then None
    else
      var command := data[5];
      var payload1 := ReadBigEndian(data[7], data[8]);
      var payload2 := ReadBigEndian(data[10], data[11]);
      if data[4] != Checksum(command, payload1, payload2) then None
      else Some((command, payload1, payload2))
  }

  /** Every frame `new` builds decodes back to its inputs. */
  lemma DecodeNew(command: u8, payload1: u16, payload2: u16)
    ensures Decode(New(command, payload1, payload2).data) == Some((command, payload1, payload2))
  {
  }

  /** Every frame that decodes is the one `new` builds from what it decodes to. */
  lemma NewDecode(data: seq<u8>)
    requires Decode(data).Some?
    ensures New(Decode(data).value.0, Decode(data).value.1, Decode(data).value.2).data == data
  {
    var (c, p1, p2) := Decode(data).value;
    var f := New(c, p1, p2).data;
    BigEndianRoundTrip(p1, data[7], data[8]);
    BigEndianRoundTrip(p2, data[10], data[11]);
    assert forall i | 0 <= i < FRAME_LENGTH :: f[i] == data[i];
  }

  /** Frames are equal exactly when their inputs are: `new` loses nothing. */
  lemma NewInjective(c1: u8, p1: u16, q1: u16, c2: u8, p2: u16, q2: u16)
    ensures New(c1, p1, q1) == New(c2, p2, q2) <==> (c1, p1, q1) == (c2, p2, q2)
  {
    if New(c1, p1, q1) == New(c2, p2, q2) {
      DecodeNew(c1, p1, q1);
      DecodeNew(c2, p2, q2);
    }
  }

  /**
   * Overwriting the checksum, the command or a payload's low byte of a frame
   * that decodes with any other value makes the frame fail its checksum.
   */
  lemma ChecksumDetectsLowByteChange(data: seq<u8>, b: u8)
    requires Decode(data).Some?
    ensures b != data[4] ==> Decode(data[4 := b]).None?
    ensures b != data[5] ==> Decode(data[5 := b]).None?
    ensures b != data[8] ==> Decode(data[8 := b]).None?
    ensures b != data[11] ==> Decode(data[11 := b]).None?
  {
    var sum: int := data[5] as int + 0x0D + ReadBigEndian(data[7], data[8]) + ReadBigEndian(data[10], data[11]);
    if b != data[5] {
      var d := data[5 := b];
      assert d[7] == data[7] && d[8] == data[8] && d[10] == data[10] && d[11] == data[11];
      SumChangeDetected(sum, b as int - data[5] as int);
    }
    if b != data[8] {
      var d := data[8 := b];
      assert d[5] == data[5] && d[7] == data[7] && d[10] == data[10] && d[11] == data[11];
      SumChangeDetected(sum, b as int - data[8] as int);
    }
    if b != data[11] {
      var d := data[11 := b];
      assert d[5] == data[5] && d[7] == data[7] && d[8] == data[8] && d[10] == data[10];
      SumChangeDetected(sum, b as int - data[11] as int);
    }
  }

  /** Moving a sum by less than 256, but not by nothing, changes its low byte. */
  lemma SumChangeDetected(x: int, k: int)
    requires k != 0 && -0x100 < k < 0x100
    ensures (x + k) % 0x100 != x % 0x100
  {
    NearbyResidues(x + k, x);
  }

  /** Adding a multiple of 256 keeps the remainder. */
  lemma ModAddMultiple(x: int, k: int)
    ensures (x + 0x100 * k) % 0x100 == x % 0x100
  {
  }

  /** Two different numbers less than 256 apart leave different remainders. */
  lemma NearbyResidues(x: int, y: int)
    requires x != y && -0x100 < x - y < 0x100
    ensures x % 0x100 != y % 0x100
  {
  }

  /**
   * The checksum sums whole payloads, so a payload's high byte only reaches
   * it in multiples of 256: overwriting that byte of a frame gives exactly the
   * frame `new` builds for the other payload, which decodes as well.
   */
  lemma ChecksumBlindToHighBytes(command: u8, payload1: u16, payload2: u16, hi: u8)
    ensures New(command, payload1, payload2).data[7 := hi] == New(command, ReadBigEndian(hi, payload1 % 0x100), payload2).data
    ensures New(command, payload1, payload2).data[10 := hi] == New(command, payload1, ReadBigEndian(hi, payload2 % 0x100)).data
  {
    var k1 := HighByteShift(payload1, hi);
    var k2 := HighByteShift(payload2, hi);
    ChecksumShift(command, payload1, payload2, ReadBigEndian(hi, payload1 % 0x100), k1);
    ChecksumShift(command, payload2, payload1, ReadBigEndian(hi, payload2 % 0x100), k2);
  }

  /** Overwriting the high byte of `p` moves it by a multiple of 256. */
  lemma HighByteShift(p: u16, hi: u8) returns (k: int)
    ensures ReadBigEndian(hi, p % 0x100) == p + 0x100 * k
  {
    k := hi - p / 0x100;
  }

  /** Moving one payload by a multiple of 256 keeps the checksum. */
  lemma ChecksumShift(command: u8, p: u16, q: u16, p': u16, k: int)
    requires p' == p + 0x100 * k
    ensures Checksum(command, p', q) == Checksum(command, p, q)
    ensures Checksum(command, q, p') == Checksum(command, q, p)
  {
    ModAddMultiple(command + 0x0D + p + q, k);
    assert command + 0x0D + p' + q == command + 0x0D + p + q + 0x100 * k;
  }
}
