/**
  Modbus RTU framing: the CRC-16 of section 6.2.2 of the Modbus over Serial
  Line Specification and Implementation Guide V1.02, and the function code
  0x06 "Write Single Register" request of section 6.6 of the Modbus
  Application Protocol Specification V1.1b3.

  Python integers are unbounded, so the register is an `int` here as well;
  `x & 1`, `x >> 1` and `x & 0xFF`, `x >> 8` on non-negative integers are
  `x % 2`, `x / 2`, `x % 256` and `x / 256`, and `^` is `Xor` below.
 */
module Modbus {
  import opened Wrappers

  type byte = b: int | 0 <= b < 0x100

  /** The 16-bit quantity whose high byte is `hi` and low byte is `lo`. */
  function Word(hi: byte, lo: byte): int {
    256 * hi as int + lo
  }

  const CrcInit: nat := 0xFFFF
  /** The generator polynomial 0x8005, bit-reflected. */
  const CrcPoly: nat := 0xA001
  const WriteSingleRegister: byte := 0x06

  function Pow2(n: nat): (r: nat)
    ensures r >= 1
  {
    if n == 0 then 1 else 2 * Pow2(n - 1)
  }

  /** Python's `a ^ b` on non-negative integers, bit by bit from the lowest. */
  function Xor(a: nat, b: nat): nat
    decreases a + b
  {
    if a == 0 && b == 0 then 0
    else 2 * Xor(a / 2, b / 2) + (if a % 2 == b % 2 then 0 else 1)
  }

  lemma Pow2Sixteen()
    ensures Pow2(8) == 0x100 && Pow2(16) == 0x1_0000
  {
    assert Pow2(4) == 16;
    assert Pow2(8) == 256;
    assert Pow2(12) == 4096;
  }

  /** Xor never sets a bit above the operands' width. */
  lemma {:induction false} XorBound(a: nat, b: nat, n: nat)
    requires a < Pow2(n) && b < Pow2(n)
    ensures Xor(a, b) < Pow2(n)
    decreases n
  {
    if n > 0 && (a != 0 || b != 0) {
      XorBound(a / 2, b / 2, n - 1);
    }
  }

  /** Xor of two 16-bit quantities is a 16-bit quantity. */
  lemma Xor16(a: nat, b: nat)
    requires a < 0x1_0000 && b < 0x1_0000
    ensures Xor(a, b) < 0x1_0000
  {
    Pow2Sixteen();
    XorBound(a, b, 16);
  }

  lemma {:induction false} XorSelf(a: nat)
    ensures Xor(a, a) == 0
    decreases a
  {
    if a != 0 {
      XorSelf(a / 2);
    }
  }

  lemma {:induction false} XorZero(a: nat)
    ensures Xor(a, 0) == a
    decreases a
  {
    if a != 0 {
      XorZero(a / 2);
    }
  }

  /** Xoring the low `k` bits of a number with themselves clears them. */
  lemma {:induction false} XorClearsLow(h: nat, l: nat, k: nat)
    requires l < Pow2(k)
    ensures Xor(Pow2(k) * h + l, l) == Pow2(k) * h
    decreases k
  {
    if k == 0 {
      XorZero(h);
    } else {
      var p := Pow2(k - 1) * h;
      assert Pow2(k) * h == 2 * p;
      var x := 2 * p + l;
      if x != 0 || l != 0 {
        assert x / 2 == p + l / 2 && x % 2 == l % 2;
        XorClearsLow(h, l / 2, k - 1);
      }
    }
  }

  /** One shift of the CRC register, xoring the polynomial when a 1 falls out. */
  function ShiftOnce(c: nat): (r: nat)
    requires c < 0x1_0000
    ensures r < 0x1_0000
  {
    if c % 2 == 1 then
      Xor16(c / 2, CrcPoly);
      Xor(c / 2, CrcPoly)
    else c / 2
  }

  /** `n` shifts of the CRC register. */
  function ShiftBits(c: nat, n: nat): (r: nat)
    requires c < 0x1_0000
    ensures r < 0x1_0000
  {
    if n == 0 then c else ShiftOnce(ShiftBits(c, n - 1))
  }

  /** Feeding one byte to the register: xor it into the low byte, then eight shifts. */
  function Absorb(c: nat, b: byte): (r: nat)
    requires c < 0x1_0000
    ensures r < 0x1_0000
  {
    Xor16(c, b);
    ShiftBits(Xor(c, b), 8)
  }

  /** The CRC-16/MODBUS register after every byte of `data`, first byte first; it never leaves 16 bits. */
  function Crc(data: seq<byte>): (r: nat)
    ensures r < 0x1_0000
  {
    if |data| == 0 then CrcInit else Absorb(Crc(data[..|data| - 1]), data[|data| - 1])
  }

  /** `crc.to_bytes(2, byteorder='little')`: low byte first. */
  function CrcBytes(c: nat): (r: seq<byte>)
    requires c < 0x1_0000
    ensures |r| == 2 && Word(r[1], r[0]) == c
  {
    [c % 256, c / 256]
  }

  /**
    `calculate_crc`.  The loop is the Python one; the register stays within
    16 bits across every xor and shift, so `to_bytes(2, ...)` cannot
    overflow, and the two bytes are those of the reference definition.
   */
  method CalculateCrc(data: seq<byte>) returns (crc: seq<byte>)
    ensures |crc| == 2
    ensures crc == CrcBytes(Crc(data))
  {
    var reg: nat := 0xFFFF;
    var i := 0;
    while i < |data|
      invariant 0 <= i <= |data|
      invariant reg < 0x1_0000
      invariant reg == Crc(data[..i])
    {
      Xor16(reg, data[i]);
      reg := Xor(reg, data[i]);
      ghost var start := reg;
      var bit := 0;
      while bit < 8
        invariant 0 <= bit <= 8
        invariant reg < 0x1_0000
        invariant reg == ShiftBits(start, bit)
      {
        if reg % 2 == 1 {
          reg := reg / 2;
          Xor16(reg, 0xA001);
          reg := Xor(reg, 0xA001);
        } else {
          reg := reg / 2;
        }
        bit := bit + 1;
      }
      assert data[..i + 1][..i] == data[..i];
      i := i + 1;
    }
    assert data[..i] == data;
    crc := [reg % 256, reg / 256];
  }

  /** The CRC of no bytes is the initial register, sent as FF FF. */
  lemma CrcOfEmpty()
    ensures Crc([]) == 0xFFFF
    ensures CrcBytes(Crc([])) == [0xFF, 0xFF]
  {
  }

  /** A shift of an even register halves it. */
  lemma ShiftOnceDouble(a: nat, h: nat)
    requires Pow2(a + 1) * h < 0x1_0000
    ensures ShiftOnce(Pow2(a + 1) * h) == Pow2(a) * h
  {
    var p := Pow2(a) * h;
    assert Pow2(a + 1) * h == 2 * p;
  }

  /** While only zero bits fall out, the shifts divide by two. */
  lemma {:induction false} ShiftMultiple(h: nat, k: nat, j: nat)
    requires j <= k && Pow2(k) * h < 0x1_0000
    ensures ShiftBits(Pow2(k) * h, j) == Pow2(k - j) * h
  {
    if j > 0 {
      ShiftMultiple(h, k, j - 1);
      assert k - (j - 1) == (k - j) + 1;
      ShiftOnceDouble(k - j, h);
    }
  }

  lemma {:induction false} ShiftZero(n: nat)
    ensures ShiftBits(0, n) == 0
  {
    if n > 0 {
      ShiftZero(n - 1);
    }
  }

  /**
    The receiver's check: running the CRC over a message followed by its own
    CRC bytes leaves the register at zero.
   */
  lemma {:induction false} CrcResidueZero(data: seq<byte>)
    ensures Crc(data + CrcBytes(Crc(data))) == 0
  {
    var c := Crc(data);
    var lo, hi := c % 256, c / 256;
    var whole := data + CrcBytes(c);
    assert whole[..|whole| - 1] == data + [lo];
    assert (data + [lo])[..|data|] == data;
    assert Crc(data + [lo]) == Absorb(c, lo);
    AbsorbOwnLowByte(c);
    AbsorbSelf(hi);
  }

  /** Absorbing the register's own low byte leaves its high byte. */
  lemma AbsorbOwnLowByte(c: nat)
    requires c < 0x1_0000
    ensures Absorb(c, c % 256) == c / 256
  {
    Pow2Sixteen();
    var lo, hi := c % 256, c / 256;
    var high := Pow2(8) * hi;
    assert high == 256 * hi;
    assert c == high + lo;
    XorClearsLow(hi, lo, 8);
    assert Xor(c, lo) == high;
    ShiftMultiple(hi, 8, 8);
    assert ShiftBits(high, 8) == Pow2(0) * hi;
  }

  /** Absorbing a byte equal to the register clears it. */
  lemma AbsorbSelf(b: byte)
    ensures Absorb(b, b) == 0
  {
    XorSelf(b);
    ShiftZero(8);
  }

  /** A decoded Write Single Register request. */
  datatype WriteRequest = WriteRequest(slaveId: int, register: int, value: int)

  /**
    `generate_write_command`: slave id, function code 0x06, register address
    and value big-endian, then the CRC.  The register goes out unchanged (no
    one-based adjustment).  Python's `bytearray.append` raises `ValueError`
    for anything outside 0..255, so an id beyond one byte, or a register or
    value that is negative or beyond 16 bits, yields no frame.
   */
  function GenerateWriteCommand(slaveId: int, register: int, value: int): (r: Option<seq<byte>>)
    ensures r.Some? <==> 0 <= slaveId < 0x100 && 0 <= register < 0x1_0000 && 0 <= value < 0x1_0000
    ensures r.Some? ==> |r.value| == 8
    ensures r.Some? ==> r.value[0] == slaveId && r.value[1] == WriteSingleRegister
    ensures r.Some? ==> Word(r.value[2], r.value[3]) == register
    ensures r.Some? ==> Word(r.value[4], r.value[5]) == value
    ensures r.Some? ==> r.value[6..] == CrcBytes(Crc(r.value[..6]))
  {
    if 0 <= slaveId < 0x100 && 0 <= register < 0x1_0000 && 0 <= value < 0x1_0000 then
      var pdu: seq<byte> := [slaveId, WriteSingleRegister] + BigEndian(register) + BigEndian(value);
      Some(AppendCrc(pdu))
    else
      None
  }

  /** A 16-bit quantity as two bytes, high byte first: `x >> 8` then `x & 0xFF`. */
  function BigEndian(x: int): (r: seq<byte>)
    requires 0 <= x < 0x1_0000
    ensures |r| == 2 && Word(r[0], r[1]) == x
  {
    [x / 256, x % 256]
  }

  /** A message followed by its CRC, low byte first: a receiver finds a zero residue. */
  function AppendCrc(pdu: seq<byte>): (r: seq<byte>)
    ensures |r| == |pdu| + 2 && r[..|pdu|] == pdu && r[|pdu|..] == CrcBytes(Crc(pdu))
    ensures Crc(r) == 0
  {
    CrcResidueZero(pdu);
    pdu + CrcBytes(Crc(pdu))
  }

  /** What a receiving slave accepts: eight bytes, function code 0x06, matching CRC. */
  function ParseWriteCommand(frame: seq<byte>): (r: Option<WriteRequest>)
    ensures r.Some? ==> |frame| == 8 && frame[1] == WriteSingleRegister && Crc(frame) == 0
  {
    if |frame| == 8 && frame[1] == WriteSingleRegister && frame[6..] == CrcBytes(Crc(frame[..6])) then
      assert frame == frame[..6] + CrcBytes(Crc(frame[..6]));
      CrcResidueZero(frame[..6]);
      Some(WriteRequest(frame[0], Word(frame[2], frame[3]), Word(frame[4], frame[5])))
    else
      None
  }

  /** A generated frame passes the receiver's check and carries exactly the request. */
  lemma WriteCommandRoundTrip(slaveId: int, register: int, value: int)
    requires GenerateWriteCommand(slaveId, register, value).Some?
    ensures ParseWriteCommand(GenerateWriteCommand(slaveId, register, value).value)
         == Some(WriteRequest(slaveId, register, value))
  {
  }

  /** Every frame the receiver accepts is the one the generator builds for its request. */
  lemma ParsedFrameIsGenerated(frame: seq<byte>)
    requires ParseWriteCommand(frame).Some?
    ensures var q := ParseWriteCommand(frame).value;
      GenerateWriteCommand(q.slaveId, q.register, q.value) == Some(frame)
  {
    var q := ParseWriteCommand(frame).value;
    BigEndianOfWord(frame[2], frame[3]);
    BigEndianOfWord(frame[4], frame[5]);
    var pdu: seq<byte> := [q.slaveId, WriteSingleRegister] + BigEndian(q.register) + BigEndian(q.value);
    assert pdu == frame[..6];
    assert AppendCrc(pdu) == frame[..6] + frame[6..] == frame;
  }

  /** Splitting a 16-bit word into bytes gives back the bytes it was made of. */
  lemma BigEndianOfWord(hi: byte, lo: byte)
    ensures BigEndian(Word(hi, lo)) == [hi, lo]
  {
  }
}
