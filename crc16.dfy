/**
 * CRC-16/CCITT-FALSE, the checksum `crc16ccitt` of the `crc` package computes:
 * polynomial 0x1021 (ISO/IEC 13239), register preset to 0xFFFF, bytes fed most
 * significant bit first, no reflection and no final XOR. Section 4.7.2 of the
 * EMV QR Code Specification for Payment Systems (Merchant-Presented Mode)
 * prescribes it for the CRC data object, ID "63".
 */
module Crc16 {
  import opened Utf8

  const Polynomial: bv16 := 0x1021
  const Initial: bv16 := 0xFFFF

  /** One clock of the register: shift left; if a one fell out, XOR in the polynomial. */
  function Shift(crc: bv16): bv16 {
    if crc & 0x8000 != 0 then (crc << 1) ^ Polynomial else crc << 1
  }

  /** One byte, as byte-wise implementations do it: XOR the byte into the top of
      the register, then clock it eight times. */
  function Absorb(crc: bv16, x: bv16): bv16 {
    var r := crc ^ (x << 8);
    Shift(Shift(Shift(Shift(Shift(Shift(Shift(Shift(r))))))))
  }

  function UpdateByte(crc: bv16, b: byte): bv16 {
    Absorb(crc, b as bv16)
  }

  /** The register after feeding `data`, first byte first. */
  function Update(crc: bv16, data: seq<byte>): bv16
    decreases |data|
  {
    if data == [] then crc else Update(UpdateByte(crc, data[0]), data[1..])
  }

  /** `crc16ccitt(data)`: a number in 0 .. 0xFFFF. */
  function Checksum(data: seq<byte>): (r: nat)
    ensures r < 0x10000
  {
    Update(Initial, data) as nat
  }

  // ---------------------------------------------------------------------------
  // Properties of the checksum
  // ---------------------------------------------------------------------------

  /** Feeding two pieces one after the other is feeding their concatenation. */
  lemma {:induction false} UpdateAppend(crc: bv16, a: seq<byte>, b: seq<byte>)
    ensures Update(crc, a + b) == Update(Update(crc, a), b)
    decreases |a|
  {
    if a == [] {
      assert a + b == b;
    } else {
      assert (a + b)[0] == a[0];
      assert (a + b)[1..] == a[1..] + b;
      UpdateAppend(UpdateByte(crc, a[0]), a[1..], b);
    }
  }

  /** The register a CRC leaves, fed its own two bytes high byte first, is zero:
      a receiver that runs the CRC over message and checksum sees no remainder. */
  lemma RegisterClearsOnOwnValue(crc: bv16)
    ensures Absorb(Absorb(crc, crc >> 8), crc & 0xFF) == 0
  {
  }

  /** The catalogue check value of CRC-16/CCITT-FALSE: the ASCII digits
      "123456789" give 0x29B1. */
  lemma CheckValue()
    ensures Checksum([0x31, 0x32, 0x33, 0x34, 0x35, 0x36, 0x37, 0x38, 0x39]) == 0x29B1
  {
    assert UpdateByte(0xFFFF, 0x31) == 0xC782;
    assert UpdateByte(0xC782, 0x32) == 0x3DBA;
    assert UpdateByte(0x3DBA, 0x33) == 0x5BCE;
    assert UpdateByte(0x5BCE, 0x34) == 0x5349;
    assert UpdateByte(0x5349, 0x35) == 0x4560;
    assert UpdateByte(0x4560, 0x36) == 0x2EF4;
    assert UpdateByte(0x2EF4, 0x37) == 0x7718;
    assert UpdateByte(0x7718, 0x38) == 0xA12B;
    assert UpdateByte(0xA12B, 0x39) == 0x29B1;
  }
}
