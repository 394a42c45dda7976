/**
  Octets, fixed-width unsigned integers and their big-endian encodings.

  Dafny's integers are unbounded, so every place where the Go program converts to a
  narrower type is written as an explicit `ToU8` or `ToU16`.
  */
module Bytes {

  type byte = x: int | 0 <= x < 0x100
  type u16 = x: int | 0 <= x < 0x1_0000
  type u32 = x: int | 0 <= x < 0x1_0000_0000

  /** Go's `uint8(n)`. */
  function ToU8(n: nat): byte { n % 0x100 }

  /** Go's `uint16(n)`. */
  function ToU16(n: nat): u16 { n % 0x1_0000 }

  function PutU16(x: u16): seq<byte> {
    [x / 0x100, x % 0x100]
  }

  function GetU16(b: seq<byte>): u16
    requires |b| >= 2
  {
    b[0] as int * 0x100 + b[1]
  }

  function PutU32(x: u32): seq<byte> {
    PutU16(x / 0x1_0000) + PutU16(x % 0x1_0000)
  }

  function GetU32(b: seq<byte>): u32
    requires |b| >= 4
  {
    GetU16(b) as int * 0x1_0000 + GetU16(b[2..])
  }

  lemma GetPutU16(x: u16, rest: seq<byte>)
    ensures |PutU16(x)| == 2
    ensures GetU16(PutU16(x) + rest) == x
  {
  }

  lemma PutGetU16(b: seq<byte>)
    requires |b| >= 2
    ensures PutU16(GetU16(b)) == b[..2]
  {
  }

  lemma GetPutU32(x: u32, rest: seq<byte>)
    ensures |PutU32(x)| == 4
    ensures GetU32(PutU32(x) + rest) == x
  {
    assert (PutU32(x) + rest)[2..] == PutU16(x % 0x1_0000) + rest;
  }

  lemma PutGetU32(b: seq<byte>)
    requires |b| >= 4
    ensures PutU32(GetU32(b)) == b[..4]
  {
    var hi, lo := GetU16(b), GetU16(b[2..]);
    assert GetU32(b) / 0x1_0000 == hi && GetU32(b) % 0x1_0000 == lo;
    PutGetU16(b);
    PutGetU16(b[2..]);
  }
}
