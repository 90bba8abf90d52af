/** Little-endian byte encoding of unsigned integers, as `VM::u32ToOp`
    and the address copy in `FunctionType` perform it with `memcpy` on a
    little-endian (x86) host. */
module Encoding {
  import opened Opcode

  /** 256 to the power n: the number of values n bytes can hold. */
  function Pow256(n: nat): (p: nat)
    ensures p > 0
  {
    if n == 0 then 1 else 256 * Pow256(n - 1)
  }

  /** Four bytes hold exactly the 32-bit values. */
  lemma Pow256Four()
    ensures Pow256(4) == 0x1_0000_0000
  {
    assert Pow256(2) == 0x1_0000;
  }

  /** The n low-order bytes of x, least significant first. */
  function ToLittleEndian(x: nat, n: nat): (r: seq<u8>)
    ensures |r| == n
  {
    if n == 0 then [] else [x % 256] + ToLittleEndian(x / 256, n - 1)
  }

  /** The value of a little-endian byte string; it always fits in as many
      bytes as the string has. */
  function FromLittleEndian(s: seq<u8>): (v: nat)
    ensures v < Pow256(|s|)
  {
    if s == [] then 0
    else
      var rest := FromLittleEndian(s[1..]);
      assert rest <= Pow256(|s| - 1) - 1;
      assert 256 * rest <= 256 * Pow256(|s| - 1) - 256;
      s[0] + 256 * rest
  }

  /** Decoding the n-byte encoding of a value that fits in n bytes gives the
      value back. */
  lemma {:induction false} DecodeEncode(x: nat, n: nat)
    requires x < Pow256(n)
    ensures FromLittleEndian(ToLittleEndian(x, n)) == x
  {
    if n > 0 {
      var e := ToLittleEndian(x, n);
      assert e[1..] == ToLittleEndian(x / 256, n - 1);
      assert x / 256 < Pow256(n - 1);
      DecodeEncode(x / 256, n - 1);
    }
  }

  /** Encoding the value of a byte string in as many bytes gives the string
      back. */
  lemma {:induction false} EncodeDecode(s: seq<u8>)
    ensures ToLittleEndian(FromLittleEndian(s), |s|) == s
  {
    if s != [] {
      var v := FromLittleEndian(s);
      var rest := FromLittleEndian(s[1..]);
      assert v == s[0] + 256 * rest;
      assert v % 256 == s[0] && v / 256 == rest;
      EncodeDecode(s[1..]);
      assert ToLittleEndian(v, |s|) == [s[0]] + s[1..];
    }
  }

  /** `VM::u32ToOp`: the four bytes of a 32-bit value, least significant
      first; reading them back as a little-endian number gives the value. */
  function U32ToOp(addr: u32): (r: seq<u8>)
    ensures |r| == 4
    ensures FromLittleEndian(r) == addr
  {
    Pow256Four();
    DecodeEncode(addr, 4);
    ToLittleEndian(addr, 4)
  }

  /** The inverse of `U32ToOp` on four-byte strings. */
  function OpToU32(b: seq<u8>): (v: u32)
    requires |b| == 4
    ensures U32ToOp(v) == b
  {
    Pow256Four();
    EncodeDecode(b);
    FromLittleEndian(b)
  }

  /** The byte layout `U32ToOp` produces, spelled out. */
  lemma U32ToOpBytes(addr: u32)
    ensures U32ToOp(addr) ==
      [addr % 0x100, addr / 0x100 % 0x100, addr / 0x1_0000 % 0x100, addr / 0x100_0000]
  {
    var b := U32ToOp(addr);
    assert b == [addr % 256] + ToLittleEndian(addr / 256, 3);
    assert ToLittleEndian(addr / 256, 3) == [addr / 256 % 256] + ToLittleEndian(addr / 256 / 256, 2);
    assert ToLittleEndian(addr / 256 / 256, 2) == [addr / 256 / 256 % 256] + ToLittleEndian(addr / 256 / 256 / 256, 1);
    assert addr / 256 / 256 == addr / 0x1_0000;
    assert addr / 256 / 256 / 256 == addr / 0x100_0000;
    assert addr / 0x100_0000 < 256;
  }
}
