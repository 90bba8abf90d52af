/** The byte alphabet of the call-stub assembler: the byte and word types,
    the kinds an argument can have, the null argument, and the 32-bit x86
    opcode bytes the assembler emits (or defines without emitting). */
module Opcode {

  /** One byte of machine code (`OpType`, an unsigned 8-bit integer). */
  type u8 = x: int | 0 <= x < 0x100

  /** An unsigned 32-bit integer (`uint32_t`). */
  type u32 = x: int | 0 <= x < 0x1_0000_0000

  /** The two named kinds of an argument. */
  datatype ArgType = Val | Ptr {
    /** The integer the enumeration stores for this kind. */
    function Ordinal(): (n: nat)
      ensures n < 2
      ensures this == Val <==> n == 0
    {
      match this
      case Val => 0
      case Ptr => 1
    }
  }

  /** Reads a stored enumeration value back as a named kind: exactly the
      ordinals 0 and 1 name a kind, and each names the kind it came from. */
  function Named(code: int): (r: Option<ArgType>)
    ensures r.Some? <==> 0 <= code < 2
    ensures r.Some? ==> r.value.Ordinal() == code
  {
    if code == 0 then Some(Val)
    else if code == 1 then Some(Ptr)
    else None
  }

  /** An argument as the assembler receives it: the stored kind value and a
      32-bit payload (`std::pair<ArgType, uint32_t>`). The kind is kept as the
      raw stored integer so that a value matching no named kind can be
      represented, as the assembler's `default` branch allows for. */
  datatype Arg = Arg(kind: int, value: u32)

  datatype Option<T> = None | Some(value: T)

  /** The null argument: kind `Val`, payload 0. */
  const NullArg: Arg := Arg(Val.Ordinal(), 0)

  /** call eax (CALL r/m32, /2 with ModR/M D0). */
  const CallEax: seq<u8> := [0xFF, 0xD0]
  /** call dword ptr [m32] (CALL r/m32, /2 with ModR/M 15); never emitted. */
  const CallRef: seq<u8> := [0xFF, 0x15]
  /** Near return. */
  const Ret: seq<u8> := [0xC3]

  /** push imm8. */
  const PushDir8: u8 := 0x6A
  /** push imm32; never emitted. */
  const PushDir32: u8 := 0x68
  /** push dword ptr [m32] (PUSH r/m32, /6 with ModR/M 35); never emitted. */
  const PushRef32: seq<u8> := [0xFF, 0x35]

  /** mov eax, imm32. */
  const MovEaxDir: u8 := 0xB8
  /** mov eax, moffs32; never emitted. */
  const MovEaxRef: u8 := 0xA1

  /** int3, the debug break. */
  const Brk: u8 := 0xCC

  /** The three instructions a call stub is made of (`push imm8`,
      `mov eax, imm32`, `call eax`) start with three different bytes, so a
      stub can be read back unambiguously. */
  lemma StubOpcodesDistinct()
    ensures PushDir8 != MovEaxDir && PushDir8 != CallEax[0] && MovEaxDir != CallEax[0]
  {
  }
}
