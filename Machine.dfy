/** The bytecode assembler of `struct VM`: a growing byte buffer, a table of
    named data blobs and a table of named resolved functions, and the call
    stubs `AddCall` appends for a registered function. */
module Machine {
  import opened Opcode
  import opened Encoding

  /** A resolved function, reduced to the four address bytes the call stub
      embeds. */
  datatype FunctionType = FunctionType(addressBytes: seq<u8>)

  /** What the platform loader reports when asked for a module and one of its
      exported functions; an entry is the address the function resolved to. */
  datatype Resolution = ModuleNotFound | SymbolNotFound | Resolved(entry: u32)

  /** The `FunctionType` constructor with the loader abstracted: it fails
      when either the module or the function cannot be found, and otherwise
      keeps the entry address as four little-endian bytes. */
  function Load(res: Resolution): (f: Option<FunctionType>)
    ensures f.Some? <==> res.Resolved?
    ensures f.Some? ==> |f.value.addressBytes| == 4
    ensures f.Some? ==> FromLittleEndian(f.value.addressBytes) == res.entry
  {
    match res
    case Resolved(entry) => Some(FunctionType(U32ToOp(entry)))
    case _ => None
  }

  /** The two bytes `push 0` (push imm8 with a zero immediate). */
  const PushZero: seq<u8> := [PushDir8, 0x00]

  /** The bytes `AddCall` emits for one argument: the `Val` case and the
      `default` case push a zero byte whatever the argument's value, the
      `Ptr` case emits nothing. */
  function PushBytes(arg: Arg): (r: seq<u8>)
    ensures r == if arg.kind == Ptr.Ordinal() then [] else PushZero
  {
    match Named(arg.kind)
    case Some(Val) => PushZero
    case Some(Ptr) => []
    case None => PushZero
  }

  /** The bytes emitted for an argument pack walked in the given order. */
  function ArgPushes(args: seq<Arg>): (r: seq<u8>)
    ensures |r| <= 2 * |args|
  {
    if args == [] then []
    else ArgPushes(args[..|args| - 1]) + PushBytes(args[|args| - 1])
  }

  /** How many arguments are not of kind `Ptr`. */
  function NonPtrCount(args: seq<Arg>): (n: nat)
    ensures n <= |args|
  {
    if args == [] then 0
    else (if args[0].kind == Ptr.Ordinal() then 0 else 1) + NonPtrCount(args[1..])
  }

  lemma ArgPushesPrefix(s: seq<Arg>, i: nat)
    requires i < |s|
    ensures ArgPushes(s[..i + 1]) == ArgPushes(s[..i]) + PushBytes(s[i])
  {
    assert s[..i + 1][..i] == s[..i];
  }

  /** Appending four pieces one at a time appends their concatenation. */
  lemma AppendFour(s: seq<u8>, a: seq<u8>, b: seq<u8>, c: seq<u8>, d: seq<u8>)
    ensures s + a + b + c + d == s + (a + b + c + d)
  {
  }

  /** The null argument is a `Val` holding 0, and it is pushed as `push 0`. */
  lemma NullArgPushesZero()
    ensures Named(NullArg.kind) == Some(Val) && NullArg.value == 0
    ensures PushBytes(NullArg) == [0x6A, 0x00]
  {
  }

  /** n copies of `push 0`. */
  function ZeroPushes(n: nat): (r: seq<u8>)
    ensures |r| == 2 * n
  {
    if n == 0 then [] else PushZero + ZeroPushes(n - 1)
  }

  /** A sequence in the opposite order (`std::reverse`). */
  function Reversed(s: seq<Arg>): (r: seq<Arg>)
    ensures |r| == |s|
  {
    if s == [] then [] else [s[|s| - 1]] + Reversed(s[..|s| - 1])
  }

  /** The call stub `AddCall` appends: one push per argument, rightmost
      first, then `mov eax, <address>` and `call eax`. */
  function CallStub(args: seq<Arg>, address: seq<u8>): (r: seq<u8>)
    ensures |address| + 3 <= |r| <= 2 * |args| + |address| + 3
    ensures r[|r| - |address| - 3..] == [0xB8] + address + [0xFF, 0xD0]
  {
    ArgPushes(Reversed(args)) + [MovEaxDir] + address + CallEax
  }

  lemma {:induction false} ReversedAt(s: seq<Arg>, k: nat)
    requires k < |s|
    ensures Reversed(s)[k] == s[|s| - 1 - k]
  {
    var init := s[..|s| - 1];
    if k == 0 {
      if |init| > 0 { ReversedAt(init, 0); }
    } else {
      ReversedAt(init, k - 1);
    }
  }

  lemma {:induction false} NonPtrCountSnoc(s: seq<Arg>, a: Arg)
    ensures NonPtrCount(s + [a]) == NonPtrCount(s) + (if a.kind == Ptr.Ordinal() then 0 else 1)
  {
    if s != [] {
      assert (s + [a])[1..] == s[1..] + [a];
      NonPtrCountSnoc(s[1..], a);
    }
  }

  lemma {:induction false} ZeroPushesSnoc(n: nat)
    ensures ZeroPushes(n + 1) == ZeroPushes(n) + PushZero
  {
    if n > 0 {
      ZeroPushesSnoc(n - 1);
    }
  }

  /** Reversing an argument pack does not change how many of its arguments
      are pushed. */
  lemma {:induction false} NonPtrCountReversed(s: seq<Arg>)
    ensures NonPtrCount(Reversed(s)) == NonPtrCount(s)
  {
    if s != [] {
      var init, last := s[..|s| - 1], s[|s| - 1];
      NonPtrCountReversed(init);
      assert [last] + Reversed(init) == Reversed(s);
      assert ([last] + Reversed(init))[1..] == Reversed(init);
      NonPtrCountSnoc(init, last);
      assert init + [last] == s;
    }
  }

  /** Whatever the kinds' order and the arguments' values, the pushes for an
      argument pack are one `push 0` per argument that is not a `Ptr`. */
  lemma {:induction false} ArgPushesAreZeroPushes(args: seq<Arg>)
    ensures ArgPushes(args) == ZeroPushes(NonPtrCount(args))
  {
    if args != [] {
      var init, last := args[..|args| - 1], args[|args| - 1];
      assert init + [last] == args;
      ArgPushesAreZeroPushes(init);
      NonPtrCountSnoc(init, last);
      ZeroPushesSnoc(NonPtrCount(init));
      assert ArgPushes(args) == ArgPushes(init) + PushBytes(last);
    }
  }

  /** The layout of a call stub: `6A 00` once per argument that is not a
      `Ptr`, then `B8`, the four address bytes, and `FF D0`. */
  lemma CallStubLayout(args: seq<Arg>, address: seq<u8>)
    ensures CallStub(args, address) ==
      ZeroPushes(NonPtrCount(args)) + ([0xB8] + address + [0xFF, 0xD0])
  {
    ArgPushesAreZeroPushes(Reversed(args));
    NonPtrCountReversed(args);
  }

  /** A call stub for a four-byte address is two bytes per pushed argument
      plus seven, and its last seven bytes are `mov eax, <address>` and
      `call eax`. */
  lemma CallStubLength(args: seq<Arg>, address: seq<u8>)
    requires |address| == 4
    ensures |CallStub(args, address)| == 2 * NonPtrCount(args) + 7
    ensures CallStub(args, address)[2 * NonPtrCount(args)..] == [0xB8] + address + [0xFF, 0xD0]
  {
    CallStubLayout(args, address);
  }

  /** What a call stub says: how many zero pushes precede the call, and the
      address called. */
  datatype StubShape = StubShape(pushes: nat, target: u32)

  /** Reads a byte string as a call stub: any number of `push 0`, then
      `mov eax, imm32` and `call eax` and nothing more. */
  function ParseStub(s: seq<u8>): (r: Option<StubShape>)
  {
    if |s| == 7 && s[0] == MovEaxDir && s[5..] == CallEax then
      Some(StubShape(0, OpToU32(s[1..5])))
    else if 2 <= |s| && s[..2] == PushZero then
      match ParseStub(s[2..])
      case Some(shape) => Some(StubShape(shape.pushes + 1, shape.target))
      case None => None
    else None
  }

  lemma ParseCall(addr: u32)
    ensures ParseStub([0xB8] + U32ToOp(addr) + [0xFF, 0xD0]) == Some(StubShape(0, addr))
  {
    var s := [0xB8] + U32ToOp(addr) + [0xFF, 0xD0];
    assert s[1..5] == U32ToOp(addr);
    assert s[5..] == CallEax;
    assert OpToU32(U32ToOp(addr)) == addr by {
      assert FromLittleEndian(U32ToOp(addr)) == addr;
    }
  }

  lemma ParsePush(rest: seq<u8>)
    requires ParseStub(rest).Some?
    ensures ParseStub(PushZero + rest) ==
      Some(StubShape(ParseStub(rest).value.pushes + 1, ParseStub(rest).value.target))
  {
    var s := PushZero + rest;
    assert s[0] != MovEaxDir by { StubOpcodesDistinct(); }
    assert s[..2] == PushZero && s[2..] == rest;
  }

  lemma {:induction false} ParseZeroPushes(n: nat, tail: seq<u8>, addr: u32)
    requires ParseStub(tail) == Some(StubShape(0, addr))
    ensures ParseStub(ZeroPushes(n) + tail) == Some(StubShape(n, addr))
  {
    if n == 0 {
      assert ZeroPushes(n) + tail == tail;
    } else {
      ParseZeroPushes(n - 1, tail, addr);
      assert ZeroPushes(n) + tail == PushZero + (ZeroPushes(n - 1) + tail);
      ParsePush(ZeroPushes(n - 1) + tail);
    }
  }

  /** The call stub for a registered entry address reads back as one push
      per pushed argument followed by a call of that address. */
  lemma CallStubParses(args: seq<Arg>, addr: u32)
    ensures ParseStub(CallStub(args, U32ToOp(addr))) == Some(StubShape(NonPtrCount(args), addr))
  {
    CallStubLayout(args, U32ToOp(addr));
    var tail := [0xB8] + U32ToOp(addr) + [0xFF, 0xD0];
    ParseCall(addr);
    ParseZeroPushes(NonPtrCount(args), tail, addr);
  }

  /** Every byte string that reads as a call stub is the stub for its shape. */
  lemma {:induction false} ParsedStubIsCallStub(s: seq<u8>)
    requires ParseStub(s).Some?
    ensures s == ZeroPushes(ParseStub(s).value.pushes) + [0xB8]
                 + U32ToOp(ParseStub(s).value.target) + [0xFF, 0xD0]
  {
    if |s| == 7 && s[0] == MovEaxDir && s[5..] == CallEax {
      assert s == [s[0]] + s[1..5] + s[5..];
    } else {
      ParsedStubIsCallStub(s[2..]);
      assert s == s[..2] + s[2..];
    }
  }

  /** `std::reverse` on an argument pack held in an array: the pack is
      reversed in place. */
  method ReverseArgs(a: array<Arg>)
    modifies a
    ensures a[..] == Reversed(old(a[..]))
  {
    var lo, hi := 0, a.Length;
    while lo + 1 < hi
      invariant 0 <= lo <= hi <= a.Length && lo + hi == a.Length
      invariant forall k :: 0 <= k < lo ==> a[k] == old(a[a.Length - 1 - k])
      invariant forall k :: hi <= k < a.Length ==> a[k] == old(a[a.Length - 1 - k])
      invariant forall k :: lo <= k < hi ==> a[k] == old(a[k])
    {
      a[lo], a[hi - 1] := a[hi - 1], a[lo];
      lo, hi := lo + 1, hi - 1;
    }
    ghost var before := old(a[..]);
    forall k | 0 <= k < a.Length
      ensures |Reversed(before)| == a.Length && a[..][k] == Reversed(before)[k]
    {
      ReversedAt(before, k);
    }
    if a.Length == 0 {
      assert before == [];
    }
  }

  /** The assembler: the machine code built so far, the named data blobs and
      the named resolved functions. */
  class VM {
    var bytecode: seq<u8>
    var dataObject: map<string, seq<u8>>
    var functionObject: map<string, FunctionType>

    /** Every registered function carries exactly four address bytes. */
    ghost predicate Valid()
      reads this`functionObject
    {
      forall name | name in functionObject :: |functionObject[name].addressBytes| == 4
    }

    constructor ()
      ensures Valid()
      ensures bytecode == [] && dataObject == map[] && functionObject == map[]
    {
      bytecode := [];
      dataObject := map[];
      functionObject := map[];
    }

    /** Stores a copy of the bytes of `data` under `name`, replacing any blob
        already stored there; no terminator is added. */
    method AddData(name: string, data: seq<u8>)
      modifies this`dataObject
      ensures dataObject == old(dataObject)[name := data]
      ensures bytecode == old(bytecode) && functionObject == old(functionObject)
    {
      dataObject := dataObject[name := data];
    }

    /** Registers the function the loader resolved under `internalName`,
        replacing any function registered there; when the loader fails the
        result is false and nothing changes. */
    method AddFunction(internalName: string, res: Resolution) returns (ok: bool)
      requires Valid()
      modifies this`functionObject
      ensures Valid()
      ensures ok <==> res.Resolved?
      ensures functionObject == if ok
        then old(functionObject)[internalName := FunctionType(U32ToOp(res.entry))]
        else old(functionObject)
      ensures bytecode == old(bytecode) && dataObject == old(dataObject)
    {
      var loaded := Load(res);
      if loaded.None? {
        return false;
      }
      functionObject := functionObject[internalName := loaded.value];
      return true;
    }

    /** Appends `ops` to the machine code. */
    method AddBytecode(ops: seq<u8>)
      modifies this`bytecode
      ensures bytecode == old(bytecode) + ops
      ensures dataObject == old(dataObject) && functionObject == old(functionObject)
    {
      bytecode := bytecode + ops;
    }

    /** `AddCall`'s loop over the (already reversed) argument pack: the
        `switch` on each argument's kind appends `push 0` for `Val` and for
        any unnamed kind, and nothing for `Ptr`. */
    method PushArgs(pack: array<Arg>)
      modifies this`bytecode
      ensures bytecode == old(bytecode) + ArgPushes(pack[..])
      ensures dataObject == old(dataObject) && functionObject == old(functionObject)
    {
      var i := 0;
      while i < pack.Length
        invariant 0 <= i <= pack.Length
        invariant bytecode == old(bytecode) + ArgPushes(pack[..i])
      {
        ArgPushesPrefix(pack[..], i);
        ghost var before := bytecode;
        match Named(pack[i].kind) {
          case Some(Val) =>
            AddBytecode([PushDir8, 0x00]);
          case Some(Ptr) =>
          case None =>
            AddBytecode([PushDir8, 0x00]);
        }
        assert bytecode == before + PushBytes(pack[i]);
        i := i + 1;
      }
      assert pack[..i] == pack[..];
    }

    /** Appends a call of the function registered as `funcName` with the
        arguments of `argPack`. An unknown name appends nothing and yields
        false; a registered one appends the call stub, two bytes per argument
        that is not a `Ptr` plus seven, and yields true. Neither table
        changes. */
    method AddCall(funcName: string, argPack: seq<Arg>) returns (ok: bool)
      requires Valid()
      modifies this`bytecode
      ensures ok <==> funcName in functionObject
      ensures dataObject == old(dataObject) && functionObject == old(functionObject)
      ensures bytecode == if ok
        then old(bytecode) + CallStub(argPack, functionObject[funcName].addressBytes)
        else old(bytecode)
      ensures |bytecode| == |old(bytecode)| + if ok then 2 * NonPtrCount(argPack) + 7 else 0
    {
      if funcName !in functionObject {
        return false;
      }
      var pack := new Arg[|argPack|](i requires 0 <= i < |argPack| => argPack[i]);
      assert pack[..] == argPack;
      ReverseArgs(pack);
      PushArgs(pack);
      ghost var pushes := ArgPushes(Reversed(argPack));
      assert bytecode == old(bytecode) + pushes;
      var address := functionObject[funcName].addressBytes;
      AddBytecode([MovEaxDir]);
      AddBytecode(address);
      AddBytecode(CallEax);
      AppendFour(old(bytecode), pushes, [MovEaxDir], address, CallEax);
      CallStubLength(argPack, address);
      return true;
    }
  }

  /** The program the demonstration host builds: it registers one function,
      ignoring whether that succeeded, calls it with four null arguments and
      appends a return. When the loader resolves the function the program
      is sixteen bytes; when it does not, the call is refused and the program
      is the return alone. */
  method DemoProgram(res: Resolution) returns (vm: VM)
    ensures fresh(vm)
    ensures vm.bytecode == if res.Resolved?
      then ZeroPushes(4) + [0xB8] + U32ToOp(res.entry) + [0xFF, 0xD0, 0xC3]
      else [0xC3]
    ensures |vm.bytecode| == if res.Resolved? then 16 else 1
  {
    vm := new VM();
    var registered := vm.AddFunction("messagebox", res);
    var args := [NullArg, NullArg, NullArg, NullArg];
    var called := vm.AddCall("messagebox", args);
    if res.Resolved? {
      assert NonPtrCount(args[3..]) == 1;
      assert NonPtrCount(args[2..]) == 2;
      assert NonPtrCount(args[1..]) == 3;
      CallStubLayout(args, U32ToOp(res.entry));
    }
    vm.AddBytecode(Ret);
  }
}
