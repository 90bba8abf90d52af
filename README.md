# ObsidianVM call-stub assembler, modelled in Dafny

ObsidianVM builds 32-bit x86 machine code at run time. A `VM` holds a
growing byte buffer (`bytecode`), a table of named data blobs
(`data_object`) and a table of named resolved functions
(`function_object`). `AddCall` appends a call stub for a registered
function: it reverses the argument pack, emits `push 0` (`6A 00`) for every
argument whose kind is not `Ptr`, then `mov eax, <address>` (`B8` and the
four address bytes) and `call eax` (`FF D0`). `AddBytecode` appends raw
bytes, `AddData` stores a blob, `AddFunction` registers a loaded function
and `u32ToOp` turns a 32-bit value into its four little-endian bytes.

The project has three modules:

- `Opcode` (`Opcode.dfy`) holds the byte and word types, the `ArgType`
  kinds `Val` and `Ptr`, the argument pair, the null argument and the x86
  opcode bytes from `Opcode.h`. The opcodes `CallRef`, `PushRef32`,
  `MovEaxRef`, `PushDir32` and `Brk` are kept as constants only, because
  the assembler never emits them (`Exec` breaks into the debugger through
  a compiler intrinsic, not through `Brk`).
- `Encoding` (`Encoding.dfy`) holds the little-endian codec behind
  `u32ToOp` and the address copy in the `FunctionType` constructor. Both
  round trips are proved.
- `Machine` (`Machine.dfy`) holds the call-stub specification functions and
  their lemmas, and the class `VM`. The class has `seq`/`map` fields, and
  its methods update them in place with `modifies` frames. `AddCall` copies
  its argument pack into a local array and reverses it in place
  (`ReverseArgs`, modelling `std::reverse`). It then walks the array in a
  loop (`PushArgs`, holding the `switch`) and appends the `mov`/`call`
  tail. `ParseStub` reads stub bytes back, and `CallStubParses` and
  `ParsedStubIsCallStub` prove that it inverts `CallStub`.

An argument's kind is kept as the integer the enumeration stores. A value
that matches no named kind can therefore be represented, and the model's
`switch` has the source's three branches (`Val`, `Ptr`, `default`).

Every non-`Ptr` argument becomes the 2-byte `push 0` whatever its value. A
`Ptr` argument emits nothing. Blobs carry no NUL terminator. Both tables are
keyed by the caller's string name. A successful stub grows the buffer by
`2 * (non-Ptr count) + 7` bytes.

## Model

| member | source | states |
|---|---|---|
| `Opcode.Named` | ObsidianVM/Opcode.h:8-12 | exactly the stored values 0 and 1 name a kind (`Val`, `Ptr`), and each names the kind whose ordinal it is |
| `Opcode.StubOpcodesDistinct` | ObsidianVM/Opcode.h:16-24 | the three instructions a call stub is made of (`6A` push imm8, `B8` mov eax imm32, `FF D0` call eax) start with distinct bytes, so a stub reads back unambiguously |
| `Machine.NullArgPushesZero` | ObsidianVM/Opcode.h:14 | the null argument is (`Val`, 0) and is emitted as `6A 00` |
| `Encoding.U32ToOp` | ObsidianVM/main.cpp:133-140 | `u32ToOp` yields exactly four bytes, and reading them as a little-endian number gives back the input |
| `Encoding.U32ToOpBytes` | ObsidianVM/main.cpp:133-140 | the four bytes are the value's bytes from least to most significant |
| `Encoding.OpToU32` | ObsidianVM/main.cpp:133-140 | every 4-byte string is `u32ToOp` of exactly one value (its little-endian reading), so the encoding is onto the 4-byte strings |
| `Encoding.DecodeEncode` | ObsidianVM/main.cpp:135-137 | copying the n low bytes of a value that fits in n bytes and reading them back gives the value |
| `Encoding.EncodeDecode` | ObsidianVM/main.cpp:135-137 | reading a byte string and copying the value back into as many bytes gives the string |
| `Machine.Load` | ObsidianVM/main.cpp:18-32 | a function record exists exactly when both the module and the symbol were found, and its `AddressBytes` are 4 bytes whose little-endian reading is the entry address |
| `Machine.PushBytes` | ObsidianVM/main.cpp:79-91 | an argument of kind `Ptr` emits no bytes; `Val` and any unnamed kind emit `6A 00`, whatever the value |
| `Machine.ArgPushesAreZeroPushes` | ObsidianVM/main.cpp:77-92 | the bytes the argument loop emits are one `6A 00` per non-`Ptr` argument, independent of values and order |
| `Machine.NonPtrCountReversed` | ObsidianVM/main.cpp:75 | reversing the pack does not change how many arguments are pushed |
| `Machine.CallStubLayout` | ObsidianVM/main.cpp:75-96 | a call stub is `6A 00` per non-`Ptr` argument, then `B8`, the address bytes, then `FF D0` |
| `Machine.CallStubLength` | ObsidianVM/main.cpp:77-96 | with a 4-byte address the stub has `2 * (non-Ptr count) + 7` bytes, and its last seven are `B8`, the address, `FF D0` |
| `Machine.CallStubParses` | ObsidianVM/main.cpp:77-96 | the stub for an entry address reads back as the non-`Ptr` count of pushes and a call of that address |
| `Machine.ParsedStubIsCallStub` | ObsidianVM/main.cpp:77-96 | every byte string that reads as a stub is the stub for the shape read |
| `Machine.ReverseArgs` | ObsidianVM/main.cpp:75 | reversing the argument array in place leaves it holding the reverse of its old contents |
| `Machine.VM.constructor` | ObsidianVM/main.cpp:46-48 | a new VM has an empty buffer and empty tables, and every registered function has 4 address bytes |
| `Machine.VM.AddData` | ObsidianVM/main.cpp:50-54 | the blob under the name becomes exactly the given bytes, with no terminator; other entries, the buffer and the function table are unchanged |
| `Machine.VM.AddFunction` | ObsidianVM/main.cpp:56-68 | the result is true exactly when resolution succeeded; on success the name maps to the new record, which replaces any old one; on failure the table is unchanged; the 4-byte invariant is kept |
| `Machine.VM.AddBytecode` | ObsidianVM/main.cpp:101-104 | the new buffer is the old buffer followed by the given bytes; the tables are unchanged |
| `Machine.VM.PushArgs` | ObsidianVM/main.cpp:77-92 | the loop appends the `switch`'s bytes for each argument in array order |
| `Machine.VM.AddCall` | ObsidianVM/main.cpp:70-99 | the result is true exactly when the name is registered; an unknown name leaves the buffer unchanged; a known one appends the call stub for the reversed pack and the function's address, so the buffer grows by `2 * (non-Ptr count) + 7`; neither table changes |
| `Machine.DemoProgram` | ObsidianVM/main.cpp:158-162 | the host's program (one function, four null arguments, then `ret`): when the loader resolves the function it is `6A 00` four times, `B8`, the address, `FF D0 C3`, 16 bytes; when it does not, the ignored `AddFunction` failure makes `AddCall` refuse and the program is `C3` alone |

## Left out

- `VM::Exec` (main.cpp:106-131) is not modelled. It allocates executable memory, copies the buffer, optionally breaks into the debugger and jumps into the generated code. It frees the region only on the exception path. All of this is operating-system and native-execution behaviour.
- The loader calls in `FunctionType` (`LoadLibraryA`, `GetProcAddress`) are not modelled. Their outcome is a parameter (`Resolution`), and a resolved entry address is taken as already 32-bit. The truncation of a pointer-sized handle to its low four bytes is platform-dependent.
- The `FunctionType` destructor (`FreeLibrary`) is not modelled. This includes the unloading that happens when `AddFunction` replaces a record.
- `try`/`catch` and `std::cerr` in `AddFunction` are not modelled. Only the boolean result and the table update remain.
- Machine.VM.AddFunction assumes C++17 evaluation order: the record is built before `operator[]` runs, so a failed load inserts nothing. Under an earlier standard the order is unspecified, and a failed load could leave an empty entry under the name. The model does not capture that.
- Machine.VM.AddData takes the data as bytes. It does not model the element conversion that `{ data.begin(), data.end() }` applies to containers of wider or signed elements.
- `u32ToOp` writes into a function-static buffer and returns a copy. Each call overwrites all four bytes, so with one thread the sharing cannot be observed. The model returns a fresh value.
- `main` and the global `virtual_machine` are not modelled. `DemoProgram` replays only the program that `main` builds.
- `AddBytecode` takes its argument as a `seq`. The copy of the `std::vector` argument is not modelled.
