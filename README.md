# A byte-addressed virtual machine, in three iterations

The repository builds a very small virtual machine three times, each
iteration richer than the one before. Every iteration has the same shape:

- a flat byte memory;
- a program counter `pc`;
- a `running` flag;
- `run`, a loop that calls `step` while the flag is set.

`step` decodes the opcode byte at `pc` together with the 32-bit
little-endian pointer operands that follow it, then executes it:

| opcode | instruction | operands | effect |
|---|---|---|---|
| 0 | `Hlt` | — | clears `running` |
| 1 | `OutByte` | addr | writes the byte at `addr` |
| 2 | `BranchIfPlus` | jmpptr, srcptr | sets `pc := jmpptr` if the byte at `srcptr` is below 128 |
| 3 | `Sub` | dstptr, srcptr | stores `mem[dstptr] - mem[srcptr]` modulo 256 |
| 4 | `InByte` | dstptr | reads one input byte into `mem[dstptr]` |

The three iterations:

- **step2**: only opcodes 0 and 1. Memory is read-only, and the pointer decoder is a byte-by-byte loop.
- **step3**: opcodes 0 to 3, with memory updated in place. Output goes straight to standard output.
- **step4**: all five opcodes, with the input source and output sink passed in by the caller.

## How the model is organised

- `Bytes`:
  - `Byte` and `U32`;
  - the little-endian value of a byte sequence and its inverse `EncodeU32`;
  - Rust's `u8::wrapping_sub`.
- `Faults`: what a Rust panic becomes here. Each panic is a value `Err(fault)` returned to the caller:
  - `Decode(opcode, offset)`: an invalid opcode;
  - `Bounds(addr)`: an index at or past the end of memory;
  - `Io(EndOfInput | WriteFailed)`: a stream failure.

  A bounded run ends as `Halted`, `Faulted(fault)` or `OutOfFuel`.
- `Pointers`: the 4-byte pointer read at an offset, shared by all three decoders.
- `Step2`, `Step3`, `Step4`: one module per iteration. Each holds:
  - the `Instruction` datatype and its byte layout `Encode`;
  - specification functions:
    - `InstructionAt` (decode at an offset),
    - `Execute` (one instruction's effect),
    - `NextState` (one step),
    - `Loop` and `Continue` (the run loop),
    - `RunFrom` (`run`);
  - the class `MachineState`, with the Rust struct's fields (memory, `pc`, `running`, and in step4 the input and output streams). Step2 and step3 add an `output` field that stands for the process's standard output, which the Rust struct does not hold.

  The memory field is a `seq` in step2, where the source's slice is shared and immutable. In step3 and step4 it is an `array` that `Sub` and `InByte` update in place. `pc` and `running` are mutable fields. In step4 the input is a field of type `seq` that `InByte` consumes, and the output is a `seq` that `OutByte` appends to. Every method's postcondition relates the new state (through `View()`) to the specification functions applied to the old state.
- `Step2Properties`, `Step3Properties`, `Step4Properties`: what each machine guarantees, namely:
  - decoding is the inverse of the instruction layout, in both directions;
  - which opcodes are rejected;
  - the exact effect of each instruction;
  - only `Hlt` stops a run;
  - in step2, that no run changes memory.

  `Step4Properties` also proves that extra fuel changes nothing once a run has ended (`MoreFuel`) and checks a handful of whole programs. `Step2Properties` checks one whole program.
- `Iterations`: each machine runs every program of the previous one exactly as the previous one does, as long as the run never reaches an opcode that only the newer machine accepts. This holds step by step and for whole bounded runs.

`run` has no step budget in the source: a program may loop forever. The model's `Run(fuel)` performs at most `fuel` steps and reports `OutOfFuel` if the program is still running. `SelfBranchNeverHalts` proves that a one-instruction program runs out of every budget.

### Behaviour of the code that may be unexpected

- **Order of checks in `InByte`.** One might expect an exhausted input to be reported first. But step4/src/main.rs:90 builds the one-byte destination slice before calling `read_exact`. So an out-of-range `dstptr` panics before any input is read, even when the input is exhausted. The model checks bounds first; see `Step4Properties.InByteEffect`.
- **A program that overwrites its own code.** `[4,5,0,0,0, 1,5,0,0,0, 0]` with input `0x42` reads like an echo program. But it stores the input byte at address 5, and address 5 is the opcode of its own `OutByte`. The next step therefore decodes `0x42`, which panics at step4/src/main.rs:65. `Step4Properties.SelfOverwritingProgram` proves that the run ends in that decode fault. `Step4Properties.EchoProgram` proves that `[4,11,0,0,0, 1,11,0,0,0, 0, 0]` echoes any byte; this program keeps its data cell after the code.
- **An `OutByte` of address 0.** `[1,0,0,0,0, 0]` writes the byte at address 0 (step2/src/main.rs:50). That byte is the opcode 1 of the `OutByte` itself, so the program can only emit 1, whatever value one meant to store there. `Step2Properties.OutByteOfOwnOpcode` proves this.

## Model

| member | source | states |
|---|---|---|
| Bytes.LittleEndian | step4/src/main.rs:45 | the value `byteorder`'s little-endian read gives and the step2 loop sums: the first byte is the value modulo 256 (least significant first) |
| Bytes.LittleEndianBound | step2/src/main.rs:27-34 | k bytes read least significant first stay below 256^k, so the four-byte sum of the decode loop never overflows a u32 |
| Bytes.LittleEndianAppend | step2/src/main.rs:29-31 | adding the next byte shifted by 8·i is appending that byte to the little-endian sequence read so far |
| Bytes.LittleEndianFour | step4/src/main.rs:45 | the little-endian value of four bytes is b0 + 256·b1 + 65536·b2 + 16777216·b3 |
| Bytes.EncodeU32 | step4/src/main.rs:44-48 | the inverse of the pointer layout: four bytes whose little-endian value is the given u32 |
| Bytes.EncodeLittleEndian | step4/src/main.rs:45 | any four bytes are below 2^32 and are the encoding of their own little-endian value |
| Bytes.WrappingSub | step4/src/main.rs:87 | `wrapping_sub`: a − b when b ≤ a, a − b + 256 otherwise; adding b back modulo 256 gives a |
| Pointers.PointerAt | step4/src/main.rs:44-48 | a pointer exists exactly when pc + 4 ≤ len; the next offset is pc + 4; otherwise a bounds fault at pc |
| Pointers.PointerAtLittleEndian | step4/src/main.rs:45 | the pointer read at pc is the little-endian value of mem[pc..pc+4] |
| Pointers.PointerOfEncoding | step4/src/main.rs:44-48 | the encoding of p stored at pc reads back as p, with next offset pc + 4 |
| Pointers.EncodingOfPointer | step4/src/main.rs:44-48 | a pointer read successfully is stored as its own encoding |
| Step4.Opcode | step4/src/main.rs:53-65 | the opcode byte `read_instruction` matches on: below 5, and 0 exactly for `Hlt` |
| Step4.Arity | step4/src/main.rs:53-65 | how many pointers `read_instruction` decodes after the opcode: at most 2, and none exactly for `Hlt` |
| Step4.Encode | step4/src/main.rs:8-20 | an instruction occupies 1 + 4·arity bytes and starts with its opcode |
| Step4.InstructionAt | step4/src/main.rs:50-67 | pc past the end is a bounds fault; an opcode of 5 or more is a decode fault carrying the byte and its offset; a decoded instruction has the opcode at pc and ends at pc + 1 + 4·arity, within memory |
| Step4.Execute | step4/src/main.rs:73-93 | executing keeps the memory length and the sink state; output only grows, by at most one byte; input is unchanged or loses exactly its first byte |
| Step4.NextState | step4/src/main.rs:73-93 | a step keeps the memory length and the sink state, and only appends to the output |
| Step4.Loop | step4/src/main.rs:95-100 | a bounded run reports `Halted` exactly when it ends with the running flag clear |
| Step4.Continue | step4/src/main.rs:97-99 | after a step from a running state, the run reports `Halted` exactly when it ends with the flag clear |
| Step4.RunFrom | step4/src/main.rs:95-100 | `run` sets the running flag, then loops: the result is `Halted` exactly when it ends with the flag clear, and with no budget the run stops at once, out of fuel, with the flag set |
| Step4.MachineState.constructor | step4/src/main.rs:34-42 | starts at pc 0, not running, with the given memory untouched, the given input and an empty output |
| Step4.MachineState.DecodePointer | step4/src/main.rs:44-48 | returns the pointer at the old pc and moves pc past it, or returns its bounds fault |
| Step4.MachineState.ReadInstruction | step4/src/main.rs:50-67 | returns the instruction `InstructionAt` finds at the old pc and leaves pc after its operands, or returns that fault; only pc may change |
| Step4.MachineState.Read | step4/src/main.rs:69-71 | returns memory[ptr] exactly when ptr is in range, a bounds fault at ptr otherwise |
| Step4.MachineState.Step | step4/src/main.rs:73-93 | the new state is `NextState` of the old one; on a fault, memory, streams and the flag are unchanged and the fault is returned |
| Step4.MachineState.Run | step4/src/main.rs:95-100 | sets the flag and loops: the outcome and final state are those of `RunFrom` on the old state; it returns `Halted` exactly when the flag is clear |
| Step4Properties.EncodeOperands | step4/src/main.rs:55-64 | operands are laid out in the order they are written, four bytes each |
| Step4Properties.DecodeOfEncoding | step4/src/main.rs:50-67 | an encoded instruction decodes to itself and consumes exactly 1 + 4·arity bytes |
| Step4Properties.EncodingOfDecode | step4/src/main.rs:50-67 | whatever decodes is stored as its encoding, so operands come in written order |
| Step4Properties.InvalidOpcodeIff | step4/src/main.rs:51-66 | decoding gives a decode fault if and only if the opcode at pc is 5 or more |
| Step4Properties.DecodeFaultStopsStep | step4/src/main.rs:73-74 | a step whose decoding fails reports the decoding fault and executes nothing |
| Step4Properties.HltEffect | step4/src/main.rs:75 | `Hlt` clears the running flag, moves pc by one and changes nothing else |
| Step4Properties.OutByteEffect | step4/src/main.rs:76-78 | `OutByte` appends exactly memory[addr]; an out-of-range addr is a bounds fault; a closed sink is a write fault; memory and input are untouched |
| Step4Properties.AsSigned | step4/src/main.rs:80 | reading a byte as a signed 8-bit value gives a number in −128..127 that is the same byte modulo 256 |
| Step4Properties.BranchIfPlusEffect | step4/src/main.rs:79-83 | if the source byte is non-negative as a signed byte (below 128), the new pc is jmpptr; otherwise it is pc + 9; nothing else changes; an out-of-range srcptr is a bounds fault |
| Step4Properties.BranchThreshold | step4/src/main.rs:80 | a source byte of 127 takes the branch and 128 does not |
| Step4Properties.SubEffect | step4/src/main.rs:84-88 | the source pointer is checked first, then the destination; mem[dstptr] + mem[srcptr] ≡ old mem[dstptr] (mod 256); a cell minus itself is 0; no other cell or field changes |
| Step4Properties.InByteEffect | step4/src/main.rs:89-91 | the destination is bounds-checked first; an empty input is an end-of-input fault; otherwise exactly the first input byte is consumed into mem[dstptr] and no other cell changes |
| Step4Properties.OnlyHltStops | step4/src/main.rs:73-93 | a successful step from a running state clears the flag if and only if the instruction is `Hlt` |
| Step4Properties.HaltedAfterHlt | step4/src/main.rs:95-100 | a run that halts ends with the flag clear and pc just past an opcode 0 |
| Step4Properties.RunHaltsOnlyAtHlt | step4/src/main.rs:95-100 | the same for `run`, which first sets the running flag |
| Step4Properties.MoreFuel | step4/src/main.rs:95-100 | once a bounded run has halted or faulted, any larger budget gives the same result |
| Step4Properties.HaltProgram | step4/src/main.rs:95-100 | the program `[0]` halts after one step at pc 1, with neither stream touched |
| Step4Properties.EchoProgram | step4/src/main.rs:89-91 | `[4,11,0,0,0, 1,11,0,0,0, 0, 0]` with input b·rest halts, leaving output [b], remaining input rest, and b in cell 11 |
| Step4Properties.SelfOverwritingProgram | step4/src/main.rs:89-91 | `[4,5,0,0,0, 1,5,0,0,0, 0]` with input 0x42 overwrites its own opcode at 5 and ends in a decode fault at 5 with nothing written |
| Step4Properties.InByteAtEndOfInput | step4/src/main.rs:90 | `InByte` on an exhausted input ends the run with an end-of-input fault before anything changes |
| Step4Properties.SubWrapsProgram | step4/src/main.rs:87 | 5 − 10 leaves 251 in the destination cell, and the program halts |
| Step4Properties.SelfBranchNeverHalts | step4/src/main.rs:95-100 | a branch to itself on a plus byte runs out of every step budget |
| Step3.Opcode | step3/src/main.rs:45-56 | the opcode byte `read_instruction` matches on: below 4, and 0 exactly for `Hlt` |
| Step3.Arity | step3/src/main.rs:45-56 | how many pointers `read_instruction` decodes after the opcode: at most 2, and none exactly for `Hlt` |
| Step3.Encode | step3/src/main.rs:8-19 | an instruction occupies 1 + 4·arity bytes and starts with its opcode |
| Step3.InstructionAt | step3/src/main.rs:42-58 | pc past the end is a bounds fault; an opcode of 4 or more is a decode fault; a decoded instruction has the opcode at pc and ends at pc + 1 + 4·arity, within memory |
| Step3.Execute | step3/src/main.rs:64-81 | executing keeps the memory length; output only grows, by at most one byte |
| Step3.NextState | step3/src/main.rs:64-81 | a step keeps the memory length and only appends to the output |
| Step3.Loop | step3/src/main.rs:83-88 | a bounded run reports `Halted` exactly when it ends with the running flag clear |
| Step3.Continue | step3/src/main.rs:85-87 | after a step from a running state, the run reports `Halted` exactly when it ends with the flag clear |
| Step3.RunFrom | step3/src/main.rs:83-88 | `run` sets the running flag, then loops: the result is `Halted` exactly when it ends with the flag clear, and with no budget the run stops at once, out of fuel, with the flag set |
| Step3.MachineState.constructor | step3/src/main.rs:28-34 | starts at pc 0, not running, memory untouched, nothing written |
| Step3.MachineState.DecodePointer | step3/src/main.rs:36-40 | returns the pointer at the old pc and moves pc past it, or returns its bounds fault |
| Step3.MachineState.ReadInstruction | step3/src/main.rs:42-58 | returns the instruction `InstructionAt` finds at the old pc and leaves pc after it, or returns that fault; only pc may change |
| Step3.MachineState.Read | step3/src/main.rs:60-62 | returns memory[ptr] exactly when ptr is in range, a bounds fault at ptr otherwise |
| Step3.MachineState.Step | step3/src/main.rs:64-81 | the new state is `NextState` of the old one; on a fault, memory, output and the flag are unchanged |
| Step3.MachineState.Run | step3/src/main.rs:83-88 | the outcome and final state are those of `RunFrom` on the old state; it returns `Halted` exactly when the flag is clear |
| Step3Properties.EncodeOperands | step3/src/main.rs:47-55 | operands are laid out in the order they are written, four bytes each |
| Step3Properties.DecodeOfEncoding | step3/src/main.rs:42-58 | an encoded instruction decodes to itself, consuming 1, 5, 9 and 9 bytes for `Hlt`, `OutByte`, `BranchIfPlus` and `Sub` |
| Step3Properties.EncodingOfDecode | step3/src/main.rs:42-58 | whatever decodes is stored as its encoding |
| Step3Properties.InvalidOpcodeIff | step3/src/main.rs:43-56 | decoding gives a decode fault if and only if the opcode at pc is 4 or more |
| Step3Properties.OutByteEffect | step3/src/main.rs:67-69 | `OutByte` appends exactly memory[addr] and leaves memory unchanged; an out-of-range addr is a bounds fault |
| Step3Properties.BranchIfPlusEffect | step3/src/main.rs:70-74 | if the source byte is below 128, the new pc is jmpptr; otherwise it is pc + 9; nothing else changes; an out-of-range srcptr is a bounds fault |
| Step3Properties.SubEffect | step3/src/main.rs:75-79 | the wrapped difference goes to mem[dstptr] only; source is bounds-checked before destination |
| Step3Properties.OnlyHltStops | step3/src/main.rs:64-81 | only `Hlt` clears the flag, and `Hlt` changes nothing else |
| Step3Properties.HaltedAfterHlt | step3/src/main.rs:83-88 | a run that halts ends with the flag clear and pc just past an opcode 0 |
| Step3Properties.RunHaltsOnlyAtHlt | step3/src/main.rs:83-88 | `run` sets the flag and stops only when a `Hlt` clears it |
| Step2.Encode | step2/src/main.rs:7-10 | `Hlt` takes one byte, `OutByte` five |
| Step2.InstructionAt | step2/src/main.rs:36-44 | pc past the end is a bounds fault; an opcode of 2 or more is a decode fault; opcode 0 is `Hlt` ending at pc + 1, opcode 1 is `OutByte` ending at pc + 5 |
| Step2.NextState | step2/src/main.rs:46-53 | a step never changes memory and only appends to the output |
| Step2.Loop | step2/src/main.rs:55-60 | a bounded run reports `Halted` exactly when it ends with the running flag clear |
| Step2.Continue | step2/src/main.rs:57-59 | after a step from a running state, the run reports `Halted` exactly when it ends with the flag clear |
| Step2.RunFrom | step2/src/main.rs:55-60 | `run` sets the running flag, then loops: the result is `Halted` exactly when it ends with the flag clear, and with no budget the run stops at once, out of fuel, with the flag set |
| Step2.MachineState.constructor | step2/src/main.rs:19-25 | starts at pc 0, not running, on the given memory, nothing written |
| Step2.MachineState.DecodePointer | step2/src/main.rs:27-34 | the loop reads four bytes least significant first; after i rounds pc is old pc + i and the sum is the little-endian value of the bytes read; the result is the pointer at the old pc with pc + 4, or a bounds fault |
| Step2.MachineState.ReadInstruction | step2/src/main.rs:36-44 | returns the instruction `InstructionAt` finds at the old pc and leaves pc after it, or returns that fault |
| Step2.MachineState.Step | step2/src/main.rs:46-53 | the new state is `NextState` of the old one; on a fault, output and the flag are unchanged |
| Step2.MachineState.Run | step2/src/main.rs:55-60 | the outcome and final state are those of `RunFrom` on the old state; it returns `Halted` exactly when the flag is clear |
| Step2Properties.DecodeOfEncoding | step2/src/main.rs:36-44 | an encoded instruction decodes to itself |
| Step2Properties.EncodingOfDecode | step2/src/main.rs:36-44 | whatever decodes is stored as its encoding |
| Step2Properties.InvalidOpcodeIff | step2/src/main.rs:37-43 | decoding gives a decode fault if and only if the opcode at pc is 2 or more |
| Step2Properties.StepEffect | step2/src/main.rs:46-53 | `Hlt` clears the flag and moves pc by 1; `OutByte` appends exactly memory[addr] and moves pc by 5, or is a bounds fault |
| Step2Properties.RunKeepsMemory | step2/src/main.rs:13 | no bounded run changes the read-only memory |
| Step2Properties.HaltedAfterHlt | step2/src/main.rs:55-60 | a run that halts leaves memory as it was and ends with pc just past an opcode 0 |
| Step2Properties.OutByteOfOwnOpcode | step2/src/main.rs:46-53 | `[1,0,0,0,0, 0]` writes the byte at address 0, its own opcode 1, and halts at pc 6 after two steps |
| Step2Properties.RunHaltsOnlyAtHlt | step2/src/main.rs:55-60 | the same for `run`, which first sets the running flag |
| Iterations.Widen3 | step4/src/main.rs:8-20 | every step3 instruction is the step4 instruction with the same byte layout |
| Iterations.DecodeAgrees34 | step4/src/main.rs:50-67 | both decoders agree on every offset, except that step3 rejects opcode 4 |
| Iterations.ExecuteAgrees34 | step4/src/main.rs:73-93 | step4 executes each shared instruction as step3 does, with the input untouched |
| Iterations.StepAgrees34 | step4/src/main.rs:73-93 | away from opcode 4, one step4 step is the step3 step: the same successor or the same fault |
| Iterations.Opcode4StopsStep3 | step3/src/main.rs:56 | a running step3 machine at opcode 4 stops right there with a decode fault |
| Iterations.RunAgrees34 | step4/src/main.rs:95-100 | a bounded step3 run that does not stop at opcode 4 is the step4 run of the same image, outcome and final state |
| Iterations.Widen2 | step3/src/main.rs:8-19 | every step2 instruction is the step3 instruction with the same byte layout |
| Iterations.DecodeAgrees23 | step3/src/main.rs:42-58 | both decoders agree on every offset, except that step2 rejects opcodes 2 and 3 |
| Iterations.StepAgrees23 | step3/src/main.rs:64-81 | away from opcodes 2 and 3, one step3 step is the step2 step |
| Iterations.RunAgrees23 | step3/src/main.rs:83-88 | a bounded step2 run that does not stop at opcode 2 or 3 is the step3 run of the same image |

## Left out

- step1 is not modelled. It prints a greeting and copies a file to standard output, and has no machine.
- The `main` functions, command-line parsing and file loading are not modelled, nor is the locking of stdin and stdout. The memory image and the input bytes are constructor parameters instead.
- Real streams are not modelled: no blocking reads and no operating-system errors. The input is the sequence of bytes still to be read. In step4 the output is the sequence written so far plus a flag saying whether the sink accepts writes; a refused write is `Io(WriteFailed)`.
- Step4.MachineState.constructor: `outputOpen` is fixed for the whole run, so the sink accepts every write or refuses them all. A sink that starts failing part-way through a run, such as a pipe closed mid-run, is not modelled.
- Step4.MachineState.Step: the byte count that `write` returns is not checked by the source and is not modelled; a write either appends the byte or fails.
- Step3.MachineState.Step: a failing write to standard output (the `unwrap` on it) is not modelled; writes always succeed.
- Step2.MachineState.Step: a failing write to standard output is not modelled; writes always succeed.
- The `byteorder` call is replaced by its little-endian sum, written out in `Pointers.PointerAt`.
- `run` does not terminate in general. `Run(fuel)` performs at most `fuel` steps; what a program does after the budget is spent is not modelled.
- A panic aborts the process. The model instead returns the fault to the caller and keeps the state, so nothing after a panic is modelled. The fault's payload names the failing offset, not Rust's exact panic message.
- Step4.MachineState.Step: after a fault, pc is left unspecified, because the process would have aborted: decoding may already have moved it. Memory, streams and the running flag are stated unchanged.
- Step3.MachineState.Step: after a fault, pc is left unspecified, for the same reason.
- Step2.MachineState.Step: after a fault, pc is left unspecified, for the same reason.
- Step4.MachineState.Run: after a fault, the final state is stated only up to pc.
- Step3.MachineState.Run: after a fault, the final state is stated only up to pc.
- Step2.MachineState.Run: after a fault, the final state is stated only up to pc.
- Step2.MachineState.DecodePointer: a pointer that runs past the end reports `Bounds` at the pointer's first offset, as the other two decoders do. The source indexes byte by byte and would panic at the first missing byte.
- Overflow of `usize` in `addr as usize + 1` or `pc + 4` is not modelled; indices are unbounded naturals checked against the memory length.
