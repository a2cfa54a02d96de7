/** The final iteration of the machine: five opcodes, a mutable memory image
    and input/output streams supplied by whoever creates the machine. */
module Step4 {
  import opened Bytes
  import opened Faults
  import opened Pointers

  datatype Instruction =
    | Hlt
    | OutByte(addr: U32)
    | BranchIfPlus(jmpptr: U32, srcptr: U32)
    | Sub(dstptr: U32, srcptr: U32)
    | InByte(dstptr: U32)

  /** The opcode byte that selects an instruction. */
  function Opcode(ins: Instruction): (op: Byte)
    ensures op < 5 && (op == 0 <==> ins.Hlt?)
  {
    match ins
    case Hlt => 0
    case OutByte(_) => 1
    case BranchIfPlus(_, _) => 2
    case Sub(_, _) => 3
    case InByte(_) => 4
  }

  /** How many pointer operands follow the opcode. */
  function Arity(ins: Instruction): (a: nat)
    ensures a <= 2 && (a == 0 <==> ins.Hlt?)
  {
    match ins
    case Hlt => 0
    case OutByte(_) => 1
    case BranchIfPlus(_, _) => 2
    case Sub(_, _) => 2
    case InByte(_) => 1
  }

  /** The bytes an instruction occupies in a program image: its opcode, then
      its operands in the order they are written. */
  function Encode(ins: Instruction): (bs: seq<Byte>)
    ensures |bs| == 1 + 4 * Arity(ins) && bs[0] == Opcode(ins)
  {
    [Opcode(ins)] +
      match ins
      case Hlt => []
      case OutByte(a) => EncodeU32(a)
      case BranchIfPlus(j, s) => EncodeU32(j) + EncodeU32(s)
      case Sub(d, s) => EncodeU32(d) + EncodeU32(s)
      case InByte(d) => EncodeU32(d)
  }

  /** A decoded instruction and the offset of the byte after it. */
  datatype Decoded = Decoded(ins: Instruction, next: nat)

  /** The instruction stored at offset pc: an opcode byte, then as many
      pointers as the opcode takes. */
  function InstructionAt(mem: seq<Byte>, pc: nat): (r: Result<Decoded>)
    ensures pc >= |mem| ==> r == Err(Bounds(pc))
    ensures pc < |mem| && mem[pc] >= 5 ==> r == Err(Decode(mem[pc], pc))
    ensures r.Ok? ==> mem[pc] == Opcode(r.value.ins)
    ensures r.Ok? ==> r.value.next == pc + 1 + 4 * Arity(r.value.ins) <= |mem|
  {
    if pc >= |mem| then Err(Bounds(pc))
    else
      var opcode := mem[pc];
      if opcode == 0 then
        Ok(Decoded(Hlt, pc + 1))
      else if opcode == 1 then
        var a :- PointerAt(mem, pc + 1);
        Ok(Decoded(OutByte(a.value), a.next))
      else if opcode == 2 then
        var j :- PointerAt(mem, pc + 1);
        var s :- PointerAt(mem, j.next);
        Ok(Decoded(BranchIfPlus(j.value, s.value), s.next))
      else if opcode == 3 then
        var d :- PointerAt(mem, pc + 1);
        var s :- PointerAt(mem, d.next);
        Ok(Decoded(Sub(d.value, s.value), s.next))
      else if opcode == 4 then
        var d :- PointerAt(mem, pc + 1);
        Ok(Decoded(InByte(d.value), d.next))
      else
        Err(Decode(opcode, pc))
  }

  /** The whole observable state of a machine: its memory image, program
      counter and running flag, the input bytes not yet consumed, the bytes
      written so far, and whether the output sink accepts writes. */
  datatype Snapshot = Snapshot(
    memory: seq<Byte>,
    pc: nat,
    running: bool,
    input: seq<Byte>,
    output: seq<Byte>,
    outputOpen: bool)

  /** What one instruction does to a state whose pc already points past it. */
  function Execute(s: Snapshot, ins: Instruction): (r: Result<Snapshot>)
    ensures r.Ok? ==> |r.value.memory| == |s.memory| && r.value.outputOpen == s.outputOpen
    ensures r.Ok? ==> s.output <= r.value.output && |r.value.output| <= |s.output| + 1
    ensures r.Ok? ==> r.value.input == s.input || (s.input != [] && r.value.input == s.input[1..])
  {
    match ins
    case Hlt => Ok(s.(running := false))
    case OutByte(addr) =>
      if addr >= |s.memory| then Err(Bounds(addr))
      else if !s.outputOpen then Err(Io(WriteFailed))
      else Ok(s.(output := s.output + [s.memory[addr]]))
    case BranchIfPlus(jmpptr, srcptr) =>
      if srcptr >= |s.memory| then Err(Bounds(srcptr))
      else if s.memory[srcptr] < 128 then Ok(s.(pc := jmpptr))
      else Ok(s)
    case Sub(dstptr, srcptr) =>
      if srcptr >= |s.memory| then Err(Bounds(srcptr))
      else if dstptr >= |s.memory| then Err(Bounds(dstptr))
      else Ok(s.(memory := s.memory[dstptr := WrappingSub(s.memory[dstptr], s.memory[srcptr])]))
    case InByte(dstptr) =>
      if dstptr >= |s.memory| then Err(Bounds(dstptr))
      else if s.input == [] then Err(Io(EndOfInput))
      else Ok(s.(memory := s.memory[dstptr := s.input[0]], input := s.input[1..]))
  }

  /** One step: decode the instruction at pc, then execute it. */
  function NextState(s: Snapshot): (r: Result<Snapshot>)
    ensures r.Ok? ==> |r.value.memory| == |s.memory| && r.value.outputOpen == s.outputOpen
    ensures r.Ok? ==> s.output <= r.value.output
  {
    var d :- InstructionAt(s.memory, s.pc);
    Execute(s.(pc := d.next), d.ins)
  }

  /** Two states that differ at most in their program counter. */
  predicate SameExceptPc(a: Snapshot, b: Snapshot)
  {
    a.(pc := 0) == b.(pc := 0)
  }

  /** The end of a bounded run: how it ended and the state it ended in (for a
      fault, the state before the faulting step). */
  datatype RunResult = RunResult(outcome: Outcome, final: Snapshot)

  /** Step while the machine is running, for at most fuel steps. */
  function Loop(s: Snapshot, fuel: nat): (r: RunResult)
    ensures r.outcome == Halted <==> !r.final.running
    decreases fuel, 0
  {
    if !s.running then RunResult(Halted, s)
    else if fuel == 0 then RunResult(OutOfFuel, s)
    else Continue(s, NextState(s), fuel - 1)
  }

  /** After a step from the running state s has produced next: stop on a
      fault (a panic inside `step`, which ends the process), otherwise keep
      looping. */
  function Continue(s: Snapshot, next: Result<Snapshot>, fuel: nat): (r: RunResult)
    requires s.running
    ensures r.outcome == Halted <==> !r.final.running
    decreases fuel, 1
  {
    match next
    case Err(f) => RunResult(Faulted(f), s)
    case Ok(t) => Loop(t, fuel)
  }

  /** `run`: set the running flag, then loop. */
  function RunFrom(s: Snapshot, fuel: nat): (r: RunResult)
    ensures r.outcome == Halted <==> !r.final.running
    ensures fuel == 0 ==> r == RunResult(OutOfFuel, s.(running := true))
  {
    Loop(s.(running := true), fuel)
  }

  class MachineState {
    const memory: array<Byte>
    var pc: nat
    var running: bool
    var input: seq<Byte>
    var output: seq<Byte>
    const outputOpen: bool

    ghost function View(): Snapshot
      reads this, memory
    {
      Snapshot(memory[..], pc, running, input, output, outputOpen)
    }

    /** `new`: take the memory image and the two streams; pc 0, not running. */
    constructor (memory: array<Byte>, input: seq<Byte>, outputOpen: bool)
      ensures this.memory == memory && memory[..] == old(memory[..])
      ensures View() == Snapshot(memory[..], 0, false, input, [], outputOpen)
    {
      this.memory := memory;
      pc := 0;
      running := false;
      this.input := input;
      output := [];
      this.outputOpen := outputOpen;
    }

    /** Read the pointer at pc and move pc past it. */
    method DecodePointer() returns (r: Result<U32>)
      modifies this`pc
      ensures match PointerAt(memory[..], old(pc))
        case Ok(p) => r == Ok(p.value) && pc == p.next
        case Err(f) => r == Err(f)
    {
      if pc + 4 > memory.Length {
        return Err(Bounds(pc));
      }
      var result := (memory[pc] as int) + 256 * (memory[pc + 1] as int)
        + 65536 * (memory[pc + 2] as int) + 16777216 * (memory[pc + 3] as int);
      pc := pc + 4;
      return Ok(result);
    }

    /** Read the opcode at pc and the operands it takes, moving pc past them. */
    method ReadInstruction() returns (r: Result<Instruction>)
      modifies this`pc
      ensures match InstructionAt(memory[..], old(pc))
        case Ok(d) => r == Ok(d.ins) && pc == d.next
        case Err(f) => r == Err(f)
    {
      if pc >= memory.Length {
        return Err(Bounds(pc));
      }
      var opcode := memory[pc];
      pc := pc + 1;
      if opcode == 0 {
        r := Ok(Hlt);
      } else if opcode == 1 {
        var addr :- DecodePointer();
        r := Ok(OutByte(addr));
      } else if opcode == 2 {
        var jmpptr :- DecodePointer();
        var srcptr :- DecodePointer();
        r := Ok(BranchIfPlus(jmpptr, srcptr));
      } else if opcode == 3 {
        var dstptr :- DecodePointer();
        var srcptr :- DecodePointer();
        r := Ok(Sub(dstptr, srcptr));
      } else if opcode == 4 {
        var dstptr :- DecodePointer();
        r := Ok(InByte(dstptr));
      } else {
        r := Err(Decode(opcode, pc - 1));
      }
    }

    /** The byte at ptr. */
    method Read(ptr: U32) returns (r: Result<Byte>)
      ensures r.Ok? <==> ptr < memory.Length
      ensures r.Ok? ==> r.value == memory[ptr]
      ensures r.Err? ==> r.fault == Bounds(ptr)
    {
      if ptr >= memory.Length {
        return Err(Bounds(ptr));
      }
      return Ok(memory[ptr]);
    }

    /** Decode and execute one instruction. On a fault, memory, streams and
        the running flag are as they were; pc is left wherever decoding got. */
    method Step() returns (r: Result<()>)
      modifies this`pc, this`running, this`input, this`output, memory
      ensures match NextState(old(View()))
        case Ok(s) => r == Ok(()) && View() == s
        case Err(f) => r == Err(f) && SameExceptPc(View(), old(View()))
    {
      var ins :- ReadInstruction();
      match ins {
      case Hlt =>
        running := false;
      case OutByte(addr) =>
        if addr >= memory.Length {
          return Err(Bounds(addr));
        }
        if !outputOpen {
          return Err(Io(WriteFailed));
        }
        output := output + [memory[addr]];
      case BranchIfPlus(jmpptr, srcptr) =>
        if srcptr >= memory.Length {
          return Err(Bounds(srcptr));
        }
        if memory[srcptr] < 128 {
          pc := jmpptr;
        }
      case Sub(dstptr, srcptr) =>
        var src :- Read(srcptr);
        var dst :- Read(dstptr);
        memory[dstptr] := WrappingSub(dst, src);
      case InByte(dstptr) =>
        if dstptr >= memory.Length {
          return Err(Bounds(dstptr));
        }
        if input == [] {
          return Err(Io(EndOfInput));
        }
        memory[dstptr] := input[0];
        input := input[1..];
      }
      return Ok(());
    }

    /** `run` with a step budget: set the running flag and step until it is
        cleared, a step faults, or fuel steps have been taken. */
    method Run(fuel: nat) returns (r: Outcome)
      modifies this`pc, this`running, this`input, this`output, memory
      ensures r == RunFrom(old(View()), fuel).outcome
      ensures r.Faulted? ==> SameExceptPc(View(), RunFrom(old(View()), fuel).final)
      ensures !r.Faulted? ==> View() == RunFrom(old(View()), fuel).final
      ensures r == Halted <==> !running
    {
      ghost var goal := RunFrom(View(), fuel);
      running := true;
      var left := fuel;
      while running && left > 0
        invariant Loop(View(), left) == goal
        decreases left
      {
        ghost var before := View();
        var step := Step();
        if step.Err? {
          assert NextState(before) == Err(step.fault);
          return Faulted(step.fault);
        }
        assert NextState(before) == Ok(View());
        left := left - 1;
      }
      r := if running then OutOfFuel else Halted;
    }
  }
}
