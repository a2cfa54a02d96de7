/** The first iteration of the machine: two opcodes over a read-only memory
    image, writing to the process's standard output, with the pointer
    decoder written as a byte-by-byte loop. */
module Step2 {
  import opened Bytes
  import opened Faults
  import opened Pointers

  datatype Instruction =
    | Hlt
    | OutByte(addr: U32)

  /** The bytes an instruction occupies in a program image. */
  function Encode(ins: Instruction): (bs: seq<Byte>)
    ensures |bs| == if ins.Hlt? then 1 else 5
  {
    match ins
    case Hlt => [0]
    case OutByte(a) => [1] + EncodeU32(a)
  }

  /** A decoded instruction and the offset of the byte after it. */
  datatype Decoded = Decoded(ins: Instruction, next: nat)

  /** The instruction stored at offset pc: opcode 0 is `Hlt` (one byte),
      opcode 1 is `OutByte` (five bytes), anything else is invalid. */
  function InstructionAt(mem: seq<Byte>, pc: nat): (r: Result<Decoded>)
    ensures pc >= |mem| ==> r == Err(Bounds(pc))
    ensures pc < |mem| && mem[pc] >= 2 ==> r == Err(Decode(mem[pc], pc))
    ensures r.Ok? ==> mem[pc] == (if r.value.ins.Hlt? then 0 else 1)
    ensures r.Ok? ==> r.value.next == pc + (if r.value.ins.Hlt? then 1 else 5) <= |mem|
  {
    if pc >= |mem| then Err(Bounds(pc))
    else if mem[pc] == 0 then Ok(Decoded(Hlt, pc + 1))
    else if mem[pc] == 1 then
      var a :- PointerAt(mem, pc + 1);
      Ok(Decoded(OutByte(a.value), a.next))
    else Err(Decode(mem[pc], pc))
  }

  /** The observable state. Memory is part of it but no step can change it. */
  datatype Snapshot = Snapshot(memory: seq<Byte>, pc: nat, running: bool, output: seq<Byte>)

  /** One step: decode the instruction at pc, then execute it. */
  function NextState(s: Snapshot): (r: Result<Snapshot>)
    ensures r.Ok? ==> r.value.memory == s.memory && s.output <= r.value.output
  {
    var d :- InstructionAt(s.memory, s.pc);
    match d.ins
    case Hlt => Ok(s.(pc := d.next, running := false))
    case OutByte(addr) =>
      if addr >= |s.memory| then Err(Bounds(addr))
      else Ok(s.(pc := d.next, output := s.output + [s.memory[addr]]))
  }

  /** Two states that differ at most in their program counter. */
  predicate SameExceptPc(a: Snapshot, b: Snapshot)
  {
    a.(pc := 0) == b.(pc := 0)
  }

  /** The end of a bounded run (for a fault, the state before the faulting step). */
  datatype RunResult = RunResult(outcome: Outcome, final: Snapshot)

  /** Step while the machine is running, for at most fuel steps. */
  function Loop(s: Snapshot, fuel: nat): (r: RunResult)
    ensures r.outcome == Halted <==> !r.final.running
    decreases fuel, 0
  {
    if !s.running then RunResult(Halted, s)
    else if fuel == 0 then RunResult(OutOfFuel, s)
    else Continue(s, NextState(s), fuel - 1)
  }

  /** After a step from the running state s has produced next: stop on a
      fault (a panic inside `step`, which ends the process), otherwise keep
      looping. */
  function Continue(s: Snapshot, next: Result<Snapshot>, fuel: nat): (r: RunResult)
    requires s.running
    ensures r.outcome == Halted <==> !r.final.running
    decreases fuel, 1
  {
    match next
    case Err(f) => RunResult(Faulted(f), s)
    case Ok(t) => Loop(t, fuel)
  }

  /** `run`: set the running flag, then loop. */
  function RunFrom(s: Snapshot, fuel: nat): (r: RunResult)
    ensures r.outcome == Halted <==> !r.final.running
    ensures fuel == 0 ==> r == RunResult(OutOfFuel, s.(running := true))
  {
    Loop(s.(running := true), fuel)
  }

  class MachineState {
    const memory: seq<Byte>
    var pc: nat
    var running: bool
    var output: seq<Byte>

    ghost function View(): Snapshot
      reads this
    {
      Snapshot(memory, pc, running, output)
    }

    /** `new`: borrow the memory image; pc 0, not running, nothing written yet. */
    constructor (memory: seq<Byte>)
      ensures View() == Snapshot(memory, 0, false, [])
    {
      this.memory := memory;
      pc := 0;
      running := false;
      output := [];
    }

    /** Read the pointer at pc one byte at a time, least significant first,
        moving pc forward by one per byte. */
    method DecodePointer() returns (r: Result<U32>)
      modifies this`pc
      ensures match PointerAt(memory, old(pc))
        case Ok(p) => r == Ok(p.value) && pc == p.next
        case Err(f) => r == Err(f)
    {
      var start := pc;
      var result: nat := 0;
      for i := 0 to 4
        invariant pc == start + i
        invariant i == 0 ==> result == 0
        invariant i > 0 ==> pc <= |memory| && result == LittleEndian(memory[start..pc])
        invariant result < Pow256(i)
      {
        if pc >= |memory| {
          return Err(Bounds(start));
        }
        assert i == 0 ==> memory[start..pc] == [];
        // `(memory[pc] as u32) << (i * 8)`: the shift is multiplication by 256^i
        assert memory[start..pc + 1] == memory[start..pc] + [memory[pc]];
        LittleEndianAppend(memory[start..pc], memory[pc]);
        result := result + (memory[pc] as int) * Pow256(i);
        pc := pc + 1;
        LittleEndianBound(memory[start..pc]);
      }
      PointerAtLittleEndian(memory, start);
      return Ok(result);
    }

    /** Read the opcode at pc and, for `OutByte`, its operand. */
    method ReadInstruction() returns (r: Result<Instruction>)
      modifies this`pc
      ensures match InstructionAt(memory, old(pc))
        case Ok(d) => r == Ok(d.ins) && pc == d.next
        case Err(f) => r == Err(f)
    {
      if pc >= |memory| {
        return Err(Bounds(pc));
      }
      var opcode := memory[pc];
      pc := pc + 1;
      if opcode == 0 {
        r := Ok(Hlt);
      } else if opcode == 1 {
        var addr :- DecodePointer();
        r := Ok(OutByte(addr));
      } else {
        r := Err(Decode(opcode, pc - 1));
      }
    }

    /** Decode and execute one instruction. On a fault, output and the running
        flag are as they were; pc is left wherever decoding got. */
    method Step() returns (r: Result<()>)
      modifies this`pc, this`running, this`output
      ensures match NextState(old(View()))
        case Ok(s) => r == Ok(()) && View() == s
        case Err(f) => r == Err(f) && SameExceptPc(View(), old(View()))
    {
      var ins :- ReadInstruction();
      match ins {
      case Hlt =>
        running := false;
      case OutByte(addr) =>
        if addr >= |memory| {
          return Err(Bounds(addr));
        }
        output := output + [memory[addr]];
      }
      return Ok(());
    }

    /** `run` with a step budget. */
    method Run(fuel: nat) returns (r: Outcome)
      modifies this`pc, this`running, this`output
      ensures r == RunFrom(old(View()), fuel).outcome
      ensures r.Faulted? ==> SameExceptPc(View(), RunFrom(old(View()), fuel).final)
      ensures !r.Faulted? ==> View() == RunFrom(old(View()), fuel).final
      ensures r == Halted <==> !running
    {
      ghost var goal := RunFrom(View(), fuel);
      running := true;
      var left := fuel;
      while running && left > 0
        invariant Loop(View(), left) == goal
        decreases left
      {
        ghost var before := View();
        var step := Step();
        if step.Err? {
          assert NextState(before) == Err(step.fault);
          return Faulted(step.fault);
        }
        assert NextState(before) == Ok(View());
        left := left - 1;
      }
      r := if running then OutOfFuel else Halted;
    }
  }
}
