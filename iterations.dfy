/** The three iterations are one machine growing: each one runs every program
    of the previous one exactly as the previous one does, as long as that
    program never meets an opcode the previous one rejects. */
module Iterations {
  import opened Bytes
  import opened Faults
  import S2 = Step2
  import S3 = Step3
  import S4 = Step4

  // ---- step 3 inside step 4 ----

  /** A step-3 instruction as the step-4 instruction with the same layout. */
  function Widen3(ins: S3.Instruction): (w: S4.Instruction)
    ensures S4.Encode(w) == S3.Encode(ins)
  {
    match ins
    case Hlt => S4.Hlt
    case OutByte(a) => S4.OutByte(a)
    case BranchIfPlus(j, s) => S4.BranchIfPlus(j, s)
    case Sub(d, s) => S4.Sub(d, s)
  }

  /** A step-3 state as a step-4 state: standard output becomes a sink that
      accepts every byte, and an input source is added that nothing reads. */
  function Lift3(s: S3.Snapshot, input: seq<Byte>): S4.Snapshot
  {
    S4.Snapshot(s.memory, s.pc, s.running, input, s.output, true)
  }

  /** Both decoders agree on every opcode but 4, which only step 4 accepts. */
  lemma DecodeAgrees34(mem: seq<Byte>, pc: nat)
    ensures S3.InstructionAt(mem, pc).Ok? ==>
      var d := S3.InstructionAt(mem, pc).value;
      S4.InstructionAt(mem, pc) == Ok(S4.Decoded(Widen3(d.ins), d.next))
    ensures S3.InstructionAt(mem, pc).Err? && !(pc < |mem| && mem[pc] == 4) ==>
      S4.InstructionAt(mem, pc) == Err(S3.InstructionAt(mem, pc).fault)
  {
  }

  /** Both iterations execute a shared instruction alike: the same fault, or
      the same successor with the input untouched. */
  lemma ExecuteAgrees34(s: S3.Snapshot, ins: S3.Instruction, input: seq<Byte>)
    ensures match S3.Execute(s, ins)
      case Ok(t) => S4.Execute(Lift3(s, input), Widen3(ins)) == Ok(Lift3(t, input))
      case Err(f) => S4.Execute(Lift3(s, input), Widen3(ins)) == Err(f)
  {
  }

  /** One step of step 3 is one step of step 4, except at opcode 4. */
  lemma StepAgrees34(s: S3.Snapshot, input: seq<Byte>)
    requires !(s.pc < |s.memory| && s.memory[s.pc] == 4)
    ensures match S3.NextState(s)
      case Ok(t) => S4.NextState(Lift3(s, input)) == Ok(Lift3(t, input))
      case Err(f) => S4.NextState(Lift3(s, input)) == Err(f)
  {
    DecodeAgrees34(s.memory, s.pc);
    var d := S3.InstructionAt(s.memory, s.pc);
    if d.Ok? {
      ExecuteAgrees34(s.(pc := d.value.next), d.value.ins, input);
      assert Lift3(s.(pc := d.value.next), input) == Lift3(s, input).(pc := d.value.next);
    }
  }

  /** A running step-3 machine at opcode 4 stops with a decode fault right there. */
  lemma Opcode4StopsStep3(s: S3.Snapshot, fuel: nat)
    requires s.running && fuel > 0
    ensures s.pc < |s.memory| && s.memory[s.pc] == 4 ==>
      S3.Loop(s, fuel) == S3.RunResult(Faulted(Decode(4, s.pc)), s)
  {
  }

  /** A step-3 run's end as the step-4 run's end. */
  function LiftRun3(r: S3.RunResult, input: seq<Byte>): S4.RunResult
  {
    S4.RunResult(r.outcome, Lift3(r.final, input))
  }

  /** A bounded step-3 run that does not stop at opcode 4 is, state for
      state, the step-4 run of the same image. */
  lemma {:induction false} RunAgrees34(s: S3.Snapshot, input: seq<Byte>, fuel: nat)
    requires S3.Loop(s, fuel).outcome != Faulted(Decode(4, S3.Loop(s, fuel).final.pc))
    ensures S4.Loop(Lift3(s, input), fuel) == LiftRun3(S3.Loop(s, fuel), input)
    decreases fuel
  {
    if s.running && fuel > 0 {
      Opcode4StopsStep3(s, fuel);
      StepAgrees34(s, input);
      if S3.NextState(s).Ok? {
        RunAgrees34(S3.NextState(s).value, input, fuel - 1);
      }
    }
  }

  // ---- step 2 inside step 3 ----

  /** A step-2 instruction as the step-3 instruction with the same layout. */
  function Widen2(ins: S2.Instruction): (w: S3.Instruction)
    ensures S3.Encode(w) == S2.Encode(ins)
  {
    match ins
    case Hlt => S3.Hlt
    case OutByte(a) => S3.OutByte(a)
  }

  /** A step-2 state as a step-3 state: memory becomes writable, which no
      step-2 instruction makes use of. */
  function Lift2(s: S2.Snapshot): S3.Snapshot
  {
    S3.Snapshot(s.memory, s.pc, s.running, s.output)
  }

  /** A step-2 run's end as the step-3 run's end. */
  function LiftRun2(r: S2.RunResult): S3.RunResult
  {
    S3.RunResult(r.outcome, Lift2(r.final))
  }

  /** Both decoders agree on every opcode but 2 and 3, which only step 3 accepts. */
  lemma DecodeAgrees23(mem: seq<Byte>, pc: nat)
    ensures S2.InstructionAt(mem, pc).Ok? ==>
      var d := S2.InstructionAt(mem, pc).value;
      S3.InstructionAt(mem, pc) == Ok(S3.Decoded(Widen2(d.ins), d.next))
    ensures S2.InstructionAt(mem, pc).Err? && !(pc < |mem| && 2 <= mem[pc] <= 3) ==>
      S3.InstructionAt(mem, pc) == Err(S2.InstructionAt(mem, pc).fault)
  {
  }

  /** One step of step 2 is one step of step 3, except at opcodes 2 and 3. */
  lemma StepAgrees23(s: S2.Snapshot)
    requires !(s.pc < |s.memory| && 2 <= s.memory[s.pc] <= 3)
    ensures match S2.NextState(s)
      case Ok(t) => S3.NextState(Lift2(s)) == Ok(Lift2(t))
      case Err(f) => S3.NextState(Lift2(s)) == Err(f)
  {
    DecodeAgrees23(s.memory, s.pc);
  }

  /** A bounded step-2 run that does not stop at opcode 2 or 3 is the step-3
      run of the same image. */
  lemma {:induction false} RunAgrees23(s: S2.Snapshot, fuel: nat)
    requires S2.Loop(s, fuel).outcome != Faulted(Decode(2, S2.Loop(s, fuel).final.pc))
    requires S2.Loop(s, fuel).outcome != Faulted(Decode(3, S2.Loop(s, fuel).final.pc))
    ensures S3.Loop(Lift2(s), fuel) == LiftRun2(S2.Loop(s, fuel))
    decreases fuel
  {
    if s.running && fuel > 0 {
      StepAgrees23(s);
      if S2.NextState(s).Ok? {
        RunAgrees23(S2.NextState(s).value, fuel - 1);
      }
    }
  }
}
