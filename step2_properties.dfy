/** What the two-opcode, read-only machine guarantees. */
module Step2Properties {
  import opened Bytes
  import opened Faults
  import opened Pointers
  import opened Step2

  /** An encoded instruction decodes to itself: `Hlt` takes one byte, `OutByte` five. */
  lemma DecodeOfEncoding(mem: seq<Byte>, pc: nat, ins: Instruction)
    requires pc + |Encode(ins)| <= |mem| && mem[pc..pc + |Encode(ins)|] == Encode(ins)
    ensures InstructionAt(mem, pc) == Ok(Decoded(ins, pc + |Encode(ins)|))
  {
    var e := Encode(ins);
    assert mem[pc] == e[0];
    if ins.OutByte? {
      assert e[1..5] == EncodeU32(ins.addr);
      WindowPart(mem, pc, e, 1, 5);
      PointerOfEncoding(mem, pc + 1, ins.addr);
    }
  }

  /** Whatever decodes successfully is stored exactly as its encoding. */
  lemma EncodingOfDecode(mem: seq<Byte>, pc: nat)
    requires InstructionAt(mem, pc).Ok?
    ensures var d := InstructionAt(mem, pc).value;
      mem[pc..d.next] == Encode(d.ins)
  {
    var d := InstructionAt(mem, pc).value;
    if d.ins.Hlt? {
      assert mem[pc..d.next] == [mem[pc]];
    } else {
      EncodingOfPointer(mem, pc + 1);
      assert mem[pc..d.next] == [mem[pc]] + mem[pc + 1..pc + 5];
    }
  }

  /** Opcode 0 and 1 are the only valid ones. */
  lemma InvalidOpcodeIff(mem: seq<Byte>, pc: nat)
    ensures (InstructionAt(mem, pc).Err? && InstructionAt(mem, pc).fault.Decode?)
      <==> pc < |mem| && mem[pc] >= 2
  {
  }

  /** `Hlt` clears the running flag; `OutByte` writes exactly the addressed
      byte. Neither touches memory, which nothing in this machine can change. */
  lemma StepEffect(s: Snapshot)
    requires InstructionAt(s.memory, s.pc).Ok?
    ensures var d := InstructionAt(s.memory, s.pc).value;
      match d.ins
      case Hlt => NextState(s) == Ok(s.(pc := s.pc + 1, running := false))
      case OutByte(addr) =>
        if addr < |s.memory|
        then NextState(s) == Ok(s.(pc := s.pc + 5, output := s.output + [s.memory[addr]]))
        else NextState(s) == Err(Bounds(addr))
  {
  }

  /** Memory is a shared, read-only slice: no bounded run changes it, whatever
      way the run ends. */
  lemma {:induction false} RunKeepsMemory(s: Snapshot, fuel: nat)
    ensures Loop(s, fuel).final.memory == s.memory
    decreases fuel
  {
    if s.running && fuel > 0 && NextState(s).Ok? {
      var t := NextState(s).value;
      assert Loop(s, fuel) == Loop(t, fuel - 1);
      RunKeepsMemory(t, fuel - 1);
    }
  }

  /** A run never changes memory, and one that halts stopped right after an opcode 0. */
  lemma {:induction false} HaltedAfterHlt(s: Snapshot, fuel: nat)
    requires s.running && Loop(s, fuel).outcome == Halted
    ensures var t := Loop(s, fuel).final;
      t.memory == s.memory && !t.running && 1 <= t.pc <= |t.memory| && t.memory[t.pc - 1] == 0
    decreases fuel
  {
    var t := NextState(s).value;
    assert Loop(s, fuel) == Loop(t, fuel - 1);
    if t.running {
      HaltedAfterHlt(t, fuel - 1);
    }
  }

  /** `run` loops while the running flag is set, and only `Hlt` clears it. */
  lemma RunHaltsOnlyAtHlt(s: Snapshot, fuel: nat)
    requires RunFrom(s, fuel).outcome == Halted
    ensures var t := RunFrom(s, fuel).final;
      t.memory == s.memory && !t.running && 1 <= t.pc <= |t.memory| && t.memory[t.pc - 1] == 0
  {
    HaltedAfterHlt(s.(running := true), fuel);
  }

  /** `[1,0,0,0,0, 0]` writes the byte at address 0, which is its own opcode 1,
      and then halts after the `Hlt` at offset 5. */
  lemma OutByteOfOwnOpcode()
    ensures RunFrom(Snapshot([1, 0, 0, 0, 0, 0], 0, false, []), 2)
      == RunResult(Halted, Snapshot([1, 0, 0, 0, 0, 0], 6, false, [1]))
  {
    var mem: seq<Byte> := [1, 0, 0, 0, 0, 0];
    assert PointerAt(mem, 1) == Ok(Pointer(0, 5));
    assert InstructionAt(mem, 0) == Ok(Decoded(OutByte(0), 5));
    var s := Snapshot(mem, 0, true, []);
    var t := Snapshot(mem, 5, true, [1]);
    assert s.output + [s.memory[0]] == [1];
    assert NextState(s) == Ok(t);
    assert Loop(s, 2) == Loop(t, 1);
  }
}
