/** What the four-opcode machine guarantees. */
module Step3Properties {
  import opened Bytes
  import opened Faults
  import opened Pointers
  import opened Step3

  /** The operand bytes of an encoded instruction, four per pointer. */
  lemma EncodeOperands(ins: Instruction)
    ensures ins.OutByte? ==> Encode(ins)[1..5] == EncodeU32(ins.addr)
    ensures ins.BranchIfPlus? ==>
      Encode(ins)[1..5] == EncodeU32(ins.jmpptr) && Encode(ins)[5..9] == EncodeU32(ins.srcptr)
    ensures ins.Sub? ==>
      Encode(ins)[1..5] == EncodeU32(ins.dstptr) && Encode(ins)[5..9] == EncodeU32(ins.srcptr)
  {
    match ins
    case Hlt =>
    case OutByte(a) =>
      assert Encode(ins) == [1] + EncodeU32(a);
    case BranchIfPlus(j, s) =>
      assert Encode(ins) == [2] + EncodeU32(j) + EncodeU32(s);
    case Sub(d, s) =>
      assert Encode(ins) == [3] + EncodeU32(d) + EncodeU32(s);
  }

  /** An encoded instruction decodes to itself, consuming 1, 5, 9 and 9 bytes
      for `Hlt`, `OutByte`, `BranchIfPlus` and `Sub`. */
  lemma DecodeOfEncoding(mem: seq<Byte>, pc: nat, ins: Instruction)
    requires pc + |Encode(ins)| <= |mem| && mem[pc..pc + |Encode(ins)|] == Encode(ins)
    ensures InstructionAt(mem, pc) == Ok(Decoded(ins, pc + 1 + 4 * Arity(ins)))
    ensures Arity(ins) == match ins case Hlt => 0 case OutByte(_) => 1 case _ => 2
  {
    var e := Encode(ins);
    assert mem[pc] == e[0];
    EncodeOperands(ins);
    if Arity(ins) >= 1 {
      WindowPart(mem, pc, e, 1, 5);
      PointerOfEncoding(mem, pc + 1, LittleEndian(e[1..5]));
    }
    if Arity(ins) == 2 {
      WindowPart(mem, pc, e, 5, 9);
      PointerOfEncoding(mem, pc + 5, LittleEndian(e[5..9]));
    }
  }

  /** Whatever decodes successfully is stored exactly as its encoding. */
  lemma EncodingOfDecode(mem: seq<Byte>, pc: nat)
    requires InstructionAt(mem, pc).Ok?
    ensures var d := InstructionAt(mem, pc).value;
      mem[pc..d.next] == Encode(d.ins)
  {
    var d := InstructionAt(mem, pc).value;
    match d.ins
    case Hlt =>
      assert mem[pc..d.next] == [mem[pc]];
    case OutByte(a) =>
      EncodingOfPointer(mem, pc + 1);
      assert mem[pc..d.next] == [mem[pc]] + mem[pc + 1..pc + 5];
    case BranchIfPlus(j, s) =>
      EncodingOfPointer(mem, pc + 1);
      EncodingOfPointer(mem, pc + 5);
      assert mem[pc..d.next] == [mem[pc]] + mem[pc + 1..pc + 5] + mem[pc + 5..pc + 9];
    case Sub(dst, s) =>
      EncodingOfPointer(mem, pc + 1);
      EncodingOfPointer(mem, pc + 5);
      assert mem[pc..d.next] == [mem[pc]] + mem[pc + 1..pc + 5] + mem[pc + 5..pc + 9];
  }

  /** Only opcodes 0 to 3 are accepted: an opcode is rejected exactly when it is 4 or more. */
  lemma InvalidOpcodeIff(mem: seq<Byte>, pc: nat)
    ensures (InstructionAt(mem, pc).Err? && InstructionAt(mem, pc).fault.Decode?)
      <==> pc < |mem| && mem[pc] >= 4
  {
  }

  /** `OutByte` writes exactly the addressed byte; memory is untouched. */
  lemma OutByteEffect(s: Snapshot, addr: U32)
    requires InstructionAt(s.memory, s.pc) == Ok(Decoded(OutByte(addr), s.pc + 5))
    ensures addr >= |s.memory| ==> NextState(s) == Err(Bounds(addr))
    ensures addr < |s.memory| ==>
      NextState(s) == Ok(s.(pc := s.pc + 5, output := s.output + [s.memory[addr]]))
  {
  }

  /** `BranchIfPlus` sets pc to its target if and only if the source byte is
      below 128, and otherwise leaves pc where decoding left it. */
  lemma BranchIfPlusEffect(s: Snapshot, jmpptr: U32, srcptr: U32)
    requires InstructionAt(s.memory, s.pc) == Ok(Decoded(BranchIfPlus(jmpptr, srcptr), s.pc + 9))
    ensures srcptr >= |s.memory| ==> NextState(s) == Err(Bounds(srcptr))
    ensures srcptr < |s.memory| ==>
      && NextState(s).Ok?
      && SameExceptPc(NextState(s).value, s)
      && NextState(s).value.pc == (if s.memory[srcptr] < 128 then jmpptr as nat else s.pc + 9)
  {
  }

  /** `Sub` writes the wrapped difference to the destination cell only. */
  lemma SubEffect(s: Snapshot, dstptr: U32, srcptr: U32)
    requires InstructionAt(s.memory, s.pc) == Ok(Decoded(Sub(dstptr, srcptr), s.pc + 9))
    ensures srcptr >= |s.memory| ==> NextState(s) == Err(Bounds(srcptr))
    ensures srcptr < |s.memory| <= dstptr ==> NextState(s) == Err(Bounds(dstptr))
    ensures srcptr < |s.memory| && dstptr < |s.memory| ==>
      var t := NextState(s).value;
      && NextState(s).Ok?
      && t == s.(pc := s.pc + 9, memory := t.memory)
      && |t.memory| == |s.memory|
      && ((t.memory[dstptr] as int) + (s.memory[srcptr] as int)) % 256 == s.memory[dstptr]
      && (forall k :: 0 <= k < |s.memory| && k != dstptr ==> t.memory[k] == s.memory[k])
  {
  }

  /** Only `Hlt` clears the running flag, and it changes nothing else. */
  lemma OnlyHltStops(s: Snapshot)
    requires s.running && NextState(s).Ok?
    ensures !NextState(s).value.running <==> InstructionAt(s.memory, s.pc).value.ins == Hlt
    ensures InstructionAt(s.memory, s.pc).value.ins == Hlt ==>
      NextState(s).value == s.(pc := s.pc + 1, running := false)
  {
  }

  /** A run that halts stopped right after a `Hlt`. */
  lemma {:induction false} HaltedAfterHlt(s: Snapshot, fuel: nat)
    requires s.running && Loop(s, fuel).outcome == Halted
    ensures var t := Loop(s, fuel).final;
      !t.running && 1 <= t.pc <= |t.memory| && t.memory[t.pc - 1] == 0
    decreases fuel
  {
    var t := NextState(s).value;
    OnlyHltStops(s);
    assert Loop(s, fuel) == Loop(t, fuel - 1);
    if t.running {
      HaltedAfterHlt(t, fuel - 1);
    }
  }

  /** `run` sets the flag and loops until a `Hlt` clears it. */
  lemma RunHaltsOnlyAtHlt(s: Snapshot, fuel: nat)
    requires RunFrom(s, fuel).outcome == Halted
    ensures var t := RunFrom(s, fuel).final;
      !t.running && 1 <= t.pc <= |t.memory| && t.memory[t.pc - 1] == 0
  {
    HaltedAfterHlt(s.(running := true), fuel);
  }
}
