/** What the five-opcode machine guarantees: decoding is the inverse of the
    instruction layout, each instruction has exactly its documented effect,
    only `Hlt` stops a run, and a few whole programs behave as stated. */
module Step4Properties {
  import opened Bytes
  import opened Faults
  import opened Pointers
  import opened Step4

  /** The operand bytes of an encoded instruction, four per pointer. */
  lemma EncodeOperands(ins: Instruction)
    ensures ins.OutByte? ==> Encode(ins)[1..5] == EncodeU32(ins.addr)
    ensures ins.InByte? ==> Encode(ins)[1..5] == EncodeU32(ins.dstptr)
    ensures ins.BranchIfPlus? ==>
      Encode(ins)[1..5] == EncodeU32(ins.jmpptr) && Encode(ins)[5..9] == EncodeU32(ins.srcptr)
    ensures ins.Sub? ==>
      Encode(ins)[1..5] == EncodeU32(ins.dstptr) && Encode(ins)[5..9] == EncodeU32(ins.srcptr)
  {
    match ins
    case Hlt =>
    case OutByte(a) =>
      assert Encode(ins) == [1] + EncodeU32(a);
    case InByte(d) =>
      assert Encode(ins) == [4] + EncodeU32(d);
    case BranchIfPlus(j, s) =>
      assert Encode(ins) == [2] + EncodeU32(j) + EncodeU32(s);
    case Sub(d, s) =>
      assert Encode(ins) == [3] + EncodeU32(d) + EncodeU32(s);
  }

  /** The bytes of an encoded instruction decode to that instruction, and
      decoding consumes exactly its 1 + 4 * arity bytes. */
  lemma DecodeOfEncoding(mem: seq<Byte>, pc: nat, ins: Instruction)
    requires pc + |Encode(ins)| <= |mem| && mem[pc..pc + |Encode(ins)|] == Encode(ins)
    ensures InstructionAt(mem, pc) == Ok(Decoded(ins, pc + 1 + 4 * Arity(ins)))
  {
    var e := Encode(ins);
    assert mem[pc] == e[0];
    EncodeOperands(ins);
    if Arity(ins) >= 1 {
      WindowPart(mem, pc, e, 1, 5);
      PointerOfEncoding(mem, pc + 1, LittleEndian(e[1..5]));
    }
    if Arity(ins) == 2 {
      WindowPart(mem, pc, e, 5, 9);
      PointerOfEncoding(mem, pc + 5, LittleEndian(e[5..9]));
    }
  }

  /** Whatever decodes successfully is stored exactly as its encoding, so
      an instruction's operands are taken in the order they are written. */
  lemma EncodingOfDecode(mem: seq<Byte>, pc: nat)
    requires InstructionAt(mem, pc).Ok?
    ensures var d := InstructionAt(mem, pc).value;
      mem[pc..d.next] == Encode(d.ins)
  {
    var d := InstructionAt(mem, pc).value;
    var e := Encode(d.ins);
    match d.ins
    case Hlt =>
      assert mem[pc..d.next] == [mem[pc]];
    case OutByte(a) =>
      EncodingOfPointer(mem, pc + 1);
      assert mem[pc..d.next] == [mem[pc]] + mem[pc + 1..pc + 5];
    case InByte(a) =>
      EncodingOfPointer(mem, pc + 1);
      assert mem[pc..d.next] == [mem[pc]] + mem[pc + 1..pc + 5];
    case BranchIfPlus(j, s) =>
      EncodingOfPointer(mem, pc + 1);
      EncodingOfPointer(mem, pc + 5);
      assert mem[pc..d.next] == [mem[pc]] + mem[pc + 1..pc + 5] + mem[pc + 5..pc + 9];
    case Sub(dst, s) =>
      EncodingOfPointer(mem, pc + 1);
      EncodingOfPointer(mem, pc + 5);
      assert mem[pc..d.next] == [mem[pc]] + mem[pc + 1..pc + 5] + mem[pc + 5..pc + 9];
  }

  /** An opcode is rejected exactly when it is 5 or more. */
  lemma InvalidOpcodeIff(mem: seq<Byte>, pc: nat)
    ensures (InstructionAt(mem, pc).Err? && InstructionAt(mem, pc).fault.Decode?)
      <==> pc < |mem| && mem[pc] >= 5
  {
  }

  /** A step whose decoding fails changes nothing and reports the decoding fault. */
  lemma DecodeFaultStopsStep(s: Snapshot)
    requires InstructionAt(s.memory, s.pc).Err?
    ensures NextState(s) == Err(InstructionAt(s.memory, s.pc).fault)
  {
  }

  /** `Hlt` clears the running flag, moves pc past its one byte, and changes nothing else. */
  lemma HltEffect(s: Snapshot)
    requires InstructionAt(s.memory, s.pc) == Ok(Decoded(Hlt, s.pc + 1))
    ensures NextState(s) == Ok(s.(pc := s.pc + 1, running := false))
  {
  }

  /** `OutByte` appends exactly the addressed byte to the output; memory and input are untouched. */
  lemma OutByteEffect(s: Snapshot, addr: U32)
    requires InstructionAt(s.memory, s.pc) == Ok(Decoded(OutByte(addr), s.pc + 5))
    ensures addr >= |s.memory| ==> NextState(s) == Err(Bounds(addr))
    ensures addr < |s.memory| && !s.outputOpen ==> NextState(s) == Err(Io(WriteFailed))
    ensures addr < |s.memory| && s.outputOpen ==>
      NextState(s) == Ok(s.(pc := s.pc + 5, output := s.output + [s.memory[addr]]))
  {
  }

  /** The sign of a byte read as a two's-complement 8-bit integer. */
  function AsSigned(b: Byte): (v: int)
    ensures -128 <= v < 128 && (v - b) % 256 == 0
  {
    if b < 128 then b else b - 256
  }

  /** `BranchIfPlus` jumps exactly when its source byte is plus (non-negative as a
      signed byte); otherwise execution falls through to the next instruction.
      Memory, streams and the running flag are unchanged either way. */
  lemma BranchIfPlusEffect(s: Snapshot, jmpptr: U32, srcptr: U32)
    requires InstructionAt(s.memory, s.pc) == Ok(Decoded(BranchIfPlus(jmpptr, srcptr), s.pc + 9))
    ensures srcptr >= |s.memory| ==> NextState(s) == Err(Bounds(srcptr))
    ensures srcptr < |s.memory| ==>
      && NextState(s).Ok?
      && SameExceptPc(NextState(s).value, s)
      && NextState(s).value.pc == (if AsSigned(s.memory[srcptr]) >= 0 then jmpptr as nat else s.pc + 9)
  {
  }

  /** The branch threshold: a source byte of 127 takes the branch, 128 does not. */
  lemma BranchThreshold(b: Byte)
    requires b == 127 || b == 128
    ensures var mem := [2, 0, 0, 0, 0, 9, 0, 0, 0, b];
      var s := Snapshot(mem, 0, true, [], [], true);
      NextState(s) == Ok(s.(pc := if b == 127 then 0 else 9))
  {
    var mem := [2, 0, 0, 0, 0, 9, 0, 0, 0, b];
    assert PointerAt(mem, 1) == Ok(Pointer(0, 5));
    assert PointerAt(mem, 5) == Ok(Pointer(9, 9));
  }

  /** `Sub` stores the wrapped difference in the destination cell and changes no
      other cell; subtracting a cell from itself clears it. Out-of-range
      pointers fault, the source pointer being checked first. */
  lemma SubEffect(s: Snapshot, dstptr: U32, srcptr: U32)
    requires InstructionAt(s.memory, s.pc) == Ok(Decoded(Sub(dstptr, srcptr), s.pc + 9))
    ensures srcptr >= |s.memory| ==> NextState(s) == Err(Bounds(srcptr))
    ensures srcptr < |s.memory| <= dstptr ==> NextState(s) == Err(Bounds(dstptr))
    ensures srcptr < |s.memory| && dstptr < |s.memory| ==>
      var t := NextState(s).value;
      && NextState(s).Ok?
      && t == s.(pc := s.pc + 9, memory := t.memory)
      && |t.memory| == |s.memory|
      && ((t.memory[dstptr] as int) + (s.memory[srcptr] as int)) % 256 == s.memory[dstptr]
      && (dstptr == srcptr ==> t.memory[dstptr] == 0)
      && (forall k :: 0 <= k < |s.memory| && k != dstptr ==> t.memory[k] == s.memory[k])
  {
  }

  /** `InByte` moves exactly one byte from the input into the destination cell;
      no other cell changes. An empty input is an I/O fault. */
  lemma InByteEffect(s: Snapshot, dstptr: U32)
    requires InstructionAt(s.memory, s.pc) == Ok(Decoded(InByte(dstptr), s.pc + 5))
    ensures dstptr >= |s.memory| ==> NextState(s) == Err(Bounds(dstptr))
    ensures dstptr < |s.memory| && s.input == [] ==> NextState(s) == Err(Io(EndOfInput))
    ensures dstptr < |s.memory| && s.input != [] ==>
      var t := NextState(s).value;
      && NextState(s).Ok?
      && t == s.(pc := s.pc + 5, memory := t.memory, input := t.input)
      && [t.memory[dstptr]] + t.input == s.input
      && |t.memory| == |s.memory|
      && (forall k :: 0 <= k < |s.memory| && k != dstptr ==> t.memory[k] == s.memory[k])
  {
  }

  /** Of all instructions only `Hlt` clears the running flag. */
  lemma OnlyHltStops(s: Snapshot)
    requires s.running && NextState(s).Ok?
    ensures !NextState(s).value.running <==> InstructionAt(s.memory, s.pc).value.ins == Hlt
  {
  }

  /** A run that halts stopped right after a `Hlt`: pc is just past an opcode 0,
      and the running flag is clear. */
  lemma {:induction false} HaltedAfterHlt(s: Snapshot, fuel: nat)
    requires s.running && Loop(s, fuel).outcome == Halted
    ensures var t := Loop(s, fuel).final;
      !t.running && 1 <= t.pc <= |t.memory| && t.memory[t.pc - 1] == 0
    decreases fuel
  {
    var t := NextState(s).value;
    OnlyHltStops(s);
    assert Loop(s, fuel) == Loop(t, fuel - 1);
    if t.running {
      HaltedAfterHlt(t, fuel - 1);
    }
  }

  /** The same for `run`, which sets the flag before looping. */
  lemma RunHaltsOnlyAtHlt(s: Snapshot, fuel: nat)
    requires RunFrom(s, fuel).outcome == Halted
    ensures var t := RunFrom(s, fuel).final;
      !t.running && 1 <= t.pc <= |t.memory| && t.memory[t.pc - 1] == 0
  {
    HaltedAfterHlt(s.(running := true), fuel);
  }

  /** More fuel does not change a run that already ended by halting or faulting. */
  lemma {:induction false} MoreFuel(s: Snapshot, fuel: nat, more: nat)
    requires fuel <= more && Loop(s, fuel).outcome != OutOfFuel
    ensures Loop(s, more) == Loop(s, fuel)
    decreases fuel
  {
    if s.running && NextState(s).Ok? {
      MoreFuel(NextState(s).value, fuel - 1, more - 1);
    }
  }

  /** The program consisting of a single `Hlt` stops after one step and
      touches neither stream. */
  lemma HaltProgram(input: seq<Byte>, open: bool)
    ensures RunFrom(Snapshot([0], 0, false, input, [], open), 1)
         == RunResult(Halted, Snapshot([0], 1, false, input, [], open))
  {
  }

  /** Read one byte into a data cell, write it back out, halt. */
  lemma EchoProgram(b: Byte, rest: seq<Byte>)
    ensures var mem := [4, 11, 0, 0, 0, 1, 11, 0, 0, 0, 0, 0];
      RunFrom(Snapshot(mem, 0, false, [b] + rest, [], true), 3)
        == RunResult(Halted, Snapshot(mem[11 := b], 11, false, rest, [b], true))
  {
    var mem := [4, 11, 0, 0, 0, 1, 11, 0, 0, 0, 0, 0];
    var s0 := Snapshot(mem, 0, true, [b] + rest, [], true);
    assert PointerAt(mem, 1) == Ok(Pointer(11, 5));
    var s1 := Snapshot(mem[11 := b], 5, true, rest, [], true);
    assert NextState(s0) == Ok(s1);
    assert s1.memory[5..11] == [1, 11, 0, 0, 0, 0];
    assert PointerAt(s1.memory, 6) == Ok(Pointer(11, 10));
    var s2 := Snapshot(mem[11 := b], 10, true, rest, [b], true);
    assert InstructionAt(s1.memory, 5) == Ok(Decoded(OutByte(11), 10));
    assert s1.memory[11] == b;
    assert s1.output + [s1.memory[11]] == [b];
    assert Execute(s1.(pc := 10), OutByte(11)) == Ok(s2);
    assert NextState(s1) == Ok(s2);
    assert NextState(s2) == Ok(s2.(pc := 11, running := false));
  }

  /** Reading into address 5 of [4,5,0,0,0, 1,5,0,0,0, 0] overwrites the opcode
      of the program's own second instruction, so with input 0x42 the second
      step is a decode fault at offset 5 and nothing is written. */
  lemma SelfOverwritingProgram(rest: seq<Byte>)
    ensures var mem := [4, 5, 0, 0, 0, 1, 5, 0, 0, 0, 0];
      RunFrom(Snapshot(mem, 0, false, [0x42] + rest, [], true), 3)
        == RunResult(Faulted(Decode(0x42, 5)), Snapshot(mem[5 := 0x42], 5, true, rest, [], true))
  {
    var mem := [4, 5, 0, 0, 0, 1, 5, 0, 0, 0, 0];
    var s0 := Snapshot(mem, 0, true, [0x42] + rest, [], true);
    assert PointerAt(mem, 1) == Ok(Pointer(5, 5));
    var s1 := Snapshot(mem[5 := 0x42], 5, true, rest, [], true);
    assert NextState(s0) == Ok(s1);
  }

  /** `InByte` on an exhausted input ends the run with an I/O fault before
      anything else executes. */
  lemma InByteAtEndOfInput(open: bool)
    ensures var mem := [4, 5, 0, 0, 0, 0];
      RunFrom(Snapshot(mem, 0, false, [], [], open), 2)
        == RunResult(Faulted(Io(EndOfInput)), Snapshot(mem, 0, true, [], [], open))
  {
    var mem := [4, 5, 0, 0, 0, 0];
    assert PointerAt(mem, 1) == Ok(Pointer(5, 5));
  }

  /** Subtraction wraps: 5 - 10 leaves 251 in the destination cell. */
  lemma SubWrapsProgram()
    ensures var mem := [3, 10, 0, 0, 0, 11, 0, 0, 0, 0, 5, 10];
      RunFrom(Snapshot(mem, 0, false, [], [], true), 2)
        == RunResult(Halted, Snapshot(mem[10 := 251], 10, false, [], [], true))
  {
    var mem := [3, 10, 0, 0, 0, 11, 0, 0, 0, 0, 5, 10];
    assert PointerAt(mem, 1) == Ok(Pointer(10, 5));
    assert PointerAt(mem, 5) == Ok(Pointer(11, 9));
    var s1 := Snapshot(mem[10 := 251], 9, true, [], [], true);
    assert NextState(Snapshot(mem, 0, true, [], [], true)) == Ok(s1);
  }

  /** A `BranchIfPlus` that tests its own opcode byte (2, which is plus) and jumps
      to itself never halts: every budget runs out. */
  lemma {:induction false} SelfBranchNeverHalts(input: seq<Byte>, open: bool, fuel: nat)
    ensures var mem := [2, 0, 0, 0, 0, 0, 0, 0, 0];
      RunFrom(Snapshot(mem, 0, false, input, [], open), fuel).outcome == OutOfFuel
  {
    var mem := [2, 0, 0, 0, 0, 0, 0, 0, 0];
    var s := Snapshot(mem, 0, true, input, [], open);
    assert PointerAt(mem, 1) == Ok(Pointer(0, 5));
    assert PointerAt(mem, 5) == Ok(Pointer(0, 9));
    assert NextState(s) == Ok(s);
    if fuel > 0 {
      SelfBranchNeverHalts(input, open, fuel - 1);
      assert Loop(s, fuel) == Loop(s, fuel - 1);
    }
  }
}
