/** The pointer codec: a 32-bit little-endian operand read at an offset. */
module Pointers {
  import opened Bytes
  import opened Faults

  /** A decoded pointer and the offset just after its four bytes. */
  datatype Pointer = Pointer(value: U32, next: nat)

  /** The pointer stored at offset pc of mem: four bytes, least significant first. */
  function PointerAt(mem: seq<Byte>, pc: nat): (r: Result<Pointer>)
    ensures r.Ok? <==> pc + 4 <= |mem|
    ensures r.Ok? ==> r.value.next == pc + 4
    ensures r.Err? ==> r.fault == Bounds(pc)
  {
    if pc + 4 <= |mem| then
      var b0, b1, b2, b3 := mem[pc], mem[pc + 1], mem[pc + 2], mem[pc + 3];
      Ok(Pointer((b0 as int) + 256 * (b1 as int) + 65536 * (b2 as int) + 16777216 * (b3 as int), pc + 4))
    else
      Err(Bounds(pc))
  }

  /** The value of a pointer is the little-endian number its four bytes spell. */
  lemma PointerAtLittleEndian(mem: seq<Byte>, pc: nat)
    requires pc + 4 <= |mem|
    ensures PointerAt(mem, pc).Ok? && PointerAt(mem, pc).value.value == LittleEndian(mem[pc..pc + 4])
  {
    var w := mem[pc..pc + 4];
    assert w[0] == mem[pc] && w[1] == mem[pc + 1] && w[2] == mem[pc + 2] && w[3] == mem[pc + 3];
    LittleEndianFour(w);
  }

  /** The four bytes of an encoded pointer decode to that pointer. */
  lemma PointerOfEncoding(mem: seq<Byte>, pc: nat, p: U32)
    requires pc + 4 <= |mem| && mem[pc..pc + 4] == EncodeU32(p)
    ensures PointerAt(mem, pc) == Ok(Pointer(p, pc + 4))
  {
    PointerAtLittleEndian(mem, pc);
  }

  /** A decoded pointer is stored as its encoding. */
  lemma EncodingOfPointer(mem: seq<Byte>, pc: nat)
    requires PointerAt(mem, pc).Ok?
    ensures mem[pc..pc + 4] == EncodeU32(PointerAt(mem, pc).value.value)
  {
    PointerAtLittleEndian(mem, pc);
    EncodeLittleEndian(mem[pc..pc + 4]);
  }
}
