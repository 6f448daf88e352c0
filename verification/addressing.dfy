/**
 * The fifteen addressing-mode resolvers Addr_* (wdc65c02.cpp:1185-1344).
 * Each reads its operand bytes at pc, moves pc past them and returns the
 * effective address the operation handler works on.  Resolvers only read
 * memory, so the result is the new pc and the address.
 */
module Addressing {
  import opened Alu
  import opened Decoder
  import opened Machine

  /** The pc a resolver leaves and the address it returns. */
  datatype Resolved = Resolved(pc: bv16, ea: bv16)

  /** How many operand bytes follow the opcode in each mode. */
  function OperandBytes(mode: Mode): bv16 {
    match mode
    case Accumulator | Implied => 0
    case Absolute | AbsoluteIndexedIndirect | AbsoluteX | AbsoluteY | AbsoluteIndirect => 2
    case _ => 1
  }

  /** The little-endian operand word at pc and pc + 1. */
  function OperandWord(s: State): bv16 {
    ReadWord(s.mem, s.pc)
  }

  /**
   * The address each resolver returns, in terms of the state before it runs.
   * Sums that the source forms in `int` and then stores into a `uint16_t`, or
   * masks with `& 0xFF`, are taken here at 16 and 8 bits, which is the same
   * wrap-around.  The accumulator and implied resolvers return 0, which no
   * handler of theirs reads.
   */
  function EffectiveAddress(s: State, mode: Mode): bv16 {
    match mode
    case Absolute => OperandWord(s)
    case AbsoluteIndexedIndirect => AbsoluteIndexedIndirectAddress(s)
    case AbsoluteX => AbsoluteIndexed(s, s.x)
    case AbsoluteY => AbsoluteIndexed(s, s.y)
    case AbsoluteIndirect => AbsoluteIndirectAddress(s)
    case Accumulator => 0
    case Immediate => s.pc
    case Implied => 0
    case Relative => RelativeTarget(s.mem, s.pc)
    case ZeroPage => ZeroPageAddress(s)
    case ZeroPageIndexedIndirect => ZeroPageIndexedIndirectAddress(s)
    case ZeroPageX => ZeroPageIndexed(s, s.x)
    case ZeroPageY => ZeroPageIndexed(s, s.y)
    case ZeroPageIndirect => ZeroPageIndirectAddress(s)
    case ZeroPageIndirectY => ZeroPageIndirectYAddress(s)
  }

  /** Addr_ABIXN: the word stored at the operand word plus X. */
  function AbsoluteIndexedIndirectAddress(s: State): bv16 {
    ReadWord(s.mem, OperandWord(s) + s.x as bv16)
  }

  /** Addr_ABSIX and Addr_ABSIY: the operand word plus the index register. */
  function AbsoluteIndexed(s: State, index: bv8): bv16 {
    OperandWord(s) + index as bv16
  }

  /** Addr_ABSIN: the word stored at the operand word. */
  function AbsoluteIndirectAddress(s: State): bv16 {
    ReadWord(s.mem, OperandWord(s))
  }

  /** Addr_RELAT: the branch target of the offset byte at pc. */
  function RelativeTarget(mem: Memory, pc: bv16): bv16 {
    BranchTarget(pc, Read(mem, pc))
  }

  /** The sign-extended offset `off`, read at pc, added to the pc that follows it. */
  function BranchTarget(pc: bv16, off: bv8): bv16 {
    pc + 1 + SignExtend(off)
  }

  /** Addr_ZEROP: the operand byte. */
  function ZeroPageAddress(s: State): bv16 {
    Read(s.mem, s.pc) as bv16
  }

  /** Addr_ZPIXN: the zero-page pointer at the operand byte plus X. */
  function ZeroPageIndexedIndirectAddress(s: State): bv16 {
    ZeroPageWord(s.mem, Read(s.mem, s.pc) + s.x)
  }

  /** Addr_ZRPIX and Addr_ZRPIY: the operand byte plus the index register, within page zero. */
  function ZeroPageIndexed(s: State, index: bv8): (ea: bv16)
    ensures ea < 0x100 && Lo(ea) == Read(s.mem, s.pc) + index
  {
    (Read(s.mem, s.pc) + index) as bv16
  }

  /** Addr_ZRPIN: the zero-page pointer at the operand byte. */
  function ZeroPageIndirectAddress(s: State): bv16 {
    ZeroPageWord(s.mem, Read(s.mem, s.pc))
  }

  /** Addr_ZPINY: the zero-page pointer at the operand byte, plus Y. */
  function ZeroPageIndirectYAddress(s: State): bv16 {
    ZeroPageWord(s.mem, Read(s.mem, s.pc)) + s.y as bv16
  }

  /** A resolver consumes its operand bytes, advancing pc past them, and returns its effective address. */
  function Resolve(s: State, mode: Mode): Resolved {
    Resolved(s.pc + OperandBytes(mode), EffectiveAddress(s, mode))
  }

  /** The pointer at zero-page address zp: low byte at zp, high byte at `(zp + 1) & 0xFF`. */
  function ZeroPageWord(mem: Memory, zp: bv8): (w: bv16)
    ensures Lo(w) == Read(mem, zp as bv16) && Hi(w) == Read(mem, (zp + 1) as bv16)
  {
    Word(Read(mem, zp as bv16), Read(mem, (zp + 1) as bv16))
  }

  /** Zero-page indexed addresses stay in page zero: `(b + index) & 0xFF`. */
  lemma ZeroPageIndexedWraps(s: State, index: bv8)
    ensures ZeroPageIndexed(s, index) == (Read(s.mem, s.pc) as bv16 + index as bv16) & 0xFF
    ensures ZeroPageIndexed(s, index) < 0x100
  {
  }

  /** A zero-page pointer at 0xFF takes its high byte from 0x00, not from 0x100. */
  lemma ZeroPagePointerWraps(s: State)
    requires Read(s.mem, s.pc) == 0xFF
    ensures ZeroPageIndirectAddress(s) == Word(Read(s.mem, 0x00FF), Read(s.mem, 0x0000))
  {
  }

  /** (zp,X) indexes the pointer's address within page zero, before the pointer is read. */
  lemma IndexedIndirectPointer(s: State)
    ensures var zp := (Read(s.mem, s.pc) as bv16 + s.x as bv16) & 0xFF;
      ZeroPageIndexedIndirectAddress(s) == Word(Read(s.mem, zp), Read(s.mem, (zp + 1) & 0xFF))
  {
  }

  /** Absolute indexed addresses are the 17-bit sum cut to 16 bits: they wrap at 0xFFFF. */
  lemma AbsoluteIndexedWraps(s: State, index: bv8)
    ensures AbsoluteIndexed(s, index) as bv32 == (OperandWord(s) as bv32 + index as bv32) & 0xFFFF
  {
  }

  /** (zp),Y addresses are the pointer plus Y, wrapping at 0xFFFF. */
  lemma IndirectYWraps(s: State)
    ensures var ptr := ZeroPageWord(s.mem, Read(s.mem, s.pc));
      ZeroPageIndirectYAddress(s) as bv32 == (ptr as bv32 + s.y as bv32) & 0xFFFF
  {
  }

  /** With bit 7 of the offset clear, a branch target lies that many bytes after the offset byte. */
  lemma RelativeForward(pc: bv16, off: bv8)
    requires off < 0x80
    ensures BranchTarget(pc, off) == pc + 1 + off as bv16
  {
  }

  /** With bit 7 set, a branch target lies 0x100 minus the offset bytes before the byte after the offset. */
  lemma RelativeBackward(pc: bv16, off: bv8)
    requires off >= 0x80
    ensures BranchTarget(pc, off) == pc + 1 - (0x100 - off as bv16)
  {
  }
}
