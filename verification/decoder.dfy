/**
 * The instruction table of the 65C02 (wdc65c02.h:32-39, filled in the
 * constructor at wdc65c02.cpp:47-955): for each of the 256 opcodes an
 * addressing mode, an operation and a cycle count.  The source builds one
 * static table at first construction; here it is the total function Decode.
 */
module Decoder {

  /** The fifteen addressing-mode resolvers Addr_* (wdc65c02.h:45-60). */
  datatype Mode =
    | Absolute                 // ABSOL
    | AbsoluteIndexedIndirect  // ABIXN, (a,x)
    | AbsoluteX                // ABSIX
    | AbsoluteY                // ABSIY
    | AbsoluteIndirect         // ABSIN, (a)
    | Accumulator              // ACCUM
    | Immediate                // IMMED
    | Implied                  // IMPLI
    | Relative                 // RELAT
    | ZeroPage                 // ZEROP
    | ZeroPageIndexedIndirect  // ZPIXN, (zp,x)
    | ZeroPageX                // ZRPIX
    | ZeroPageY                // ZRPIY
    | ZeroPageIndirect         // ZRPIN, (zp)
    | ZeroPageIndirectY        // ZPINY, (zp),y

  /** A bit position within a byte, the n of BBRn, BBSn, RMBn and SMBn. */
  type BitIndex = n: bv8 | n < 8

  /**
   * The operation handlers Op_* of wdc65c02.cpp, in nine families.  The
   * eight handlers of each bit family (Op_BBR0 .. Op_BBR7 and so on) are one
   * constructor with the bit index; the *_ACC forms are the accumulator
   * variants of the shifts and of INC and DEC.
   */
  datatype Op =
    | LoadStore(loadStore: LoadStoreOp)
    | Register(register: RegisterOp)
    | Arith(arith: ArithOp)
    | Rmw(rmw: RmwOp)
    | Bits(bits: BitsOp)
    | Branching(branching: BranchOp)
    | Flag(flag: FlagOp)
    | Stack(stack: StackOp)
    | Control(control: ControlOp)
  {
    /** The conditional and unconditional relative branches (not BBR/BBS, which also read a zero-page operand). */
    predicate IsBranch() {
      Branching?
    }

    /** The handlers that work on the accumulator instead of memory. */
    predicate IsAccumulatorForm() {
      Rmw? && rmw in {ASL_ACC, DEC_ACC, INC_ACC, LSR_ACC, ROL_ACC, ROR_ACC}
    }
  }

  /** The loads and stores between a register and memory. */
  datatype LoadStoreOp = LDA | LDX | LDY | STA | STX | STY | STZ

  /** The transfers between registers and the register increments and decrements. */
  datatype RegisterOp = DEX | DEY | INX | INY | TAX | TAY | TSX | TXA | TXS | TYA

  /** The arithmetic, logic, compare and bit-test operations on the accumulator and memory. */
  datatype ArithOp = ADC | AND | BIT | BIT_IMMED | CMP | CPX | CPY | EOR | ORA | SBC

  /** The shifts, rotates, increments and decrements of memory or the accumulator. */
  datatype RmwOp = ASL | ASL_ACC | DEC | DEC_ACC | INC | INC_ACC | LSR | LSR_ACC | ROL | ROL_ACC | ROR | ROR_ACC

  /** The 65C02 bit instructions: test-and-reset, test-and-set, reset, set and branch on a memory bit. */
  datatype BitsOp = BBR(bit: BitIndex) | BBS(bit: BitIndex) | RMB(bit: BitIndex) | SMB(bit: BitIndex) | TRB | TSB

  /** The relative branches. */
  datatype BranchOp = BCC | BCS | BEQ | BMI | BNE | BPL | BRA | BVC | BVS

  /** The flag clears and sets. */
  datatype FlagOp = CLC | CLD | CLI | CLV | SEC | SED | SEI

  /** The pushes and pulls. */
  datatype StackOp = PHA | PHP | PHX | PHY | PLA | PLP | PLX | PLY

  /** The jumps, calls, returns, the break, the no-op and the halts. */
  datatype ControlOp = BRK | JMP | JSR | NOP | RTI | RTS | STP | WAI

  /** A cycle count: every entry the constructor writes takes between one and eight cycles. */
  type Cycles = c: bv8 | 1 <= c <= 8 witness 1

  /** One table entry, the Instr record: resolver, handler and cycle count. */
  datatype Instr = Instr(mode: Mode, op: Op, cycles: Cycles)

  datatype Option<T> = None | Some(value: T)

  /**
   * The defaults written before any documented opcode: every slot is a
   * one-cycle implied NOP, then column 2 becomes a two-cycle immediate NOP,
   * column 4 a four-cycle zero-page-X NOP with 0x44 a three-cycle zero-page
   * NOP, and column C a four-cycle absolute-X NOP with 0x5C an eight-cycle
   * absolute NOP.  Later writes win, as in the constructor's loop order.
   */
  function Filler(opcode: bv8): (r: Instr)
    ensures r.op == Control(NOP)
  {
    if opcode == 0x5C then Instr(Absolute, Control(NOP), 8)
    else if opcode & 0x0F == 0x0C then Instr(AbsoluteX, Control(NOP), 4)
    else if opcode == 0x44 then Instr(ZeroPage, Control(NOP), 3)
    else if opcode & 0x0F == 0x04 then Instr(ZeroPageX, Control(NOP), 4)
    else if opcode & 0x0F == 0x02 then Instr(Immediate, Control(NOP), 2)
    else Instr(Implied, Control(NOP), 1)
  }

  /**
   * The 212 documented opcodes written over the defaults
   * (wdc65c02.cpp:91-955), by high nibble (row) and low nibble (column).
   */
  function Documented(opcode: bv8): Option<Instr> {
    var lo := opcode & 0x0F;
    match opcode >> 4
    case 0x0 =>
      (match lo
      case 0x0 => Some(Instr(Implied, Control(BRK), 7))
      case 0x1 => Some(Instr(ZeroPageIndexedIndirect, Arith(ORA), 6))
      case 0x4 => Some(Instr(ZeroPage, Bits(TSB), 5))
      case 0x5 => Some(Instr(ZeroPage, Arith(ORA), 3))
      case 0x6 => Some(Instr(ZeroPage, Rmw(ASL), 5))
      case 0x7 => Some(Instr(ZeroPage, Bits(RMB(0)), 5))
      case 0x8 => Some(Instr(Implied, Stack(PHP), 3))
      case 0x9 => Some(Instr(Immediate, Arith(ORA), 2))
      case 0xA => Some(Instr(Accumulator, Rmw(ASL_ACC), 2))
      case 0xC => Some(Instr(Absolute, Bits(TSB), 6))
      case 0xD => Some(Instr(Absolute, Arith(ORA), 4))
      case 0xE => Some(Instr(Absolute, Rmw(ASL), 6))
      case 0xF => Some(Instr(ZeroPage, Bits(BBR(0)), 4))
      case _ => None)
    case 0x1 =>
      (match lo
      case 0x0 => Some(Instr(Relative, Branching(BPL), 2))
      case 0x1 => Some(Instr(ZeroPageIndirectY, Arith(ORA), 5))
      case 0x2 => Some(Instr(ZeroPageIndirect, Arith(ORA), 5))
      case 0x4 => Some(Instr(ZeroPage, Bits(TRB), 5))
      case 0x5 => Some(Instr(ZeroPageX, Arith(ORA), 4))
      case 0x6 => Some(Instr(ZeroPageX, Rmw(ASL), 6))
      case 0x7 => Some(Instr(ZeroPage, Bits(RMB(1)), 5))
      case 0x8 => Some(Instr(Implied, Flag(CLC), 2))
      case 0x9 => Some(Instr(AbsoluteY, Arith(ORA), 4))
      case 0xA => Some(Instr(Accumulator, Rmw(INC_ACC), 2))
      case 0xC => Some(Instr(Absolute, Bits(TRB), 6))
      case 0xD => Some(Instr(AbsoluteX, Arith(ORA), 4))
      case 0xE => Some(Instr(AbsoluteX, Rmw(ASL), 7))
      case 0xF => Some(Instr(ZeroPage, Bits(BBR(1)), 4))
      case _ => None)
    case 0x2 =>
      (match lo
      case 0x0 => Some(Instr(Absolute, Control(JSR), 6))
      case 0x1 => Some(Instr(ZeroPageIndexedIndirect, Arith(AND), 6))
      case 0x4 => Some(Instr(ZeroPage, Arith(BIT), 3))
      case 0x5 => Some(Instr(ZeroPage, Arith(AND), 3))
      case 0x6 => Some(Instr(ZeroPage, Rmw(ROL), 5))
      case 0x7 => Some(Instr(ZeroPage, Bits(RMB(2)), 5))
      case 0x8 => Some(Instr(Implied, Stack(PLP), 4))
      case 0x9 => Some(Instr(Immediate, Arith(AND), 2))
      case 0xA => Some(Instr(Accumulator, Rmw(ROL_ACC), 2))
      case 0xC => Some(Instr(Absolute, Arith(BIT), 4))
      case 0xD => Some(Instr(Absolute, Arith(AND), 4))
      case 0xE => Some(Instr(Absolute, Rmw(ROL), 6))
      case 0xF => Some(Instr(ZeroPage, Bits(BBR(2)), 4))
      case _ => None)
    case 0x3 =>
      (match lo
      case 0x0 => Some(Instr(Relative, Branching(BMI), 2))
      case 0x1 => Some(Instr(ZeroPageIndirectY, Arith(AND), 5))
      case 0x2 => Some(Instr(ZeroPageIndirect, Arith(AND), 5))
      case 0x4 => Some(Instr(ZeroPageX, Arith(BIT), 4))
      case 0x5 => Some(Instr(ZeroPageX, Arith(AND), 4))
      case 0x6 => Some(Instr(ZeroPageX, Rmw(ROL), 6))
      case 0x7 => Some(Instr(ZeroPage, Bits(RMB(3)), 5))
      case 0x8 => Some(Instr(Implied, Flag(SEC), 2))
      case 0x9 => Some(Instr(AbsoluteY, Arith(AND), 4))
      case 0xA => Some(Instr(Accumulator, Rmw(DEC_ACC), 2))
      case 0xC => Some(Instr(AbsoluteX, Arith(BIT), 4))
      case 0xD => Some(Instr(AbsoluteX, Arith(AND), 4))
      case 0xE => Some(Instr(AbsoluteX, Rmw(ROL), 7))
      case 0xF => Some(Instr(ZeroPage, Bits(BBR(3)), 4))
      case _ => None)
    case 0x4 =>
      (match lo
      case 0x0 => Some(Instr(Implied, Control(RTI), 6))
      case 0x1 => Some(Instr(ZeroPageIndexedIndirect, Arith(EOR), 6))
      case 0x5 => Some(Instr(ZeroPage, Arith(EOR), 3))
      case 0x6 => Some(Instr(ZeroPage, Rmw(LSR), 5))
      case 0x7 => Some(Instr(ZeroPage, Bits(RMB(4)), 5))
      case 0x8 => Some(Instr(Implied, Stack(PHA), 3))
      case 0x9 => Some(Instr(Immediate, Arith(EOR), 2))
      case 0xA => Some(Instr(Accumulator, Rmw(LSR_ACC), 2))
      case 0xC => Some(Instr(Absolute, Control(JMP), 3))
      case 0xD => Some(Instr(Absolute, Arith(EOR), 4))
      case 0xE => Some(Instr(Absolute, Rmw(LSR), 6))
      case 0xF => Some(Instr(ZeroPage, Bits(BBR(4)), 4))
      case _ => None)
    case 0x5 =>
      (match lo
      case 0x0 => Some(Instr(Relative, Branching(BVC), 2))
      case 0x1 => Some(Instr(ZeroPageIndirectY, Arith(EOR), 5))
      case 0x2 => Some(Instr(ZeroPageIndirect, Arith(EOR), 5))
      case 0x5 => Some(Instr(ZeroPageX, Arith(EOR), 4))
      case 0x6 => Some(Instr(ZeroPageX, Rmw(LSR), 6))
      case 0x7 => Some(Instr(ZeroPage, Bits(RMB(5)), 5))
      case 0x8 => Some(Instr(Implied, Flag(CLI), 2))
      case 0x9 => Some(Instr(AbsoluteY, Arith(EOR), 4))
      case 0xA => Some(Instr(Implied, Stack(PHY), 3))
      case 0xD => Some(Instr(AbsoluteX, Arith(EOR), 4))
      case 0xE => Some(Instr(AbsoluteX, Rmw(LSR), 7))
      case 0xF => Some(Instr(ZeroPage, Bits(BBR(5)), 4))
      case _ => None)
    case 0x6 =>
      (match lo
      case 0x0 => Some(Instr(Implied, Control(RTS), 6))
      case 0x1 => Some(Instr(ZeroPageIndexedIndirect, Arith(ADC), 6))
      case 0x4 => Some(Instr(ZeroPage, LoadStore(STZ), 4))
      case 0x5 => Some(Instr(ZeroPage, Arith(ADC), 3))
      case 0x6 => Some(Instr(ZeroPage, Rmw(ROR), 5))
      case 0x7 => Some(Instr(ZeroPage, Bits(RMB(6)), 5))
      case 0x8 => Some(Instr(Implied, Stack(PLA), 4))
      case 0x9 => Some(Instr(Immediate, Arith(ADC), 2))
      case 0xA => Some(Instr(Accumulator, Rmw(ROR_ACC), 2))
      case 0xC => Some(Instr(AbsoluteIndirect, Control(JMP), 6))
      case 0xD => Some(Instr(Absolute, Arith(ADC), 4))
      case 0xE => Some(Instr(Absolute, Rmw(ROR), 6))
      case 0xF => Some(Instr(ZeroPage, Bits(BBR(6)), 4))
      case _ => None)
    case 0x7 =>
      (match lo
      case 0x0 => Some(Instr(Relative, Branching(BVS), 2))
      case 0x1 => Some(Instr(ZeroPageIndirectY, Arith(ADC), 6))
      case 0x2 => Some(Instr(ZeroPageIndirect, Arith(ADC), 5))
      case 0x4 => Some(Instr(ZeroPageX, LoadStore(STZ), 5))
      case 0x5 => Some(Instr(ZeroPageX, Arith(ADC), 4))
      case 0x6 => Some(Instr(ZeroPageX, Rmw(ROR), 6))
      case 0x7 => Some(Instr(ZeroPage, Bits(RMB(7)), 5))
      case 0x8 => Some(Instr(Implied, Flag(SEI), 2))
      case 0x9 => Some(Instr(AbsoluteY, Arith(ADC), 4))
      case 0xA => Some(Instr(Implied, Stack(PLY), 4))
      case 0xC => Some(Instr(AbsoluteIndexedIndirect, Control(JMP), 6))
      case 0xD => Some(Instr(AbsoluteX, Arith(ADC), 4))
      case 0xE => Some(Instr(AbsoluteX, Rmw(ROR), 7))
      case 0xF => Some(Instr(ZeroPage, Bits(BBR(7)), 4))
      case _ => None)
    case 0x8 =>
      (match lo
      case 0x0 => Some(Instr(Relative, Branching(BRA), 3))
      case 0x1 => Some(Instr(ZeroPageIndexedIndirect, LoadStore(STA), 6))
      case 0x4 => Some(Instr(ZeroPage, LoadStore(STY), 3))
      case 0x5 => Some(Instr(ZeroPage, LoadStore(STA), 3))
      case 0x6 => Some(Instr(ZeroPage, LoadStore(STX), 3))
      case 0x7 => Some(Instr(ZeroPage, Bits(SMB(0)), 5))
      case 0x8 => Some(Instr(Implied, Register(DEY), 2))
      case 0x9 => Some(Instr(Immediate, Arith(BIT_IMMED), 2))
      case 0xA => Some(Instr(Implied, Register(TXA), 2))
      case 0xC => Some(Instr(Absolute, LoadStore(STY), 4))
      case 0xD => Some(Instr(Absolute, LoadStore(STA), 4))
      case 0xE => Some(Instr(Absolute, LoadStore(STX), 4))
      case 0xF => Some(Instr(ZeroPage, Bits(BBS(0)), 4))
      case _ => None)
    case 0x9 =>
      (match lo
      case 0x0 => Some(Instr(Relative, Branching(BCC), 2))
      case 0x1 => Some(Instr(ZeroPageIndirectY, LoadStore(STA), 6))
      case 0x2 => Some(Instr(ZeroPageIndirect, LoadStore(STA), 6))
      case 0x4 => Some(Instr(ZeroPageX, LoadStore(STY), 4))
      case 0x5 => Some(Instr(ZeroPageX, LoadStore(STA), 4))
      case 0x6 => Some(Instr(ZeroPageY, LoadStore(STX), 4))
      case 0x7 => Some(Instr(ZeroPage, Bits(SMB(1)), 5))
      case 0x8 => Some(Instr(Implied, Register(TYA), 2))
      case 0x9 => Some(Instr(AbsoluteY, LoadStore(STA), 5))
      case 0xA => Some(Instr(Implied, Register(TXS), 2))
      case 0xC => Some(Instr(Absolute, LoadStore(STZ), 5))
      case 0xD => Some(Instr(AbsoluteX, LoadStore(STA), 6))
      case 0xE => Some(Instr(AbsoluteX, LoadStore(STZ), 6))
      case 0xF => Some(Instr(ZeroPage, Bits(BBS(1)), 4))
      case _ => None)
    case 0xA =>
      (match lo
      case 0x0 => Some(Instr(Immediate, LoadStore(LDY), 2))
      case 0x1 => Some(Instr(ZeroPageIndexedIndirect, LoadStore(LDA), 6))
      case 0x2 => Some(Instr(Immediate, LoadStore(LDX), 2))
      case 0x4 => Some(Instr(ZeroPage, LoadStore(LDY), 3))
      case 0x5 => Some(Instr(ZeroPage, LoadStore(LDA), 3))
      case 0x6 => Some(Instr(ZeroPage, LoadStore(LDX), 3))
      case 0x7 => Some(Instr(ZeroPage, Bits(SMB(2)), 5))
      case 0x8 => Some(Instr(Implied, Register(TAY), 2))
      case 0x9 => Some(Instr(Immediate, LoadStore(LDA), 2))
      case 0xA => Some(Instr(Implied, Register(TAX), 2))
      case 0xC => Some(Instr(Absolute, LoadStore(LDY), 4))
      case 0xD => Some(Instr(Absolute, LoadStore(LDA), 4))
      case 0xE => Some(Instr(Absolute, LoadStore(LDX), 4))
      case 0xF => Some(Instr(ZeroPage, Bits(BBS(2)), 4))
      case _ => None)
    case 0xB =>
      (match lo
      case 0x0 => Some(Instr(Relative, Branching(BCS), 2))
      case 0x1 => Some(Instr(ZeroPageIndirectY, LoadStore(LDA), 5))
      case 0x2 => Some(Instr(ZeroPageIndirect, LoadStore(LDA), 5))
      case 0x4 => Some(Instr(ZeroPageX, LoadStore(LDY), 4))
      case 0x5 => Some(Instr(ZeroPageX, LoadStore(LDA), 4))
      case 0x6 => Some(Instr(ZeroPageY, LoadStore(LDX), 4))
      case 0x7 => Some(Instr(ZeroPage, Bits(SMB(3)), 5))
      case 0x8 => Some(Instr(Implied, Flag(CLV), 2))
      case 0x9 => Some(Instr(AbsoluteY, LoadStore(LDA), 4))
      case 0xA => Some(Instr(Implied, Register(TSX), 2))
      case 0xC => Some(Instr(AbsoluteX, LoadStore(LDY), 4))
      case 0xD => Some(Instr(AbsoluteX, LoadStore(LDA), 4))
      case 0xE => Some(Instr(AbsoluteY, LoadStore(LDX), 4))
      case 0xF => Some(Instr(ZeroPage, Bits(BBS(3)), 4))
      case _ => None)
    case 0xC =>
      (match lo
      case 0x0 => Some(Instr(Immediate, Arith(CPY), 2))
      case 0x1 => Some(Instr(ZeroPageIndexedIndirect, Arith(CMP), 6))
      case 0x4 => Some(Instr(ZeroPage, Arith(CPY), 3))
      case 0x5 => Some(Instr(ZeroPage, Arith(CMP), 3))
      case 0x6 => Some(Instr(ZeroPage, Rmw(DEC), 5))
      case 0x7 => Some(Instr(ZeroPage, Bits(SMB(4)), 5))
      case 0x8 => Some(Instr(Implied, Register(INY), 2))
      case 0x9 => Some(Instr(Immediate, Arith(CMP), 2))
      case 0xA => Some(Instr(Implied, Register(DEX), 2))
      case 0xB => Some(Instr(Implied, Control(WAI), 5))
      case 0xC => Some(Instr(Absolute, Arith(CPY), 4))
      case 0xD => Some(Instr(Absolute, Arith(CMP), 4))
      case 0xE => Some(Instr(Absolute, Rmw(DEC), 6))
      case 0xF => Some(Instr(ZeroPage, Bits(BBS(4)), 4))
      case _ => None)
    case 0xD =>
      (match lo
      case 0x0 => Some(Instr(Relative, Branching(BNE), 2))
      case 0x1 => Some(Instr(ZeroPageIndirectY, Arith(CMP), 3))
      case 0x2 => Some(Instr(ZeroPageIndirect, Arith(CMP), 5))
      case 0x5 => Some(Instr(ZeroPageX, Arith(CMP), 4))
      case 0x6 => Some(Instr(ZeroPageX, Rmw(DEC), 6))
      case 0x7 => Some(Instr(ZeroPage, Bits(SMB(5)), 5))
      case 0x8 => Some(Instr(Implied, Flag(CLD), 2))
      case 0x9 => Some(Instr(AbsoluteY, Arith(CMP), 4))
      case 0xA => Some(Instr(Implied, Stack(PHX), 3))
      case 0xB => Some(Instr(Implied, Control(STP), 2))
      case 0xD => Some(Instr(AbsoluteX, Arith(CMP), 4))
      case 0xE => Some(Instr(AbsoluteX, Rmw(DEC), 7))
      case 0xF => Some(Instr(ZeroPage, Bits(BBS(5)), 4))
      case _ => None)
    case 0xE =>
      (match lo
      case 0x0 => Some(Instr(Immediate, Arith(CPX), 2))
      case 0x1 => Some(Instr(ZeroPageIndexedIndirect, Arith(SBC), 6))
      case 0x4 => Some(Instr(ZeroPage, Arith(CPX), 3))
      case 0x5 => Some(Instr(ZeroPage, Arith(SBC), 3))
      case 0x6 => Some(Instr(ZeroPage, Rmw(INC), 5))
      case 0x7 => Some(Instr(ZeroPage, Bits(SMB(6)), 5))
      case 0x8 => Some(Instr(Implied, Register(INX), 2))
      case 0x9 => Some(Instr(Immediate, Arith(SBC), 2))
      case 0xA => Some(Instr(Implied, Control(NOP), 2))
      case 0xC => Some(Instr(Absolute, Arith(CPX), 4))
      case 0xD => Some(Instr(Absolute, Arith(SBC), 4))
      case 0xE => Some(Instr(Absolute, Rmw(INC), 6))
      case 0xF => Some(Instr(ZeroPage, Bits(BBS(6)), 4))
      case _ => None)
    case 0xF =>
      (match lo
      case 0x0 => Some(Instr(Relative, Branching(BEQ), 2))
      case 0x1 => Some(Instr(ZeroPageIndirectY, Arith(SBC), 5))
      case 0x2 => Some(Instr(ZeroPageIndirect, Arith(SBC), 5))
      case 0x5 => Some(Instr(ZeroPageX, Arith(SBC), 4))
      case 0x6 => Some(Instr(ZeroPageX, Rmw(INC), 6))
      case 0x7 => Some(Instr(ZeroPage, Bits(SMB(7)), 5))
      case 0x8 => Some(Instr(Implied, Flag(SED), 2))
      case 0x9 => Some(Instr(AbsoluteY, Arith(SBC), 4))
      case 0xA => Some(Instr(Implied, Stack(PLX), 4))
      case 0xD => Some(Instr(AbsoluteX, Arith(SBC), 4))
      case 0xE => Some(Instr(AbsoluteX, Rmw(INC), 7))
      case 0xF => Some(Instr(ZeroPage, Bits(BBS(7)), 4))
      case _ => None)
    case _ => None
  }

  /** The entry the table holds for an opcode once construction is complete. */
  function Decode(opcode: bv8): Instr {
    match Documented(opcode)
    case Some(instr) => instr
    case None => Filler(opcode)
  }

  /** An instruction table, InstrTable[256]: one entry per opcode. */
  type InstrTable = t: seq<Instr> | |t| == 256 witness seq(256, _ => Instr(Implied, Control(NOP), 1))

  /** The table holds what Decode says at every opcode. */
  ghost predicate IsDecodeTable(t: InstrTable) {
    forall b: bv8 {:trigger Decode(b)} :: t[b as int] == Decode(b)
  }

  /**
   * The opcodes with no documented entry: all of column 3, column B except
   * WAI (0xCB) and STP (0xDB), seven slots of column 2, four of column 4 and
   * three of column C.
   */
  predicate Undocumented(opcode: bv8) {
    var lo, hi := opcode & 0x0F, opcode >> 4;
    || lo == 0x03
    || (lo == 0x0B && opcode != 0xCB && opcode != 0xDB)
    || (lo == 0x02 && hi in {0x0, 0x2, 0x4, 0x6, 0x8, 0xC, 0xE})
    || opcode in {0x44, 0x54, 0xD4, 0xF4, 0x5C, 0xDC, 0xFC}
  }

  /** The table has a documented entry for exactly the opcodes outside Undocumented. */
  lemma DocumentedExactly(opcode: bv8)
    ensures Documented(opcode).None? <==> Undocumented(opcode)
  {
  }

  /** Undocumented opcodes decode to the column defaults: NOPs of the column's width. */
  lemma UndocumentedAreNops(opcode: bv8)
    requires Undocumented(opcode)
    ensures Decode(opcode).op == Control(NOP)
    ensures Decode(opcode).mode == match opcode & 0x0F
      case 0x02 => Immediate
      case 0x04 => if opcode == 0x44 then ZeroPage else ZeroPageX
      case 0x0C => if opcode == 0x5C then Absolute else AbsoluteX
      case _ => Implied
  {
    DocumentedExactly(opcode);
  }

  /** Apart from the documented NOP at 0xEA, an opcode decodes to NOP exactly when it is undocumented. */
  lemma NopExactly(opcode: bv8)
    ensures Decode(opcode).op == Control(NOP) <==> Undocumented(opcode) || opcode == 0xEA
  {
    DocumentedExactly(opcode);
  }

  /** BBRn is opcode n<<4 | 0x0F, zero page, 4 cycles. */
  lemma BbrOpcodes(n: BitIndex)
    ensures Decode((n << 4) | 0x0F) == Instr(ZeroPage, Bits(BBR(n)), 4)
  {
  }

  /** BBSn is opcode (n+8)<<4 | 0x0F, zero page, 4 cycles. */
  lemma BbsOpcodes(n: BitIndex)
    ensures Decode(((n + 8) << 4) | 0x0F) == Instr(ZeroPage, Bits(BBS(n)), 4)
  {
  }

  /** RMBn is opcode n<<4 | 0x07, zero page, 5 cycles. */
  lemma RmbOpcodes(n: BitIndex)
    ensures Decode((n << 4) | 0x07) == Instr(ZeroPage, Bits(RMB(n)), 5)
  {
  }

  /** SMBn is opcode (n+8)<<4 | 0x07, zero page, 5 cycles. */
  lemma SmbOpcodes(n: BitIndex)
    ensures Decode(((n + 8) << 4) | 0x07) == Instr(ZeroPage, Bits(SMB(n)), 5)
  {
  }

  /** Only the branches use the relative mode, and every branch uses it. */
  lemma BranchesAreRelative(opcode: bv8)
    ensures Decode(opcode).op.IsBranch() <==> Decode(opcode).mode == Relative
  {
  }

  /** Only the accumulator forms use the accumulator mode, and every accumulator form uses it. */
  lemma AccumulatorForms(opcode: bv8)
    ensures Decode(opcode).op.IsAccumulatorForm() <==> Decode(opcode).mode == Accumulator
  {
  }

  /** CMP (zp),Y is entered with 3 cycles, not the 5 of the other (zp),Y forms such as LDA (zp),Y. */
  lemma CmpIndirectYCycles()
    ensures Decode(0xD1) == Instr(ZeroPageIndirectY, Arith(CMP), 3)
    ensures Decode(0xB1) == Instr(ZeroPageIndirectY, LoadStore(LDA), 5)
  {
  }

  /** JSR abs is opcode 0x20. */
  lemma DecodeJsr()
    ensures Decode(0x20) == Instr(Absolute, Control(JSR), 6)
  {
  }

  /** RTS is opcode 0x60. */
  lemma DecodeRts()
    ensures Decode(0x60) == Instr(Implied, Control(RTS), 6)
  {
  }

  /** WAI is opcode 0xCB and STP is 0xDB. */
  lemma DecodeHalts()
    ensures Decode(0xCB) == Instr(Implied, Control(WAI), 5)
    ensures Decode(0xDB) == Instr(Implied, Control(STP), 2)
  {
  }
}
