/**
 * The emulator object, class wdc65c02 (wdc65c02.h, wdc65c02.cpp): the
 * registers, STOP and the reset snapshot as fields that its methods update in
 * place, the address space that stands in for the bus, and the instruction
 * table built by the constructor.  Every method is proved to leave the state
 * that the matching function of Machine, Handlers or System computes from
 * the state it started in.
 */
module Emulator {
  import opened Alu
  import opened Decoder
  import opened Machine
  import opened Addressing
  import opened Handlers
  import opened System
  import opened Table

  class CPU {
    // The live registers (wdc65c02.h:16-27) and the halt bits.
    var a: bv8
    var x: bv8
    var y: bv8
    var sp: bv8
    var pc: bv16
    var status: bv8
    var stop: bv8

    // The reset defaults (wdc65c02.h:8-13).
    var resetA: bv8
    var resetX: bv8
    var resetY: bv8
    var resetSp: bv8
    var resetStatus: bv8

    /** The address space behind the Read and Write callbacks. */
    var mem: Memory

    /**
     * InstrTable: the resolver, handler and cycle count of each opcode.  The
     * constructor fills an array in place and the table is never written
     * again, so the object keeps it as a sequence.
     */
    const table: InstrTable

    /** The whole object as a Machine.State value. */
    function State(): State
      reads this
    {
      Machine.State(a, x, y, sp, pc, status, stop, Snapshot(resetA, resetX, resetY, resetSp, resetStatus), mem)
    }

    /**
     * The constructor (wdc65c02.cpp:31-88 and the table writes after it): the
     * reset defaults A, X, Y 0, sp 0xFD, status 0x20, STOP 0, and the table.
     * The live registers are not initialised by the source and are left
     * unconstrained here.
     */
    constructor (bus: Memory)
      ensures IsDecodeTable(table)
      ensures mem == bus
      ensures stop == 0
      ensures resetA == 0 && resetX == 0 && resetY == 0
      ensures resetSp == 0xFD
      ensures resetStatus == CONSTANT
    {
      var instrTable := BuildTable();
      resetA, resetX, resetY, resetSp, resetStatus := 0x00, 0x00, 0x00, 0xFD, CONSTANT;
      stop := 0x00;
      mem := bus;
      table := instrTable[..];
    }

    // -------------------------------------------------------------------------
    // Getters and setters (wdc65c02.cpp:1077-1183).

    /** GetPC. */
    method GetPC() returns (r: bv16)
      ensures r == pc
    {
      r := pc;
    }

    /** GetS. */
    method GetS() returns (r: bv8)
      ensures r == sp
    {
      r := sp;
    }

    /** GetP. */
    method GetP() returns (r: bv8)
      ensures r == status
    {
      r := status;
    }

    /** GetA. */
    method GetA() returns (r: bv8)
      ensures r == a
    {
      r := a;
    }

    /** GetX. */
    method GetX() returns (r: bv8)
      ensures r == x
    {
      r := x;
    }

    /** GetY. */
    method GetY() returns (r: bv8)
      ensures r == y
    {
      r := y;
    }

    /** GetSTOP. */
    method GetStop() returns (r: bv8)
      ensures r == stop
    {
      r := stop;
    }

    /** SetPC. */
    method SetPC(address: bv16)
      modifies this
      ensures State() == old(State()).(pc := address)
    {
      pc := address;
    }

    /** SetS. */
    method SetS(value: bv8)
      modifies this
      ensures State() == old(State()).(sp := value)
    {
      sp := value;
    }

    /** SetP: B and bit 5 are forced on whatever value says. */
    method SetP(value: bv8)
      modifies this
      ensures State() == old(State()).(p := value | 0x30)
    {
      status := value | CONSTANT | BREAK;
    }

    /** SetA. */
    method SetA(value: bv8)
      modifies this
      ensures State() == old(State()).(a := value)
    {
      a := value;
    }

    /** SetX. */
    method SetX(value: bv8)
      modifies this
      ensures State() == old(State()).(x := value)
    {
      x := value;
    }

    /** SetY. */
    method SetY(value: bv8)
      modifies this
      ensures State() == old(State()).(y := value)
    {
      y := value;
    }

    /** SetResetS. */
    method SetResetS(value: bv8)
      modifies this
      ensures State() == old(State()).(reset := old(State()).reset.(sp := value))
    {
      resetSp := value;
    }

    /** SetResetP: like SetP, B and bit 5 are forced on. */
    method SetResetP(value: bv8)
      modifies this
      ensures State() == old(State()).(reset := old(State()).reset.(p := value | 0x30))
    {
      resetStatus := value | CONSTANT | BREAK;
    }

    /** SetResetA. */
    method SetResetA(value: bv8)
      modifies this
      ensures State() == old(State()).(reset := old(State()).reset.(a := value))
    {
      resetA := value;
    }

    /** SetResetX. */
    method SetResetX(value: bv8)
      modifies this
      ensures State() == old(State()).(reset := old(State()).reset.(x := value))
    {
      resetX := value;
    }

    /** SetResetY. */
    method SetResetY(value: bv8)
      modifies this
      ensures State() == old(State()).(reset := old(State()).reset.(y := value))
    {
      resetY := value;
    }

    /** GetResetS. */
    method GetResetS() returns (r: bv8)
      ensures r == resetSp
    {
      r := resetSp;
    }

    /** GetResetP. */
    method GetResetP() returns (r: bv8)
      ensures r == resetStatus
    {
      r := resetStatus;
    }

    /** GetResetA. */
    method GetResetA() returns (r: bv8)
      ensures r == resetA
    {
      r := resetA;
    }

    /** GetResetX. */
    method GetResetX() returns (r: bv8)
      ensures r == resetX
    {
      r := resetX;
    }

    /** GetResetY. */
    method GetResetY() returns (r: bv8)
      ensures r == resetY
    {
      r := resetY;
    }

    // -------------------------------------------------------------------------
    // Reset, the stack and the interrupt lines (wdc65c02.cpp:963-1040).

    /** Reset. */
    method Reset()
      modifies this
      ensures State() == System.Reset(old(State()))
    {
      stop := 0;
      a := resetA;
      y := resetY;
      x := resetX;
      var pcl := Read(mem, RESET_VECTOR);
      var pch := Read(mem, RESET_VECTOR + 1);
      pc := (pch as bv16 << 8) + pcl as bv16;
      WordSum(pcl, pch);
      sp := resetSp;
      status := resetStatus | CONSTANT | BREAK;
    }

    /** StackPush. */
    method StackPush(byte: bv8)
      modifies this
      ensures State() == Push(old(State()), byte)
    {
      mem := Write(mem, 0x0100 + sp as bv16, byte);
      if sp == 0x00 {
        sp := 0xFF;
      } else {
        sp := sp - 1;
      }
    }

    /** StackPop. */
    method StackPop() returns (byte: bv8)
      modifies this
      ensures Pulled(State(), byte) == Pop(old(State()))
    {
      if sp == 0xFF {
        sp := 0x00;
      } else {
        sp := sp + 1;
      }
      byte := Read(mem, 0x0100 + sp as bv16);
    }

    /** The opening of IRQ and NMI once STP is ruled out: leave WAI, stepping pc past its opcode. */
    method Wake()
      requires stop & STOPPED == 0
      modifies this
      ensures State() == System.Wake(old(State()))
    {
      if stop & WAITING != 0 {
        stop := stop & 0xFD;
        pc := pc + 1;
      }
    }

    /** The pushes, flag changes and vector load that IRQ, NMI and BRK share. */
    method EnterInterrupt(pushed: bv8, vector: bv16)
      modifies this
      ensures State() == Handlers.EnterInterrupt(old(State()), pushed, vector)
    {
      ghost var s := State();
      StackPush(Hi(pc));
      StackPush(Lo(pc));
      StackPush(pushed);
      ghost var t := State();
      assert t == Push(Push(Push(s, Hi(s.pc)), Lo(s.pc)), pushed);
      status := SetFlag(status, INTERRUPT, true);
      status := SetFlag(status, DECIMAL, false);
      var pcl := Read(mem, vector);
      var pch := Read(mem, vector + 1);
      WordSum(pcl, pch);
      pc := (pch as bv16 << 8) + pcl as bv16;
      assert pc == ReadWord(t.mem, vector);
    }

    /** IRQ. */
    method IRQ()
      modifies this
      ensures State() == Irq(old(State()))
    {
      if stop & STOPPED != 0 {
        return;
      }
      Wake();
      if !Has(status, INTERRUPT) {
        EnterInterrupt((status & !BREAK) | CONSTANT, IRQ_VECTOR);
      }
    }

    /** NMI. */
    method NMI()
      modifies this
      ensures State() == Nmi(old(State()))
    {
      if stop & STOPPED != 0 {
        return;
      }
      Wake();
      EnterInterrupt((status & !BREAK) | CONSTANT, NMI_VECTOR);
    }

    // -------------------------------------------------------------------------
    // The addressing-mode resolvers (wdc65c02.cpp:1185-1344).  Each one reads
    // its operand bytes at pc, moves pc past them and returns the address; the
    // pair (new pc, address) is what Addressing.Resolve gives for its mode.

    /** Addr_ABSOL: the operand word. */
    method AddrAbsolute() returns (addr: bv16)
      modifies this
      ensures Resolved(pc, addr) == Addressing.Resolve(old(State()), Absolute)
      ensures State() == old(State()).(pc := pc)
    {
      addr := OperandWord(State());
      pc := pc + 2;
    }

    /** Addr_ABIXN, (a,x): the word stored at the operand word plus X. */
    method AddrAbsoluteIndexedIndirect() returns (addr: bv16)
      modifies this
      ensures Resolved(pc, addr) == Addressing.Resolve(old(State()), AbsoluteIndexedIndirect)
      ensures State() == old(State()).(pc := pc)
    {
      addr := AbsoluteIndexedIndirectAddress(State());
      pc := pc + 2;
    }

    /** Addr_ABSIX: the operand word plus X, modulo 65536. */
    method AddrAbsoluteX() returns (addr: bv16)
      modifies this
      ensures Resolved(pc, addr) == Addressing.Resolve(old(State()), AbsoluteX)
      ensures State() == old(State()).(pc := pc)
    {
      addr := AbsoluteIndexed(State(), x);
      pc := pc + 2;
    }

    /** Addr_ABSIY: the operand word plus Y, modulo 65536. */
    method AddrAbsoluteY() returns (addr: bv16)
      modifies this
      ensures Resolved(pc, addr) == Addressing.Resolve(old(State()), AbsoluteY)
      ensures State() == old(State()).(pc := pc)
    {
      addr := AbsoluteIndexed(State(), y);
      pc := pc + 2;
    }

    /** Addr_ABSIN, (a): the word stored at the operand word. */
    method AddrAbsoluteIndirect() returns (addr: bv16)
      modifies this
      ensures Resolved(pc, addr) == Addressing.Resolve(old(State()), AbsoluteIndirect)
      ensures State() == old(State()).(pc := pc)
    {
      addr := AbsoluteIndirectAddress(State());
      pc := pc + 2;
    }

    /** Addr_ACCUM: no operand; the 0 it returns is never read. */
    method AddrAccumulator() returns (addr: bv16)
      ensures Resolved(pc, addr) == Addressing.Resolve(State(), Accumulator)
    {
      addr := 0;
    }

    /** Addr_IMPLI: no operand; the 0 it returns is never read. */
    method AddrImplied() returns (addr: bv16)
      ensures Resolved(pc, addr) == Addressing.Resolve(State(), Implied)
    {
      addr := 0;
    }

    /** Addr_IMMED: the operand is the byte at pc itself. */
    method AddrImmediate() returns (addr: bv16)
      modifies this
      ensures Resolved(pc, addr) == Addressing.Resolve(old(State()), Immediate)
      ensures State() == old(State()).(pc := pc)
    {
      addr := pc;
      pc := pc + 1;
    }

    /** Addr_RELAT: the sign-extended offset byte added to the pc after it. */
    method AddrRelative() returns (addr: bv16)
      modifies this
      ensures Resolved(pc, addr) == Addressing.Resolve(old(State()), Relative)
      ensures State() == old(State()).(pc := pc)
    {
      addr := RelativeTarget(mem, pc);
      pc := pc + 1;
    }

    /** Addr_ZEROP. */
    method AddrZeroPage() returns (addr: bv16)
      modifies this
      ensures Resolved(pc, addr) == Addressing.Resolve(old(State()), ZeroPage)
      ensures State() == old(State()).(pc := pc)
    {
      addr := Read(mem, pc) as bv16;
      pc := pc + 1;
    }

    /** Addr_ZPIXN, (zp,x): both pointer bytes are read within page zero. */
    method AddrZeroPageIndexedIndirect() returns (addr: bv16)
      modifies this
      ensures Resolved(pc, addr) == Addressing.Resolve(old(State()), ZeroPageIndexedIndirect)
      ensures State() == old(State()).(pc := pc)
    {
      var zp := Read(mem, pc) + x;
      pc := pc + 1;
      addr := ZeroPageWord(mem, zp);
    }

    /** Addr_ZRPIX: the sum stays in page zero. */
    method AddrZeroPageX() returns (addr: bv16)
      modifies this
      ensures Resolved(pc, addr) == Addressing.Resolve(old(State()), ZeroPageX)
      ensures State() == old(State()).(pc := pc)
    {
      addr := (Read(mem, pc) + x) as bv16;
      pc := pc + 1;
    }

    /** Addr_ZRPIY: the sum stays in page zero. */
    method AddrZeroPageY() returns (addr: bv16)
      modifies this
      ensures Resolved(pc, addr) == Addressing.Resolve(old(State()), ZeroPageY)
      ensures State() == old(State()).(pc := pc)
    {
      addr := (Read(mem, pc) + y) as bv16;
      pc := pc + 1;
    }

    /** Addr_ZRPIN, (zp): the pointer's high byte comes from `(zp + 1) & 0xFF`. */
    method AddrZeroPageIndirect() returns (addr: bv16)
      modifies this
      ensures Resolved(pc, addr) == Addressing.Resolve(old(State()), ZeroPageIndirect)
      ensures State() == old(State()).(pc := pc)
    {
      var zp := Read(mem, pc);
      pc := pc + 1;
      addr := ZeroPageWord(mem, zp);
    }

    /** Addr_ZPINY, (zp),y: the zero-page pointer plus Y. */
    method AddrZeroPageIndirectY() returns (addr: bv16)
      modifies this
      ensures Resolved(pc, addr) == Addressing.Resolve(old(State()), ZeroPageIndirectY)
      ensures State() == old(State()).(pc := pc)
    {
      addr := ZeroPageIndirectYAddress(State());
      pc := pc + 1;
    }

    /** `(this->*i.addr)()`: the resolver the mode names. */
    method Resolve(mode: Mode) returns (src: bv16)
      modifies this
      ensures Resolved(pc, src) == Addressing.Resolve(old(State()), mode)
      ensures State() == old(State()).(pc := pc)
    {
      match mode
      case Absolute => src := AddrAbsolute();
      case AbsoluteIndexedIndirect => src := AddrAbsoluteIndexedIndirect();
      case AbsoluteX => src := AddrAbsoluteX();
      case AbsoluteY => src := AddrAbsoluteY();
      case AbsoluteIndirect => src := AddrAbsoluteIndirect();
      case Accumulator => src := AddrAccumulator();
      case Immediate => src := AddrImmediate();
      case Implied => src := AddrImplied();
      case Relative => src := AddrRelative();
      case ZeroPage => src := AddrZeroPage();
      case ZeroPageIndexedIndirect => src := AddrZeroPageIndexedIndirect();
      case ZeroPageX => src := AddrZeroPageX();
      case ZeroPageY => src := AddrZeroPageY();
      case ZeroPageIndirect => src := AddrZeroPageIndirect();
      case ZeroPageIndirectY => src := AddrZeroPageIndirectY();
    }

    // -------------------------------------------------------------------------
    // The operation handlers (wdc65c02.cpp:1349-2401).  Each one leaves the
    // state its handler function in Handlers gives.

    /** `pc++`: the opcode fetch of Run, and Op_BRK stepping over its signature byte. */
    method IncrementPc()
      modifies this
      ensures State() == old(State()).(pc := old(State()).pc + 1)
    {
      pc := pc + 1;
    }

    /** Op_ADC: A and N, V, Z, C from AdcResult on A, the byte at src, C and D. */
    method OpAdc(src: bv16)
      modifies this
      ensures State() == Adc(old(State()), src)
    {
      var out := AdcResult(a, Read(mem, src), Has(status, CARRY), Has(status, DECIMAL));
      status := SetNVZC(status, out);
      a := out.value;
    }

    /** Op_AND. */
    method OpAnd(src: bv16)
      modifies this
      ensures State() == And(old(State()), src)
    {
      var res := Read(mem, src) & a;
      status := SetNZ(status, res);
      a := res;
    }

    /** Op_ASL: C takes bit 7, the shifted byte is written back. */
    method OpAsl(src: bv16)
      modifies this
      ensures State() == ShiftMemory(old(State()), src, AslResult(Read(old(State()).mem, src)))
    {
      var out := AslResult(Read(mem, src));
      status := SetFlag(status, CARRY, out.carry);
      status := SetNZ(status, out.value);
      mem := Write(mem, src, out.value);
    }

    /** Op_ASL_ACC. */
    method OpAslAcc(src: bv16)
      modifies this
      ensures State() == ShiftAccumulator(old(State()), AslResult(old(State()).a))
    {
      var out := AslResult(a);
      status := SetFlag(status, CARRY, out.carry);
      status := SetNZ(status, out.value);
      a := out.value;
    }

    /** Op_BBR0 .. Op_BBR7: branch when bit n of the zero-page byte is clear. */
    method OpBbr(src: bv16, n: BitIndex)
      modifies this
      ensures State() == BranchOnBit(old(State()), src, n, false)
    {
      if !Read(mem, src) & BitMask(n) != 0 {
        pc := RelativeTarget(mem, pc);
      } else {
        pc := pc + 1;
      }
    }

    /** Op_BBS0 .. Op_BBS7: branch when bit n of the zero-page byte is set. */
    method OpBbs(src: bv16, n: BitIndex)
      modifies this
      ensures State() == BranchOnBit(old(State()), src, n, true)
    {
      if Read(mem, src) & BitMask(n) != 0 {
        pc := RelativeTarget(mem, pc);
      } else {
        pc := pc + 1;
      }
    }

    /** Op_BCC. */
    method OpBcc(src: bv16)
      modifies this
      ensures State() == Branch(old(State()), src, BranchTaken(BCC, old(State()).p))
    {
      if !Has(status, CARRY) {
        pc := src;
      }
    }

    /** Op_BCS. */
    method OpBcs(src: bv16)
      modifies this
      ensures State() == Branch(old(State()), src, BranchTaken(BCS, old(State()).p))
    {
      if Has(status, CARRY) {
        pc := src;
      }
    }

    /** Op_BEQ. */
    method OpBeq(src: bv16)
      modifies this
      ensures State() == Branch(old(State()), src, BranchTaken(BEQ, old(State()).p))
    {
      if Has(status, ZERO) {
        pc := src;
      }
    }

    /** Op_BIT: N and V from the byte, Z from A & m, B and bit 5 forced on. */
    method OpBit(src: bv16)
      modifies this
      ensures State() == BitTest(old(State()), src)
    {
      status := BitFlags(a, Read(mem, src), status);
    }

    /** Op_BIT_IMMED: only Z. */
    method OpBitImmed(src: bv16)
      modifies this
      ensures State() == BitTestImmediate(old(State()), src)
    {
      status := BitImmediateFlags(a, Read(mem, src), status);
    }

    /** Op_BMI. */
    method OpBmi(src: bv16)
      modifies this
      ensures State() == Branch(old(State()), src, BranchTaken(BMI, old(State()).p))
    {
      if Has(status, NEGATIVE) {
        pc := src;
      }
    }

    /** Op_BNE. */
    method OpBne(src: bv16)
      modifies this
      ensures State() == Branch(old(State()), src, BranchTaken(BNE, old(State()).p))
    {
      if !Has(status, ZERO) {
        pc := src;
      }
    }

    /** Op_BPL. */
    method OpBpl(src: bv16)
      modifies this
      ensures State() == Branch(old(State()), src, BranchTaken(BPL, old(State()).p))
    {
      if !Has(status, NEGATIVE) {
        pc := src;
      }
    }

    /** Op_BRA: always taken. */
    method OpBra(src: bv16)
      modifies this
      ensures State() == Branch(old(State()), src, BranchTaken(BRA, old(State()).p))
    {
      pc := src;
    }

    /** Op_BRK: pc steps over the signature byte, then the IRQ vector is entered with B set in the pushed status. */
    method OpBrk(src: bv16)
      modifies this
      ensures State() == Brk(old(State()))
    {
      IncrementPc();
      EnterInterrupt(status | CONSTANT | BREAK, IRQ_VECTOR);
    }

    /** Op_BVC. */
    method OpBvc(src: bv16)
      modifies this
      ensures State() == Branch(old(State()), src, BranchTaken(BVC, old(State()).p))
    {
      if !Has(status, OVERFLOW) {
        pc := src;
      }
    }

    /** Op_BVS. */
    method OpBvs(src: bv16)
      modifies this
      ensures State() == Branch(old(State()), src, BranchTaken(BVS, old(State()).p))
    {
      if Has(status, OVERFLOW) {
        pc := src;
      }
    }

    /** Op_CLC. */
    method OpClc(src: bv16)
      modifies this
      ensures State() == ChangeFlag(old(State()), CARRY, false)
    {
      status := SetFlag(status, CARRY, false);
    }

    /** Op_CLD. */
    method OpCld(src: bv16)
      modifies this
      ensures State() == ChangeFlag(old(State()), DECIMAL, false)
    {
      status := SetFlag(status, DECIMAL, false);
    }

    /** Op_CLI. */
    method OpCli(src: bv16)
      modifies this
      ensures State() == ChangeFlag(old(State()), INTERRUPT, false)
    {
      status := SetFlag(status, INTERRUPT, false);
    }

    /** Op_CLV. */
    method OpClv(src: bv16)
      modifies this
      ensures State() == ChangeFlag(old(State()), OVERFLOW, false)
    {
      status := SetFlag(status, OVERFLOW, false);
    }

    /** Op_CMP: C, Z and N from A - m. */
    method OpCmp(src: bv16)
      modifies this
      ensures State() == Compare(old(State()), src, old(State()).a)
    {
      status := CmpFlags(a, Read(mem, src), status);
    }

    /** Op_CPX: C, Z and N from X - m. */
    method OpCpx(src: bv16)
      modifies this
      ensures State() == Compare(old(State()), src, old(State()).x)
    {
      status := CmpFlags(x, Read(mem, src), status);
    }

    /** Op_CPY: C, Z and N from Y - m. */
    method OpCpy(src: bv16)
      modifies this
      ensures State() == Compare(old(State()), src, old(State()).y)
    {
      status := CmpFlags(y, Read(mem, src), status);
    }

    /** Op_DEC. */
    method OpDec(src: bv16)
      modifies this
      ensures State() == Step8(old(State()), src, 0xFF)
    {
      var m := Read(mem, src) - 1;
      status := SetNZ(status, m);
      mem := Write(mem, src, m);
    }

    /** Op_DEC_ACC. */
    method OpDecAcc(src: bv16)
      modifies this
      ensures State() == StepA(old(State()), 0xFF)
    {
      a := a - 1;
      status := SetNZ(status, a);
    }

    /** Op_DEX. */
    method OpDex(src: bv16)
      modifies this
      ensures State() == StepX(old(State()), 0xFF)
    {
      x := x - 1;
      status := SetNZ(status, x);
    }

    /** Op_DEY. */
    method OpDey(src: bv16)
      modifies this
      ensures State() == StepY(old(State()), 0xFF)
    {
      y := y - 1;
      status := SetNZ(status, y);
    }

    /** Op_EOR. */
    method OpEor(src: bv16)
      modifies this
      ensures State() == Eor(old(State()), src)
    {
      var res := a ^ Read(mem, src);
      status := SetNZ(status, res);
      a := res;
    }

    /** Op_INC. */
    method OpInc(src: bv16)
      modifies this
      ensures State() == Step8(old(State()), src, 0x01)
    {
      var m := Read(mem, src) + 1;
      status := SetNZ(status, m);
      mem := Write(mem, src, m);
    }

    /** Op_INC_ACC. */
    method OpIncAcc(src: bv16)
      modifies this
      ensures State() == StepA(old(State()), 0x01)
    {
      a := a + 1;
      status := SetNZ(status, a);
    }

    /** Op_INX. */
    method OpInx(src: bv16)
      modifies this
      ensures State() == StepX(old(State()), 0x01)
    {
      x := x + 1;
      status := SetNZ(status, x);
    }

    /** Op_INY. */
    method OpIny(src: bv16)
      modifies this
      ensures State() == StepY(old(State()), 0x01)
    {
      y := y + 1;
      status := SetNZ(status, y);
    }

    /** Op_JMP. */
    method OpJmp(src: bv16)
      modifies this
      ensures State() == Jmp(old(State()), src)
    {
      pc := src;
    }

    /** Op_JSR: push pc - 1, high byte first, then jump. */
    method OpJsr(src: bv16)
      modifies this
      ensures State() == Jsr(old(State()), src)
    {
      ghost var s := State();
      var ret := pc - 1;
      assert ret == s.pc - 1;
      StackPush(Hi(ret));
      StackPush(Lo(ret));
      assert State() == PushWord(s, ret);
      pc := src;
    }

    /** Op_LDA. */
    method OpLda(src: bv16)
      modifies this
      ensures State() == Lda(old(State()), src)
    {
      a := Read(mem, src);
      status := SetNZ(status, a);
    }

    /** Op_LDX. */
    method OpLdx(src: bv16)
      modifies this
      ensures State() == Ldx(old(State()), src)
    {
      x := Read(mem, src);
      status := SetNZ(status, x);
    }

    /** Op_LDY. */
    method OpLdy(src: bv16)
      modifies this
      ensures State() == Ldy(old(State()), src)
    {
      y := Read(mem, src);
      status := SetNZ(status, y);
    }

    /** Op_LSR: C takes bit 0, N is cleared. */
    method OpLsr(src: bv16)
      modifies this
      ensures State() == Lsr(old(State()), src)
    {
      var out := LsrResult(Read(mem, src));
      status := SetFlag(status, CARRY, out.carry);
      status := SetFlag(status, NEGATIVE, false);
      status := SetFlag(status, ZERO, out.value == 0);
      mem := Write(mem, src, out.value);
    }

    /** Op_LSR_ACC. */
    method OpLsrAcc(src: bv16)
      modifies this
      ensures State() == LsrAccumulator(old(State()))
    {
      var out := LsrResult(a);
      status := SetFlag(status, CARRY, out.carry);
      status := SetFlag(status, NEGATIVE, false);
      status := SetFlag(status, ZERO, out.value == 0);
      a := out.value;
    }

    /** Op_NOP. */
    method OpNop(src: bv16)
      modifies this
      ensures State() == old(State())
    {
    }

    /** Op_ORA. */
    method OpOra(src: bv16)
      modifies this
      ensures State() == Ora(old(State()), src)
    {
      var res := a | Read(mem, src);
      status := SetNZ(status, res);
      a := res;
    }

    /** Op_PHA. */
    method OpPha(src: bv16)
      modifies this
      ensures State() == PushRegister(old(State()), old(State()).a)
    {
      StackPush(a);
    }

    /** Op_PHP: B and bit 5 are set in the pushed copy. */
    method OpPhp(src: bv16)
      modifies this
      ensures State() == Php(old(State()))
    {
      StackPush(status | CONSTANT | BREAK);
    }

    /** Op_PHX. */
    method OpPhx(src: bv16)
      modifies this
      ensures State() == PushRegister(old(State()), old(State()).x)
    {
      StackPush(x);
    }

    /** Op_PHY. */
    method OpPhy(src: bv16)
      modifies this
      ensures State() == PushRegister(old(State()), old(State()).y)
    {
      StackPush(y);
    }

    /** Op_PLA. */
    method OpPla(src: bv16)
      modifies this
      ensures State() == Pla(old(State()))
    {
      a := StackPop();
      status := SetNZ(status, a);
    }

    /** Op_PLP: B and bit 5 are forced on. */
    method OpPlp(src: bv16)
      modifies this
      ensures State() == Plp(old(State()))
    {
      var v := StackPop();
      status := v | CONSTANT | BREAK;
    }

    /** Op_PLX. */
    method OpPlx(src: bv16)
      modifies this
      ensures State() == Plx(old(State()))
    {
      x := StackPop();
      status := SetNZ(status, x);
    }

    /** Op_PLY. */
    method OpPly(src: bv16)
      modifies this
      ensures State() == Ply(old(State()))
    {
      y := StackPop();
      status := SetNZ(status, y);
    }

    /** Op_RMB0 .. Op_RMB7: clear bit n of the byte at src. */
    method OpRmb(src: bv16, n: BitIndex)
      modifies this
      ensures State() == Rmb(old(State()), src, n)
    {
      var m := Read(mem, src) & !BitMask(n);
      mem := Write(mem, src, m);
    }

    /** Op_ROL: C shifts in at bit 0, bit 7 shifts out into C. */
    method OpRol(src: bv16)
      modifies this
      ensures State() == ShiftMemory(old(State()), src, RolResult(Read(old(State()).mem, src), Has(old(State()).p, CARRY)))
    {
      var out := RolResult(Read(mem, src), Has(status, CARRY));
      status := SetFlag(status, CARRY, out.carry);
      status := SetNZ(status, out.value);
      mem := Write(mem, src, out.value);
    }

    /** Op_ROL_ACC. */
    method OpRolAcc(src: bv16)
      modifies this
      ensures State() == ShiftAccumulator(old(State()), RolResult(old(State()).a, Has(old(State()).p, CARRY)))
    {
      var out := RolResult(a, Has(status, CARRY));
      status := SetFlag(status, CARRY, out.carry);
      status := SetNZ(status, out.value);
      a := out.value;
    }

    /** Op_ROR: C shifts in at bit 7, bit 0 shifts out into C. */
    method OpRor(src: bv16)
      modifies this
      ensures State() == ShiftMemory(old(State()), src, RorResult(Read(old(State()).mem, src), Has(old(State()).p, CARRY)))
    {
      var out := RorResult(Read(mem, src), Has(status, CARRY));
      status := SetFlag(status, CARRY, out.carry);
      status := SetNZ(status, out.value);
      mem := Write(mem, src, out.value);
    }

    /** Op_ROR_ACC. */
    method OpRorAcc(src: bv16)
      modifies this
      ensures State() == ShiftAccumulator(old(State()), RorResult(old(State()).a, Has(old(State()).p, CARRY)))
    {
      var out := RorResult(a, Has(status, CARRY));
      status := SetFlag(status, CARRY, out.carry);
      status := SetNZ(status, out.value);
      a := out.value;
    }

    /** Op_RTI: pull status (B and bit 5 forced on), then pc low and high.  The status is stored after the last pull rather than after the first; StackPop does not look at it. */
    method OpRti(src: bv16)
      modifies this
      ensures State() == Rti(old(State()))
    {
      var st := StackPop();
      var lo := StackPop();
      var hi := StackPop();
      status := st | CONSTANT | BREAK;
      pc := Word(lo, hi);
    }

    /** Op_RTS: pull pc low and high and resume one past it. */
    method OpRts(src: bv16)
      modifies this
      ensures State() == Rts(old(State()))
    {
      var lo := StackPop();
      var hi := StackPop();
      pc := Word(lo, hi) + 1;
    }

    /** Op_SBC: A and N, V, Z, C from SbcResult on A, the byte at src, C and D. */
    method OpSbc(src: bv16)
      modifies this
      ensures State() == Sbc(old(State()), src)
    {
      var out := SbcResult(a, Read(mem, src), Has(status, CARRY), Has(status, DECIMAL));
      status := SetNVZC(status, out);
      a := out.value;
    }

    /** Op_SEC. */
    method OpSec(src: bv16)
      modifies this
      ensures State() == ChangeFlag(old(State()), CARRY, true)
    {
      status := SetFlag(status, CARRY, true);
    }

    /** Op_SED. */
    method OpSed(src: bv16)
      modifies this
      ensures State() == ChangeFlag(old(State()), DECIMAL, true)
    {
      status := SetFlag(status, DECIMAL, true);
    }

    /** Op_SEI. */
    method OpSei(src: bv16)
      modifies this
      ensures State() == ChangeFlag(old(State()), INTERRUPT, true)
    {
      status := SetFlag(status, INTERRUPT, true);
    }

    /** Op_SMB0 .. Op_SMB7: set bit n of the byte at src. */
    method OpSmb(src: bv16, n: BitIndex)
      modifies this
      ensures State() == Smb(old(State()), src, n)
    {
      var m := Read(mem, src) | BitMask(n);
      mem := Write(mem, src, m);
    }

    /** Op_STA. */
    method OpSta(src: bv16)
      modifies this
      ensures State() == Store(old(State()), src, old(State()).a)
    {
      mem := Write(mem, src, a);
    }

    /** Op_STP: STOP bit 0, and pc back onto the opcode. */
    method OpStp(src: bv16)
      modifies this
      ensures State() == Halt(old(State()), STOPPED)
    {
      stop := stop | STOPPED;
      pc := pc - 1;
    }

    /** Op_STX. */
    method OpStx(src: bv16)
      modifies this
      ensures State() == Store(old(State()), src, old(State()).x)
    {
      mem := Write(mem, src, x);
    }

    /** Op_STY. */
    method OpSty(src: bv16)
      modifies this
      ensures State() == Store(old(State()), src, old(State()).y)
    {
      mem := Write(mem, src, y);
    }

    /** Op_STZ. */
    method OpStz(src: bv16)
      modifies this
      ensures State() == Store(old(State()), src, 0)
    {
      mem := Write(mem, src, 0);
    }

    /** Op_TAX. */
    method OpTax(src: bv16)
      modifies this
      ensures State() == LoadX(old(State()), old(State()).a)
    {
      x := a;
      status := SetNZ(status, x);
    }

    /** Op_TAY. */
    method OpTay(src: bv16)
      modifies this
      ensures State() == LoadY(old(State()), old(State()).a)
    {
      y := a;
      status := SetNZ(status, y);
    }

    /** Op_TRB: Z from A & m; the bits set in A are cleared in the byte. */
    method OpTrb(src: bv16)
      modifies this
      ensures State() == Trb(old(State()), src)
    {
      var m := Read(mem, src);
      status := SetZ(status, a & m);
      mem := Write(mem, src, ClearBits(a, m));
    }

    /** Op_TSB: Z from A & m; the bits set in A are set in the byte. */
    method OpTsb(src: bv16)
      modifies this
      ensures State() == Tsb(old(State()), src)
    {
      var m := Read(mem, src);
      status := SetZ(status, a & m);
      mem := Write(mem, src, a | m);
    }

    /** Op_TSX. */
    method OpTsx(src: bv16)
      modifies this
      ensures State() == LoadX(old(State()), old(State()).sp)
    {
      x := sp;
      status := SetNZ(status, x);
    }

    /** Op_TXA. */
    method OpTxa(src: bv16)
      modifies this
      ensures State() == LoadA(old(State()), old(State()).x)
    {
      a := x;
      status := SetNZ(status, a);
    }

    /** Op_TXS: the one transfer that leaves the flags alone. */
    method OpTxs(src: bv16)
      modifies this
      ensures State() == Txs(old(State()))
    {
      sp := x;
    }

    /** Op_TYA. */
    method OpTya(src: bv16)
      modifies this
      ensures State() == LoadA(old(State()), old(State()).y)
    {
      a := y;
      status := SetNZ(status, a);
    }

    /** Op_WAI: STOP bit 1, and pc back onto the opcode. */
    method OpWai(src: bv16)
      modifies this
      ensures State() == Halt(old(State()), WAITING)
    {
      stop := stop | WAITING;
      pc := pc - 1;
    }

    /** `(this->*i.code)(src)`: the handler the operation names, through its family. */
    method Execute(op: Op, src: bv16)
      modifies this
      ensures State() == Operate(old(State()), op, src)
    {
      match op
      case LoadStore(o) => ExecuteLoadStore(o, src);
      case Register(o) => ExecuteRegister(o, src);
      case Arith(o) => ExecuteArith(o, src);
      case Rmw(o) => ExecuteRmw(o, src);
      case Bits(o) => ExecuteBits(o, src);
      case Branching(o) => ExecuteBranching(o, src);
      case Flag(o) => ExecuteFlag(o, src);
      case Stack(o) => ExecuteStack(o, src);
      case Control(o) => ExecuteControl(o, src);
    }

    /** The handlers of the loads and stores between a register and memory. */
    method ExecuteLoadStore(op: LoadStoreOp, src: bv16)
      modifies this
      ensures State() == OperateLoadStore(old(State()), op, src)
    {
      match op
      case LDA => OpLda(src);
      case LDX => OpLdx(src);
      case LDY => OpLdy(src);
      case STA => OpSta(src);
      case STX => OpStx(src);
      case STY => OpSty(src);
      case STZ => OpStz(src);
    }

    /** The handlers of the transfers between registers and the register increments and decrements. */
    method ExecuteRegister(op: RegisterOp, src: bv16)
      modifies this
      ensures State() == OperateRegister(old(State()), op, src)
    {
      match op
      case DEX => OpDex(src);
      case DEY => OpDey(src);
      case INX => OpInx(src);
      case INY => OpIny(src);
      case TAX => OpTax(src);
      case TAY => OpTay(src);
      case TSX => OpTsx(src);
      case TXA => OpTxa(src);
      case TXS => OpTxs(src);
      case TYA => OpTya(src);
    }

    /** The handlers of the arithmetic, logic, compare and bit-test operations on the accumulator and memory. */
    method ExecuteArith(op: ArithOp, src: bv16)
      modifies this
      ensures State() == OperateArith(old(State()), op, src)
    {
      match op
      case ADC => OpAdc(src);
      case AND => OpAnd(src);
      case BIT => OpBit(src);
      case BIT_IMMED => OpBitImmed(src);
      case CMP => OpCmp(src);
      case CPX => OpCpx(src);
      case CPY => OpCpy(src);
      case EOR => OpEor(src);
      case ORA => OpOra(src);
      case SBC => OpSbc(src);
    }

    /** The handlers of the shifts, rotates, increments and decrements of memory or the accumulator. */
    method ExecuteRmw(op: RmwOp, src: bv16)
      modifies this
      ensures State() == OperateRmw(old(State()), op, src)
    {
      match op
      case ASL => OpAsl(src);
      case ASL_ACC => OpAslAcc(src);
      case DEC => OpDec(src);
      case DEC_ACC => OpDecAcc(src);
      case INC => OpInc(src);
      case INC_ACC => OpIncAcc(src);
      case LSR => OpLsr(src);
      case LSR_ACC => OpLsrAcc(src);
      case ROL => OpRol(src);
      case ROL_ACC => OpRolAcc(src);
      case ROR => OpRor(src);
      case ROR_ACC => OpRorAcc(src);
    }

    /** The handlers of the 65C02 bit instructions: test-and-reset, test-and-set, reset, set and branch on a memory bit. */
    method ExecuteBits(op: BitsOp, src: bv16)
      modifies this
      ensures State() == OperateBits(old(State()), op, src)
    {
      match op
      case BBR(n) => OpBbr(src, n);
      case BBS(n) => OpBbs(src, n);
      case RMB(n) => OpRmb(src, n);
      case SMB(n) => OpSmb(src, n);
      case TRB => OpTrb(src);
      case TSB => OpTsb(src);
    }

    /** The handlers of the relative branches. */
    method ExecuteBranching(op: BranchOp, src: bv16)
      modifies this
      ensures State() == OperateBranching(old(State()), op, src)
    {
      match op
      case BCC => OpBcc(src);
      case BCS => OpBcs(src);
      case BEQ => OpBeq(src);
      case BMI => OpBmi(src);
      case BNE => OpBne(src);
      case BPL => OpBpl(src);
      case BRA => OpBra(src);
      case BVC => OpBvc(src);
      case BVS => OpBvs(src);
    }

    /** The handlers of the flag clears and sets. */
    method ExecuteFlag(op: FlagOp, src: bv16)
      modifies this
      ensures State() == OperateFlag(old(State()), op, src)
    {
      match op
      case CLC => OpClc(src);
      case CLD => OpCld(src);
      case CLI => OpCli(src);
      case CLV => OpClv(src);
      case SEC => OpSec(src);
      case SED => OpSed(src);
      case SEI => OpSei(src);
    }

    /** The handlers of the pushes and pulls. */
    method ExecuteStack(op: StackOp, src: bv16)
      modifies this
      ensures State() == OperateStack(old(State()), op, src)
    {
      match op
      case PHA => OpPha(src);
      case PHP => OpPhp(src);
      case PHX => OpPhx(src);
      case PHY => OpPhy(src);
      case PLA => OpPla(src);
      case PLP => OpPlp(src);
      case PLX => OpPlx(src);
      case PLY => OpPly(src);
    }

    /** The handlers of the jumps, calls, returns, the break, the no-op and the halts. */
    method ExecuteControl(op: ControlOp, src: bv16)
      modifies this
      ensures State() == OperateControl(old(State()), op, src)
    {
      match op
      case BRK => OpBrk(src);
      case JMP => OpJmp(src);
      case JSR => OpJsr(src);
      case NOP => OpNop(src);
      case RTI => OpRti(src);
      case RTS => OpRts(src);
      case STP => OpStp(src);
      case WAI => OpWai(src);
    }

    /** Exec: resolve the address, then run the handler on it. */
    method Exec(instr: Instr)
      modifies this
      ensures State() == System.Exec(old(State()), instr)
    {
      ghost var s := State();
      var src := Resolve(instr.mode);
      ExecSplits(s, instr, Resolved(pc, src));
      Execute(instr.op, src);
    }

    // -------------------------------------------------------------------------
    // The fetch-decode-execute loop (wdc65c02.cpp:1042-1065).

    /**
     * One pass of Run's loop body: fetch the opcode at pc, step pc past it,
     * look the entry up in the table and execute it.
     */
    method StepOnce() returns (instr: Instr)
      modifies this
      ensures instr == Fetch(table, old(State()))
      ensures State() == Step(table, old(State()))
    {
      var opcode := Read(mem, pc);
      IncrementPc();
      instr := table[opcode as int];
      Exec(instr);
    }

    /**
     * Run: while the budget is positive and STOP is clear, fetch the opcode at
     * pc, look it up in the table, execute it, add its cycles to the cycle
     * count and charge the budget its cycles (CycleCount, the default) or 1
     * (InstCount).  The machine state and count it ends with are those System.Run gives.
     */
    method Run(cyclesRemaining: int, cycleCount: nat, cycleMethod: CycleMethod := CycleCount) returns (count: nat)
      modifies this
      ensures State() == System.Run(table, old(State()), cyclesRemaining, cycleCount, cycleMethod).s
      ensures count == System.Run(table, old(State()), cyclesRemaining, cycleCount, cycleMethod).count
    {
      ghost var t := table;
      ghost var s0 := State();
      var remaining := cyclesRemaining;
      count := cycleCount;
      while remaining > 0 && stop == 0
        invariant System.Run(t, State(), remaining, count, cycleMethod).s == System.Run(t, s0, cyclesRemaining, cycleCount, cycleMethod).s
        invariant System.Run(t, State(), remaining, count, cycleMethod).count == System.Run(t, s0, cyclesRemaining, cycleCount, cycleMethod).count
        decreases remaining
      {
        ghost var before := State();
        var instr := StepOnce();
        RunStep(t, before, remaining, count, cycleMethod);
        count := count + instr.cycles as int;
        remaining := remaining - if cycleMethod == CycleCount then instr.cycles as int else 1;
      }
      RunIdle(t, State(), remaining, count, cycleMethod);
    }
  }

  /** One turn of Run's loop: a machine that may run steps once and goes on from there. */
  lemma RunStep(t: InstrTable, s: State, remaining: int, count: nat, how: CycleMethod)
    requires remaining > 0 && s.stop == 0
    ensures Run(t, s, remaining, count, how).s == Run(t, Step(t, s), remaining - Charge(Fetch(t, s).cycles, how), count + Fetch(t, s).cycles as int, how).s
    ensures Run(t, s, remaining, count, how).count == Run(t, Step(t, s), remaining - Charge(Fetch(t, s).cycles, how), count + Fetch(t, s).cycles as int, how).count
  {
    assert Run(t, s, remaining, count, how) == Turn(t, s, remaining, count, how);
  }

  /** Exec runs the handler on the state and address the resolver leaves. */
  lemma ExecSplits(s: State, i: Instr, r: Resolved)
    requires r == Addressing.Resolve(s, i.mode)
    ensures System.Exec(s, i) == Operate(s.(pc := r.pc), i.op, r.ea)
  {
  }

  /** `(hi << 8) + lo`, the way the source joins vector bytes, is the little-endian word. */
  lemma WordSum(lo: bv8, hi: bv8)
    ensures (hi as bv16 << 8) + lo as bv16 == Word(lo, hi)
  {
  }
}
