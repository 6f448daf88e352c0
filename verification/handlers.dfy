/**
 * The operation handlers Op_* of wdc65c02.cpp:1349-2401 as functions from the
 * state after the addressing-mode resolver has run, and the address `src` it
 * returned, to the state after the handler.  Each one names exactly the
 * registers, flags and memory bytes it may change; the imperative CPU class is
 * proved against these functions.
 */
module Handlers {
  import opened Alu
  import opened Decoder
  import opened Machine
  import opened Addressing

  /** N and Z describe the byte v, as `SET_NEGATIVE(v & 0x80); SET_ZERO(!v)` leave them. */
  predicate ShowsNZ(p: bv8, v: bv8) {
    Has(p, NEGATIVE) == (v & 0x80 != 0) && Has(p, ZERO) == (v == 0)
  }

  /** mem2 holds v at addr and agrees with mem1 everywhere else. */
  ghost predicate WritesOnly(mem2: Memory, mem1: Memory, addr: bv16, v: bv8) {
    && Read(mem2, addr) == v
    && forall other: bv16 :: other != addr ==> Read(mem2, other) == Read(mem1, other)
  }

  /** The status and the reset snapshot stay well formed: B and bit 5 stay set once set, the snapshot is never written. */
  predicate Keeps(s: State, r: State) {
    r.reset == s.reset && (s.p & 0x30 == 0x30 ==> r.p & 0x30 == 0x30)
  }

  /** The mask of bit n, the constant `0b...` of Op_BBRn, Op_BBSn, Op_RMBn and Op_SMBn. */
  function BitMask(n: BitIndex): (mask: bv8)
    ensures mask != 0
    ensures mask >> n == 1
  {
    1 << n
  }

  // ---------------------------------------------------------------------------
  // The shared tails of the handlers: load a register and show it in N and Z,
  // write a byte back and show it in N and Z.

  /** `SET_NEGATIVE(v & 0x80); SET_ZERO(!v); A = v;` */
  function LoadA(s: State, v: bv8): (r: State)
    ensures r == s.(a := v, p := r.p)
    ensures ShowsNZ(r.p, v)
    ensures r.p & 0x7D == s.p & 0x7D
    ensures Keeps(s, r)
  {
    s.(a := v, p := SetNZ(s.p, v))
  }

  /** `SET_NEGATIVE(v & 0x80); SET_ZERO(!v); X = v;` */
  function LoadX(s: State, v: bv8): (r: State)
    ensures r == s.(x := v, p := r.p)
    ensures ShowsNZ(r.p, v)
    ensures r.p & 0x7D == s.p & 0x7D
    ensures Keeps(s, r)
  {
    s.(x := v, p := SetNZ(s.p, v))
  }

  /** `SET_NEGATIVE(v & 0x80); SET_ZERO(!v); Y = v;` */
  function LoadY(s: State, v: bv8): (r: State)
    ensures r == s.(y := v, p := r.p)
    ensures ShowsNZ(r.p, v)
    ensures r.p & 0x7D == s.p & 0x7D
    ensures Keeps(s, r)
  {
    s.(y := v, p := SetNZ(s.p, v))
  }

  /** `SET_NEGATIVE(v & 0x80); SET_ZERO(!v); Write(src, v);` */
  function StoreNZ(s: State, src: bv16, v: bv8): (r: State)
    ensures r == s.(p := r.p, mem := r.mem)
    ensures WritesOnly(r.mem, s.mem, src, v)
    ensures ShowsNZ(r.p, v)
    ensures r.p & 0x7D == s.p & 0x7D
    ensures Keeps(s, r)
  {
    s.(p := SetNZ(s.p, v), mem := Write(s.mem, src, v))
  }

  // ---------------------------------------------------------------------------
  // Loads, stores and transfers (wdc65c02.cpp:1917-1939, 2296-2325, 2327-2394).

  /** Op_LDA: A takes the byte at src. */
  function Lda(s: State, src: bv16): (r: State)
    ensures r == s.(a := Read(s.mem, src), p := r.p)
    ensures ShowsNZ(r.p, r.a)
    ensures r.p & 0x7D == s.p & 0x7D
    ensures Keeps(s, r)
  {
    LoadA(s, Read(s.mem, src))
  }

  /** Op_LDX: X takes the byte at src. */
  function Ldx(s: State, src: bv16): (r: State)
    ensures r == s.(x := Read(s.mem, src), p := r.p)
    ensures ShowsNZ(r.p, r.x)
    ensures r.p & 0x7D == s.p & 0x7D
    ensures Keeps(s, r)
  {
    LoadX(s, Read(s.mem, src))
  }

  /** Op_LDY: Y takes the byte at src. */
  function Ldy(s: State, src: bv16): (r: State)
    ensures r == s.(y := Read(s.mem, src), p := r.p)
    ensures ShowsNZ(r.p, r.y)
    ensures r.p & 0x7D == s.p & 0x7D
    ensures Keeps(s, r)
  {
    LoadY(s, Read(s.mem, src))
  }

  /** Op_INX and Op_DEX: X steps by delta (0x01, or 0xFF for minus one) and N, Z show the result. */
  function StepX(s: State, delta: bv8): (r: State)
    ensures r == s.(x := s.x + delta, p := r.p)
    ensures ShowsNZ(r.p, r.x)
    ensures r.p & 0x7D == s.p & 0x7D
    ensures Keeps(s, r)
  {
    LoadX(s, s.x + delta)
  }

  /** Op_INY and Op_DEY: Y steps by delta and N, Z show the result. */
  function StepY(s: State, delta: bv8): (r: State)
    ensures r == s.(y := s.y + delta, p := r.p)
    ensures ShowsNZ(r.p, r.y)
    ensures r.p & 0x7D == s.p & 0x7D
    ensures Keeps(s, r)
  {
    LoadY(s, s.y + delta)
  }

  /** Op_INC_ACC and Op_DEC_ACC: A steps by delta and N, Z show the result. */
  function StepA(s: State, delta: bv8): (r: State)
    ensures r == s.(a := s.a + delta, p := r.p)
    ensures ShowsNZ(r.p, r.a)
    ensures r.p & 0x7D == s.p & 0x7D
    ensures Keeps(s, r)
  {
    LoadA(s, s.a + delta)
  }

  /** Op_STA, Op_STX, Op_STY and Op_STZ: the byte at src becomes v; no flag changes. */
  function Store(s: State, src: bv16, v: bv8): (r: State)
    ensures r == s.(mem := r.mem)
    ensures WritesOnly(r.mem, s.mem, src, v)
    ensures Keeps(s, r)
  {
    s.(mem := Write(s.mem, src, v))
  }

  /** Op_TXS: sp takes X; unlike every other transfer it leaves the flags alone. */
  function Txs(s: State): (r: State)
    ensures r == s.(sp := s.x)
    ensures Keeps(s, r)
  {
    s.(sp := s.x)
  }

  // ---------------------------------------------------------------------------
  // Arithmetic and logic (wdc65c02.cpp:1349-1385, 1685-1700, 1792-1817,
  // 1859-1866, 1966-1973, 2180-2201).

  /** The outcome of Op_ADC on the current A, the byte at src, C and D. */
  function AdcOutcome(s: State, src: bv16): ArithOut {
    AdcResult(s.a, Read(s.mem, src), Has(s.p, CARRY), Has(s.p, DECIMAL))
  }

  /** Op_ADC: A and N, V, Z, C come from AdcResult on A, the byte at src, C and D; I, D and B are kept. */
  function Adc(s: State, src: bv16): (r: State)
    ensures r == s.(a := AdcOutcome(s, src).value, p := r.p)
    ensures Has(r.p, NEGATIVE) == AdcOutcome(s, src).negative
    ensures Has(r.p, OVERFLOW) == AdcOutcome(s, src).overflow
    ensures Has(r.p, ZERO) == AdcOutcome(s, src).zero
    ensures Has(r.p, CARRY) == AdcOutcome(s, src).carry
    ensures r.p & 0x3C == s.p & 0x3C
    ensures Keeps(s, r)
  {
    s.(a := AdcOutcome(s, src).value, p := SetNVZC(s.p, AdcOutcome(s, src)))
  }

  /** The outcome of Op_SBC on the current A, the byte at src, C and D. */
  function SbcOutcome(s: State, src: bv16): ArithOut {
    SbcResult(s.a, Read(s.mem, src), Has(s.p, CARRY), Has(s.p, DECIMAL))
  }

  /** Op_SBC: A and N, V, Z, C come from SbcResult on A, the byte at src, C and D; I, D and B are kept. */
  function Sbc(s: State, src: bv16): (r: State)
    ensures r == s.(a := SbcOutcome(s, src).value, p := r.p)
    ensures Has(r.p, NEGATIVE) == SbcOutcome(s, src).negative
    ensures Has(r.p, OVERFLOW) == SbcOutcome(s, src).overflow
    ensures Has(r.p, ZERO) == SbcOutcome(s, src).zero
    ensures Has(r.p, CARRY) == SbcOutcome(s, src).carry
    ensures r.p & 0x3C == s.p & 0x3C
    ensures Keeps(s, r)
  {
    s.(a := SbcOutcome(s, src).value, p := SetNVZC(s.p, SbcOutcome(s, src)))
  }

  /** Op_AND: A becomes A & m. */
  function And(s: State, src: bv16): (r: State)
    ensures r == s.(a := s.a & Read(s.mem, src), p := r.p)
    ensures ShowsNZ(r.p, r.a)
    ensures r.p & 0x7D == s.p & 0x7D
    ensures Keeps(s, r)
  {
    LoadA(s, Read(s.mem, src) & s.a)
  }

  /** Op_EOR: A becomes A ^ m. */
  function Eor(s: State, src: bv16): (r: State)
    ensures r == s.(a := s.a ^ Read(s.mem, src), p := r.p)
    ensures ShowsNZ(r.p, r.a)
    ensures r.p & 0x7D == s.p & 0x7D
    ensures Keeps(s, r)
  {
    LoadA(s, s.a ^ Read(s.mem, src))
  }

  /** Op_ORA: A becomes A | m. */
  function Ora(s: State, src: bv16): (r: State)
    ensures r == s.(a := s.a | Read(s.mem, src), p := r.p)
    ensures ShowsNZ(r.p, r.a)
    ensures r.p & 0x7D == s.p & 0x7D
    ensures Keeps(s, r)
  {
    LoadA(s, s.a | Read(s.mem, src))
  }

  /** Op_CMP, Op_CPX and Op_CPY: only C, Z and N change, from reg - m; no register changes. */
  function Compare(s: State, src: bv16, reg: bv8): (r: State)
    ensures r == s.(p := r.p)
    ensures Has(r.p, CARRY) <==> reg >= Read(s.mem, src)
    ensures Has(r.p, ZERO) <==> reg == Read(s.mem, src)
    ensures Has(r.p, NEGATIVE) <==> (reg - Read(s.mem, src)) & 0x80 != 0
    ensures r.p & 0x7C == s.p & 0x7C
    ensures Keeps(s, r)
  {
    s.(p := CmpFlags(reg, Read(s.mem, src), s.p))
  }

  /** Op_BIT: N and V from the byte at src, Z from A & m, B and bit 5 set; A is unchanged. */
  function BitTest(s: State, src: bv16): (r: State)
    ensures r == s.(p := r.p)
    ensures Has(r.p, NEGATIVE) == (Read(s.mem, src) & 0x80 != 0)
    ensures Has(r.p, OVERFLOW) == (Read(s.mem, src) & 0x40 != 0)
    ensures Has(r.p, ZERO) == (s.a & Read(s.mem, src) == 0)
    ensures r.p & 0x30 == 0x30
    ensures r.p & 0x0D == s.p & 0x0D
    ensures Keeps(s, r)
  {
    s.(p := BitFlags(s.a, Read(s.mem, src), s.p))
  }

  /** Op_BIT_IMMED: only Z changes, from A & m. */
  function BitTestImmediate(s: State, src: bv16): (r: State)
    ensures r == s.(p := r.p)
    ensures Has(r.p, ZERO) == (s.a & Read(s.mem, src) == 0)
    ensures r.p & !ZERO == s.p & !ZERO
    ensures Keeps(s, r)
  {
    s.(p := BitImmediateFlags(s.a, Read(s.mem, src), s.p))
  }

  // ---------------------------------------------------------------------------
  // Read-modify-write (wdc65c02.cpp:1387-1411, 1819-1836, 1868-1884,
  // 1941-1959, 2032-2101, 2104-2154, 2223-2293, 2345-2361).

  /** Op_ASL, Op_ROL, Op_ROR: C from the shift, then N and Z from the byte written back to src. */
  function ShiftMemory(s: State, src: bv16, out: ShiftOut): (r: State)
    ensures r == s.(p := r.p, mem := r.mem)
    ensures WritesOnly(r.mem, s.mem, src, out.value)
    ensures Has(r.p, CARRY) == out.carry
    ensures ShowsNZ(r.p, out.value)
    ensures r.p & 0x7C == s.p & 0x7C
    ensures Keeps(s, r)
  {
    StoreNZ(s.(p := SetFlag(s.p, CARRY, out.carry)), src, out.value)
  }

  /** Op_ASL_ACC, Op_ROL_ACC, Op_ROR_ACC: the same on A. */
  function ShiftAccumulator(s: State, out: ShiftOut): (r: State)
    ensures r == s.(a := out.value, p := r.p)
    ensures Has(r.p, CARRY) == out.carry
    ensures ShowsNZ(r.p, out.value)
    ensures r.p & 0x7C == s.p & 0x7C
    ensures Keeps(s, r)
  {
    LoadA(s.(p := SetFlag(s.p, CARRY, out.carry)), out.value)
  }

  /** Op_LSR: C from bit 0, N cleared outright, Z from the byte written back. */
  function Lsr(s: State, src: bv16): (r: State)
    ensures r == s.(p := r.p, mem := r.mem)
    ensures WritesOnly(r.mem, s.mem, src, LsrResult(Read(s.mem, src)).value)
    ensures Has(r.p, CARRY) == (Read(s.mem, src) & 0x01 != 0)
    ensures !Has(r.p, NEGATIVE)
    ensures ShowsNZ(r.p, LsrResult(Read(s.mem, src)).value)
    ensures r.p & 0x7C == s.p & 0x7C
    ensures Keeps(s, r)
  {
    var out := LsrResult(Read(s.mem, src));
    var p := SetFlag(SetFlag(SetFlag(s.p, CARRY, out.carry), NEGATIVE, false), ZERO, out.value == 0);
    s.(p := p, mem := Write(s.mem, src, out.value))
  }

  /** Op_LSR_ACC: the same on A. */
  function LsrAccumulator(s: State): (r: State)
    ensures r == s.(a := LsrResult(s.a).value, p := r.p)
    ensures Has(r.p, CARRY) == (s.a & 0x01 != 0)
    ensures !Has(r.p, NEGATIVE)
    ensures ShowsNZ(r.p, r.a)
    ensures r.p & 0x7C == s.p & 0x7C
    ensures Keeps(s, r)
  {
    var out := LsrResult(s.a);
    var p := SetFlag(SetFlag(SetFlag(s.p, CARRY, out.carry), NEGATIVE, false), ZERO, out.value == 0);
    s.(a := out.value, p := p)
  }

  /** Op_INC and Op_DEC: the byte at src moves by delta, wrapping modulo 256. */
  function Step8(s: State, src: bv16, delta: bv8): (r: State)
    ensures r == s.(p := r.p, mem := r.mem)
    ensures WritesOnly(r.mem, s.mem, src, Read(s.mem, src) + delta)
    ensures ShowsNZ(r.p, Read(s.mem, src) + delta)
    ensures r.p & 0x7D == s.p & 0x7D
    ensures Keeps(s, r)
  {
    StoreNZ(s, src, Read(s.mem, src) + delta)
  }

  /** Op_TRB: Z from A & m; the byte at src loses the bits set in A. */
  function Trb(s: State, src: bv16): (r: State)
    ensures r == s.(p := r.p, mem := r.mem)
    ensures WritesOnly(r.mem, s.mem, src, !s.a & Read(s.mem, src))
    ensures Has(r.p, ZERO) == (s.a & Read(s.mem, src) == 0)
    ensures r.p & !ZERO == s.p & !ZERO
    ensures Keeps(s, r)
  {
    s.(p := SetZ(s.p, s.a & Read(s.mem, src)), mem := Write(s.mem, src, ClearBits(s.a, Read(s.mem, src))))
  }

  /** Op_TSB: Z from A & m; the byte at src gains the bits set in A. */
  function Tsb(s: State, src: bv16): (r: State)
    ensures r == s.(p := r.p, mem := r.mem)
    ensures WritesOnly(r.mem, s.mem, src, s.a | Read(s.mem, src))
    ensures Has(r.p, ZERO) == (s.a & Read(s.mem, src) == 0)
    ensures r.p & !ZERO == s.p & !ZERO
    ensures Keeps(s, r)
  {
    s.(p := SetZ(s.p, s.a & Read(s.mem, src)), mem := Write(s.mem, src, s.a | Read(s.mem, src)))
  }

  /** Op_RMBn: bit n of the byte at src is cleared; no flag changes. */
  function Rmb(s: State, src: bv16, n: BitIndex): (r: State)
    ensures r == s.(mem := r.mem)
    ensures WritesOnly(r.mem, s.mem, src, Read(s.mem, src) & !BitMask(n))
    ensures Keeps(s, r)
  {
    s.(mem := Write(s.mem, src, Read(s.mem, src) & !BitMask(n)))
  }

  /** Op_SMBn: bit n of the byte at src is set; no flag changes. */
  function Smb(s: State, src: bv16, n: BitIndex): (r: State)
    ensures r == s.(mem := r.mem)
    ensures WritesOnly(r.mem, s.mem, src, Read(s.mem, src) | BitMask(n))
    ensures Keeps(s, r)
  {
    s.(mem := Write(s.mem, src, Read(s.mem, src) | BitMask(n)))
  }

  // ---------------------------------------------------------------------------
  // Branches and jumps (wdc65c02.cpp:1414-1655, 1658-1765, 1904-1907).

  /** The flag test of each relative branch. */
  predicate BranchTaken(op: BranchOp, p: bv8) {
    match op
    case BCC => !Has(p, CARRY)
    case BCS => Has(p, CARRY)
    case BEQ => Has(p, ZERO)
    case BMI => Has(p, NEGATIVE)
    case BNE => !Has(p, ZERO)
    case BPL => !Has(p, NEGATIVE)
    case BRA => true
    case BVC => !Has(p, OVERFLOW)
    case BVS => Has(p, OVERFLOW)
  }

  /** Op_BCC .. Op_BVS: pc becomes src, the target the relative resolver computed, when the branch is taken. */
  function Branch(s: State, src: bv16, taken: bool): (r: State)
    ensures r == s.(pc := r.pc)
    ensures taken ==> r.pc == src
    ensures !taken ==> r.pc == s.pc
    ensures Keeps(s, r)
  {
    if taken then s.(pc := src) else s
  }

  /** Op_JMP: pc becomes src. */
  function Jmp(s: State, src: bv16): (r: State)
    ensures r == s.(pc := src)
    ensures Keeps(s, r)
  {
    s.(pc := src)
  }

  /**
   * Op_BBRn (`whenSet` false) and Op_BBSn (`whenSet` true).  src is the zero-page
   * address and pc is at the offset byte.  When bit n of the byte at src is
   * clear (BBR) or set (BBS), the offset is consumed and added, sign-extended,
   * to pc; otherwise pc only steps over it.
   */
  function BranchOnBit(s: State, src: bv16, n: BitIndex, whenSet: bool): (r: State)
    ensures r == s.(pc := r.pc)
    ensures r.pc == RelativeTarget(s.mem, s.pc) || r.pc == s.pc + 1
    ensures Keeps(s, r)
  {
    var m := Read(s.mem, src);
    var taken := if whenSet then m & BitMask(n) != 0 else !m & BitMask(n) != 0;
    if taken then s.(pc := RelativeTarget(s.mem, s.pc)) else s.(pc := s.pc + 1)
  }

  // ---------------------------------------------------------------------------
  // The stack, calls and interrupts (wdc65c02.cpp:1738-1748, 1909-1915,
  // 1975-2029, 2156-2178).

  /** Op_PHA, Op_PHX, Op_PHY: push v. */
  function PushRegister(s: State, v: bv8): (r: State)
    ensures r == s.(sp := s.sp - 1, mem := r.mem)
    ensures WritesOnly(r.mem, s.mem, StackAddress(s.sp), v)
    ensures Keeps(s, r)
  {
    Push(s, v)
  }

  /** Op_PHP: push status with B and bit 5 set. */
  function Php(s: State): (r: State)
    ensures r == s.(sp := s.sp - 1, mem := r.mem)
    ensures WritesOnly(r.mem, s.mem, StackAddress(s.sp), s.p | 0x30)
    ensures Keeps(s, r)
  {
    Push(s, s.p | CONSTANT | BREAK)
  }

  /** Op_PLA: A takes the pulled byte, shown in N and Z. */
  function Pla(s: State): (r: State)
    ensures r == s.(a := r.a, sp := s.sp + 1, p := r.p)
    ensures r.a == Read(s.mem, StackAddress(s.sp + 1))
    ensures ShowsNZ(r.p, r.a)
    ensures r.p & 0x7D == s.p & 0x7D
    ensures Keeps(s, r)
  {
    var q := Pop(s);
    LoadA(q.s, q.value)
  }

  /** Op_PLX: X takes the pulled byte, shown in N and Z. */
  function Plx(s: State): (r: State)
    ensures r == s.(x := r.x, sp := s.sp + 1, p := r.p)
    ensures r.x == Read(s.mem, StackAddress(s.sp + 1))
    ensures ShowsNZ(r.p, r.x)
    ensures r.p & 0x7D == s.p & 0x7D
    ensures Keeps(s, r)
  {
    var q := Pop(s);
    LoadX(q.s, q.value)
  }

  /** Op_PLY: Y takes the pulled byte, shown in N and Z. */
  function Ply(s: State): (r: State)
    ensures r == s.(y := r.y, sp := s.sp + 1, p := r.p)
    ensures r.y == Read(s.mem, StackAddress(s.sp + 1))
    ensures ShowsNZ(r.p, r.y)
    ensures r.p & 0x7D == s.p & 0x7D
    ensures Keeps(s, r)
  {
    var q := Pop(s);
    LoadY(q.s, q.value)
  }

  /** Op_PLP: status takes the pulled byte with B and bit 5 forced on. */
  function Plp(s: State): (r: State)
    ensures r == s.(sp := s.sp + 1, p := r.p)
    ensures r.p == Read(s.mem, StackAddress(s.sp + 1)) | 0x30
    ensures Keeps(s, r)
  {
    var q := Pop(s);
    q.s.(p := q.value | CONSTANT | BREAK)
  }

  /** Op_JSR: push pc - 1, high byte first, then jump to src. */
  function Jsr(s: State, src: bv16): (r: State)
    ensures r == s.(sp := s.sp - 2, pc := src, mem := r.mem)
    ensures forall a: bv16 :: a != StackAddress(s.sp) && a != StackAddress(s.sp - 1) ==> Read(r.mem, a) == Read(s.mem, a)
    ensures Keeps(s, r)
  {
    PushWord(s, s.pc - 1).(pc := src)
  }

  /** Op_RTS: pull the low byte, then the high byte, and resume one past that word. */
  function Rts(s: State): (r: State)
    ensures r == s.(sp := s.sp + 2, pc := r.pc)
    ensures r.pc == Word(Read(s.mem, StackAddress(s.sp + 1)), Read(s.mem, StackAddress(s.sp + 2))) + 1
    ensures Keeps(s, r)
  {
    var lo := Pop(s);
    var hi := Pop(lo.s);
    hi.s.(pc := Word(lo.value, hi.value) + 1)
  }

  /** Op_RTI: pull status (B and bit 5 forced on), then the low and high bytes of pc. */
  function Rti(s: State): (r: State)
    ensures r == s.(sp := s.sp + 3, p := r.p, pc := r.pc)
    ensures r.p == Read(s.mem, StackAddress(s.sp + 1)) | 0x30
    ensures r.pc == Word(Read(s.mem, StackAddress(s.sp + 2)), Read(s.mem, StackAddress(s.sp + 3)))
    ensures Keeps(s, r)
  {
    var st := Pop(s);
    var lo := Pop(st.s);
    var hi := Pop(lo.s);
    hi.s.(p := st.value | CONSTANT | BREAK, pc := Word(lo.value, hi.value))
  }

  /**
   * The interrupt entry shared by BRK, IRQ and NMI: push the high and low
   * bytes of pc and then the status byte `pushed`, set I, clear D, and load pc
   * from the little-endian vector.
   */
  function EnterInterrupt(s: State, pushed: bv8, vector: bv16): (r: State)
    ensures r.sp == s.sp - 3
    ensures Has(r.p, INTERRUPT)
    ensures !Has(r.p, DECIMAL)
    ensures r.p & 0xF3 == s.p & 0xF3
    ensures r == s.(sp := r.sp, p := r.p, pc := r.pc, mem := r.mem)
    ensures forall a: bv16 :: a != StackAddress(s.sp) && a != StackAddress(s.sp - 1) && a != StackAddress(s.sp - 2) ==>
      Read(r.mem, a) == Read(s.mem, a)
  {
    var t := Push(PushWord(s, s.pc), pushed);
    t.(p := SetFlag(SetFlag(t.p, INTERRUPT, true), DECIMAL, false), pc := ReadWord(t.mem, vector))
  }

  /** Op_BRK: step pc over the signature byte, then enter the IRQ vector pushing status with B and bit 5 set. */
  function Brk(s: State): (r: State)
    ensures r.sp == s.sp - 3
    ensures Has(r.p, INTERRUPT) && !Has(r.p, DECIMAL)
    ensures r.p & 0xF3 == s.p & 0xF3
    ensures r.pc == ReadWord(r.mem, IRQ_VECTOR)
    ensures r == s.(sp := r.sp, p := r.p, pc := r.pc, mem := r.mem)
    ensures forall a: bv16 :: a != StackAddress(s.sp) && a != StackAddress(s.sp - 1) && a != StackAddress(s.sp - 2) ==>
      Read(r.mem, a) == Read(s.mem, a)
    ensures Keeps(s, r)
  {
    EnterInterrupt(s.(pc := s.pc + 1), s.p | CONSTANT | BREAK, IRQ_VECTOR)
  }

  // ---------------------------------------------------------------------------
  // Flag instructions (wdc65c02.cpp:1768-1790, 2203-2221).

  /** Op_CLC, Op_CLD, Op_CLI, Op_CLV, Op_SEC, Op_SED, Op_SEI: one of C, D, I, V becomes `on`; nothing else changes. */
  function ChangeFlag(s: State, flag: bv8, on: bool): (r: State)
    requires flag == CARRY || flag == DECIMAL || flag == INTERRUPT || flag == OVERFLOW
    ensures r == s.(p := r.p)
    ensures Has(r.p, flag) == on
    ensures r.p & !flag == s.p & !flag
    ensures Keeps(s, r)
  {
    s.(p := SetFlag(s.p, flag, on))
  }

  // ---------------------------------------------------------------------------
  // Halts (wdc65c02.cpp:2302-2307, 2396-2401).

  /** Op_WAI and Op_STP: set the STOP bit and step pc back onto the opcode. */
  function Halt(s: State, bit: bv8): (r: State)
    ensures r == s.(stop := r.stop, pc := s.pc - 1)
    ensures r.stop & bit == bit
    ensures r.stop & !bit == s.stop & !bit
    ensures Keeps(s, r)
  {
    s.(stop := s.stop | bit, pc := s.pc - 1)
  }

  // ---------------------------------------------------------------------------
  // Dispatch, the `(this->*i.code)(src)` of Exec (wdc65c02.cpp:1067-1071).

  /** The handler each operation names, applied to the resolved state and address: the family first, then the handler within it. */
  function Operate(s: State, op: Op, src: bv16): (r: State)
    ensures Keeps(s, r)
  {
    match op
    case LoadStore(o) => OperateLoadStore(s, o, src)
    case Register(o) => OperateRegister(s, o, src)
    case Arith(o) => OperateArith(s, o, src)
    case Rmw(o) => OperateRmw(s, o, src)
    case Bits(o) => OperateBits(s, o, src)
    case Branching(o) => OperateBranching(s, o, src)
    case Flag(o) => OperateFlag(s, o, src)
    case Stack(o) => OperateStack(s, o, src)
    case Control(o) => OperateControl(s, o, src)
  }

  /** The handlers of the loads and stores between a register and memory. */
  function OperateLoadStore(s: State, op: LoadStoreOp, src: bv16): (r: State)
    ensures Keeps(s, r)
  {
    match op
    case LDA => Lda(s, src)
    case LDX => Ldx(s, src)
    case LDY => Ldy(s, src)
    case STA => Store(s, src, s.a)
    case STX => Store(s, src, s.x)
    case STY => Store(s, src, s.y)
    case STZ => Store(s, src, 0)
  }

  /** The handlers of the transfers between registers and the register increments and decrements. */
  function OperateRegister(s: State, op: RegisterOp, src: bv16): (r: State)
    ensures Keeps(s, r)
  {
    match op
    case DEX => StepX(s, 0xFF)
    case DEY => StepY(s, 0xFF)
    case INX => StepX(s, 0x01)
    case INY => StepY(s, 0x01)
    case TAX => LoadX(s, s.a)
    case TAY => LoadY(s, s.a)
    case TSX => LoadX(s, s.sp)
    case TXA => LoadA(s, s.x)
    case TXS => Txs(s)
    case TYA => LoadA(s, s.y)
  }

  /** The handlers of the arithmetic, logic, compare and bit-test operations on the accumulator and memory. */
  function OperateArith(s: State, op: ArithOp, src: bv16): (r: State)
    ensures Keeps(s, r)
  {
    match op
    case ADC => Adc(s, src)
    case AND => And(s, src)
    case BIT => BitTest(s, src)
    case BIT_IMMED => BitTestImmediate(s, src)
    case CMP => Compare(s, src, s.a)
    case CPX => Compare(s, src, s.x)
    case CPY => Compare(s, src, s.y)
    case EOR => Eor(s, src)
    case ORA => Ora(s, src)
    case SBC => Sbc(s, src)
  }

  /** The handlers of the shifts, rotates, increments and decrements of memory or the accumulator. */
  function OperateRmw(s: State, op: RmwOp, src: bv16): (r: State)
    ensures Keeps(s, r)
  {
    match op
    case ASL => ShiftMemory(s, src, AslResult(Read(s.mem, src)))
    case ASL_ACC => ShiftAccumulator(s, AslResult(s.a))
    case DEC => Step8(s, src, 0xFF)
    case DEC_ACC => StepA(s, 0xFF)
    case INC => Step8(s, src, 0x01)
    case INC_ACC => StepA(s, 0x01)
    case LSR => Lsr(s, src)
    case LSR_ACC => LsrAccumulator(s)
    case ROL => ShiftMemory(s, src, RolResult(Read(s.mem, src), Has(s.p, CARRY)))
    case ROL_ACC => ShiftAccumulator(s, RolResult(s.a, Has(s.p, CARRY)))
    case ROR => ShiftMemory(s, src, RorResult(Read(s.mem, src), Has(s.p, CARRY)))
    case ROR_ACC => ShiftAccumulator(s, RorResult(s.a, Has(s.p, CARRY)))
  }

  /** The handlers of the 65C02 bit instructions: test-and-reset, test-and-set, reset, set and branch on a memory bit. */
  function OperateBits(s: State, op: BitsOp, src: bv16): (r: State)
    ensures Keeps(s, r)
  {
    match op
    case BBR(n) => BranchOnBit(s, src, n, false)
    case BBS(n) => BranchOnBit(s, src, n, true)
    case RMB(n) => Rmb(s, src, n)
    case SMB(n) => Smb(s, src, n)
    case TRB => Trb(s, src)
    case TSB => Tsb(s, src)
  }

  /** The handlers of the relative branches. */
  function OperateBranching(s: State, op: BranchOp, src: bv16): (r: State)
    ensures Keeps(s, r)
  {
    match op
    case BCC => Branch(s, src, BranchTaken(op, s.p))
    case BCS => Branch(s, src, BranchTaken(op, s.p))
    case BEQ => Branch(s, src, BranchTaken(op, s.p))
    case BMI => Branch(s, src, BranchTaken(op, s.p))
    case BNE => Branch(s, src, BranchTaken(op, s.p))
    case BPL => Branch(s, src, BranchTaken(op, s.p))
    case BRA => Branch(s, src, BranchTaken(op, s.p))
    case BVC => Branch(s, src, BranchTaken(op, s.p))
    case BVS => Branch(s, src, BranchTaken(op, s.p))
  }

  /** The handlers of the flag clears and sets. */
  function OperateFlag(s: State, op: FlagOp, src: bv16): (r: State)
    ensures Keeps(s, r)
  {
    match op
    case CLC => ChangeFlag(s, CARRY, false)
    case CLD => ChangeFlag(s, DECIMAL, false)
    case CLI => ChangeFlag(s, INTERRUPT, false)
    case CLV => ChangeFlag(s, OVERFLOW, false)
    case SEC => ChangeFlag(s, CARRY, true)
    case SED => ChangeFlag(s, DECIMAL, true)
    case SEI => ChangeFlag(s, INTERRUPT, true)
  }

  /** The handlers of the pushes and pulls. */
  function OperateStack(s: State, op: StackOp, src: bv16): (r: State)
    ensures Keeps(s, r)
  {
    match op
    case PHA => PushRegister(s, s.a)
    case PHP => Php(s)
    case PHX => PushRegister(s, s.x)
    case PHY => PushRegister(s, s.y)
    case PLA => Pla(s)
    case PLP => Plp(s)
    case PLX => Plx(s)
    case PLY => Ply(s)
  }

  /** The handlers of the jumps, calls, returns, the break, the no-op and the halts. */
  function OperateControl(s: State, op: ControlOp, src: bv16): (r: State)
    ensures Keeps(s, r)
  {
    match op
    case BRK => Brk(s)
    case JMP => Jmp(s, src)
    case JSR => Jsr(s, src)
    case NOP => s
    case RTI => Rti(s)
    case RTS => Rts(s)
    case STP => Halt(s, STOPPED)
    case WAI => Halt(s, WAITING)
  }

  // ---------------------------------------------------------------------------
  // Properties of the handlers.

  /** Bit k of v. */
  predicate BitOf(v: bv8, k: BitIndex) {
    (v >> k) & 1 == 1
  }

  /** The mask of bit n selects bit n and no other. */
  lemma MaskSelects(m: bv8, n: BitIndex)
    ensures (m & BitMask(n) != 0) == BitOf(m, n)
  {
  }

  /** Clearing with the mask of bit n clears bit n and keeps every other bit. */
  lemma ClearBit(m: bv8, n: BitIndex, k: BitIndex)
    ensures BitOf(m & !BitMask(n), k) == (k != n && BitOf(m, k))
  {
  }

  /** Setting with the mask of bit n sets bit n and keeps every other bit. */
  lemma SetBit(m: bv8, n: BitIndex, k: BitIndex)
    ensures BitOf(m | BitMask(n), k) == (k == n || BitOf(m, k))
  {
  }

  /** BBRn branches exactly when bit n of the tested byte is clear, BBSn exactly when it is set. */
  lemma BranchOnBitTestsBitN(s: State, src: bv16, n: BitIndex, whenSet: bool)
    ensures BitOf(Read(s.mem, src), n) == whenSet ==> BranchOnBit(s, src, n, whenSet).pc == RelativeTarget(s.mem, s.pc)
    ensures BitOf(Read(s.mem, src), n) != whenSet ==> BranchOnBit(s, src, n, whenSet).pc == s.pc + 1
  {
    MaskSelects(Read(s.mem, src), n);
    MaskSelects(!Read(s.mem, src), n);
    NotFlipsBit(Read(s.mem, src), n);
  }

  /** Complementing a byte flips each of its bits. */
  lemma NotFlipsBit(m: bv8, k: BitIndex)
    ensures BitOf(!m, k) == !BitOf(m, k)
  {
  }

  /** RMBn clears bit n of the byte at src and leaves its other seven bits and every other byte alone. */
  lemma RmbChangesOnlyBitN(s: State, src: bv16, n: BitIndex)
    ensures !BitOf(Read(Rmb(s, src, n).mem, src), n)
    ensures forall k: BitIndex :: k != n ==> BitOf(Read(Rmb(s, src, n).mem, src), k) == BitOf(Read(s.mem, src), k)
  {
    forall k: BitIndex
      ensures BitOf(Read(Rmb(s, src, n).mem, src), k) == (k != n && BitOf(Read(s.mem, src), k))
    {
      ClearBit(Read(s.mem, src), n, k);
    }
  }

  /** SMBn sets bit n of the byte at src and leaves its other seven bits and every other byte alone. */
  lemma SmbChangesOnlyBitN(s: State, src: bv16, n: BitIndex)
    ensures BitOf(Read(Smb(s, src, n).mem, src), n)
    ensures forall k: BitIndex :: k != n ==> BitOf(Read(Smb(s, src, n).mem, src), k) == BitOf(Read(s.mem, src), k)
  {
    forall k: BitIndex
      ensures BitOf(Read(Smb(s, src, n).mem, src), k) == (k == n || BitOf(Read(s.mem, src), k))
    {
      SetBit(Read(s.mem, src), n, k);
    }
  }

  /** JSR leaves the return address pc - 1 on top of the stack, low byte first from the top. */
  lemma JsrFrame(s: State, src: bv16)
    ensures Jsr(s, src).sp == s.sp - 2
    ensures Read(Jsr(s, src).mem, StackAddress(Jsr(s, src).sp + 1)) == Lo(s.pc - 1)
    ensures Read(Jsr(s, src).mem, StackAddress(Jsr(s, src).sp + 2)) == Hi(s.pc - 1)
  {
    var t1 := Push(s, Hi(s.pc - 1));
    var t2 := Push(t1, Lo(s.pc - 1));
    assert Jsr(s, src).mem == t2.mem;
    assert Lo(StackAddress(s.sp)) != Lo(StackAddress(s.sp - 1));
  }

  /** RTS resumes one past the word on top of the stack. */
  lemma RtsOfFrame(u: State, w: bv16)
    requires Read(u.mem, StackAddress(u.sp + 1)) == Lo(w)
    requires Read(u.mem, StackAddress(u.sp + 2)) == Hi(w)
    ensures Rts(u).pc == w + 1
  {
    WordOfBytes(w);
  }

  /** RTS right after JSR resumes at the pc JSR saw, one past the JSR's last operand byte, wherever pc has moved in between. */
  lemma RtsUndoesJsr(s: State, src: bv16, pc: bv16)
    ensures Rts(Jsr(s, src).(pc := pc)).pc == s.pc
  {
    JsrFrame(s, src);
    RtsOfFrame(Jsr(s, src).(pc := pc), s.pc - 1);
  }

  /** RTS right after JSR restores sp. */
  lemma RtsRestoresStackPointer(s: State, src: bv16)
    ensures Rts(Jsr(s, src)).sp == s.sp
  {
  }

  /** The three bytes of an interrupt frame, from the top of the stack: the status byte, pc low, pc high. */
  lemma InterruptFrame(s: State, pushed: bv8, vector: bv16)
    ensures Read(EnterInterrupt(s, pushed, vector).mem, StackAddress(EnterInterrupt(s, pushed, vector).sp + 1)) == pushed
    ensures Read(EnterInterrupt(s, pushed, vector).mem, StackAddress(EnterInterrupt(s, pushed, vector).sp + 2)) == Lo(s.pc)
    ensures Read(EnterInterrupt(s, pushed, vector).mem, StackAddress(EnterInterrupt(s, pushed, vector).sp + 3)) == Hi(s.pc)
  {
    var t1 := Push(s, Hi(s.pc));
    var t2 := Push(t1, Lo(s.pc));
    var t3 := Push(t2, pushed);
    assert EnterInterrupt(s, pushed, vector).mem == t3.mem;
    assert Lo(StackAddress(s.sp)) != Lo(StackAddress(s.sp - 1));
    assert Lo(StackAddress(s.sp)) != Lo(StackAddress(s.sp - 2));
    assert Lo(StackAddress(s.sp - 1)) != Lo(StackAddress(s.sp - 2));
  }

  /** The interrupt entry loads pc from the little-endian vector in the memory it leaves. */
  lemma InterruptVector(s: State, pushed: bv8, vector: bv16)
    ensures EnterInterrupt(s, pushed, vector).pc == ReadWord(EnterInterrupt(s, pushed, vector).mem, vector)
  {
  }

  /** RTI loads the status byte on top of the stack (with B and bit 5 set) and then pc from the word under it. */
  lemma RtiOfFrame(u: State, w: bv16, pushed: bv8)
    requires Read(u.mem, StackAddress(u.sp + 1)) == pushed
    requires Read(u.mem, StackAddress(u.sp + 2)) == Lo(w)
    requires Read(u.mem, StackAddress(u.sp + 3)) == Hi(w)
    ensures Rti(u).pc == w
    ensures Rti(u).p == pushed | 0x30
  {
    var p1 := Pop(u);
    var p2 := Pop(p1.s);
    assert p2.s.sp == u.sp + 2;
    WordOfBytes(w);
  }

  /** RTI right after an interrupt entry resumes at the interrupted pc. */
  lemma RtiResumesAfterInterrupt(s: State, pushed: bv8, vector: bv16)
    ensures Rti(EnterInterrupt(s, pushed, vector)).pc == s.pc
  {
    InterruptFrame(s, pushed, vector);
    RtiOfFrame(EnterInterrupt(s, pushed, vector), s.pc, pushed);
  }

  /** RTI right after an interrupt entry loads the pushed status with B and bit 5 set. */
  lemma RtiRestoresStatus(s: State, pushed: bv8, vector: bv16)
    ensures Rti(EnterInterrupt(s, pushed, vector)).p == pushed | 0x30
  {
    InterruptFrame(s, pushed, vector);
    RtiOfFrame(EnterInterrupt(s, pushed, vector), s.pc, pushed);
  }

  /** RTI right after an interrupt entry restores sp. */
  lemma RtiRestoresStackPointer(s: State, pushed: bv8, vector: bv16)
    ensures Rti(EnterInterrupt(s, pushed, vector)).sp == s.sp
  {
  }

  /** BRK then RTI resumes two bytes past the BRK opcode (pc here is already one past it). */
  lemma RtiUndoesBrk(s: State)
    ensures Rti(Brk(s)).pc == s.pc + 1
  {
    RtiResumesAfterInterrupt(s.(pc := s.pc + 1), s.p | 0x30, IRQ_VECTOR);
  }

  /** BRK then RTI gives back the status with B and bit 5 set. */
  lemma RtiAfterBrkStatus(s: State)
    ensures Rti(Brk(s)).p == s.p | 0x30
  {
    RtiRestoresStatus(s.(pc := s.pc + 1), s.p | 0x30, IRQ_VECTOR);
  }

  /** PLA right after PHA of v loads v back, restores sp and shows v in N and Z. */
  lemma PlaUndoesPush(s: State, v: bv8)
    ensures Pla(PushRegister(s, v)).a == v
    ensures Pla(PushRegister(s, v)).sp == s.sp
    ensures ShowsNZ(Pla(PushRegister(s, v)).p, v)
  {
    PopUndoesPush(s, v);
  }

  /** PLP right after PHP restores the status with B and bit 5 set. */
  lemma PlpUndoesPhp(s: State)
    ensures Plp(Php(s)).p == s.p | 0x30
    ensures Plp(Php(s)).sp == s.sp
  {
    PopUndoesPush(s, s.p | 0x30);
  }

  /** TRB after TSB with the same A gives the byte back when it shared no bit with A. */
  lemma TrbUndoesTsb(s: State, src: bv16)
    requires s.a & Read(s.mem, src) == 0
    ensures Read(Trb(Tsb(s, src), src).mem, src) == Read(s.mem, src)
  {
    BitsUndo(s.a, Read(s.mem, src));
  }

  /** Setting bits of a that m lacks and clearing them again gives m back. */
  lemma BitsUndo(a: bv8, m: bv8)
    requires a & m == 0
    ensures !a & (a | m) == m
  {
  }
}
