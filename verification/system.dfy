/**
 * The processor as a whole, on the state value: Reset, the two interrupt
 * lines IRQ and NMI, one fetch-decode-execute step and the Run loop
 * (wdc65c02.cpp:963-981, 997-1071).  The imperative CPU class is proved
 * against these functions.
 */
module System {
  import opened Alu
  import opened Decoder
  import opened Machine
  import opened Addressing
  import opened Handlers

  // ---------------------------------------------------------------------------
  // Reset (wdc65c02.cpp:963-981).

  /**
   * Reset: STOP is cleared, A, X, Y and sp come from the snapshot, the status
   * from the snapshot with B and bit 5 forced on, and pc from the reset vector.
   * Memory and the snapshot are not touched.
   */
  function Reset(s: State): (r: State)
    ensures r.stop == 0
    ensures r.a == s.reset.a
    ensures r.x == s.reset.x
    ensures r.y == s.reset.y
    ensures r.sp == s.reset.sp
    ensures r.p == s.reset.p | 0x30
    ensures r.pc == ReadWord(s.mem, RESET_VECTOR)
    ensures r.mem == s.mem
    ensures r.reset == s.reset
  {
    State(s.reset.a, s.reset.x, s.reset.y, s.reset.sp,
      Word(Read(s.mem, RESET_VECTOR), Read(s.mem, RESET_VECTOR + 1)),
      s.reset.p | CONSTANT | BREAK, 0, s.reset, s.mem)
  }

  /** Resetting twice is resetting once. */
  lemma ResetIdempotent(s: State)
    ensures Reset(Reset(s)) == Reset(s)
  {
  }

  /** What Reset leaves depends only on the snapshot and memory, not on the live registers or STOP. */
  lemma ResetForgetsLiveState(s: State, t: State)
    requires s.reset == t.reset
    requires s.mem == t.mem
    ensures Reset(s) == Reset(t)
  {
  }

  // ---------------------------------------------------------------------------
  // The interrupt lines (wdc65c02.cpp:997-1040).

  /**
   * What IRQ and NMI do before they test anything else: nothing at all after
   * STP; after WAI, the WAI bit is cleared and pc steps past the WAI opcode.
   */
  function Wake(s: State): (r: State)
    requires s.stop & STOPPED == 0
    ensures r.stop & WAITING == 0
    ensures r.stop & !WAITING == s.stop & !WAITING
    ensures s.stop & WAITING != 0 ==> r == s.(stop := r.stop, pc := s.pc + 1)
    ensures s.stop & WAITING == 0 ==> r == s
  {
    if s.stop & WAITING != 0 then s.(stop := s.stop & 0xFD, pc := s.pc + 1) else s
  }

  /** The status byte an interrupt line pushes: B cleared, bit 5 set. */
  function InterruptStatus(p: bv8): (pushed: bv8)
    ensures !Has(pushed, BREAK)
    ensures Has(pushed, CONSTANT)
    ensures pushed & 0xCF == p & 0xCF
  {
    (p & !BREAK) | CONSTANT
  }

  /** IRQ: ignored after STP; wakes from WAI; then, unless I is set, enters the IRQ vector. */
  function Irq(s: State): (r: State)
    ensures s.stop & STOPPED != 0 ==> r == s
    ensures s.stop & STOPPED == 0 && Has(s.p, INTERRUPT) ==> r == Wake(s)
    ensures s.stop & STOPPED == 0 && !Has(s.p, INTERRUPT) ==>
      r == EnterInterrupt(Wake(s), InterruptStatus(s.p), IRQ_VECTOR)
    ensures Keeps(s, r)
  {
    if s.stop & STOPPED != 0 then s
    else
      var w := Wake(s);
      if !Has(w.p, INTERRUPT) then EnterInterrupt(w, InterruptStatus(w.p), IRQ_VECTOR) else w
  }

  /** NMI: ignored after STP; wakes from WAI; then enters the NMI vector whatever I says. */
  function Nmi(s: State): (r: State)
    ensures s.stop & STOPPED != 0 ==> r == s
    ensures s.stop & STOPPED == 0 ==> r == EnterInterrupt(Wake(s), InterruptStatus(s.p), NMI_VECTOR)
    ensures Keeps(s, r)
  {
    if s.stop & STOPPED != 0 then s
    else
      var w := Wake(s);
      EnterInterrupt(w, InterruptStatus(w.p), NMI_VECTOR)
  }

  /** An interrupt line leaves B cleared and bit 5 set in the pushed status, so RTI gets back the status with both set. */
  lemma InterruptStatusRestored(p: bv8)
    ensures InterruptStatus(p) | 0x30 == p | 0x30
  {
  }

  /** RTI right after a taken IRQ resumes at the interrupted pc (past a WAI) with the status and sp restored. */
  lemma RtiAfterIrq(s: State)
    requires s.stop & STOPPED == 0
    requires !Has(s.p, INTERRUPT)
    ensures Rti(Irq(s)).pc == Wake(s).pc
    ensures Rti(Irq(s)).p == s.p | 0x30
  {
    RtiResumesAfterInterrupt(Wake(s), InterruptStatus(s.p), IRQ_VECTOR);
    RtiRestoresStatus(Wake(s), InterruptStatus(s.p), IRQ_VECTOR);
    InterruptStatusRestored(s.p);
  }

  /** RTI right after an NMI resumes at the interrupted pc (past a WAI) with the status restored. */
  lemma RtiAfterNmi(s: State)
    requires s.stop & STOPPED == 0
    ensures Rti(Nmi(s)).pc == Wake(s).pc
    ensures Rti(Nmi(s)).p == s.p | 0x30
  {
    RtiResumesAfterInterrupt(Wake(s), InterruptStatus(s.p), NMI_VECTOR);
    RtiRestoresStatus(Wake(s), InterruptStatus(s.p), NMI_VECTOR);
    InterruptStatusRestored(s.p);
  }

  // ---------------------------------------------------------------------------
  // One instruction: fetch, decode, execute (wdc65c02.cpp:1042-1071).

  /** Exec: the resolver moves pc past the operand and yields src, then the handler runs on src. */
  function Exec(s: State, i: Instr): (r: State)
    ensures Keeps(s, r)
  {
    var res := Resolve(s, i.mode);
    Operate(s.(pc := res.pc), i.op, res.ea)
  }

  /** The table's entry for the opcode at pc. */
  function Fetch(t: InstrTable, s: State): Instr {
    t[Read(s.mem, s.pc) as int]
  }

  /** One pass of the Run loop's body: read the opcode at pc, step pc past it, decode and execute. */
  function Step(t: InstrTable, s: State): (r: State)
    ensures Keeps(s, r)
  {
    Exec(s.(pc := s.pc + 1), Fetch(t, s))
  }

  /** The two ways Run charges an instruction against its budget (wdc65c02.h:164-167). */
  datatype CycleMethod = InstCount | CycleCount

  /** What Run charges for an instruction of `cycles` cycles. */
  function Charge(cycles: Cycles, how: CycleMethod): (c: int)
    ensures 1 <= c <= 8
    ensures how == InstCount ==> c == 1
    ensures how == CycleCount ==> c == cycles as int
  {
    if how == CycleCount then cycles as int else 1
  }

  /** The state Run stops in, the cycle counter it leaves, the budget left over and the instructions it ran. */
  datatype Ran = Ran(s: State, count: nat, remaining: int, steps: nat)

  /**
   * Run: while the budget is positive and STOP is zero, execute one instruction,
   * add its cycles to the counter and charge it against the budget, by cycles
   * unless another method is given.  The counter, a 64-bit reference in the
   * source, is unbounded here.
   */
  function Run(t: InstrTable, s: State, remaining: int, count: nat, how: CycleMethod := CycleCount): Ran
    decreases remaining, 1
  {
    if remaining <= 0 || s.stop != 0 then Ran(s, count, remaining, 0)
    else Turn(t, s, remaining, count, how)
  }

  /** One turn of Run's loop, with budget left and STOP clear, and the rest of the run after it. */
  function Turn(t: InstrTable, s: State, remaining: int, count: nat, how: CycleMethod): Ran
    requires remaining > 0 && s.stop == 0
    decreases remaining, 0
  {
    var c := Fetch(t, s).cycles;
    var r := Run(t, Step(t, s), remaining - Charge(c, how), count + c as int, how);
    Ran(r.s, r.count, r.remaining, r.steps + 1)
  }

  /** Run returns only once the budget is spent or STOP is set. */
  lemma {:induction false} RunEndsSpentOrStopped(t: InstrTable, s: State, remaining: int, count: nat, how: CycleMethod)
    decreases remaining
    ensures Run(t, s, remaining, count, how).remaining <= 0 || Run(t, s, remaining, count, how).s.stop != 0
  {
    if remaining > 0 && s.stop == 0 {
      var c := Fetch(t, s).cycles;
      assert Run(t, s, remaining, count, how) == Turn(t, s, remaining, count, how);
      RunEndsSpentOrStopped(t, Step(t, s), remaining - Charge(c, how), count + c as int, how);
    }
  }

  /**
   * The budget never grows, and an instruction started with budget left
   * overdraws it by less than one instruction's eight cycles.
   */
  lemma {:induction false} RunOverdraw(t: InstrTable, s: State, remaining: int, count: nat, how: CycleMethod)
    decreases remaining
    ensures Run(t, s, remaining, count, how).remaining <= remaining
    ensures remaining > 0 ==> Run(t, s, remaining, count, how).remaining > -8
  {
    if remaining > 0 && s.stop == 0 {
      var c := Fetch(t, s).cycles;
      assert Run(t, s, remaining, count, how) == Turn(t, s, remaining, count, how);
      RunOverdraw(t, Step(t, s), remaining - Charge(c, how), count + c as int, how);
    }
  }

  /** Under CycleCount the budget is charged exactly the cycles added to the counter. */
  lemma {:induction false} RunChargesCycles(t: InstrTable, s: State, remaining: int, count: nat)
    decreases remaining
    ensures Run(t, s, remaining, count, CycleCount).count - count == remaining - Run(t, s, remaining, count, CycleCount).remaining
  {
    if remaining > 0 && s.stop == 0 {
      var c := Fetch(t, s).cycles;
      assert Run(t, s, remaining, count, CycleCount) == Turn(t, s, remaining, count, CycleCount);
      RunChargesCycles(t, Step(t, s), remaining - Charge(c, CycleCount), count + c as int);
    }
  }

  /**
   * Under InstCount the budget is charged one per instruction, so a run
   * started with budget left ends with exactly none unless STOP was set.
   */
  lemma {:induction false} RunChargesInstructions(t: InstrTable, s: State, remaining: int, count: nat)
    decreases remaining
    ensures Run(t, s, remaining, count, InstCount).steps == remaining - Run(t, s, remaining, count, InstCount).remaining
    ensures remaining > 0 ==> Run(t, s, remaining, count, InstCount).remaining == 0 || Run(t, s, remaining, count, InstCount).s.stop != 0
  {
    if remaining > 0 && s.stop == 0 {
      var c := Fetch(t, s).cycles;
      assert Run(t, s, remaining, count, InstCount) == Turn(t, s, remaining, count, InstCount);
      RunChargesInstructions(t, Step(t, s), remaining - Charge(c, InstCount), count + c as int);
    }
  }

  /** Every instruction adds between one and eight cycles to the counter. */
  lemma {:induction false} RunCountsCycles(t: InstrTable, s: State, remaining: int, count: nat, how: CycleMethod)
    decreases remaining
    ensures Run(t, s, remaining, count, how).steps <= Run(t, s, remaining, count, how).count - count
    ensures Run(t, s, remaining, count, how).count - count <= 8 * Run(t, s, remaining, count, how).steps
  {
    if remaining > 0 && s.stop == 0 {
      var c := Fetch(t, s).cycles;
      assert Run(t, s, remaining, count, how) == Turn(t, s, remaining, count, how);
      RunCountsCycles(t, Step(t, s), remaining - Charge(c, how), count + c as int, how);
    }
  }

  /** Run never touches the reset snapshot, and keeps bits 4 and 5 of the status set once they are. */
  lemma {:induction false} RunKeepsSnapshot(t: InstrTable, s: State, remaining: int, count: nat, how: CycleMethod)
    decreases remaining
    ensures Keeps(s, Run(t, s, remaining, count, how).s)
  {
    if remaining > 0 && s.stop == 0 {
      var c := Fetch(t, s).cycles;
      assert Run(t, s, remaining, count, how) == Turn(t, s, remaining, count, how);
      RunKeepsSnapshot(t, Step(t, s), remaining - Charge(c, how), count + c as int, how);
    }
  }

  /** With no budget left, or STOP set, Run executes nothing and changes nothing. */
  lemma RunIdle(t: InstrTable, s: State, remaining: int, count: nat, how: CycleMethod)
    requires remaining <= 0 || s.stop != 0
    ensures Run(t, s, remaining, count, how) == Ran(s, count, remaining, 0)
  {
  }

  // ---------------------------------------------------------------------------
  // Whole instructions, from the opcode byte at pc.

  /** Step runs the instruction Fetch decodes. */
  lemma StepDecodes(t: InstrTable, s: State, i: Instr)
    requires Fetch(t, s) == i
    ensures Step(t, s) == Exec(s.(pc := s.pc + 1), i)
  {
  }

  /** An implied-mode instruction runs its handler with pc unmoved. */
  lemma ExecImplied(s: State, op: Op, cycles: Cycles)
    ensures Exec(s, Instr(Implied, op, cycles)) == Operate(s, op, 0)
  {
  }

  /** A zero-page instruction runs its handler past the operand byte, on the page-zero address it names. */
  lemma ExecZeroPage(s: State, op: Op, cycles: Cycles)
    ensures Exec(s, Instr(ZeroPage, op, cycles)) == Operate(s.(pc := s.pc + 1), op, Read(s.mem, s.pc) as bv16)
  {
  }

  /** JSR abs runs past its two operand bytes and calls the operand word. */
  lemma ExecJsr(s: State)
    ensures Exec(s, Instr(Absolute, Control(JSR), 6)) == Jsr(s.(pc := s.pc + 2), ReadWord(s.mem, s.pc))
  {
  }

  /** JSR abs (0x20) leaves pc at the target and the address of its own last byte on the stack. */
  lemma JsrStep(t: InstrTable, s: State)
    requires IsDecodeTable(t)
    requires Read(s.mem, s.pc) == 0x20
    ensures Step(t, s) == Jsr(s.(pc := s.pc + 3), ReadWord(s.mem, s.pc + 1))
  {
    DecodeJsr();
    StepDecodes(t, s, Instr(Absolute, Control(JSR), 6));
    ExecJsr(s.(pc := s.pc + 1));
  }

  /** The RTS handler. */
  lemma OperateRts(s: State, src: bv16)
    ensures Operate(s, Control(RTS), src) == Rts(s)
  {
  }

  /** RTS (0x60) is the handler run on the state with pc one past the opcode. */
  lemma RtsStep(t: InstrTable, s: State)
    requires IsDecodeTable(t)
    requires Read(s.mem, s.pc) == 0x60
    ensures Step(t, s) == Rts(s.(pc := s.pc + 1))
  {
    DecodeRts();
    StepDecodes(t, s, Instr(Implied, Control(RTS), 6));
    ExecImplied(s.(pc := s.pc + 1), Control(RTS), 6);
    OperateRts(s.(pc := s.pc + 1), 0);
  }

  /** A subroutine that is a bare RTS returns to the instruction after the three-byte JSR. */
  lemma JsrThenRtsResumesAfterCall(t: InstrTable, s: State)
    requires IsDecodeTable(t)
    requires Read(s.mem, s.pc) == 0x20
    requires Read(Step(t, s).mem, Step(t, s).pc) == 0x60
    ensures Step(t, Step(t, s)).pc == s.pc + 3
  {
    JsrStep(t, s);
    RtsStep(t, Step(t, s));
    RtsUndoesJsr(s.(pc := s.pc + 3), ReadWord(s.mem, s.pc + 1), Step(t, s).pc + 1);
  }

  /** The WAI and STP handlers. */
  lemma OperateHalts(s: State, src: bv16)
    ensures Operate(s, Control(WAI), src) == Halt(s, WAITING)
    ensures Operate(s, Control(STP), src) == Halt(s, STOPPED)
  {
  }

  /** WAI (0xCB) sets the WAI bit of STOP and leaves pc on its own opcode; nothing else changes. */
  lemma WaiStep(t: InstrTable, s: State)
    requires IsDecodeTable(t)
    requires Read(s.mem, s.pc) == 0xCB
    ensures Step(t, s) == s.(stop := s.stop | WAITING)
  {
    DecodeHalts();
    StepDecodes(t, s, Instr(Implied, Control(WAI), 5));
    ExecImplied(s.(pc := s.pc + 1), Control(WAI), 5);
    OperateHalts(s.(pc := s.pc + 1), 0);
  }

  /** STP (0xDB) sets the STP bit of STOP and leaves pc on its own opcode; nothing else changes. */
  lemma StpStep(t: InstrTable, s: State)
    requires IsDecodeTable(t)
    requires Read(s.mem, s.pc) == 0xDB
    ensures Step(t, s) == s.(stop := s.stop | STOPPED)
  {
    DecodeHalts();
    StepDecodes(t, s, Instr(Implied, Control(STP), 2));
    ExecImplied(s.(pc := s.pc + 1), Control(STP), 2);
    OperateHalts(s.(pc := s.pc + 1), 0);
  }

  /** Run executes WAI or STP and then stops, however much budget is left. */
  lemma RunStopsAtHalt(t: InstrTable, s: State, remaining: int, count: nat, how: CycleMethod)
    requires IsDecodeTable(t)
    requires remaining > 0
    requires s.stop == 0
    requires Read(s.mem, s.pc) == 0xCB || Read(s.mem, s.pc) == 0xDB
    ensures Run(t, s, remaining, count, how).s == Step(t, s)
    ensures Run(t, s, remaining, count, how).steps == 1
  {
    if Read(s.mem, s.pc) == 0xCB {
      WaiStep(t, s);
    } else {
      StpStep(t, s);
    }
    RunIdle(t, Step(t, s), remaining - Charge(Fetch(t, s).cycles, how), count + Fetch(t, s).cycles as int, how);
    assert Run(t, s, remaining, count, how) == Turn(t, s, remaining, count, how);
  }

  /** An IRQ taken while waiting after WAI returns, through RTI, to the instruction after the WAI. */
  lemma WaiThenIrqResumesAfterWai(t: InstrTable, s: State)
    requires IsDecodeTable(t)
    requires Read(s.mem, s.pc) == 0xCB
    requires s.stop == 0
    requires !Has(s.p, INTERRUPT)
    ensures Rti(Irq(Step(t, s))).pc == s.pc + 1
  {
    WaiStep(t, s);
    RtiAfterIrq(Step(t, s));
  }

  /** The BBRn and BBSn handlers. */
  lemma OperateBranchOnBit(s: State, src: bv16, n: BitIndex, whenSet: bool)
    ensures Operate(s, if whenSet then Bits(BBS(n)) else Bits(BBR(n)), src) == BranchOnBit(s, src, n, whenSet)
  {
  }

  /** A BBRn or BBSn instruction tests the byte at its zero-page operand and branches on the byte after it. */
  lemma BranchOnBitStepIs(t: InstrTable, s: State, n: BitIndex, whenSet: bool)
    requires Fetch(t, s) == Instr(ZeroPage, if whenSet then Bits(BBS(n)) else Bits(BBR(n)), 4)
    ensures Step(t, s) == BranchOnBit(s.(pc := s.pc + 2), Read(s.mem, s.pc + 1) as bv16, n, whenSet)
  {
    StepDecodes(t, s, Instr(ZeroPage, if whenSet then Bits(BBS(n)) else Bits(BBR(n)), 4));
    ExecZeroPage(s.(pc := s.pc + 1), if whenSet then Bits(BBS(n)) else Bits(BBR(n)), 4);
    OperateBranchOnBit(s.(pc := s.pc + 2), Read(s.mem, s.pc + 1) as bv16, n, whenSet);
  }

  /** BBRn (opcode n<<4 | 0x0F): pc moves past the three-byte instruction, or to the relative target of its offset byte when bit n of the tested byte is clear. */
  lemma BbrStep(t: InstrTable, s: State, n: BitIndex)
    requires IsDecodeTable(t)
    requires Read(s.mem, s.pc) == (n << 4) | 0x0F
    ensures !BitOf(Read(s.mem, Read(s.mem, s.pc + 1) as bv16), n) ==>
      Step(t, s).pc == RelativeTarget(s.mem, s.pc + 2)
    ensures BitOf(Read(s.mem, Read(s.mem, s.pc + 1) as bv16), n) ==>
      Step(t, s).pc == s.pc + 3
  {
    BbrOpcodes(n);
    BranchOnBitStepIs(t, s, n, false);
    BranchOnBitTestsBitN(s.(pc := s.pc + 2), Read(s.mem, s.pc + 1) as bv16, n, false);
  }

  /** BBSn (opcode (n+8)<<4 | 0x0F): pc moves past the three-byte instruction, or to the relative target of its offset byte when bit n of the tested byte is set. */
  lemma BbsStep(t: InstrTable, s: State, n: BitIndex)
    requires IsDecodeTable(t)
    requires Read(s.mem, s.pc) == ((n + 8) << 4) | 0x0F
    ensures BitOf(Read(s.mem, Read(s.mem, s.pc + 1) as bv16), n) ==>
      Step(t, s).pc == RelativeTarget(s.mem, s.pc + 2)
    ensures !BitOf(Read(s.mem, Read(s.mem, s.pc + 1) as bv16), n) ==>
      Step(t, s).pc == s.pc + 3
  {
    BbsOpcodes(n);
    BranchOnBitStepIs(t, s, n, true);
    BranchOnBitTestsBitN(s.(pc := s.pc + 2), Read(s.mem, s.pc + 1) as bv16, n, true);
  }
}
