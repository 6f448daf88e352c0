/**
 * The processor state of the 65C02 as one value: the live registers, the halt
 * bits, the reset-default snapshot and the 64 KiB address space that the
 * source reaches through its bus callbacks (wdc65c02.h:8-27, 153-157).  The
 * operations on this value are the reference that the imperative CPU class is
 * proved against.
 */
module Machine {
  import opened Alu

  /** The whole address space, one byte at every 16-bit address. */
  type Memory = bv16 -> bv8

  /** The bus read callback, `Read(addr)`. */
  function Read(mem: Memory, addr: bv16): bv8 {
    mem(addr)
  }

  /** The bus write callback, `Write(addr, v)`: the byte at `addr` becomes v and every other byte stays. */
  function Write(mem: Memory, addr: bv16, v: bv8): (r: Memory)
    ensures Read(r, addr) == v
    ensures forall other: bv16 :: other != addr ==> Read(r, other) == Read(mem, other)
  {
    b => if b == addr then v else mem(b)
  }

  // Interrupt vectors, low byte first (wdc65c02.h:146-151).
  const IRQ_VECTOR: bv16 := 0xFFFE
  const RESET_VECTOR: bv16 := 0xFFFC
  const NMI_VECTOR: bv16 := 0xFFFA

  // The bits of STOP: STP sets bit 0, WAI sets bit 1.
  const STOPPED: bv8 := 0x01
  const WAITING: bv8 := 0x02

  /** reset_A, reset_X, reset_Y, reset_sp and reset_status: the values Reset copies into the registers. */
  datatype Snapshot = Snapshot(a: bv8, x: bv8, y: bv8, sp: bv8, p: bv8)

  /** The register file, STOP, the reset snapshot and memory. */
  datatype State = State(
    a: bv8, x: bv8, y: bv8, sp: bv8, pc: bv16, p: bv8,
    stop: bv8, reset: Snapshot, mem: Memory)

  /** The high byte of a word, `(w >> 8) & 0xFF`. */
  function Hi(w: bv16): bv8 {
    (w >> 8) as bv8
  }

  /** The low byte of a word, `w & 0xFF`. */
  function Lo(w: bv16): bv8 {
    (w & 0xFF) as bv8
  }

  /** The little-endian word `(hi << 8) + lo`; the source writes it with `+` or `|`, which agree here. */
  function Word(lo: bv8, hi: bv8): (w: bv16)
    ensures Lo(w) == lo && Hi(w) == hi
  {
    (hi as bv16 << 8) | lo as bv16
  }

  /** Splitting a word into its bytes and joining them again gives the word back. */
  lemma WordOfBytes(w: bv16)
    ensures Word(Lo(w), Hi(w)) == w
  {
  }

  /** The word stored at `addr` and `addr + 1`, the second address wrapping at 0xFFFF. */
  function ReadWord(mem: Memory, addr: bv16): (w: bv16)
    ensures Lo(w) == Read(mem, addr) && Hi(w) == Read(mem, addr + 1)
  {
    Word(Read(mem, addr), Read(mem, addr + 1))
  }

  /** The stack lives in page one: `0x0100 + sp`. */
  function StackAddress(sp: bv8): (addr: bv16)
    ensures 0x0100 <= addr <= 0x01FF
    ensures Lo(addr) == sp
  {
    0x0100 + sp as bv16
  }

  /** StackPush: write at 0x0100 + sp, then move sp down, from 0x00 to 0xFF (wdc65c02.cpp:983-988). */
  function Push(s: State, v: bv8): (r: State)
    ensures r.sp == s.sp - 1
    ensures r.mem == Write(s.mem, StackAddress(s.sp), v)
    ensures r == s.(sp := r.sp, mem := r.mem)
  {
    s.(mem := Write(s.mem, StackAddress(s.sp), v), sp := s.sp - 1)
  }

  /** The state after a pull and the byte pulled. */
  datatype Pulled = Pulled(s: State, value: bv8)

  /** StackPop: move sp up, from 0xFF to 0x00, then read 0x0100 + sp (wdc65c02.cpp:990-995). */
  function Pop(s: State): (r: Pulled)
    ensures r.s.sp == s.sp + 1
    ensures r.value == Read(s.mem, StackAddress(s.sp + 1))
    ensures r.s == s.(sp := r.s.sp)
  {
    var sp := s.sp + 1;
    Pulled(s.(sp := sp), Read(s.mem, StackAddress(sp)))
  }

  /** A pull right after a push returns the pushed byte and restores sp; only the stack byte stays written. */
  lemma PopUndoesPush(s: State, v: bv8)
    ensures Pop(Push(s, v)) == Pulled(s.(mem := Write(s.mem, StackAddress(s.sp), v)), v)
  {
  }

  /** A push writes nothing outside the stack page 0x0100..0x01FF. */
  lemma PushStaysInStackPage(s: State, v: bv8, addr: bv16)
    requires addr < 0x0100 || addr > 0x01FF
    ensures Read(Push(s, v).mem, addr) == Read(s.mem, addr)
  {
  }

  /** The bytes of a word pushed high byte first, as JSR, BRK and the interrupts do. */
  function PushWord(s: State, w: bv16): (r: State)
    ensures r.sp == s.sp - 2
    ensures r == s.(sp := r.sp, mem := r.mem)
  {
    Push(Push(s, Hi(w)), Lo(w))
  }

  /** Pulling two bytes after pushing a word, low byte first as RTS and RTI do, gives the word back and restores sp. */
  lemma PullWordUndoesPushWord(s: State, w: bv16)
    ensures var p1 := Pop(PushWord(s, w)); var p2 := Pop(p1.s);
      Word(p1.value, p2.value) == w && p2.s.sp == s.sp
  {
    var t := Push(s, Hi(w));
    var t' := t.(mem := Write(t.mem, StackAddress(t.sp), Lo(w)));
    PopUndoesPush(t, Lo(w));
    assert Pop(PushWord(s, w)) == Pulled(t', Lo(w));
    assert t'.sp + 1 == s.sp;
    assert Lo(StackAddress(t.sp)) != Lo(StackAddress(s.sp));
    assert Read(t'.mem, StackAddress(s.sp)) == Hi(w);
    WordOfBytes(w);
  }
}
