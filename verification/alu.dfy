/**
 * The status register of the 65C02 and the pure arithmetic of its operation
 * handlers (wdc65c02.cpp).  Registers are bytes (`bv8`), so every register
 * update wraps modulo 256 exactly as the source's `uint8_t` fields do; the
 * handlers' wider C temporaries are modelled at a width where they behave the
 * same (`uint16_t` as `bv16`, the `unsigned int` of SBC and the compares as
 * `bv32`, the `unsigned int` of ADC, which never exceeds 0x265, as `bv16`).
 *
 * The arithmetic functions return the new byte together with the final value
 * of each flag they write; the handlers then store those flags into the status
 * register.  Where a handler writes a flag twice (Z in decimal ADC, N and Z in
 * decimal SBC) only the second write is observable and it is the one returned.
 */
module Alu {

  // Status register bits (wdc65c02.cpp:3-10).
  const NEGATIVE: bv8 := 0x80
  const OVERFLOW: bv8 := 0x40
  const CONSTANT: bv8 := 0x20
  const BREAK: bv8 := 0x10
  const DECIMAL: bv8 := 0x08
  const INTERRUPT: bv8 := 0x04
  const ZERO: bv8 := 0x02
  const CARRY: bv8 := 0x01

  /** The SET_<FLAG>(x) macros: set `flag` when `on`, clear it otherwise, keep every other bit. */
  function SetFlag(p: bv8, flag: bv8, on: bool): (r: bv8)
    requires flag != 0
    ensures (r & flag != 0) == on
    ensures r & !flag == p & !flag
  {
    if on then p | flag else p & !flag
  }

  /** The IF_<FLAG>() macros. */
  predicate Has(p: bv8, flag: bv8) {
    p & flag != 0
  }

  /** TRB's `~A & m`: the bits of m that are clear in mask. */
  function ClearBits(mask: bv8, m: bv8): bv8 {
    !mask & m
  }

  /** `SET_ZERO(!v)`: Z tells whether v is zero; every other bit stays. */
  function SetZ(p: bv8, v: bv8): (r: bv8)
    ensures Has(r, ZERO) <==> v == 0
    ensures r & !ZERO == p & !ZERO
  {
    SetFlag(p, ZERO, v == 0)
  }

  /** `SET_NEGATIVE(v & 0x80); SET_ZERO(!v);`, the flag update of loads, transfers, logic ops and shifts. */
  function SetNZ(p: bv8, v: bv8): (r: bv8)
    ensures Has(r, NEGATIVE) <==> v & 0x80 != 0
    ensures Has(r, ZERO) <==> v == 0
    ensures r & 0x7D == p & 0x7D
  {
    SetFlag(SetFlag(p, NEGATIVE, v & 0x80 != 0), ZERO, v == 0)
  }

  /** The relative-offset widening `if (offset & 0x80) offset |= 0xFF00`. */
  function SignExtend(x: bv8): (r: bv16)
    ensures (r & 0xFF) as bv8 == x
    ensures r >> 8 == (if x & 0x80 != 0 then 0xFF else 0x00)
  {
    if x & 0x80 != 0 then x as bv16 | 0xFF00 else x as bv16
  }

  /** A byte with bit 7 set widens to the negative word -(0x100 - x). */
  lemma SignExtendNegative(x: bv8)
    requires x & 0x80 != 0
    ensures SignExtend(x) == 0 - (0x100 - x as bv16)
  {
  }

  /** The byte an ADC or SBC leaves in A and the final N, V, Z and C it writes. */
  datatype ArithOut = ArithOut(value: bv8, negative: bool, overflow: bool, zero: bool, carry: bool)

  /** Stores the four flags of an ADC or SBC into the status register. */
  function SetNVZC(p: bv8, r: ArithOut): (q: bv8)
    ensures Has(q, NEGATIVE) == r.negative && Has(q, OVERFLOW) == r.overflow
    ensures Has(q, ZERO) == r.zero && Has(q, CARRY) == r.carry
    ensures q & 0x3C == p & 0x3C
  {
    SetFlag(SetFlag(SetFlag(SetFlag(p, ZERO, r.zero), NEGATIVE, r.negative), OVERFLOW, r.overflow), CARRY, r.carry)
  }

  /** The byte `tmp & 0xFF` that ADC leaves in A, with N and Z taken from it and the given V and C. */
  function AdcOut(tmp: bv16, overflow: bool, carry: bool): (r: ArithOut)
    ensures r.zero <==> r.value == 0
    ensures r.negative <==> r.value & 0x80 != 0
  {
    ArithOut((tmp & 0xFF) as bv8, tmp & 0x80 != 0, overflow, tmp & 0xFF == 0, carry)
  }

  /** Binary Op_ADC: `tmp = m + A + C`, V from the signs, C when `tmp > 0xFF`. */
  function AdcBinary(a: bv8, m: bv8, c: bv16): ArithOut {
    var tmp: bv16 := m as bv16 + a as bv16 + c;
    AdcOut(tmp, (a ^ m) & 0x80 == 0 && (a as bv16 ^ tmp) & 0x80 != 0, tmp > 0xFF)
  }

  /** ADC's `tmp` after the low-nibble decimal step: `tmp += 6` when the nibble sum exceeds 9. */
  function AdcLow(a: bv8, m: bv8, c: bv16): bv16 {
    var tmp: bv16 := m as bv16 + a as bv16 + c;
    if (a & 0x0F) as bv16 + (m & 0x0F) as bv16 + c > 9 then tmp + 6 else tmp
  }

  /** ADC's high decimal step: `if (tmp > 0x99) tmp += 96`. */
  function AdcHigh(t: bv16): bv16 {
    if t > 0x99 then t + 96 else t
  }

  /**
   * Decimal Op_ADC: V is taken after the low-nibble correction, C is
   * `tmp > 0x99` after the high correction, N and Z come from the corrected value.
   */
  function AdcDecimal(a: bv8, m: bv8, c: bv16): ArithOut {
    var t2 := AdcLow(a, m, c);
    var t3 := AdcHigh(t2);
    AdcOut(t3, (a ^ m) & 0x80 == 0 && (a as bv16 ^ t2) & 0x80 != 0, t3 > 0x99)
  }

  /** Op_ADC on A, the operand m, the carry and the decimal flag. */
  function AdcResult(a: bv8, m: bv8, carryIn: bool, decimal: bool): (r: ArithOut)
    ensures r.zero <==> r.value == 0
    ensures r.negative <==> r.value & 0x80 != 0
    // In decimal mode V is judged on the sum after the low-nibble correction
    // only, and C is set when that sum exceeds 0x99 (the high correction then
    // follows), not when it exceeds 0xFF.
    ensures decimal ==> (r.overflow <==>
      (a ^ m) & 0x80 == 0 && (a as bv16 ^ AdcLow(a, m, Bit(carryIn) as bv16)) & 0x80 != 0)
    ensures decimal ==> (r.carry <==> AdcLow(a, m, Bit(carryIn) as bv16) > 0x99)
  {
    var c := Bit(carryIn) as bv16;
    if decimal then AdcDecimal(a, m, c) else AdcBinary(a, m, c)
  }

  /** SBC's decimal low-nibble step: `tmp -= 6` when `(A & 0x0F) - borrow < (m & 0x0F)`, with the borrow moved right. */
  function SbcLow(a: bv8, m: bv8, b: bv32, tmp: bv32): bv32 {
    if (a & 0x0F) as bv32 < (m & 0x0F) as bv32 + b then tmp - 6 else tmp
  }

  /** SBC's high decimal step `if (tmp > 0x99) tmp -= 0x60`, an unsigned 32-bit comparison. */
  function SbcHigh(t: bv32): bv32 {
    if t > 0x99 then t - 0x60 else t
  }

  /** The byte `tmp & 0xFF` that SBC leaves in A, with N and Z taken from it, C when `tmp < 0x100`, and the given V. */
  function SbcOut(tmp: bv32, overflow: bool): (r: ArithOut)
    ensures r.value == (tmp & 0xFF) as bv8
    ensures r.zero <==> r.value == 0
    ensures r.negative <==> r.value & 0x80 != 0
    ensures r.carry <==> tmp < 0x100
  {
    ArithOut((tmp & 0xFF) as bv8, tmp & 0x80 != 0, overflow, tmp & 0xFF == 0, tmp < 0x100)
  }

  /** SBC's V, taken from the uncorrected `tmp`: A and m differ in sign and A and `tmp` differ in sign. */
  function SbcOverflow(a: bv8, m: bv8, tmp: bv32): bool {
    (a as bv32 ^ tmp) & 0x80 != 0 && (a ^ m) & 0x80 != 0
  }

  /** Binary Op_SBC: `tmp = A - m - b` as an `unsigned int`, which wraps when negative. */
  function SbcBinary(a: bv8, m: bv8, b: bv32): ArithOut {
    var tmp := a as bv32 - m as bv32 - b;
    SbcOut(tmp, SbcOverflow(a, m, tmp))
  }

  /** Decimal Op_SBC: V from the uncorrected `tmp`, everything else from the value after both corrections. */
  function SbcDecimal(a: bv8, m: bv8, b: bv32): ArithOut {
    var tmp := a as bv32 - m as bv32 - b;
    SbcOut(SbcHigh(SbcLow(a, m, b, tmp)), SbcOverflow(a, m, tmp))
  }

  /**
   * Op_SBC on A, the operand m, the carry and the decimal flag; the borrow is
   * the complement of the carry.  `tmp` is the C `unsigned int` A - m - borrow,
   * so a negative difference wraps to a large value: C, `tmp < 0x100`, is then
   * clear.  N and Z, written before the decimal correction, are written again
   * after it from the corrected value.
   */
  function SbcResult(a: bv8, m: bv8, carryIn: bool, decimal: bool): (r: ArithOut)
    ensures r.zero <==> r.value == 0
    ensures r.negative <==> r.value & 0x80 != 0
  {
    var b := Bit(!carryIn) as bv32;
    if decimal then SbcDecimal(a, m, b) else SbcBinary(a, m, b)
  }

  /**
   * The flag update of Op_CMP, Op_CPX and Op_CPY: `tmp = reg - m` as an
   * `unsigned int`, C when it is below 0x100, N its bit 7, Z its low byte zero.
   */
  function CmpFlags(reg: bv8, m: bv8, p: bv8): (r: bv8)
    ensures Has(r, CARRY) <==> reg >= m
    ensures Has(r, ZERO) <==> reg == m
    ensures Has(r, NEGATIVE) <==> (reg - m) & 0x80 != 0
    ensures r & 0x7C == p & 0x7C
  {
    var tmp: bv32 := reg as bv32 - m as bv32;
    SetFlag(SetFlag(SetFlag(p, CARRY, tmp < 0x100), NEGATIVE, tmp & 0x80 != 0), ZERO, tmp & 0xFF == 0)
  }

  /** The byte a shift or rotate writes back and the carry it leaves. */
  datatype ShiftOut = ShiftOut(value: bv8, carry: bool)

  /** Op_ASL / Op_ASL_ACC: C takes bit 7, the byte shifts left. */
  function AslResult(m: bv8): (r: ShiftOut)
    ensures r.carry <==> m & 0x80 != 0
    ensures r.value & 0x01 == 0 && r.value >> 1 == m & 0x7F
  {
    ShiftOut(m << 1, m & 0x80 != 0)
  }

  /** Op_LSR / Op_LSR_ACC: C takes bit 0, the byte shifts right. */
  function LsrResult(m: bv8): (r: ShiftOut)
    ensures r.carry <==> m & 0x01 != 0
    ensures r.value & 0x80 == 0 && r.value << 1 == m & 0xFE
  {
    ShiftOut(m >> 1, m & 0x01 != 0)
  }

  /** Op_ROL / Op_ROL_ACC, on the C `uint16_t` temporary: the old carry enters bit 0, bit 7 leaves into C. */
  function RolResult(m: bv8, carryIn: bool): (r: ShiftOut)
    ensures r.carry <==> m & 0x80 != 0
    ensures (r.value & 0x01 != 0) == carryIn && r.value >> 1 == m & 0x7F
  {
    var t: bv16 := m as bv16 << 1;
    var t1 := if carryIn then t | 0x01 else t;
    ShiftOut((t1 & 0xFF) as bv8, t1 > 0xFF)
  }

  /** Op_ROR / Op_ROR_ACC, on the C `uint16_t` temporary: the old carry enters bit 7, bit 0 leaves into C. */
  function RorResult(m: bv8, carryIn: bool): (r: ShiftOut)
    ensures r.carry <==> m & 0x01 != 0
    ensures (r.value & 0x80 != 0) == carryIn && r.value << 1 == m & 0xFE
  {
    var t: bv16 := m as bv16;
    var t1 := if carryIn then t | 0x100 else t;
    ShiftOut(((t1 >> 1) & 0xFF) as bv8, t1 & 0x01 != 0)
  }

  /**
   * Op_BIT on a memory operand: N and V are copied from bits 7 and 6 of m,
   * B and the constant bit are forced on, Z is set from A & m.
   */
  function BitFlags(a: bv8, m: bv8, p: bv8): (r: bv8)
    ensures Has(r, NEGATIVE) <==> m & 0x80 != 0
    ensures Has(r, OVERFLOW) <==> m & 0x40 != 0
    ensures Has(r, ZERO) <==> a & m == 0
    ensures r & 0x30 == 0x30
    ensures r & 0x0D == p & 0x0D
  {
    var res := m & a;
    var p1 := SetFlag(p, NEGATIVE, res & 0x80 != 0);
    var p2 := (p1 & 0x3F) | (m & 0xC0) | CONSTANT | BREAK;
    SetFlag(p2, ZERO, res == 0)
  }

  /** Op_BIT_IMMED: only Z changes, from A & m. */
  function BitImmediateFlags(a: bv8, m: bv8, p: bv8): (r: bv8)
    ensures Has(r, ZERO) <==> a & m == 0
    ensures r & !ZERO == p & !ZERO
  {
    SetFlag(p, ZERO, m & a == 0)
  }

  // ---------------------------------------------------------------------------
  // Binary-mode arithmetic, stated against independent definitions: the 8-bit
  // wrapped sum or difference, the same taken in 16 bits where it cannot wrap,
  // and the sign rule for two's-complement overflow.

  /** A carry or borrow as the byte 0 or 1. */
  function Bit(b: bool): bv8 {
    if b then 1 else 0
  }

  // Facts about byte arithmetic on plain variables, which the lemmas below
  // instantiate at the operands of ADC and SBC.

  /** The low byte of a sum taken in 16 bits is the 8-bit sum. */
  lemma LowByteOfSum(x: bv8, y: bv8, z: bv8)
    ensures ((y as bv16 + x as bv16 + z as bv16) & 0xFF) as bv8 == x + y + z
  {
  }

  /** The low byte of a difference taken in 32 bits is the 8-bit difference. */
  lemma LowByteOfDifference(x: bv8, y: bv8, z: bv8)
    ensures ((x as bv32 - y as bv32 - z as bv32) & 0xFF) as bv8 == x - y - z
  {
  }

  /** Binary ADC: A' = A + m + C mod 256. */
  lemma AdcBinarySum(a: bv8, m: bv8, c: bool)
    ensures AdcResult(a, m, c, false).value == a + m + Bit(c)
  {
    if c {
      LowByteOfSum(a, m, 1);
      assert AdcResult(a, m, c, false).value == ((m as bv16 + a as bv16 + 1) & 0xFF) as bv8;
    } else {
      LowByteOfSum(a, m, 0);
      assert AdcResult(a, m, c, false).value == ((m as bv16 + a as bv16 + 0) & 0xFF) as bv8;
    }
  }

  /** Binary ADC: C' is set iff A + m + C, taken in 16 bits where it cannot wrap, exceeds 0xFF. */
  lemma AdcBinaryCarry(a: bv8, m: bv8, c: bool)
    ensures AdcResult(a, m, c, false).carry <==> a as bv16 + m as bv16 + Bit(c) as bv16 > 0xFF
  {
  }

  /** Binary ADC: V' is set iff A and m have the same sign and the result's sign differs from A's. */
  lemma AdcBinarySignRule(a: bv8, m: bv8, c: bool)
    ensures var r := AdcResult(a, m, c, false);
      r.overflow <==> (a & 0x80 == m & 0x80 && r.value & 0x80 != a & 0x80)
  {
  }

  /** Binary SBC: A' = A - m - borrow mod 256, where the borrow is the complement of C. */
  lemma SbcBinaryDifference(a: bv8, m: bv8, c: bool)
    ensures SbcResult(a, m, c, false).value == a - m - Bit(!c)
  {
    if c {
      assert SbcResult(a, m, c, false) == SbcBinary(a, m, 0);
      LowByteOfDifference(a, m, 0);
    } else {
      assert SbcResult(a, m, c, false) == SbcBinary(a, m, 1);
      LowByteOfDifference(a, m, 1);
    }
  }

  /** Binary SBC: C' (no borrow) iff A >= m + borrow, compared in 16 bits where nothing wraps. */
  lemma SbcBinaryCarry(a: bv8, m: bv8, c: bool)
    ensures SbcResult(a, m, c, false).carry <==> a as bv16 >= m as bv16 + Bit(!c) as bv16
  {
  }

  /** Binary SBC: V' is set iff A and m differ in sign and the result's sign differs from A's. */
  lemma SbcBinarySignRule(a: bv8, m: bv8, c: bool)
    ensures var r := SbcResult(a, m, c, false);
      r.overflow <==> (a & 0x80 != m & 0x80 && r.value & 0x80 != a & 0x80)
  {
  }

  /** SBC computes V before any decimal correction, so the decimal flag does not change it. */
  lemma SbcOverflowIgnoresDecimal(a: bv8, m: bv8, c: bool)
    ensures SbcResult(a, m, c, true).overflow == SbcResult(a, m, c, false).overflow
  {
  }

  // ---------------------------------------------------------------------------
  // Decimal-mode arithmetic, stated against digit-by-digit packed-BCD addition
  // and subtraction: on operands whose two nibbles are decimal digits, the
  // corrections of Op_ADC and Op_SBC give the decimal sum or difference and
  // the decimal carry or borrow.

  /** Both nibbles of b are decimal digits. */
  predicate IsBcd(b: bv8) {
    b & 0x0F <= 9 && b >> 4 <= 9
  }

  /**
   * Packed-BCD a + m + c, digit by digit: the units digits and c, less ten
   * with a carry when they pass 9, then the tens digits and that carry, the
   * same way; the carry out of the tens is the decimal carry.
   */
  function BcdAdd(a: bv8, m: bv8, c: bool): (bv8, bool) {
    var units := (a & 0x0F) + (m & 0x0F) + Bit(c);
    var unitsCarry := units > 9;
    var tens := (a >> 4) + (m >> 4) + Bit(unitsCarry);
    var tensCarry := tens > 9;
    var unitsDigit := if unitsCarry then units - 10 else units;
    var tensDigit := if tensCarry then tens - 10 else tens;
    ((tensDigit << 4) | unitsDigit, tensCarry)
  }

  /**
   * Packed-BCD a - m - borrow, the borrow being the complement of c, digit by
   * digit: a digit that would go below zero borrows ten from the next; the
   * carry out means that the tens did not borrow.
   */
  function BcdSub(a: bv8, m: bv8, c: bool): (bv8, bool) {
    var b := Bit(!c);
    var unitsBorrow := a & 0x0F < (m & 0x0F) + b;
    var unitsDigit := if unitsBorrow then (a & 0x0F) + 10 - (m & 0x0F) - b else (a & 0x0F) - (m & 0x0F) - b;
    var tb := Bit(unitsBorrow);
    var tensBorrow := a >> 4 < (m >> 4) + tb;
    var tensDigit := if tensBorrow then (a >> 4) + 10 - (m >> 4) - tb else (a >> 4) - (m >> 4) - tb;
    ((tensDigit << 4) | unitsDigit, !tensBorrow)
  }

  /** Decimal 79 + 00 with C set: A becomes 0x80 and C clears; N and V are set from the corrected byte. */
  lemma AdcDecimalExample()
    ensures AdcResult(0x79, 0x00, true, true) == ArithOut(0x80, true, true, false, false)
  {
  }

  /** Decimal 00 - 01 with C set (no borrow in): A becomes 0x99 and C clears, the borrow out. */
  lemma SbcDecimalExample()
    ensures SbcResult(0x00, 0x01, true, true) == ArithOut(0x99, true, false, false, false)
  {
  }

  /** Decimal ADC on BCD operands whose units digits carry leaves the BCD sum in A. */
  lemma AdcDecimalValueCarrying(a: bv8, m: bv8, c: bool)
    requires IsBcd(a) && IsBcd(m)
    requires (a & 0x0F) + (m & 0x0F) + Bit(c) > 9
    ensures AdcResult(a, m, c, true).value == BcdAdd(a, m, c).0
  {
  }

  /** Decimal ADC on BCD operands whose units digits do not carry leaves the BCD sum in A. */
  lemma AdcDecimalValueNotCarrying(a: bv8, m: bv8, c: bool)
    requires IsBcd(a) && IsBcd(m)
    requires (a & 0x0F) + (m & 0x0F) + Bit(c) <= 9
    ensures AdcResult(a, m, c, true).value == BcdAdd(a, m, c).0
  {
  }

  /** Decimal ADC on BCD operands sets C exactly when the BCD sum carries out of the tens. */
  lemma AdcDecimalCarry(a: bv8, m: bv8, c: bool)
    requires IsBcd(a) && IsBcd(m)
    ensures AdcResult(a, m, c, true).carry == BcdAdd(a, m, c).1
  {
  }

  /** Decimal ADC on BCD operands is packed-BCD addition: the digits of the sum and the decimal carry. */
  lemma AdcDecimalIsBcd(a: bv8, m: bv8, c: bool)
    requires IsBcd(a) && IsBcd(m)
    ensures AdcResult(a, m, c, true).value == BcdAdd(a, m, c).0
    ensures AdcResult(a, m, c, true).carry == BcdAdd(a, m, c).1
  {
    if (a & 0x0F) + (m & 0x0F) + Bit(c) > 9 {
      AdcDecimalValueCarrying(a, m, c);
    } else {
      AdcDecimalValueNotCarrying(a, m, c);
    }
    AdcDecimalCarry(a, m, c);
  }

  /** Decimal SBC on BCD operands whose units digits borrow leaves the BCD difference in A. */
  lemma SbcDecimalValueBorrowing(a: bv8, m: bv8, c: bool)
    requires IsBcd(a) && IsBcd(m)
    requires a & 0x0F < (m & 0x0F) + Bit(!c)
    ensures SbcResult(a, m, c, true).value == BcdSub(a, m, c).0
  {
  }

  /** Decimal SBC on BCD operands whose units digits do not borrow leaves the BCD difference in A. */
  lemma SbcDecimalValueNotBorrowing(a: bv8, m: bv8, c: bool)
    requires IsBcd(a) && IsBcd(m)
    requires a & 0x0F >= (m & 0x0F) + Bit(!c)
    ensures SbcResult(a, m, c, true).value == BcdSub(a, m, c).0
  {
  }

  /** Decimal SBC on BCD operands sets C exactly when the BCD difference does not borrow out of the tens. */
  lemma SbcDecimalCarry(a: bv8, m: bv8, c: bool)
    requires IsBcd(a) && IsBcd(m)
    ensures SbcResult(a, m, c, true).carry == BcdSub(a, m, c).1
  {
  }

  /** Decimal SBC on BCD operands is packed-BCD subtraction: the digits of the difference and "no borrow". */
  lemma SbcDecimalIsBcd(a: bv8, m: bv8, c: bool)
    requires IsBcd(a) && IsBcd(m)
    ensures SbcResult(a, m, c, true).value == BcdSub(a, m, c).0
    ensures SbcResult(a, m, c, true).carry == BcdSub(a, m, c).1
  {
    if a & 0x0F < (m & 0x0F) + Bit(!c) {
      SbcDecimalValueBorrowing(a, m, c);
    } else {
      SbcDecimalValueNotBorrowing(a, m, c);
    }
    SbcDecimalCarry(a, m, c);
  }

  /** Decimal SBC never sets C where binary SBC clears it: a difference that wrapped below zero stays wrapped after the corrections. */
  lemma SbcDecimalCarryImpliesBinary(a: bv8, m: bv8, c: bool)
    ensures SbcResult(a, m, c, true).carry ==> SbcResult(a, m, c, false).carry
  {
  }

  /**
   * Decimal SBC takes C from the corrected `tmp`: with the non-BCD operand 0x0B,
   * 0x10 - 0x0B = 5 does not borrow, but the units correction takes 6 from it,
   * so C clears where binary SBC sets it.
   */
  lemma SbcDecimalCarryAfterCorrection()
    ensures !SbcResult(0x10, 0x0B, true, true).carry
    ensures SbcResult(0x10, 0x0B, true, false).carry
  {
  }

  /** ASL is ROL with the carry clear, and LSR is ROR with the carry clear. */
  lemma ShiftsAreRotatesWithoutCarry(m: bv8)
    ensures AslResult(m) == RolResult(m, false)
    ensures LsrResult(m) == RorResult(m, false)
  {
  }

  /** Rotating right after rotating left (through the carry) restores both the byte and the carry. */
  lemma RorUndoesRol(m: bv8, c: bool)
    ensures var l := RolResult(m, c); RorResult(l.value, l.carry) == ShiftOut(m, c)
  {
  }

  /** Rotating left after rotating right restores both the byte and the carry. */
  lemma RolUndoesRor(m: bv8, c: bool)
    ensures var r := RorResult(m, c); RolResult(r.value, r.carry) == ShiftOut(m, c)
  {
  }
}
