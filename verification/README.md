# A verified model of the WDC 65C02 emulator

This project models the `wdc65c02` emulator class (wdc65c02.h, wdc65c02.cpp)
in Dafny and proves properties of it.  It covers the whole processor core:

- the register file, the STOP halt bits and the reset-default snapshot;
- the 256-entry instruction table that the constructor fills;
- the fifteen addressing-mode resolvers;
- every operation handler, with the binary and decimal paths of ADC and SBC;
- Reset, the IRQ and NMI lines, and the fetch-decode-execute `Run` loop under
  its cycle or instruction budget.

The model has two layers.

- **Values.** `Machine.State` is the whole processor as a value: registers, STOP,
  snapshot and the 64 KiB address space.
  - `Alu` holds the flag arithmetic as pure functions (`AdcResult`, `SbcResult`,
    `CmpFlags`, `SignExtend`, the shift results).
  - `Addressing` computes each resolver's new pc and effective address.
  - `Handlers` gives each operation handler as a function from state to state, with
    a contract saying which registers, flags and bytes it changes and how.
  - `Decoder` is the table as a total function `Decode(opcode)`.
  - `System` gives Reset, IRQ, NMI, one instruction step and the Run loop.
- **The object.** `Emulator.CPU` is the class with the source's fields, updated in
  place.
  - Its constructor builds the table with the source's default loops and
    documented writes (`Table`).
  - Each method (getters and setters, Reset, StackPush/StackPop, IRQ, NMI, the
    `Addr_*` resolvers, the `Op_*` handlers, Exec and Run) is proved to leave the
    state that the matching function of the value layer gives for the state it
    started in.

The properties are proved about the value layer and so hold for the object.  Among them:

- push/pop and JSR/RTS, BRK/RTI and IRQ/NMI/RTI round trips;
- the binary ADC and SBC results against the plain sum, difference and sign rule;
- decimal ADC and SBC on packed-BCD operands against digit-by-digit BCD addition and subtraction;
- the compare flags;
- zero-page and 16-bit address wrap-around;
- the bit branches and the bit set/reset instructions testing and changing bit n only;
- the shape of the decode table;
- how Run charges its budget and counter, and that it stops at WAI and STP.

On these points the model follows the code as written:

- SBC in decimal mode writes N and Z twice, before and after the BCD correction
  (wdc65c02.cpp:2184-2185, 2195-2196); only the second write is observable, and the
  model keeps it.
- Run tests the budget only before an instruction, so with a budget of 10 and
  instructions of 2, 2 and 7 cycles it runs all three and leaves -1
  (wdc65c02.cpp:1050-1063); `System.RunOverdraw` bounds the overdraw.
- The constructor does not initialise A, X, Y, sp, pc or status (wdc65c02.cpp:32-40);
  the model leaves them unconstrained after construction.

## Model

| member | source | states |
|---|---|---|
| Alu.SetFlag | wdc65c02.cpp:12-19 | the flag bit ends up set exactly when `on`; all seven other bits of the status are unchanged |
| Alu.SetZ | wdc65c02.cpp:2345-2361 | Z is set iff the byte is zero; every other status bit is unchanged (the Z update of TRB and TSB) |
| Alu.SetNZ | wdc65c02.cpp:1917-1923 | N is bit 7 of the byte, Z is set iff the byte is zero, and the other six bits are unchanged |
| Alu.SignExtend | wdc65c02.cpp:1284-1285 | the low byte of the widened offset is the offset, and its high byte is 0xFF exactly when bit 7 is set |
| Alu.SignExtendNegative | wdc65c02.cpp:1285-1286 | an offset with bit 7 set widens to the two's-complement word -(0x100 - offset) |
| Alu.SetNVZC | wdc65c02.cpp:1353-1373 | N, V, Z and C take the four flags the arithmetic computed; I, D, B and bit 5 are unchanged |
| Alu.AdcOut | wdc65c02.cpp:1362-1373 | Z is set iff the stored byte `tmp & 0xFF` is zero and N is its bit 7 |
| Alu.AdcBinary | wdc65c02.cpp:1352-1373 | binary Op_ADC on A, m and the carry: A gets `(m + A + C) & 0xFF`, V is set when A and m agree in sign and the sum does not, C when the sum exceeds 0xFF; no ensures of its own, its properties are the lemmas AdcBinarySum (A is the sum modulo 256), AdcBinaryCarry (C iff the sum reaches 0x100) and AdcBinarySignRule (V iff two like-signed operands give a result of the other sign) |
| Alu.AdcLow | wdc65c02.cpp:1352-1356 | the decimal sum after the units correction: 6 is added when the units digits and the carry exceed 9; no ensures of its own, AdcResult states V and C in terms of it and AdcDecimalCarry shows C is the BCD carry out |
| Alu.AdcHigh | wdc65c02.cpp:1358-1361 | the tens correction: 96 is added when the units-corrected sum exceeds 0x99; no ensures of its own, AdcDecimalValueCarrying and AdcDecimalValueNotCarrying show the byte it leaves is the BCD sum |
| Alu.AdcDecimal | wdc65c02.cpp:1354-1373 | decimal Op_ADC: V from the units-corrected sum, C when it exceeds 0x99, A, N and Z from the sum after both corrections; no ensures of its own, AdcResult states its V and C, and AdcDecimalIsBcd shows that for BCD operands A and C are the BCD sum and carry |
| Alu.AdcResult | wdc65c02.cpp:1349-1375 | in both modes Z is set iff the byte left in A is zero and N is that byte's bit 7; in decimal mode V is judged on the sum after the units correction only, and C is set iff that sum exceeds 0x99 |
| Alu.SbcOut | wdc65c02.cpp:2195-2199 | the byte left in A is `tmp & 0xFF`, Z is set iff it is zero, N is its bit 7, and C is set iff `tmp < 0x100` |
| Alu.SbcLow | wdc65c02.cpp:2190 | the units correction of decimal SBC: 6 is subtracted when the units digit of A less the borrow is below the units digit of m; no ensures of its own, SbcDecimalValueBorrowing and SbcDecimalValueNotBorrowing carry its effect |
| Alu.SbcHigh | wdc65c02.cpp:2191-2194 | the tens correction of decimal SBC: 0x60 is subtracted when the unsigned `tmp` exceeds 0x99; no ensures of its own, SbcDecimalCarry and SbcDecimalCarryAfterCorrection show its effect on C |
| Alu.SbcOverflow | wdc65c02.cpp:2186 | V of SBC, from the uncorrected difference: A and m differ in sign and A and the difference differ in sign; no ensures of its own, SbcBinarySignRule gives its meaning and SbcOverflowIgnoresDecimal shows the decimal flag does not change it |
| Alu.SbcBinary | wdc65c02.cpp:2183-2199 | binary Op_SBC: the 32-bit unsigned `A - m - borrow` handed to SbcOut; no ensures of its own, SbcBinaryDifference (A is A - m - borrow modulo 256) and SbcBinaryCarry (C iff no borrow, A >= m + borrow) carry its properties |
| Alu.SbcDecimal | wdc65c02.cpp:2183-2199 | decimal Op_SBC: V from the uncorrected difference, A, N, Z and C from the value after both corrections; no ensures of its own, SbcDecimalIsBcd shows that for BCD operands A and C are the BCD difference and no-borrow |
| Alu.SbcResult | wdc65c02.cpp:2180-2201 | in both modes Z is set iff the byte left in A is zero and N is its bit 7, because N and Z are written again after the decimal correction |
| Alu.CmpFlags | wdc65c02.cpp:1792-1817 | C is set iff reg >= m, Z iff reg == m, N is bit 7 of reg - m; V, D, I, B and bit 5 are unchanged |
| Alu.AslResult | wdc65c02.cpp:1387-1409 | C is the old bit 7, bit 0 of the result is clear, and its other seven bits are the old bits 0-6 |
| Alu.LsrResult | wdc65c02.cpp:1941-1959 | C is the old bit 0, bit 7 of the result is clear, and its other seven bits are the old bits 1-7 |
| Alu.RolResult | wdc65c02.cpp:2104-2128 | C is the old bit 7, bit 0 is the old carry, and the other seven bits are the old bits 0-6 |
| Alu.RorResult | wdc65c02.cpp:2130-2154 | C is the old bit 0, bit 7 is the old carry, and the other seven bits are the old bits 1-7 |
| Alu.BitFlags | wdc65c02.cpp:1685-1693 | N and V are bits 7 and 6 of m, Z is set iff A & m is zero, B and bit 5 are forced on, and C, I, D are unchanged |
| Alu.BitImmediateFlags | wdc65c02.cpp:1695-1700 | only Z changes: it is set iff A & m is zero |
| Alu.LowByteOfSum | wdc65c02.cpp:1352 | the low byte of the 16-bit sum is the 8-bit wrapped sum |
| Alu.LowByteOfDifference | wdc65c02.cpp:2183 | the low byte of the 32-bit unsigned difference is the 8-bit wrapped difference |
| Alu.AdcBinarySum | wdc65c02.cpp:1352-1373 | binary ADC leaves A + m + C modulo 256 in A |
| Alu.AdcBinaryCarry | wdc65c02.cpp:1370 | binary ADC sets C iff A + m + C, taken without wrap-around, exceeds 0xFF |
| Alu.AdcBinarySignRule | wdc65c02.cpp:1369 | binary ADC sets V iff A and m have the same sign and the result's sign differs from A's |
| Alu.SbcBinaryDifference | wdc65c02.cpp:2183-2199 | binary SBC leaves A - m - borrow modulo 256 in A, where the borrow is the complement of C |
| Alu.SbcBinaryCarry | wdc65c02.cpp:2198 | binary SBC sets C iff A >= m + borrow, compared without wrap-around |
| Alu.SbcBinarySignRule | wdc65c02.cpp:2186 | binary SBC sets V iff A and m differ in sign and the result's sign differs from A's |
| Alu.SbcOverflowIgnoresDecimal | wdc65c02.cpp:2186-2197 | SBC's V is the same in decimal and binary mode, because it is taken before the decimal correction |
| Alu.AdcDecimalExample | wdc65c02.cpp:1352-1373 | decimal 79 + 00 with C set leaves 0x80 in A with C clear, N and V set, Z clear |
| Alu.SbcDecimalExample | wdc65c02.cpp:2183-2199 | decimal 00 - 01 with C set leaves 0x99 in A with C clear (a borrow), N set, V and Z clear |
| Alu.AdcDecimalValueCarrying | wdc65c02.cpp:1356-1373 | on BCD operands whose units digits and C pass 9, decimal ADC leaves the digit-by-digit BCD sum in A |
| Alu.AdcDecimalValueNotCarrying | wdc65c02.cpp:1356-1373 | on BCD operands whose units digits and C do not pass 9, decimal ADC leaves the digit-by-digit BCD sum in A |
| Alu.AdcDecimalCarry | wdc65c02.cpp:1356-1364 | on BCD operands, decimal ADC sets C iff the BCD sum carries out of the tens digit |
| Alu.AdcDecimalIsBcd | wdc65c02.cpp:1352-1373 | on BCD operands, decimal ADC is packed-BCD addition: A is the BCD sum and C is the decimal carry |
| Alu.SbcDecimalValueBorrowing | wdc65c02.cpp:2190-2199 | on BCD operands whose units digit borrows, decimal SBC leaves the digit-by-digit BCD difference in A |
| Alu.SbcDecimalValueNotBorrowing | wdc65c02.cpp:2190-2199 | on BCD operands whose units digit does not borrow, decimal SBC leaves the digit-by-digit BCD difference in A |
| Alu.SbcDecimalCarry | wdc65c02.cpp:2190-2198 | on BCD operands, decimal SBC sets C iff the BCD difference does not borrow out of the tens digit |
| Alu.SbcDecimalIsBcd | wdc65c02.cpp:2183-2199 | on BCD operands, decimal SBC is packed-BCD subtraction: A is the BCD difference and C means no borrow |
| Alu.SbcDecimalCarryImpliesBinary | wdc65c02.cpp:2183-2198 | for any operands, decimal SBC sets C only where binary SBC does: a difference that wrapped below zero stays wrapped after the corrections |
| Alu.SbcDecimalCarryAfterCorrection | wdc65c02.cpp:2190-2198 | C is taken from the corrected `tmp`: 0x10 - 0x0B with C set sets C in binary mode and clears it in decimal mode |
| Alu.ShiftsAreRotatesWithoutCarry | wdc65c02.cpp:1387-1397 | ASL is ROL with the carry clear, and LSR is ROR with the carry clear |
| Alu.RorUndoesRol | wdc65c02.cpp:2104-2141 | ROR after ROL through the carry gives back both the byte and the carry |
| Alu.RolUndoesRor | wdc65c02.cpp:2104-2141 | ROL after ROR through the carry gives back both the byte and the carry |
| Machine.Write | wdc65c02.h:154-157 | the written address holds the new byte, and every other address keeps its byte |
| Machine.Read | wdc65c02.h:155-156 | the bus read callback, one byte at each 16-bit address; no ensures of its own, Write states read-after-write for it |
| Machine.Word | wdc65c02.cpp:972-974 | the word's low byte is `lo` and its high byte is `hi` |
| Machine.WordOfBytes | wdc65c02.cpp:972-974 | joining a word's two bytes again gives the word back |
| Machine.ReadWord | wdc65c02.cpp:1212-1214 | a pointer read as two bus reads: the low byte is the byte at addr and the high byte the byte at `addr + 1`, which wraps at 0xFFFF |
| Machine.StackAddress | wdc65c02.cpp:985 | stack addresses lie in page one, 0x0100..0x01FF, with sp as the low byte |
| Machine.Push | wdc65c02.cpp:983-988 | the byte is written at 0x0100 + sp, sp drops by one (wrapping 0x00 to 0xFF), and nothing else changes |
| Machine.Pop | wdc65c02.cpp:990-995 | sp rises by one (wrapping 0xFF to 0x00), the byte read is the one at 0x0100 + the new sp, and nothing else changes |
| Machine.PopUndoesPush | wdc65c02.cpp:983-995 | a pop right after a push returns the pushed byte and restores sp; only the stack byte stays written |
| Machine.PushStaysInStackPage | wdc65c02.cpp:983-988 | a push leaves every byte outside 0x0100..0x01FF unchanged |
| Machine.PushWord | wdc65c02.cpp:1007-1008 | pushing a word, high byte first as JSR, BRK and the interrupts do, moves sp down by two and changes nothing but sp and memory |
| Machine.PullWordUndoesPushWord | wdc65c02.cpp:2169-2178 | two pops, low byte first, after pushing a word high byte first, give back the word and restore sp |
| Addressing.EffectiveAddress | wdc65c02.cpp:1185-1344 | the address each of the fifteen resolvers returns, in terms of the state before it runs; no ensures of its own, the wrap-around of each mode is stated by ZeroPageIndexedWraps, ZeroPagePointerWraps, IndexedIndirectPointer, AbsoluteIndexedWraps, IndirectYWraps, RelativeForward and RelativeBackward, and the CPU resolvers Emulator.CPU.Addr* are proved to return it |
| Addressing.AbsoluteIndexedIndirectAddress | wdc65c02.cpp:1199-1216 | Addr_ABIXN: the word stored at the operand word plus X; no ensures of its own, Emulator.CPU.AddrAbsoluteIndexedIndirect is proved against it |
| Addressing.AbsoluteIndexed | wdc65c02.cpp:1218-1242 | Addr_ABSIX and Addr_ABSIY: the operand word plus the index; no ensures of its own, AbsoluteIndexedWraps states that the sum wraps at 0xFFFF |
| Addressing.AbsoluteIndirectAddress | wdc65c02.cpp:1244-1262 | Addr_ABSIN: the word stored at the operand word, its high byte read from the next address (no page-wrap bug); no ensures of its own, Emulator.CPU.AddrAbsoluteIndirect is proved against it |
| Addressing.RelativeTarget | wdc65c02.cpp:1279-1288 | Addr_RELAT: the offset byte at pc, sign-extended and added to the pc after it; no ensures of its own, RelativeForward and RelativeBackward state the target for both signs |
| Addressing.ZeroPageAddress | wdc65c02.cpp:1290-1293 | Addr_ZEROP: the operand byte as an address in page zero; no ensures of its own, System.ExecZeroPage states it for a whole step |
| Addressing.ZeroPageIndexedIndirectAddress | wdc65c02.cpp:1295-1306 | Addr_ZPIXN: the pointer at `(operand + X) & 0xFF`, high byte at the next zero-page address; no ensures of its own, IndexedIndirectPointer states it |
| Addressing.ZeroPageIndexed | wdc65c02.cpp:1308-1318 | Addr_ZRPIX and Addr_ZRPIY: the address is in page zero and its low byte is the operand byte plus the index, wrapping at 0xFF |
| Addressing.ZeroPageIndirectAddress | wdc65c02.cpp:1320-1331 | Addr_ZRPIN: the pointer at the operand byte; no ensures of its own, ZeroPagePointerWraps states that a pointer at 0xFF takes its high byte from 0x00 |
| Addressing.ZeroPageIndirectYAddress | wdc65c02.cpp:1333-1344 | Addr_ZPINY: the zero-page pointer plus Y; no ensures of its own, IndirectYWraps states that the sum wraps at 0xFFFF |
| Addressing.ZeroPageWord | wdc65c02.cpp:1327-1328 | a zero-page pointer: its low byte is the byte at zp and its high byte the byte at `(zp + 1) & 0xFF`, so it never leaves page zero |
| Addressing.Resolve | wdc65c02.cpp:1069 | a resolver leaves pc past the operand bytes of its mode and yields EffectiveAddress; no ensures of its own, the CPU resolver Emulator.CPU.Resolve is proved to end with this pc and address |
| Addressing.ZeroPageIndexedWraps | wdc65c02.cpp:1308-1318 | zero page,X and zero page,Y give `(b + index) & 0xFF`, which is always in page zero |
| Addressing.ZeroPagePointerWraps | wdc65c02.cpp:1320-1331 | a (zp) pointer at 0xFF takes its high byte from 0x0000, not from 0x0100 |
| Addressing.IndexedIndirectPointer | wdc65c02.cpp:1295-1306 | (zp,X) adds X to the pointer's address within page zero, and reads the pointer's high byte at `(zp + 1) & 0xFF` |
| Addressing.AbsoluteIndexedWraps | wdc65c02.cpp:1218-1242 | absolute,X and absolute,Y give the operand word plus the index modulo 65536 |
| Addressing.IndirectYWraps | wdc65c02.cpp:1333-1344 | (zp),Y gives the zero-page pointer plus Y modulo 65536 |
| Addressing.RelativeForward | wdc65c02.cpp:1279-1288 | an offset below 0x80 lands that many bytes after the byte that follows the offset |
| Addressing.RelativeBackward | wdc65c02.cpp:1279-1288 | an offset of 0x80 or more lands 0x100 - offset bytes before the byte that follows the offset |
| Decoder.Filler | wdc65c02.cpp:47-88 | every default entry the loops write is a NOP |
| Decoder.Documented | wdc65c02.cpp:91-955 | the 212 entries the constructor writes over the defaults, by opcode; no ensures of its own, DocumentedExactly states which opcodes have one and the Decode lemmas below spell out individual entries |
| Decoder.Decode | wdc65c02.cpp:47-955 | the entry the table holds for each opcode once construction is complete, documented entry over column default; no ensures of its own, DocumentedExactly, UndocumentedAreNops, NopExactly, BranchesAreRelative and AccumulatorForms state it and Table.BuildTable proves the constructor loops build exactly this table |
| Decoder.DocumentedExactly | wdc65c02.cpp:91-955 | an opcode has a documented entry exactly when it is not one of the listed undocumented opcodes (both directions) |
| Decoder.UndocumentedAreNops | wdc65c02.cpp:47-88 | an undocumented opcode decodes to NOP, in the immediate, zero-page(-X) or absolute(-X) mode of its column, or implied |
| Decoder.NopExactly | wdc65c02.cpp:47-955 | an opcode decodes to NOP exactly when it is undocumented or is 0xEA |
| Decoder.BbrOpcodes | wdc65c02.cpp:91-955 | for every n, opcode n<<4 \| 0x0F is BBRn, zero page, 4 cycles |
| Decoder.BbsOpcodes | wdc65c02.cpp:91-955 | for every n, opcode (n+8)<<4 \| 0x0F is BBSn, zero page, 4 cycles |
| Decoder.RmbOpcodes | wdc65c02.cpp:91-955 | for every n, opcode n<<4 \| 0x07 is RMBn, zero page, 5 cycles |
| Decoder.SmbOpcodes | wdc65c02.cpp:91-955 | for every n, opcode (n+8)<<4 \| 0x07 is SMBn, zero page, 5 cycles |
| Decoder.BranchesAreRelative | wdc65c02.cpp:91-955 | an opcode decodes to a relative branch exactly when its mode is relative (both directions) |
| Decoder.AccumulatorForms | wdc65c02.cpp:91-955 | an opcode decodes to an accumulator form exactly when its mode is accumulator (both directions) |
| Decoder.CmpIndirectYCycles | wdc65c02.cpp:349-352 | CMP (zp),Y (0xD1) takes 3 cycles while LDA (zp),Y (0xB1) takes 5 |
| Decoder.DecodeJsr | wdc65c02.cpp:91-955 | opcode 0x20 is JSR absolute, 6 cycles |
| Decoder.DecodeRts | wdc65c02.cpp:91-955 | opcode 0x60 is RTS implied, 6 cycles |
| Decoder.DecodeHalts | wdc65c02.cpp:91-955 | opcode 0xCB is WAI, 5 cycles, and 0xDB is STP, 2 cycles, both implied |
| Handlers.BitMask | wdc65c02.cpp:1414-1427 | the mask is nonzero and has exactly bit n set |
| Handlers.LoadA | wdc65c02.cpp:2372-2379 | only A and N, Z change: A is the new byte and N, Z describe it |
| Handlers.LoadX | wdc65c02.cpp:2327-2334 | only X and N, Z change: X is the new byte and N, Z describe it |
| Handlers.LoadY | wdc65c02.cpp:2336-2343 | only Y and N, Z change: Y is the new byte and N, Z describe it |
| Handlers.StoreNZ | wdc65c02.cpp:1868-1875 | only the byte at src and N, Z change: the byte is written and N, Z describe it |
| Handlers.Lda | wdc65c02.cpp:1917-1923 | A takes the byte at src, N and Z describe it, and nothing else changes |
| Handlers.Ldx | wdc65c02.cpp:1925-1931 | X takes the byte at src, N and Z describe it, and nothing else changes |
| Handlers.Ldy | wdc65c02.cpp:1933-1939 | Y takes the byte at src, N and Z describe it, and nothing else changes |
| Handlers.StepX | wdc65c02.cpp:1839-1847 | X moves by one, wrapping modulo 256, N and Z describe it, and nothing else changes |
| Handlers.StepY | wdc65c02.cpp:1849-1857 | Y moves by one, wrapping modulo 256, N and Z describe it, and nothing else changes |
| Handlers.StepA | wdc65c02.cpp:1829-1837 | A moves by one, wrapping modulo 256, N and Z describe it, and nothing else changes |
| Handlers.Store | wdc65c02.cpp:2296-2300 | only the byte at src changes, to the stored value; no flag changes |
| Handlers.Txs | wdc65c02.cpp:2381-2385 | sp takes X and no flag changes |
| Handlers.AdcOutcome | wdc65c02.cpp:1351-1373 | the ArithOut of Op_ADC on A, the byte at src, C and D; no ensures of its own, Handlers.Adc states the new A and flags in terms of it and Alu.AdcResult gives its meaning |
| Handlers.Adc | wdc65c02.cpp:1349-1375 | A and N, V, Z, C are what AdcResult gives for A, the byte at src, C and D; I, D, B and bit 5 are kept |
| Handlers.SbcOutcome | wdc65c02.cpp:2182-2199 | the ArithOut of Op_SBC on A, the byte at src, C and D; no ensures of its own, Handlers.Sbc states the new A and flags in terms of it and Alu.SbcResult gives its meaning |
| Handlers.Sbc | wdc65c02.cpp:2180-2201 | A and N, V, Z, C are what SbcResult gives for A, the byte at src, C and D; I, D, B and bit 5 are kept |
| Handlers.And | wdc65c02.cpp:1377-1385 | A becomes A & m, N and Z describe it, and nothing else changes |
| Handlers.Eor | wdc65c02.cpp:1859-1866 | A becomes A ^ m, N and Z describe it, and nothing else changes |
| Handlers.Ora | wdc65c02.cpp:1966-1973 | A becomes A \| m, N and Z describe it, and nothing else changes |
| Handlers.Compare | wdc65c02.cpp:1792-1799 | no register changes; C is set iff reg >= m, Z iff reg == m, N is bit 7 of reg - m (wrapped); V, D, I, B and bit 5 are kept |
| Handlers.BitTest | wdc65c02.cpp:1685-1693 | A is unchanged; N and V are bits 7 and 6 of m, Z is set iff A & m is zero, B and bit 5 are set |
| Handlers.BitTestImmediate | wdc65c02.cpp:1695-1700 | only Z changes, set iff A & m is zero |
| Handlers.ShiftMemory | wdc65c02.cpp:1387-1397 | only the byte at src, C, N and Z change: the shifted byte is written back, C is the bit shifted out and N, Z describe the byte |
| Handlers.ShiftAccumulator | wdc65c02.cpp:1399-1409 | only A, C, N and Z change: A is the shifted byte, C is the bit shifted out and N, Z describe A |
| Handlers.Lsr | wdc65c02.cpp:1941-1949 | the byte at src is shifted right, C is its old bit 0, N is cleared, Z describes the new byte, and nothing else changes |
| Handlers.LsrAccumulator | wdc65c02.cpp:1951-1959 | A is shifted right, C is its old bit 0, N is cleared, Z describes the new A, and nothing else changes |
| Handlers.Step8 | wdc65c02.cpp:1819-1827 | only the byte at src and N, Z change: the byte moves by one, wrapping modulo 256, and N, Z describe it |
| Handlers.Trb | wdc65c02.cpp:2345-2352 | the byte at src becomes ~A & m, Z is set iff A & m is zero, and nothing else changes |
| Handlers.Tsb | wdc65c02.cpp:2354-2361 | the byte at src becomes A \| m, Z is set iff A & m is zero, and nothing else changes |
| Handlers.Rmb | wdc65c02.cpp:2032-2102 | only the byte at src changes, to m with bit n cleared; no flag changes |
| Handlers.Smb | wdc65c02.cpp:2223-2293 | only the byte at src changes, to m with bit n set; no flag changes |
| Handlers.BranchTaken | wdc65c02.cpp:1658-1766 | the flag test of each relative branch: BCC on C clear, BCS on C set, BEQ on Z set, BMI on N set, BNE on Z clear, BPL on N clear, BRA always, BVC on V clear, BVS on V set; no ensures of its own, Handlers.Branch states what a taken and an untaken branch do to pc |
| Handlers.Branch | wdc65c02.cpp:1658-1766 | only pc changes: it becomes the resolved target when the branch is taken and stays put otherwise |
| Handlers.Jmp | wdc65c02.cpp:1904-1907 | only pc changes, to src |
| Handlers.BranchOnBit | wdc65c02.cpp:1414-1655 | only pc changes: it either moves to the relative target of the offset byte or steps over it |
| Handlers.PushRegister | wdc65c02.cpp:1975-1979 | only sp and one memory byte change: the register's value is written at 0x0100 + sp and sp drops by one |
| Handlers.Php | wdc65c02.cpp:1981-1985 | only sp and one memory byte change: the status with B and bit 5 set is written at 0x0100 + sp and sp drops by one |
| Handlers.Pla | wdc65c02.cpp:1999-2005 | only A, sp, N and Z change: sp rises by one, A is the byte at 0x0100 + the new sp, and N, Z describe it |
| Handlers.Plx | wdc65c02.cpp:2014-2020 | only X, sp, N and Z change: sp rises by one, X is the byte at 0x0100 + the new sp, and N, Z describe it |
| Handlers.Ply | wdc65c02.cpp:2022-2028 | only Y, sp, N and Z change: sp rises by one, Y is the byte at 0x0100 + the new sp, and N, Z describe it |
| Handlers.Plp | wdc65c02.cpp:2007-2012 | only sp and the status change: sp rises by one and the status is the byte at 0x0100 + the new sp with B and bit 5 forced on |
| Handlers.Jsr | wdc65c02.cpp:1909-1915 | only sp, pc and memory change: sp drops by two, pc becomes src, and every byte but the two stack bytes at sp and sp - 1 keeps its value (the pushed bytes are stated by JsrFrame) |
| Handlers.Rts | wdc65c02.cpp:2169-2178 | only sp and pc change: sp rises by two and pc is one past the word in the two stack bytes above the old sp, low byte first |
| Handlers.Rti | wdc65c02.cpp:2156-2167 | only sp, status and pc change: sp rises by three, the status is the first stack byte above the old sp with B and bit 5 set, and pc is the word in the next two |
| Handlers.EnterInterrupt | wdc65c02.cpp:997-1040 | sp drops by three, I is set, D is cleared, N, V, B, bit 5, Z and C are kept, only sp, status, pc and memory change, and every byte but the three stack bytes at sp, sp - 1 and sp - 2 keeps its value |
| Handlers.Brk | wdc65c02.cpp:1738-1748 | only sp, status, pc and memory change: sp drops by three, I is set, D is cleared, N, V, Z and C keep their values, pc is the word at the IRQ vector 0xFFFE/0xFFFF, and every byte but the three stack bytes at sp, sp - 1 and sp - 2 keeps its value |
| Handlers.ChangeFlag | wdc65c02.cpp:1768-1790 | the one flag becomes `on`; nothing else changes |
| Handlers.Halt | wdc65c02.cpp:2302-2307 | only STOP and pc change: STOP gains the bit and keeps its other bits, and pc steps back onto the opcode |
| Handlers.Operate | wdc65c02.cpp:1067-1071 | dispatching any operation keeps the reset snapshot, and keeps B and bit 5 of the status once set |
| Handlers.OperateLoadStore | wdc65c02.cpp:1917-1939 | every handler of the family, LDA, LDX, LDY (wdc65c02.cpp:1917-1939) and STA, STX, STY, STZ (2296-2300, 2309-2325), keeps the reset snapshot, and keeps B and bit 5 once set; the source cell gives the first handler range |
| Handlers.OperateRegister | wdc65c02.cpp:1839-1857 | every handler of the family, DEX, DEY (wdc65c02.cpp:1839-1857), INX, INY (1886-1902) and TAX, TAY, TSX, TXA, TXS, TYA (2327-2343, 2363-2394), keeps the reset snapshot, and keeps B and bit 5 once set; the source cell gives the first handler range |
| Handlers.OperateArith | wdc65c02.cpp:1349-1385 | every handler of the family, ADC, AND (wdc65c02.cpp:1349-1385), BIT and BIT immediate (1685-1700), CMP, CPX, CPY (1792-1817), EOR (1859-1866), ORA (1966-1973) and SBC (2180-2201), keeps the reset snapshot, and keeps B and bit 5 once set; the source cell gives the first handler range |
| Handlers.OperateRmw | wdc65c02.cpp:1387-1409 | every handler of the family, ASL and its accumulator form (wdc65c02.cpp:1387-1409), DEC, DEC_ACC (1819-1837), INC, INC_ACC (1868-1884), LSR, LSR_ACC (1941-1959) and ROL, ROL_ACC, ROR, ROR_ACC (2104-2154), keeps the reset snapshot, and keeps B and bit 5 once set; the source cell gives the first handler range |
| Handlers.OperateBits | wdc65c02.cpp:1414-1655 | every handler of the family, BBR0-7, BBS0-7 (wdc65c02.cpp:1414-1655), RMB0-7 (2032-2102), SMB0-7 (2223-2293) and TRB, TSB (2345-2361), keeps the reset snapshot, and keeps B and bit 5 once set; the source cell gives the first handler range |
| Handlers.OperateBranching | wdc65c02.cpp:1658-1683 | every handler of the family, BCC, BCS, BEQ (wdc65c02.cpp:1658-1683), BMI, BNE, BPL, BRA (1702-1736) and BVC, BVS (1750-1766), keeps the reset snapshot, and keeps B and bit 5 once set; the source cell gives the first handler range |
| Handlers.OperateFlag | wdc65c02.cpp:1768-1790 | every handler of the family, CLC, CLD, CLI, CLV (wdc65c02.cpp:1768-1790) and SEC, SED, SEI (2203-2219), keeps the reset snapshot, and keeps B and bit 5 once set; the source cell gives the first handler range |
| Handlers.OperateStack | wdc65c02.cpp:1975-2028 | every handler of the family, PHA, PHP, PHX, PHY, PLA, PLP, PLX, PLY (wdc65c02.cpp:1975-2028), keeps the reset snapshot, and keeps B and bit 5 once set |
| Handlers.OperateControl | wdc65c02.cpp:1738-1748 | every handler of the family, BRK (wdc65c02.cpp:1738-1748), JMP, JSR (1904-1915), NOP (1961-1964), RTI, RTS (2156-2178), STP (2302-2307) and WAI (2396-2401), keeps the reset snapshot, and keeps B and bit 5 once set; the source cell gives the first handler range |
| Handlers.BranchOnBitTestsBitN | wdc65c02.cpp:1414-1655 | BBRn branches exactly when bit n of the tested byte is clear and BBSn exactly when it is set; otherwise pc steps over the offset byte |
| Handlers.RmbChangesOnlyBitN | wdc65c02.cpp:2032-2102 | RMBn clears bit n of the byte at src and keeps its other seven bits |
| Handlers.SmbChangesOnlyBitN | wdc65c02.cpp:2223-2293 | SMBn sets bit n of the byte at src and keeps its other seven bits |
| Handlers.JsrFrame | wdc65c02.cpp:1909-1915 | after JSR the two bytes on top of the stack are pc - 1, low byte on top |
| Handlers.RtsOfFrame | wdc65c02.cpp:2169-2178 | RTS resumes one past the word on top of the stack |
| Handlers.RtsUndoesJsr | wdc65c02.cpp:1909-1915 | RTS after JSR resumes at the pc JSR saw, wherever pc moved in between |
| Handlers.RtsRestoresStackPointer | wdc65c02.cpp:2169-2178 | RTS after JSR restores sp |
| Handlers.InterruptFrame | wdc65c02.cpp:997-1019 | the interrupt frame holds, from the top, the pushed status, pc low, pc high |
| Handlers.InterruptVector | wdc65c02.cpp:1014-1016 | the interrupt entry loads pc from the little-endian vector |
| Handlers.RtiOfFrame | wdc65c02.cpp:2156-2167 | RTI loads the status byte on top of the stack, with B and bit 5 set, then pc from the word beneath it |
| Handlers.RtiResumesAfterInterrupt | wdc65c02.cpp:2156-2167 | RTI right after an interrupt entry resumes at the interrupted pc |
| Handlers.RtiRestoresStatus | wdc65c02.cpp:2156-2167 | RTI right after an interrupt entry restores the pushed status, with B and bit 5 set |
| Handlers.RtiRestoresStackPointer | wdc65c02.cpp:2156-2167 | RTI right after an interrupt entry restores sp |
| Handlers.RtiUndoesBrk | wdc65c02.cpp:1738-1748 | RTI after BRK resumes two bytes past the BRK opcode |
| Handlers.RtiAfterBrkStatus | wdc65c02.cpp:1738-1748 | RTI after BRK restores the status, with B and bit 5 set |
| Handlers.PlaUndoesPush | wdc65c02.cpp:1999-2005 | PLA after pushing v gives A = v, restores sp, and N, Z describe v |
| Handlers.PlpUndoesPhp | wdc65c02.cpp:1981-2012 | PLP after PHP restores the status, with B and bit 5 set, and restores sp |
| Handlers.TrbUndoesTsb | wdc65c02.cpp:2345-2361 | TRB after TSB gives back a byte that shared no bit with A |
| System.Reset | wdc65c02.cpp:963-981 | STOP is cleared; A, X, Y and sp come from the snapshot; status is reset_status \| 0x30; pc is the word at 0xFFFC/0xFFFD; memory and the snapshot are untouched |
| System.ResetIdempotent | wdc65c02.cpp:963-981 | resetting twice is the same as resetting once |
| System.ResetForgetsLiveState | wdc65c02.cpp:963-981 | what Reset leaves depends only on the snapshot and memory |
| System.Wake | wdc65c02.cpp:1000-1003 | after WAI, the WAI bit is cleared and pc steps past the WAI; otherwise nothing changes |
| System.InterruptStatus | wdc65c02.cpp:1009 | the pushed status has B cleared and bit 5 set, with the other six bits kept |
| System.Irq | wdc65c02.cpp:997-1019 | after STP nothing changes; with I set only the wake from WAI happens; otherwise the IRQ vector is entered, pushing the status with B cleared |
| System.Nmi | wdc65c02.cpp:1021-1040 | after STP nothing changes; otherwise the NMI vector is entered, whatever I says |
| System.InterruptStatusRestored | wdc65c02.cpp:1009 | the status an interrupt pushes, with B and bit 5 set again, is the old status with both set |
| System.RtiAfterIrq | wdc65c02.cpp:997-1019 | RTI after a taken IRQ resumes at the interrupted pc, past any WAI, with the status restored |
| System.RtiAfterNmi | wdc65c02.cpp:1021-1040 | RTI after an NMI resumes at the interrupted pc, past any WAI, with the status restored |
| System.Exec | wdc65c02.cpp:1067-1071 | executing any table entry keeps the reset snapshot, and keeps B and bit 5 once set |
| System.Fetch | wdc65c02.cpp:1053-1056 | the table entry of the opcode at pc; no ensures of its own, StepDecodes states that Step executes it with pc moved past the opcode |
| System.Step | wdc65c02.cpp:1053-1059 | one fetch-decode-execute keeps the reset snapshot, and keeps B and bit 5 once set |
| System.Charge | wdc65c02.cpp:1061-1063 | the budget is charged the entry's cycles under CYCLE_COUNT and 1 under INST_COUNT, between 1 and 8 |
| System.Run | wdc65c02.cpp:1042-1065 | the Run loop; no ensures of its own, its properties are RunEndsSpentOrStopped (it returns only with the budget spent or STOP set), RunOverdraw (the budget never grows, and a run started with budget left ends above -8), RunChargesCycles, RunChargesInstructions, RunCountsCycles (the counter grows by between 1 and 8 cycles per instruction run), RunKeepsSnapshot, RunIdle and RunStopsAtHalt |
| System.Turn | wdc65c02.cpp:1050-1063 | one pass of the loop with budget left and STOP clear, then the rest of the run: one more instruction, the counter advanced by its cycles and the budget charged by Charge; no ensures of its own, the Run lemmas above are proved through it |
| System.RunEndsSpentOrStopped | wdc65c02.cpp:1050 | Run returns only once the budget is spent or STOP is set |
| System.RunOverdraw | wdc65c02.cpp:1050-1063 | the budget never grows, and a run started with budget left overdraws it by less than 8 |
| System.RunChargesCycles | wdc65c02.cpp:1060-1063 | under CYCLE_COUNT the budget is charged exactly the cycles added to the counter |
| System.RunChargesInstructions | wdc65c02.cpp:1061-1063 | under INST_COUNT the budget is charged one per instruction, so a run started with budget left ends with exactly zero left unless STOP was set |
| System.RunCountsCycles | wdc65c02.cpp:1060 | every instruction adds between 1 and 8 cycles to the counter |
| System.RunKeepsSnapshot | wdc65c02.cpp:1042-1065 | Run never touches the reset snapshot, and keeps B and bit 5 once set |
| System.RunIdle | wdc65c02.cpp:1050 | with no budget left, or STOP set, Run executes nothing and changes nothing |
| System.StepDecodes | wdc65c02.cpp:1053-1059 | Step executes the table entry of the opcode at pc, with pc past the opcode |
| System.ExecImplied | wdc65c02.cpp:1067-1071 | an implied entry runs its handler with pc unmoved |
| System.ExecZeroPage | wdc65c02.cpp:1290-1293 | a zero-page entry runs its handler past the operand byte, on the address that byte names |
| System.ExecJsr | wdc65c02.cpp:1909-1915 | JSR absolute runs past its two operand bytes and calls the operand word |
| System.JsrStep | wdc65c02.cpp:1909-1915 | opcode 0x20 pushes the address of its own last byte and jumps to the operand word |
| System.OperateRts | wdc65c02.cpp:2169-2178 | the RTS operation is the RTS handler |
| System.RtsStep | wdc65c02.cpp:2169-2178 | opcode 0x60 runs the RTS handler on the state with pc past the opcode |
| System.JsrThenRtsResumesAfterCall | wdc65c02.cpp:1909-1915 | a JSR to a bare RTS resumes at the byte after the three-byte JSR |
| System.OperateHalts | wdc65c02.cpp:2302-2307 | the WAI and STP operations are their halt handlers |
| System.WaiStep | wdc65c02.cpp:2396-2401 | opcode 0xCB sets STOP bit 1 and leaves pc on the WAI; nothing else changes |
| System.StpStep | wdc65c02.cpp:2302-2307 | opcode 0xDB sets STOP bit 0 and leaves pc on the STP; nothing else changes |
| System.RunStopsAtHalt | wdc65c02.cpp:1050-1064 | Run executes a WAI or STP and then stops, whatever budget is left |
| System.WaiThenIrqResumesAfterWai | wdc65c02.cpp:997-1019 | an IRQ taken while waiting after WAI returns, through RTI, to the instruction after the WAI |
| System.OperateBranchOnBit | wdc65c02.cpp:1414-1655 | the BBRn and BBSn operations are the bit-branch handler |
| System.BranchOnBitStepIs | wdc65c02.cpp:1414-1655 | a BBRn or BBSn instruction tests the byte at its zero-page operand and branches on the byte after it |
| System.BbrStep | wdc65c02.cpp:1414-1532 | BBRn goes to the relative target when bit n is clear, and otherwise moves pc past its three bytes |
| System.BbsStep | wdc65c02.cpp:1537-1655 | BBSn goes to the relative target when bit n is set, and otherwise moves pc past its three bytes |
| Table.FillColumn | wdc65c02.cpp:47-88 | the sixteen slots of the column hold the entry, and every other slot is unchanged |
| Table.FillDefaults | wdc65c02.cpp:47-88 | after the default loops every slot holds what Filler gives for its opcode |
| Table.FillDocumented | wdc65c02.cpp:91-955 | documented opcodes get their entry, and every other slot keeps its default |
| Table.OpcodeOfSlot | wdc65c02.cpp:91-955 | the slot of an opcode names that opcode again |
| Table.ColumnOfSlot | wdc65c02.cpp:47-88 | an opcode's column, its low nibble, is its slot modulo 16 |
| Table.BuildTable | wdc65c02.cpp:47-955 | the new 256-entry table holds Decode at every opcode |
| Emulator.CPU.constructor | wdc65c02.cpp:32-955 | the table holds Decode at every opcode, memory is the bus, STOP is 0, the reset defaults are A=X=Y=0, sp=0xFD and status=0x20 |
| Emulator.CPU.GetPC | wdc65c02.cpp:1073-1076 | returns pc and changes nothing |
| Emulator.CPU.GetS | wdc65c02.cpp:1078-1081 | returns sp and changes nothing |
| Emulator.CPU.GetP | wdc65c02.cpp:1083-1086 | returns status and changes nothing |
| Emulator.CPU.GetA | wdc65c02.cpp:1088-1091 | returns A and changes nothing |
| Emulator.CPU.GetX | wdc65c02.cpp:1093-1096 | returns X and changes nothing |
| Emulator.CPU.GetY | wdc65c02.cpp:1098-1101 | returns Y and changes nothing |
| Emulator.CPU.GetStop | wdc65c02.cpp:1103-1106 | returns STOP and changes nothing |
| Emulator.CPU.GetResetS | wdc65c02.cpp:1157-1160 | returns reset_sp and changes nothing |
| Emulator.CPU.GetResetP | wdc65c02.cpp:1162-1165 | returns reset_status and changes nothing |
| Emulator.CPU.GetResetA | wdc65c02.cpp:1167-1170 | returns reset_A and changes nothing |
| Emulator.CPU.GetResetX | wdc65c02.cpp:1172-1175 | returns reset_X and changes nothing |
| Emulator.CPU.GetResetY | wdc65c02.cpp:1177-1180 | returns reset_Y and changes nothing |
| Emulator.CPU.SetPC | wdc65c02.cpp:1108-1110 | only pc changes, to the value |
| Emulator.CPU.SetS | wdc65c02.cpp:1112-1114 | only sp changes, to the value |
| Emulator.CPU.SetP | wdc65c02.cpp:1116-1118 | only status changes, to the value with B and bit 5 forced on |
| Emulator.CPU.SetA | wdc65c02.cpp:1120-1122 | only A changes, to the value |
| Emulator.CPU.SetX | wdc65c02.cpp:1124-1126 | only X changes, to the value |
| Emulator.CPU.SetY | wdc65c02.cpp:1128-1130 | only Y changes, to the value |
| Emulator.CPU.SetResetS | wdc65c02.cpp:1132-1135 | only reset_sp changes, to the value |
| Emulator.CPU.SetResetP | wdc65c02.cpp:1137-1140 | only reset_status changes, to the value with B and bit 5 forced on |
| Emulator.CPU.SetResetA | wdc65c02.cpp:1142-1145 | only reset_A changes, to the value |
| Emulator.CPU.SetResetX | wdc65c02.cpp:1147-1150 | only reset_X changes, to the value |
| Emulator.CPU.SetResetY | wdc65c02.cpp:1152-1155 | only reset_Y changes, to the value |
| Emulator.CPU.Reset | wdc65c02.cpp:963-981 | the object ends in the state System.Reset gives for the state it started in |
| Emulator.CPU.StackPush | wdc65c02.cpp:983-988 | the object ends in the state Machine.Push gives |
| Emulator.CPU.StackPop | wdc65c02.cpp:990-995 | the object ends in the state Machine.Pop gives and returns the byte it pulls |
| Emulator.CPU.Wake | wdc65c02.cpp:1000-1003 | the object ends in the state System.Wake gives |
| Emulator.CPU.EnterInterrupt | wdc65c02.cpp:1007-1016 | the object ends in the state Handlers.EnterInterrupt gives |
| Emulator.CPU.IRQ | wdc65c02.cpp:997-1019 | the object ends in the state System.Irq gives |
| Emulator.CPU.NMI | wdc65c02.cpp:1021-1040 | the object ends in the state System.Nmi gives |
| Emulator.CPU.AddrAbsolute | wdc65c02.cpp:1185-1197 | only pc changes; the new pc and the returned address are what Addressing.Resolve gives for Absolute |
| Emulator.CPU.AddrAbsoluteIndexedIndirect | wdc65c02.cpp:1199-1216 | only pc changes; the new pc and the returned address are what Addressing.Resolve gives for AbsoluteIndexedIndirect |
| Emulator.CPU.AddrAbsoluteX | wdc65c02.cpp:1218-1229 | only pc changes; the new pc and the returned address are what Addressing.Resolve gives for AbsoluteX |
| Emulator.CPU.AddrAbsoluteY | wdc65c02.cpp:1231-1242 | only pc changes; the new pc and the returned address are what Addressing.Resolve gives for AbsoluteY |
| Emulator.CPU.AddrAbsoluteIndirect | wdc65c02.cpp:1244-1262 | only pc changes; the new pc and the returned address are what Addressing.Resolve gives for AbsoluteIndirect |
| Emulator.CPU.AddrAccumulator | wdc65c02.cpp:1264-1267 | changes nothing; the pc and the 0 it returns are what Addressing.Resolve gives for Accumulator |
| Emulator.CPU.AddrImplied | wdc65c02.cpp:1274-1277 | changes nothing; the pc and the 0 it returns are what Addressing.Resolve gives for Implied |
| Emulator.CPU.AddrImmediate | wdc65c02.cpp:1269-1272 | only pc changes; the new pc and the returned address are what Addressing.Resolve gives for Immediate |
| Emulator.CPU.AddrRelative | wdc65c02.cpp:1279-1288 | only pc changes; the new pc and the returned address are what Addressing.Resolve gives for Relative |
| Emulator.CPU.AddrZeroPage | wdc65c02.cpp:1290-1293 | only pc changes; the new pc and the returned address are what Addressing.Resolve gives for ZeroPage |
| Emulator.CPU.AddrZeroPageIndexedIndirect | wdc65c02.cpp:1295-1306 | only pc changes; the new pc and the returned address are what Addressing.Resolve gives for ZeroPageIndexedIndirect |
| Emulator.CPU.AddrZeroPageX | wdc65c02.cpp:1308-1312 | only pc changes; the new pc and the returned address are what Addressing.Resolve gives for ZeroPageX |
| Emulator.CPU.AddrZeroPageY | wdc65c02.cpp:1314-1318 | only pc changes; the new pc and the returned address are what Addressing.Resolve gives for ZeroPageY |
| Emulator.CPU.AddrZeroPageIndirect | wdc65c02.cpp:1320-1331 | only pc changes; the new pc and the returned address are what Addressing.Resolve gives for ZeroPageIndirect |
| Emulator.CPU.AddrZeroPageIndirectY | wdc65c02.cpp:1333-1344 | only pc changes; the new pc and the returned address are what Addressing.Resolve gives for ZeroPageIndirectY |
| Emulator.CPU.Resolve | wdc65c02.cpp:1069 | for every mode, only pc changes and the new pc and the returned address are what Addressing.Resolve gives |
| Emulator.CPU.IncrementPc | wdc65c02.cpp:1053 | only pc changes, by one |
| Emulator.CPU.OpAdc | wdc65c02.cpp:1349-1375 | the object ends in the state Handlers.Adc gives for the state it started in |
| Emulator.CPU.OpAnd | wdc65c02.cpp:1377-1385 | the object ends in the state Handlers.And gives for the state it started in |
| Emulator.CPU.OpAsl | wdc65c02.cpp:1387-1397 | the object ends in the state Handlers.ShiftMemory gives for the state it started in |
| Emulator.CPU.OpAslAcc | wdc65c02.cpp:1399-1409 | the object ends in the state Handlers.ShiftAccumulator gives for the state it started in |
| Emulator.CPU.OpBbr | wdc65c02.cpp:1414-1532 | the object ends in the state Handlers.BranchOnBit gives for the state it started in |
| Emulator.CPU.OpBbs | wdc65c02.cpp:1537-1655 | the object ends in the state Handlers.BranchOnBit gives for the state it started in |
| Emulator.CPU.OpBcc | wdc65c02.cpp:1658-1665 | the object ends in the state Handlers.Branch gives for the state it started in |
| Emulator.CPU.OpBcs | wdc65c02.cpp:1667-1674 | the object ends in the state Handlers.Branch gives for the state it started in |
| Emulator.CPU.OpBeq | wdc65c02.cpp:1676-1683 | the object ends in the state Handlers.Branch gives for the state it started in |
| Emulator.CPU.OpBit | wdc65c02.cpp:1685-1693 | the object ends in the state Handlers.BitTest gives for the state it started in |
| Emulator.CPU.OpBitImmed | wdc65c02.cpp:1695-1700 | the object ends in the state Handlers.BitTestImmediate gives for the state it started in |
| Emulator.CPU.OpBmi | wdc65c02.cpp:1702-1709 | the object ends in the state Handlers.Branch gives for the state it started in |
| Emulator.CPU.OpBne | wdc65c02.cpp:1711-1718 | the object ends in the state Handlers.Branch gives for the state it started in |
| Emulator.CPU.OpBpl | wdc65c02.cpp:1720-1727 | the object ends in the state Handlers.Branch gives for the state it started in |
| Emulator.CPU.OpBra | wdc65c02.cpp:1729-1736 | the object ends in the state Handlers.Branch gives for the state it started in |
| Emulator.CPU.OpBrk | wdc65c02.cpp:1738-1748 | the object ends in the state Handlers.Brk gives for the state it started in |
| Emulator.CPU.OpBvc | wdc65c02.cpp:1750-1757 | the object ends in the state Handlers.Branch gives for the state it started in |
| Emulator.CPU.OpBvs | wdc65c02.cpp:1759-1766 | the object ends in the state Handlers.Branch gives for the state it started in |
| Emulator.CPU.OpClc | wdc65c02.cpp:1768-1772 | the object ends in the state Handlers.ChangeFlag gives for the state it started in |
| Emulator.CPU.OpCld | wdc65c02.cpp:1774-1778 | the object ends in the state Handlers.ChangeFlag gives for the state it started in |
| Emulator.CPU.OpCli | wdc65c02.cpp:1780-1784 | the object ends in the state Handlers.ChangeFlag gives for the state it started in |
| Emulator.CPU.OpClv | wdc65c02.cpp:1786-1790 | the object ends in the state Handlers.ChangeFlag gives for the state it started in |
| Emulator.CPU.OpCmp | wdc65c02.cpp:1792-1799 | the object ends in the state Handlers.Compare gives for the state it started in |
| Emulator.CPU.OpCpx | wdc65c02.cpp:1801-1808 | the object ends in the state Handlers.Compare gives for the state it started in |
| Emulator.CPU.OpCpy | wdc65c02.cpp:1810-1817 | the object ends in the state Handlers.Compare gives for the state it started in |
| Emulator.CPU.OpDec | wdc65c02.cpp:1819-1827 | the object ends in the state Handlers.Step8 gives for the state it started in |
| Emulator.CPU.OpDecAcc | wdc65c02.cpp:1829-1837 | the object ends in the state Handlers.StepA gives for the state it started in |
| Emulator.CPU.OpDex | wdc65c02.cpp:1839-1847 | the object ends in the state Handlers.StepX gives for the state it started in |
| Emulator.CPU.OpDey | wdc65c02.cpp:1849-1857 | the object ends in the state Handlers.StepY gives for the state it started in |
| Emulator.CPU.OpEor | wdc65c02.cpp:1859-1866 | the object ends in the state Handlers.Eor gives for the state it started in |
| Emulator.CPU.OpInc | wdc65c02.cpp:1868-1875 | the object ends in the state Handlers.Step8 gives for the state it started in |
| Emulator.CPU.OpIncAcc | wdc65c02.cpp:1877-1884 | the object ends in the state Handlers.StepA gives for the state it started in |
| Emulator.CPU.OpInx | wdc65c02.cpp:1886-1893 | the object ends in the state Handlers.StepX gives for the state it started in |
| Emulator.CPU.OpIny | wdc65c02.cpp:1895-1902 | the object ends in the state Handlers.StepY gives for the state it started in |
| Emulator.CPU.OpJmp | wdc65c02.cpp:1904-1907 | the object ends in the state Handlers.Jmp gives for the state it started in |
| Emulator.CPU.OpJsr | wdc65c02.cpp:1909-1915 | the object ends in the state Handlers.Jsr gives for the state it started in |
| Emulator.CPU.OpLda | wdc65c02.cpp:1917-1923 | the object ends in the state Handlers.Lda gives for the state it started in |
| Emulator.CPU.OpLdx | wdc65c02.cpp:1925-1931 | the object ends in the state Handlers.Ldx gives for the state it started in |
| Emulator.CPU.OpLdy | wdc65c02.cpp:1933-1939 | the object ends in the state Handlers.Ldy gives for the state it started in |
| Emulator.CPU.OpLsr | wdc65c02.cpp:1941-1949 | the object ends in the state Handlers.Lsr gives for the state it started in |
| Emulator.CPU.OpLsrAcc | wdc65c02.cpp:1951-1959 | the object ends in the state Handlers.LsrAccumulator gives for the state it started in |
| Emulator.CPU.OpNop | wdc65c02.cpp:1961-1964 | the object's state is unchanged |
| Emulator.CPU.OpOra | wdc65c02.cpp:1966-1973 | the object ends in the state Handlers.Ora gives for the state it started in |
| Emulator.CPU.OpPha | wdc65c02.cpp:1975-1979 | the object ends in the state Handlers.PushRegister gives for the state it started in |
| Emulator.CPU.OpPhp | wdc65c02.cpp:1981-1985 | the object ends in the state Handlers.Php gives for the state it started in |
| Emulator.CPU.OpPhx | wdc65c02.cpp:1987-1991 | the object ends in the state Handlers.PushRegister gives for the state it started in |
| Emulator.CPU.OpPhy | wdc65c02.cpp:1993-1997 | the object ends in the state Handlers.PushRegister gives for the state it started in |
| Emulator.CPU.OpPla | wdc65c02.cpp:1999-2005 | the object ends in the state Handlers.Pla gives for the state it started in |
| Emulator.CPU.OpPlp | wdc65c02.cpp:2007-2012 | the object ends in the state Handlers.Plp gives for the state it started in |
| Emulator.CPU.OpPlx | wdc65c02.cpp:2014-2020 | the object ends in the state Handlers.Plx gives for the state it started in |
| Emulator.CPU.OpPly | wdc65c02.cpp:2022-2028 | the object ends in the state Handlers.Ply gives for the state it started in |
| Emulator.CPU.OpRmb | wdc65c02.cpp:2032-2102 | the object ends in the state Handlers.Rmb gives for the state it started in |
| Emulator.CPU.OpRol | wdc65c02.cpp:2104-2115 | the object ends in the state Handlers.ShiftMemory gives for the state it started in |
| Emulator.CPU.OpRolAcc | wdc65c02.cpp:2117-2128 | the object ends in the state Handlers.ShiftAccumulator gives for the state it started in |
| Emulator.CPU.OpRor | wdc65c02.cpp:2130-2141 | the object ends in the state Handlers.ShiftMemory gives for the state it started in |
| Emulator.CPU.OpRorAcc | wdc65c02.cpp:2143-2154 | the object ends in the state Handlers.ShiftAccumulator gives for the state it started in |
| Emulator.CPU.OpRti | wdc65c02.cpp:2156-2167 | the object ends in the state Handlers.Rti gives for the state it started in |
| Emulator.CPU.OpRts | wdc65c02.cpp:2169-2178 | the object ends in the state Handlers.Rts gives for the state it started in |
| Emulator.CPU.OpSbc | wdc65c02.cpp:2180-2201 | the object ends in the state Handlers.Sbc gives for the state it started in |
| Emulator.CPU.OpSec | wdc65c02.cpp:2203-2207 | the object ends in the state Handlers.ChangeFlag gives for the state it started in |
| Emulator.CPU.OpSed | wdc65c02.cpp:2209-2213 | the object ends in the state Handlers.ChangeFlag gives for the state it started in |
| Emulator.CPU.OpSei | wdc65c02.cpp:2215-2219 | the object ends in the state Handlers.ChangeFlag gives for the state it started in |
| Emulator.CPU.OpSmb | wdc65c02.cpp:2223-2293 | the object ends in the state Handlers.Smb gives for the state it started in |
| Emulator.CPU.OpSta | wdc65c02.cpp:2296-2300 | the object ends in the state Handlers.Store gives for the state it started in |
| Emulator.CPU.OpStp | wdc65c02.cpp:2302-2307 | the object ends in the state Handlers.Halt gives for the state it started in |
| Emulator.CPU.OpStx | wdc65c02.cpp:2309-2313 | the object ends in the state Handlers.Store gives for the state it started in |
| Emulator.CPU.OpSty | wdc65c02.cpp:2315-2319 | the object ends in the state Handlers.Store gives for the state it started in |
| Emulator.CPU.OpStz | wdc65c02.cpp:2321-2325 | the object ends in the state Handlers.Store gives for the state it started in |
| Emulator.CPU.OpTax | wdc65c02.cpp:2327-2334 | the object ends in the state Handlers.LoadX gives for the state it started in |
| Emulator.CPU.OpTay | wdc65c02.cpp:2336-2343 | the object ends in the state Handlers.LoadY gives for the state it started in |
| Emulator.CPU.OpTrb | wdc65c02.cpp:2345-2352 | the object ends in the state Handlers.Trb gives for the state it started in |
| Emulator.CPU.OpTsb | wdc65c02.cpp:2354-2361 | the object ends in the state Handlers.Tsb gives for the state it started in |
| Emulator.CPU.OpTsx | wdc65c02.cpp:2363-2370 | the object ends in the state Handlers.LoadX gives for the state it started in |
| Emulator.CPU.OpTxa | wdc65c02.cpp:2372-2379 | the object ends in the state Handlers.LoadA gives for the state it started in |
| Emulator.CPU.OpTxs | wdc65c02.cpp:2381-2385 | the object ends in the state Handlers.Txs gives for the state it started in |
| Emulator.CPU.OpTya | wdc65c02.cpp:2387-2394 | the object ends in the state Handlers.LoadA gives for the state it started in |
| Emulator.CPU.OpWai | wdc65c02.cpp:2396-2401 | the object ends in the state Handlers.Halt gives for the state it started in |
| Emulator.CPU.Execute | wdc65c02.cpp:1070 | for every operation, the object ends in the state Handlers.Operate gives |
| Emulator.CPU.ExecuteLoadStore | wdc65c02.cpp:1917-1939 | for every operation of the family, LDA, LDX, LDY (wdc65c02.cpp:1917-1939) and STA, STX, STY, STZ (2296-2300, 2309-2325), the object ends in the state Handlers.OperateLoadStore gives; the source cell gives the first handler range |
| Emulator.CPU.ExecuteRegister | wdc65c02.cpp:1839-1857 | for every operation of the family, DEX, DEY (wdc65c02.cpp:1839-1857), INX, INY (1886-1902) and TAX, TAY, TSX, TXA, TXS, TYA (2327-2343, 2363-2394), the object ends in the state Handlers.OperateRegister gives; the source cell gives the first handler range |
| Emulator.CPU.ExecuteArith | wdc65c02.cpp:1349-1385 | for every operation of the family, ADC, AND (wdc65c02.cpp:1349-1385), BIT and BIT immediate (1685-1700), CMP, CPX, CPY (1792-1817), EOR (1859-1866), ORA (1966-1973) and SBC (2180-2201), the object ends in the state Handlers.OperateArith gives; the source cell gives the first handler range |
| Emulator.CPU.ExecuteRmw | wdc65c02.cpp:1387-1409 | for every operation of the family, ASL and its accumulator form (wdc65c02.cpp:1387-1409), DEC, DEC_ACC (1819-1837), INC, INC_ACC (1868-1884), LSR, LSR_ACC (1941-1959) and ROL, ROL_ACC, ROR, ROR_ACC (2104-2154), the object ends in the state Handlers.OperateRmw gives; the source cell gives the first handler range |
| Emulator.CPU.ExecuteBits | wdc65c02.cpp:1414-1655 | for every operation of the family, BBR0-7, BBS0-7 (wdc65c02.cpp:1414-1655), RMB0-7 (2032-2102), SMB0-7 (2223-2293) and TRB, TSB (2345-2361), the object ends in the state Handlers.OperateBits gives; the source cell gives the first handler range |
| Emulator.CPU.ExecuteBranching | wdc65c02.cpp:1658-1683 | for every operation of the family, BCC, BCS, BEQ (wdc65c02.cpp:1658-1683), BMI, BNE, BPL, BRA (1702-1736) and BVC, BVS (1750-1766), the object ends in the state Handlers.OperateBranching gives; the source cell gives the first handler range |
| Emulator.CPU.ExecuteFlag | wdc65c02.cpp:1768-1790 | for every operation of the family, CLC, CLD, CLI, CLV (wdc65c02.cpp:1768-1790) and SEC, SED, SEI (2203-2219), the object ends in the state Handlers.OperateFlag gives; the source cell gives the first handler range |
| Emulator.CPU.ExecuteStack | wdc65c02.cpp:1975-2028 | for every operation of the family, PHA, PHP, PHX, PHY, PLA, PLP, PLX, PLY (wdc65c02.cpp:1975-2028), the object ends in the state Handlers.OperateStack gives |
| Emulator.CPU.ExecuteControl | wdc65c02.cpp:1738-1748 | for every operation of the family, BRK (wdc65c02.cpp:1738-1748), JMP, JSR (1904-1915), NOP (1961-1964), RTI, RTS (2156-2178), STP (2302-2307) and WAI (2396-2401), the object ends in the state Handlers.OperateControl gives; the source cell gives the first handler range |
| Emulator.CPU.Exec | wdc65c02.cpp:1067-1071 | the object ends in the state System.Exec gives for the entry |
| Emulator.CPU.StepOnce | wdc65c02.cpp:1053-1059 | it returns the table entry of the opcode at pc, and the object ends in the state System.Step gives |
| Emulator.CPU.Run | wdc65c02.cpp:1042-1065 | the object ends in the state System.Run gives, and the returned cycle count is System.Run's count; the charging method defaults to cycles, as declared in wdc65c02.h:172-175 |
| Emulator.RunStep | wdc65c02.cpp:1050-1064 | a run with budget left and STOP clear is one step followed by the run from there |
| Emulator.ExecSplits | wdc65c02.cpp:1067-1071 | Exec runs the handler on the pc and address the resolver leaves |
| Emulator.WordSum | wdc65c02.cpp:974 | `(hi << 8) + lo` is the little-endian word |

## Left out

- The bus callbacks `Read`/`Write` (wdc65c02.h:154-157) are host function pointers; the model replaces them with an address space `bv16 -> bv8` owned by the object and does not model memory-mapped devices or side effects of a read.
- The static `initialized` guard and the one table shared by all instances (wdc65c02.cpp:30, 43-45) are process-wide state; each object builds its own table in its constructor and keeps it as an immutable sequence afterwards, since no code writes the table after construction.
- Member-function-pointer dispatch (wdc65c02.cpp:1067-1071) becomes a `match` over the `Mode` datatype and over the nested `Op` datatype (nine families of handlers).
- Emulator.CPU.Run: the 64-bit `cycleCount` and the 32-bit budget are unbounded integers, so their overflow is not modelled; the counter, passed by reference in the source, is returned as the method's result, and the budget left over (a local in the source) is not returned.
- The entry cycle counts are typed `Cycles` (1 to 8), the range of every count the constructor writes; this is what makes Run terminate for any table.
- System.Run is parameterised by an instruction table; the lemmas that decode specific opcodes assume the table is the one `Decode` describes, which the constructor guarantees.
- The handlers Op_BBR0..7, Op_BBS0..7, Op_RMB0..7 and Op_SMB0..7 are one method each (OpBbr, OpBbs, OpRmb, OpSmb) taking the bit index n; each is proved for every n.
- The declarations in wdc65c02.h that the implementation does not match (Op_BBR, Op_BBS, Op_RMB, Op_SMB, the undeclared STOP) and the unused `illegalOpcode` field (wdc65c02.h:43) are build issues, not behaviour.
- The resolvers compute their address with the Addressing functions rather than byte-by-byte local variables; the values and the single pc update are the same.
- Emulator.CPU.OpRti: the pulled status and pc are assigned together after the three pulls, where the source assigns the status before pulling pc; the pulls do not read the status, so the final state is the same.
- Alu.AdcResult: in decimal mode V is stated only as the source computes it, on the units-corrected sum; no signed-overflow meaning is proved for it, because the V the source computes there is not the two's-complement overflow of any sum, so there is no independent definition to state it against.
- Alu.SbcResult: for operands that are not packed BCD, decimal mode is stated only through SbcDecimalCarryImpliesBinary and SbcDecimalCarryAfterCorrection; the source gives such operands no decimal meaning to prove.
