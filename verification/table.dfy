/**
 * The construction of the instruction table InstrTable[256] in the
 * constructor (wdc65c02.cpp:47-955): the default loops first, then the
 * documented opcodes written over them.  The finished array holds Decode at
 * every opcode.
 */
module Table {
  import opened Decoder

  /** The slots of column `column`, `(i << 4) + column` for i in 0..15, become `instr`; the rest stay. */
  method FillColumn(table: array<Instr>, column: bv8, instr: Instr)
    requires table.Length == 256
    requires column < 0x10
    modifies table
    ensures forall j :: 0 <= j < 256 ==> table[j] == if j % 16 == column as int then instr else old(table[j])
  {
    for i := 0 to 0x10
      invariant forall j :: 0 <= j < 256 ==>
        table[j] == if j % 16 == column as int && j / 16 < i then instr else old(table[j])
    {
      table[i * 16 + column as int] := instr;
    }
  }

  /**
   * The default passes: every slot a one-cycle implied NOP, then column 2
   * two-cycle immediate, column 4 four-cycle zero-page-X with 0x44 three-cycle
   * zero page, column C four-cycle absolute-X with 0x5C eight-cycle absolute.
   */
  method FillDefaults(table: array<Instr>)
    requires table.Length == 256
    modifies table
    ensures forall b: bv8 :: table[b as int] == Filler(b)
  {
    for i := 0 to 256
      invariant forall j :: 0 <= j < i ==> table[j] == Instr(Implied, Control(NOP), 1)
    {
      table[i] := Instr(Implied, Control(NOP), 1);
    }
    FillColumn(table, 0x02, Instr(Immediate, Control(NOP), 2));
    FillColumn(table, 0x04, Instr(ZeroPageX, Control(NOP), 4));
    table[0x44] := Instr(ZeroPage, Control(NOP), 3);
    FillColumn(table, 0x0C, Instr(AbsoluteX, Control(NOP), 4));
    table[0x5C] := Instr(Absolute, Control(NOP), 8);
    forall b: bv8
      ensures table[b as int] == Filler(b)
    {
      ColumnOfSlot(b);
    }
  }

  /** The documented opcodes, written over the defaults one by one. */
  method FillDocumented(table: array<Instr>)
    requires table.Length == 256
    modifies table
    ensures forall b: bv8 :: table[b as int] == if Documented(b).Some? then Documented(b).value else old(table[b as int])
  {
    for i := 0 to 256
      invariant forall j :: 0 <= j < 256 ==>
        table[j] == if j < i && Documented(j as bv8).Some? then Documented(j as bv8).value else old(table[j])
    {
      var entry := Documented(i as bv8);
      if entry.Some? {
        table[i] := entry.value;
      }
    }
    forall b: bv8
      ensures table[b as int] == if Documented(b).Some? then Documented(b).value else old(table[b as int])
    {
      OpcodeOfSlot(b);
    }
  }

  /** The slot of opcode b is the integer b, which names b again. */
  lemma OpcodeOfSlot(b: bv8)
    ensures (b as int) as bv8 == b
  {
  }

  /** The column of opcode b, its low nibble, is its slot modulo 16. */
  lemma ColumnOfSlot(b: bv8)
    ensures (b & 0x0F) as int == b as int % 16
    ensures b as int / 16 < 16
  {
  }

  /** The constructor's table: after both passes, the slot of every opcode holds what Decode says. */
  method BuildTable() returns (table: array<Instr>)
    ensures fresh(table)
    ensures table.Length == 256
    ensures forall b: bv8 :: table[b as int] == Decode(b)
  {
    table := new Instr[256](_ => Instr(Implied, Control(NOP), 1));
    FillDefaults(table);
    FillDocumented(table);
  }
}
