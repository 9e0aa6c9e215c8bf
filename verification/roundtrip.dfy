/**
 Writing a structure and reading the text back. The reader recovers the level
 of detail, the periodicity (all three flags collapse to one), the atom count,
 the symbols, and every written number as its rendering parses back.
 */
module RoundTrip {
  import opened Wrappers
  import opened Text
  import opened Integers
  import opened Symbols
  import opened Structure
  import opened Reader
  import opened Writer

  /** A rendered field that fits leaves its line split into exactly the three renderings. */
  lemma VectorLineTokens(v: Vec3, nf: NumberFormat)
    requires FitsVec(nf, v)
    ensures Split(VectorLine(v, nf)) == [nf.render(v.x), nf.render(v.y), nf.render(v.z)]
  {
    SplitThreeFields(nf.render(v.x), nf.render(v.y), nf.render(v.z), FloatWidth);
  }

  /** A written vector line reads back, as a vector or a cell row, as the reread vector. */
  lemma ReadVectorLine(v: Vec3, nf: NumberFormat)
    requires FitsVec(nf, v)
    ensures ReadVector(Split(VectorLine(v, nf)), nf) == Ok(RereadVec(nf, v))
    ensures ReadCellRow(Split(VectorLine(v, nf)), nf) == Ok(RereadVec(nf, v))
  {
    VectorLineTokens(v, nf);
  }

  /** The header line splits into its three integers. */
  lemma HeaderLineTokens(levcfg: int, imcon: int, natoms: nat)
    requires imcon == 0 || imcon == 3
    requires natoms < 1_000_000_000
    ensures Split(HeaderLine(levcfg, imcon, natoms)) == [FormatInt(levcfg), FormatInt(imcon), FormatInt(natoms)]
  {
    FormatIntFitsField(imcon);
    FormatIntFitsField(natoms);
    SplitThreeFields(FormatInt(levcfg), FormatInt(imcon), FormatInt(natoms), IntWidth);
  }

  /** The written header reads back as the level of detail and the periodicity indicator. */
  lemma ReadHeaderLine(levcfg: int, imcon: int, natoms: nat)
    requires imcon == 0 || imcon == 3
    requires natoms < 1_000_000_000
    ensures ReadHeader(Split(HeaderLine(levcfg, imcon, natoms))) == Ok(Header(levcfg, imcon))
  {
    HeaderLineTokens(levcfg, imcon, natoms);
    ParseFormatInt(levcfg);
    ParseFormatInt(imcon);
  }

  /** The label line splits into the symbol and the 1-based index. */
  lemma LabelLineTokens(symbol: string, index: nat)
    requires IsToken(symbol)
    requires index < 1_000_000_000
    ensures Split(LabelLine(symbol, index)) == [symbol, FormatInt(index)]
  {
    FormatIntFitsField(index);
    PadLeftStartsBlank(FormatInt(index), IntWidth);
    SplitAppend(PadRight(symbol, SymbolWidth), IntField(index));
    SplitPadRight(symbol, SymbolWidth);
    SplitPadLeft(FormatInt(index), IntWidth);
  }

  /** Atom `i` has a one-token symbol in the table and every number it writes fits its field. */
  predicate AtomWritable(a: Atoms, i: nat, levcfg: int, table: set<string>, nf: NumberFormat)
    requires WellFormed(a) && i < |a.symbols|
  {
    && a.symbols[i] in table
    && IsToken(a.symbols[i])
    && FitsVec(nf, a.positions[i])
    && (levcfg > 0 ==> FitsVec(nf, VelocityOf(a, i)))
    && (levcfg > 1 ==> FitsVec(nf, ForceOf(a, i)))
  }

  /** What can be written and read back faithfully. */
  predicate Writable(a: Atoms, levcfg: int, table: set<string>, nf: NumberFormat) {
    && WellFormed(a)
    && |a.symbols| < 1_000_000_000
    && (forall i :: 0 <= i < |a.symbols| ==> AtomWritable(a, i, levcfg, table, nf))
    && (FullyPeriodic(a.pbc) ==> forall j :: 0 <= j < 3 ==> FitsVec(nf, a.cell[j]))
  }

  /** The record the reader recovers for atom `i`. */
  function Recovered(a: Atoms, i: nat, levcfg: int, nf: NumberFormat): AtomRecord
    requires WellFormed(a) && i < |a.symbols|
  {
    AtomRecord(
      a.symbols[i],
      RereadVec(nf, a.positions[i]),
      if levcfg > 0 then Some(RereadVec(nf, VelocityOf(a, i))) else None,
      if levcfg > 1 then Some(RereadVec(nf, ForceOf(a, i))) else None)
  }

  /** Each written record reads back as the recovered record, whatever follows it. */
  lemma ReadAtomLines(a: Atoms, i: nat, levcfg: int, table: set<string>, nf: NumberFormat, rest: seq<string>)
    requires WellFormed(a) && i < |a.symbols| < 1_000_000_000
    requires AtomWritable(a, i, levcfg, table, nf)
    ensures ReadRecord(AtomLines(a, i, levcfg, nf) + rest, levcfg, table, nf) == Ok(Recovered(a, i, levcfg, nf))
  {
    var s := AtomLines(a, i, levcfg, nf) + rest;
    AtomLinesAt(a, i, levcfg, nf, rest);
    LabelLineTokens(a.symbols[i], i + 1);
    ReadVectorLine(a.positions[i], nf);
    if levcfg > 0 {
      ReadVectorLine(VelocityOf(a, i), nf);
    }
    if levcfg > 1 {
      ReadVectorLine(ForceOf(a, i), nf);
    }
    ReadRecordSpec(s, levcfg, table, nf);
  }

  /** The lines of a written record, in order, whatever follows them. */
  lemma AtomLinesAt(a: Atoms, i: nat, levcfg: int, nf: NumberFormat, rest: seq<string>)
    requires WellFormed(a) && i < |a.symbols|
    ensures var s := AtomLines(a, i, levcfg, nf) + rest;
            && Tokens(s, 0) == Split(LabelLine(a.symbols[i], i + 1))
            && Tokens(s, 1) == Split(VectorLine(a.positions[i], nf))
            && (levcfg > 0 ==> Tokens(s, 2) == Split(VectorLine(VelocityOf(a, i), nf)))
            && (levcfg > 1 ==> Tokens(s, 3) == Split(VectorLine(ForceOf(a, i), nf)))
  {
  }

  /** The records the reader recovers for atoms `from` onward. */
  function RecoveredFrom(a: Atoms, from: nat, levcfg: int, nf: NumberFormat): (r: seq<AtomRecord>)
    requires WellFormed(a) && from <= |a.symbols|
    ensures |r| == |a.symbols| - from
    ensures forall k :: 0 <= k < |r| ==> r[k] == Recovered(a, from + k, levcfg, nf)
    decreases |a.symbols| - from
  {
    if from == |a.symbols| then []
    else [Recovered(a, from, levcfg, nf)] + RecoveredFrom(a, from + 1, levcfg, nf)
  }

  /** One step of the atom loop: atom `from`'s record, then whatever the later records read as. */
  lemma AtomBlockStep(a: Atoms, levcfg: int, table: set<string>, nf: NumberFormat, from: nat, others: seq<AtomRecord>)
    requires WellFormed(a) && from < |a.symbols| < 1_000_000_000
    requires AtomWritable(a, from, levcfg, table, nf)
    requires ReadRecords(AtomBlock(a, levcfg, nf, from + 1), levcfg, table, nf) == Ok(others)
    ensures ReadRecords(AtomBlock(a, levcfg, nf, from), levcfg, table, nf) == Ok([Recovered(a, from, levcfg, nf)] + others)
  {
    var head := AtomLines(a, from, levcfg, nf);
    var tail := AtomBlock(a, levcfg, nf, from + 1);
    var s := head + tail;
    assert AtomBlock(a, levcfg, nf, from) == s;
    ReadAtomLines(a, from, levcfg, table, nf, tail);
    assert s[RecordLength(levcfg)..] == tail;
    ReadRecordsStep(s, levcfg, table, nf, Recovered(a, from, levcfg, nf), others);
  }

  /** The records of atoms `from` onward read back one by one, in stored order. */
  lemma {:induction false} ReadAtomBlock(a: Atoms, levcfg: int, table: set<string>, nf: NumberFormat, from: nat)
    requires Writable(a, levcfg, table, nf) && from <= |a.symbols|
    ensures ReadRecords(AtomBlock(a, levcfg, nf, from), levcfg, table, nf) == Ok(RecoveredFrom(a, from, levcfg, nf))
    decreases |a.symbols| - from
  {
    if from < |a.symbols| {
      ReadAtomBlock(a, levcfg, table, nf, from + 1);
      AtomBlockStep(a, levcfg, table, nf, from, RecoveredFrom(a, from + 1, levcfg, nf));
    }
  }

  lemma FirstCellLine(rows: seq<Vec3>, nf: NumberFormat, rest: seq<string>)
    requires |rows| > 0 && FitsVec(nf, rows[0])
    ensures ReadCellRow(Tokens(CellLines(rows, nf) + rest, 0), nf) == Ok(RereadVec(nf, rows[0]))
  {
    ReadVectorLine(rows[0], nf);
    assert (CellLines(rows, nf) + rest)[0] == VectorLine(rows[0], nf);
  }

  lemma CellLinesTail(rows: seq<Vec3>, nf: NumberFormat, rest: seq<string>)
    requires |rows| > 0
    ensures (CellLines(rows, nf) + rest)[1..] == CellLines(rows[1..], nf) + rest
  {
  }

  lemma RereadAllCons(nf: NumberFormat, vs: seq<Vec3>)
    requires |vs| > 0
    ensures [RereadVec(nf, vs[0])] + RereadAll(nf, vs[1..]) == RereadAll(nf, vs)
  {
  }

  /** Written cell rows read back, each as its reread row, whatever follows them. */
  lemma {:induction false} ReadCellLines(rows: seq<Vec3>, nf: NumberFormat, rest: seq<string>)
    requires forall j :: 0 <= j < |rows| ==> FitsVec(nf, rows[j])
    ensures ReadRows(CellLines(rows, nf) + rest, |rows|, nf) == Ok(RereadAll(nf, rows))
    decreases |rows|
  {
    if |rows| > 0 {
      var s := CellLines(rows, nf) + rest;
      FirstCellLine(rows, nf, rest);
      CellLinesTail(rows, nf, rest);
      ReadCellLines(rows[1..], nf, rest);
      ReadRowsStep(s, |rows|, nf, RereadVec(nf, rows[0]), RereadAll(nf, rows[1..]));
      RereadAllCons(nf, rows);
    }
  }

  /** The structure a read of the written file yields. */
  function Reloaded(a: Atoms, levcfg: int, nf: NumberFormat): Atoms
    requires WellFormed(a)
  {
    var p := FullyPeriodic(a.pbc);
    Atoms(
      a.symbols,
      RereadAll(nf, a.positions),
      if p then RereadAll(nf, a.cell) else ZeroCell,
      (p, p, p),
      if levcfg > 0 then Some(RereadAll(nf, WrittenVelocities(a))) else None,
      if levcfg > 1 then Some(RereadAll(nf, WrittenForces(a))) else None)
  }

  /** The columns of the recovered records are the written columns, reread. */
  lemma RecoveredColumns(a: Atoms, levcfg: int, nf: NumberFormat)
    requires WellFormed(a)
    ensures SymbolsOf(RecoveredFrom(a, 0, levcfg, nf)) == a.symbols
    ensures PositionsOf(RecoveredFrom(a, 0, levcfg, nf)) == RereadAll(nf, a.positions)
    ensures levcfg > 0 ==> VelocitiesOf(RecoveredFrom(a, 0, levcfg, nf)) == RereadAll(nf, WrittenVelocities(a))
    ensures levcfg > 1 ==> ForcesOf(RecoveredFrom(a, 0, levcfg, nf)) == RereadAll(nf, WrittenForces(a))
  {
  }

  /** The written file's line 1 reads back as the header. */
  lemma WrittenHeader(a: Atoms, levcfg: int, title: string, nf: NumberFormat)
    requires WellFormed(a) && |a.symbols| < 1_000_000_000
    ensures |Write(a, levcfg, title, nf)| >= 2
    ensures ReadHeader(Tokens(Write(a, levcfg, title, nf), 1)) == Ok(Header(levcfg, Imcon(a.pbc)))
  {
    var lines := Write(a, levcfg, title, nf);
    assert lines[1] == HeaderLine(levcfg, Imcon(a.pbc), |a.symbols|);
    ReadHeaderLine(levcfg, Imcon(a.pbc), |a.symbols|);
  }

  /** After the title and header come the cell lines (if any) and then the atom block. */
  lemma WrittenBody(a: Atoms, levcfg: int, title: string, nf: NumberFormat)
    requires WellFormed(a)
    ensures var lines := Write(a, levcfg, title, nf);
            && |lines| >= 2
            && lines[2..] == (if Imcon(a.pbc) > 0 then CellLines(a.cell, nf) else []) + AtomBlock(a, levcfg, nf, 0)
            && lines[2..][CellLength(Imcon(a.pbc))..] == AtomBlock(a, levcfg, nf, 0)
  {
    var lines := Write(a, levcfg, title, nf);
    var front := [PadRight(title, TitleWidth), HeaderLine(levcfg, Imcon(a.pbc), |a.symbols|)];
    var cellLines := if Imcon(a.pbc) > 0 then CellLines(a.cell, nf) else [];
    var block := AtomBlock(a, levcfg, nf, 0);
    assert lines == front + (cellLines + block) by {
      assert lines == (front + cellLines) + block;
      AppendAssoc(front, cellLines, block);
    }
    DropAppend(front, cellLines + block);
    assert |cellLines| == CellLength(Imcon(a.pbc));
    DropAppend(cellLines, block);
  }

  /** The written file splits into title, header, cell block and atom block, each reading back. */
  lemma WrittenParts(a: Atoms, levcfg: int, title: string, table: set<string>, nf: NumberFormat)
    requires Writable(a, levcfg, table, nf)
    ensures var lines := Write(a, levcfg, title, nf);
            var imcon := Imcon(a.pbc);
            && |lines| >= 2
            && ReadHeader(Tokens(lines, 1)) == Ok(Header(levcfg, imcon))
            && (imcon > 0 ==> ReadRows(lines[2..], 3, nf) == Ok(RereadAll(nf, a.cell)))
            && ReadRecords(lines[2..][CellLength(imcon)..], levcfg, table, nf) == Ok(RecoveredFrom(a, 0, levcfg, nf))
  {
    WrittenHeader(a, levcfg, title, nf);
    WrittenBody(a, levcfg, title, nf);
    if Imcon(a.pbc) > 0 {
      ReadCellLines(a.cell, nf, AtomBlock(a, levcfg, nf, 0));
    }
    ReadAtomBlock(a, levcfg, table, nf, 0);
  }

  /**
   Reading back what the writer wrote gives the same symbols, atom count and
   level of detail, periodicity equal to all three flags together (with the
   zero cell otherwise), and every number as its rendering parses back;
   missing velocities or forces come back as zeros when the level asks for them.
   */
  lemma WriteThenRead(a: Atoms, levcfg: int, title: string, table: set<string>, nf: NumberFormat)
    requires Writable(a, levcfg, table, nf)
    ensures Read(Write(a, levcfg, title, nf), table, nf) == Ok(Reloaded(a, levcfg, nf))
  {
    var lines := Write(a, levcfg, title, nf);
    var imcon := Imcon(a.pbc);
    var cell := if imcon > 0 then RereadAll(nf, a.cell) else ZeroCell;
    WrittenParts(a, levcfg, title, table, nf);
    ReadParts(lines, table, nf, Header(levcfg, imcon), cell, RecoveredFrom(a, 0, levcfg, nf));
    RecoveredColumns(a, levcfg, nf);
  }
}
