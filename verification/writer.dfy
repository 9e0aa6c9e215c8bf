/**
 The CONFIG writer: a padded title line; a header of three 10-column integers
 (level of detail, periodicity indicator, atom count); the cell rows when the
 structure is periodic on all three axes; then one record per atom in stored
 order. Float fields are 20 columns wide, labels 8 and atom indices 10.
 */
module Writer {
  import opened Wrappers
  import opened Text
  import opened Integers
  import opened Structure

  const TitleWidth: nat := 72
  const IntWidth: nat := 10
  const SymbolWidth: nat := 8

  /** The periodicity indicator written: 3 for a fully periodic structure, otherwise 0. */
  function Imcon(pbc: (bool, bool, bool)): (imcon: int)
    ensures imcon > 0 <==> FullyPeriodic(pbc)
    ensures imcon == 0 || imcon == 3
  {
    if FullyPeriodic(pbc) then 3 else 0
  }

  /** `{:10d}` */
  function IntField(n: int): string {
    PadLeft(FormatInt(n), IntWidth)
  }

  /** `{:20.10f}` */
  function FloatField(v: real, nf: NumberFormat): string {
    PadLeft(nf.render(v), FloatWidth)
  }

  /** Three float fields on one line: a cell row, position, velocity or force. */
  function VectorLine(v: Vec3, nf: NumberFormat): string {
    FloatField(v.x, nf) + FloatField(v.y, nf) + FloatField(v.z, nf)
  }

  function HeaderLine(levcfg: int, imcon: int, natoms: nat): string {
    IntField(levcfg) + IntField(imcon) + IntField(natoms)
  }

  /** The symbol left-justified in 8 columns, then the 1-based atom index. */
  function LabelLine(symbol: string, index: int): string {
    PadRight(symbol, SymbolWidth) + IntField(index)
  }

  /** The velocity written for atom `i`: zeros when the structure has no velocities. */
  function VelocityOf(a: Atoms, i: nat): Vec3
    requires WellFormed(a) && i < |a.symbols|
  {
    match a.velocities
    case None => Zero
    case Some(vs) => vs[i]
  }

  /** The force written for atom `i`: zeros when the structure has no forces. */
  function ForceOf(a: Atoms, i: nat): Vec3
    requires WellFormed(a) && i < |a.symbols|
  {
    match a.forces
    case None => Zero
    case Some(fs) => fs[i]
  }

  /** The velocity line of every atom, in order. */
  function WrittenVelocities(a: Atoms): (r: seq<Vec3>)
    requires WellFormed(a)
    ensures |r| == |a.symbols|
    ensures forall i :: 0 <= i < |a.symbols| ==> r[i] == VelocityOf(a, i)
  {
    seq(|a.symbols|, i requires 0 <= i < |a.symbols| => VelocityOf(a, i))
  }

  /** The force line of every atom, in order. */
  function WrittenForces(a: Atoms): (r: seq<Vec3>)
    requires WellFormed(a)
    ensures |r| == |a.symbols|
    ensures forall i :: 0 <= i < |a.symbols| ==> r[i] == ForceOf(a, i)
  {
    seq(|a.symbols|, i requires 0 <= i < |a.symbols| => ForceOf(a, i))
  }

  /** The record of atom `i`: label, position, then velocity and force as `levcfg` asks. */
  function AtomLines(a: Atoms, i: nat, levcfg: int, nf: NumberFormat): (r: seq<string>)
    requires WellFormed(a) && i < |a.symbols|
    ensures |r| == RecordLength(levcfg)
  {
    [LabelLine(a.symbols[i], i + 1), VectorLine(a.positions[i], nf)]
    + (if levcfg > 0 then [VectorLine(VelocityOf(a, i), nf)] else [])
    + (if levcfg > 1 then [VectorLine(ForceOf(a, i), nf)] else [])
  }

  /** The records of atoms `from`, `from + 1`, ..., in stored order. */
  function AtomBlock(a: Atoms, levcfg: int, nf: NumberFormat, from: nat): (r: seq<string>)
    requires WellFormed(a) && from <= |a.symbols|
    ensures |r| == (|a.symbols| - from) * RecordLength(levcfg)
    decreases |a.symbols| - from
  {
    if from == |a.symbols| then []
    else
      var L := RecordLength(levcfg);
      MultiplyStep(|a.symbols| - from, L);
      AtomLines(a, from, levcfg, nf) + AtomBlock(a, levcfg, nf, from + 1)
  }

  /** The cell rows, one line each. */
  function CellLines(rows: seq<Vec3>, nf: NumberFormat): (r: seq<string>)
    ensures |r| == |rows|
  {
    if |rows| == 0 then [] else [VectorLine(rows[0], nf)] + CellLines(rows[1..], nf)
  }

  /** The lines of the CONFIG file for `a`. */
  function Write(a: Atoms, levcfg: int, title: string, nf: NumberFormat): seq<string>
    requires WellFormed(a)
  {
    var imcon := Imcon(a.pbc);
    [PadRight(title, TitleWidth), HeaderLine(levcfg, imcon, |a.symbols|)]
    + (if imcon > 0 then CellLines(a.cell, nf) else [])
    + AtomBlock(a, levcfg, nf, 0)
  }

  /**
   The file has the title and header lines, the cell block exactly when all
   three axes are periodic, and `RecordLength(levcfg)` lines per atom; the
   title is padded to at least 72 columns and never cut.
   */
  lemma WriteLayout(a: Atoms, levcfg: int, title: string, nf: NumberFormat)
    requires WellFormed(a)
    ensures var lines := Write(a, levcfg, title, nf);
            && |lines| == 2 + CellLength(Imcon(a.pbc)) + |a.symbols| * RecordLength(levcfg)
            && |lines[0]| >= TitleWidth && |lines[0]| >= |title| && lines[0][..|title|] == title
  {
  }
}
