/**
 The data the CONFIG reader produces and the writer consumes: an atomic
 structure (symbols, positions, cell, periodicity, optional velocities and
 forces), the numeric codec the format's float fields go through, the record
 layout chosen by the level-of-detail flag, and the errors a read can raise.
 */
module Structure {
  import opened Wrappers
  import opened Text

  /** A 3-vector: a position, velocity, force or cell row. */
  datatype Vec3 = Vec3(x: real, y: real, z: real)

  const Zero: Vec3 := Vec3(0.0, 0.0, 0.0)

  /** The all-zero 3x3 cell a non-periodic read produces. */
  const ZeroCell: seq<Vec3> := [Zero, Zero, Zero]

  /**
   An atomic structure. `pbc` holds one periodicity flag per axis. `velocities`
   and `forces` are `None` when the structure carries none.
   */
  datatype Atoms = Atoms(
    symbols: seq<string>,
    positions: seq<Vec3>,
    cell: seq<Vec3>,
    pbc: (bool, bool, bool),
    velocities: Option<seq<Vec3>>,
    forces: Option<seq<Vec3>>)

  /** One entry per atom in every per-atom array, and three cell rows. */
  predicate WellFormed(a: Atoms) {
    && |a.positions| == |a.symbols|
    && |a.cell| == 3
    && (a.velocities.Some? ==> |a.velocities.value| == |a.symbols|)
    && (a.forces.Some? ==> |a.forces.value| == |a.symbols|)
  }

  /** All three axes periodic: the only periodicity the format can express. */
  predicate FullyPeriodic(pbc: (bool, bool, bool)) {
    pbc.0 && pbc.1 && pbc.2
  }

  /**
   How float fields become text and back: `render` is the fixed-precision
   rendering (`%.10f`, before padding), `parse` is Python's `float()`.
   */
  datatype NumberFormat = NumberFormat(parse: string -> Option<real>, render: real -> string)

  /** Width of every float field written. */
  const FloatWidth: nat := 20

  /**
   A value whose rendering is one token that leaves the padded field a leading
   blank and parses back.
   */
  predicate Fits(nf: NumberFormat, v: real) {
    && IsToken(nf.render(v))
    && |nf.render(v)| < FloatWidth
    && nf.parse(nf.render(v)).Some?
  }

  predicate FitsVec(nf: NumberFormat, v: Vec3) {
    Fits(nf, v.x) && Fits(nf, v.y) && Fits(nf, v.z)
  }

  /** The value a field holds after being written and read back. */
  function Reread(nf: NumberFormat, v: real): real {
    nf.parse(nf.render(v)).GetOr(v)
  }

  function RereadVec(nf: NumberFormat, v: Vec3): Vec3 {
    Vec3(Reread(nf, v.x), Reread(nf, v.y), Reread(nf, v.z))
  }

  /** Every vector of `vs`, reread. */
  function RereadAll(nf: NumberFormat, vs: seq<Vec3>): (r: seq<Vec3>)
    ensures |r| == |vs|
    ensures forall i :: 0 <= i < |vs| ==> r[i] == RereadVec(nf, vs[i])
  {
    seq(|vs|, i requires 0 <= i < |vs| => RereadVec(nf, vs[i]))
  }

  /**
   Lines per atom record for a level-of-detail flag: label and position, plus
   a velocity line when it is positive, plus a force line when it exceeds one.
   */
  function RecordLength(levcfg: int): (n: nat)
    ensures 2 <= n <= 4
    ensures n == 2 <==> levcfg <= 0
    ensures n == 4 <==> levcfg > 1
  {
    2 + (if levcfg > 0 then 1 else 0) + (if levcfg > 1 then 1 else 0)
  }

  /** Lines the cell block takes for a periodicity indicator. */
  function CellLength(imcon: int): nat {
    if imcon > 0 then 3 else 0
  }

  /** What a read can raise, one constructor per distinct Python failure. */
  datatype Error =
    | HeaderMissingField  // IndexError: the header line has too few tokens
    | HeaderNotInteger    // ValueError from int() on a header token
    | CellRowTooShort     // IndexError: a cell row has fewer than 3 tokens (not caught)
    | CellNotNumeric      // RuntimeError "error reading cell"
    | LabelLineBlank      // IndexError: a label line with no token
    | TooFewValues        // ValueError: fewer than 3 values to unpack
    | NotAFloat           // ValueError from float() on a coordinate

  /** One more record of `L` lines: the product steps by `L`. */
  lemma MultiplyStep(k: nat, L: nat)
    requires k > 0
    ensures (k - 1) * L + L == k * L
    ensures (k - 1) * L >= 0
  {
  }
}
