/**
 The CONFIG reader. A file is the sequence of its lines; reading past the last
 line is end of stream, which is distinct from reading a blank line.

 Layout: a title line (ignored); a header `levcfg imcon`; when `imcon > 0`
 three cell rows; then atom records until end of stream, each a label line, a
 position line, a velocity line when `levcfg > 0` and a force line when
 `levcfg > 1`.
 */
module Reader {
  import opened Wrappers
  import opened Text
  import opened Integers
  import opened Symbols
  import opened Structure

  /** The tokens of line `i` of `s`, or none when that read is at end of stream. */
  function Tokens(s: seq<string>, i: nat): seq<string> {
    if i < |s| then Split(s[i]) else []
  }

  datatype Header = Header(levcfg: int, imcon: int)

  /** The header line: two integers, parsed in order; extra tokens are ignored. */
  function ReadHeader(toks: seq<string>): (r: Result<Header, Error>)
    ensures r.Ok? <==> |toks| >= 2 && ParseInt(toks[0]).Some? && ParseInt(toks[1]).Some?
    ensures r.Ok? ==> r.value == Header(ParseInt(toks[0]).value, ParseInt(toks[1]).value)
    ensures r == Err(HeaderMissingField) <==> |toks| == 0 || (|toks| == 1 && ParseInt(toks[0]).Some?)
    ensures r.Err? ==> r.error == HeaderMissingField || r.error == HeaderNotInteger
  {
    if |toks| == 0 then Err(HeaderMissingField)
    else match ParseInt(toks[0])
      case None => Err(HeaderNotInteger)
      case Some(levcfg) =>
        if |toks| == 1 then Err(HeaderMissingField)
        else match ParseInt(toks[1])
          case None => Err(HeaderNotInteger)
          case Some(imcon) => Ok(Header(levcfg, imcon))
  }

  /** Entry `i` of a cell row: a missing entry is an uncaught index error. */
  function CellField(toks: seq<string>, i: nat, nf: NumberFormat): Result<real, Error> {
    if i >= |toks| then Err(CellRowTooShort)
    else match nf.parse(toks[i])
      case None => Err(CellNotNumeric)
      case Some(v) => Ok(v)
  }

  /**
   One cell row: entries 0, 1, 2 in order. The first bad entry decides the
   error: "error reading cell" when it is present but not a number.
   */
  function ReadCellRow(toks: seq<string>, nf: NumberFormat): (r: Result<Vec3, Error>)
    ensures r.Ok? <==> |toks| >= 3 && forall i :: 0 <= i < 3 ==> nf.parse(toks[i]).Some?
    ensures r.Ok? ==> r.value == Vec3(nf.parse(toks[0]).value, nf.parse(toks[1]).value, nf.parse(toks[2]).value)
    ensures r.Err? ==> r.error == CellNotNumeric || r.error == CellRowTooShort
  {
    var x :- CellField(toks, 0, nf);
    var y :- CellField(toks, 1, nf);
    var z :- CellField(toks, 2, nf);
    Ok(Vec3(x, y, z))
  }

  /**
   A row fails with "error reading cell" exactly when its first bad entry is
   present but not a number; when that entry is missing it is an index error.
   */
  lemma CellRowError(toks: seq<string>, nf: NumberFormat)
    ensures ReadCellRow(toks, nf) == Err(CellNotNumeric) <==>
              exists k :: 0 <= k < 3 && k < |toks| && nf.parse(toks[k]).None?
                          && forall i :: 0 <= i < k ==> nf.parse(toks[i]).Some?
  {
    if |toks| > 0 && nf.parse(toks[0]).None? {
      assert ReadCellRow(toks, nf) == Err(CellNotNumeric);
    } else if |toks| > 1 && nf.parse(toks[0]).Some? && nf.parse(toks[1]).None? {
      assert ReadCellRow(toks, nf) == Err(CellNotNumeric);
    } else if |toks| > 2 && nf.parse(toks[0]).Some? && nf.parse(toks[1]).Some? && nf.parse(toks[2]).None? {
      assert ReadCellRow(toks, nf) == Err(CellNotNumeric);
    }
  }

  /** Reading from the rest of a stream is reading one line further on. */
  lemma TokensRest(s: seq<string>, j: nat)
    requires |s| > 0
    ensures Tokens(s[1..], j) == Tokens(s, j + 1)
  {
  }

  /** `k` cell rows from the front of `s`, each from its own line. */
  function ReadRows(s: seq<string>, k: nat, nf: NumberFormat): (r: Result<seq<Vec3>, Error>)
    ensures r.Ok? ==> |s| >= k && |r.value| == k
    ensures r.Ok? ==> forall j :: 0 <= j < k ==> ReadCellRow(Tokens(s, j), nf) == Ok(r.value[j])
    decreases k
  {
    if k == 0 then Ok([])
    else
      var row :- ReadCellRow(Tokens(s, 0), nf);
      var rest :- ReadRows(s[1..], k - 1, nf);
      assert forall j :: 1 <= j < k ==> Tokens(s, j) == Tokens(s[1..], j - 1);
      Ok([row] + rest)
  }

  lemma ReadRowsStep(s: seq<string>, k: nat, nf: NumberFormat, row: Vec3, rest: seq<Vec3>)
    requires k > 0
    requires ReadCellRow(Tokens(s, 0), nf) == Ok(row)
    requires ReadRows(s[1..], k - 1, nf) == Ok(rest)
    ensures ReadRows(s, k, nf) == Ok([row] + rest)
  {
  }

  /** Row `j` of `s` is a well-formed cell row. */
  predicate RowOk(s: seq<string>, j: nat, nf: NumberFormat) {
    ReadCellRow(Tokens(s, j), nf).Ok?
  }

  /** Reading the rows succeeds exactly when every row is well-formed. */
  lemma {:induction false} ReadRowsOk(s: seq<string>, k: nat, nf: NumberFormat)
    ensures ReadRows(s, k, nf).Ok? <==> forall j :: 0 <= j < k ==> RowOk(s, j, nf)
    decreases k
  {
    if k > 0 && RowOk(s, 0, nf) {
      assert ReadRows(s, k, nf).Ok? <==> ReadRows(s[1..], k - 1, nf).Ok?;
      ReadRowsOk(s[1..], k - 1, nf);
      RowsOkShift(s, k, nf);
    }
  }

  /** Rows of the rest of the stream are the rows after row 0. */
  lemma RowsOkShift(s: seq<string>, k: nat, nf: NumberFormat)
    requires |s| > 0 && k > 0 && RowOk(s, 0, nf)
    ensures (forall j :: 0 <= j < k - 1 ==> RowOk(s[1..], j, nf)) <==> (forall j :: 0 <= j < k ==> RowOk(s, j, nf))
  {
    forall j | 0 <= j < k - 1
      ensures RowOk(s[1..], j, nf) == RowOk(s, j + 1, nf)
    {
      TokensRest(s, j);
    }
    if forall j :: 0 <= j < k - 1 ==> RowOk(s[1..], j, nf) {
      forall j | 0 <= j < k
        ensures RowOk(s, j, nf)
      {
        if j > 0 {
          assert RowOk(s[1..], j - 1, nf);
        }
      }
    }
  }

  /** A failed read of the rows carries the error of the first bad row. */
  lemma {:induction false} ReadRowsFirstError(s: seq<string>, k: nat, nf: NumberFormat)
    requires ReadRows(s, k, nf).Err?
    ensures exists j :: 0 <= j < k && ReadCellRow(Tokens(s, j), nf) == Err(ReadRows(s, k, nf).error)
                        && forall i :: 0 <= i < j ==> RowOk(s, i, nf)
    decreases k
  {
    var e := ReadRows(s, k, nf).error;
    if RowOk(s, 0, nf) {
      assert ReadRows(s[1..], k - 1, nf) == Err(e);
      ReadRowsFirstError(s[1..], k - 1, nf);
      var j :| 0 <= j < k - 1 && ReadCellRow(Tokens(s[1..], j), nf) == Err(e)
               && forall i :: 0 <= i < j ==> RowOk(s[1..], i, nf);
      FirstErrorShifts(s, j, nf, e);
    } else {
      assert ReadCellRow(Tokens(s, 0), nf) == Err(e);
    }
  }

  /** A first bad row of the rest of the stream is the first bad row after row 0. */
  lemma FirstErrorShifts(s: seq<string>, j: nat, nf: NumberFormat, e: Error)
    requires |s| > 0 && RowOk(s, 0, nf)
    requires ReadCellRow(Tokens(s[1..], j), nf) == Err(e)
    requires forall i :: 0 <= i < j ==> RowOk(s[1..], i, nf)
    ensures ReadCellRow(Tokens(s, j + 1), nf) == Err(e)
    ensures forall i :: 0 <= i < j + 1 ==> RowOk(s, i, nf)
  {
    TokensRest(s, j);
    forall i | 1 <= i < j + 1
      ensures RowOk(s, i, nf)
    {
      TokensRest(s, i - 1);
      assert RowOk(s[1..], i - 1, nf);
    }
  }

  /** A row that fails after rows that all read is the error of the whole block. */
  lemma {:induction false} ReadRowsFailsAt(s: seq<string>, k: nat, nf: NumberFormat, j: nat)
    requires j < k
    requires forall i :: 0 <= i < j ==> RowOk(s, i, nf)
    requires ReadCellRow(Tokens(s, j), nf).Err?
    ensures ReadRows(s, k, nf) == Err(ReadCellRow(Tokens(s, j), nf).error)
    decreases k
  {
    if j > 0 {
      assert RowOk(s, 0, nf);
      forall i | 0 <= i < j - 1
        ensures RowOk(s[1..], i, nf)
      {
        TokensRest(s, i);
        assert RowOk(s, i + 1, nf);
      }
      TokensRest(s, j - 1);
      ReadRowsFailsAt(s[1..], k - 1, nf, j - 1);
    }
  }

  /** A coordinate field: Python's `float()`. */
  function Coordinate(tok: string, nf: NumberFormat): Result<real, Error> {
    match nf.parse(tok)
    case None => Err(NotAFloat)
    case Some(v) => Ok(v)
  }

  /**
   A position, velocity or force line: its first three tokens (later ones are
   ignored) as floats; fewer than three is an unpacking error.
   */
  function ReadVector(toks: seq<string>, nf: NumberFormat): (r: Result<Vec3, Error>)
    ensures r.Ok? <==> |toks| >= 3 && forall i :: 0 <= i < 3 ==> nf.parse(toks[i]).Some?
    ensures r.Ok? ==> r.value == Vec3(nf.parse(toks[0]).value, nf.parse(toks[1]).value, nf.parse(toks[2]).value)
    ensures r == Err(TooFewValues) <==> |toks| < 3
    ensures r.Err? ==> r.error == TooFewValues || r.error == NotAFloat
  {
    if |toks| < 3 then Err(TooFewValues)
    else
      var x :- Coordinate(toks[0], nf);
      var y :- Coordinate(toks[1], nf);
      var z :- Coordinate(toks[2], nf);
      Ok(Vec3(x, y, z))
  }

  /** The errors an atom record can raise. */
  predicate IsRecordError(e: Error) {
    e == LabelLineBlank || e == TooFewValues || e == NotAFloat
  }

  /** One atom as read: the optional lines are present exactly when the header asks for them. */
  datatype AtomRecord = AtomRecord(symbol: string, position: Vec3, velocity: Option<Vec3>, force: Option<Vec3>)

  function ReadOptional(present: bool, toks: seq<string>, nf: NumberFormat): Result<Option<Vec3>, Error> {
    if present then
      var v :- ReadVector(toks, nf);
      Ok(Some(v))
    else Ok(None)
  }

  /**
   The atom record starting at the front of `s` (whose first line exists). On
   success it occupies `RecordLength(levcfg)` lines, its symbol is a table
   member or "X", and it carries a velocity exactly when `levcfg > 0` and a
   force exactly when `levcfg > 1`.
   */
  function ReadRecord(s: seq<string>, levcfg: int, table: set<string>, nf: NumberFormat): (r: Result<AtomRecord, Error>)
    requires |s| > 0
    ensures r.Ok? ==> |s| >= RecordLength(levcfg)
    ensures r.Ok? ==> r.value.symbol == Unknown || r.value.symbol in table
    ensures r.Ok? ==> (r.value.velocity.Some? <==> levcfg > 0) && (r.value.force.Some? <==> levcfg > 1)
    ensures r.Err? ==> IsRecordError(r.error)
  {
    var labelTokens := Split(s[0]);
    if |labelTokens| == 0 then Err(LabelLineBlank)
    else
      var symbol := Resolve(labelTokens[0], table);
      ResolveIsPrefixOrUnknown(labelTokens[0], table);
      var position :- ReadVector(Tokens(s, 1), nf);
      var velocity :- ReadOptional(levcfg > 0, Tokens(s, 2), nf);
      var force :- ReadOptional(levcfg > 1, Tokens(s, 3), nf);
      Ok(AtomRecord(symbol, position, velocity, force))
  }

  /**
   A record reads exactly when its label line has a token and each of its
   numeric lines holds three numbers; its fields are then the first label
   token, resolved, and the vectors of the numeric lines in order.
   */
  lemma ReadRecordSpec(s: seq<string>, levcfg: int, table: set<string>, nf: NumberFormat)
    requires |s| > 0
    ensures var r := ReadRecord(s, levcfg, table, nf);
            && (r.Ok? <==>
                  && |Split(s[0])| > 0
                  && forall i :: 1 <= i < RecordLength(levcfg) ==> ReadVector(Tokens(s, i), nf).Ok?)
            && (r.Ok? ==>
                  && r.value.symbol == Resolve(Split(s[0])[0], table)
                  && Ok(r.value.position) == ReadVector(Tokens(s, 1), nf)
                  && (levcfg > 0 ==> Ok(r.value.velocity.value) == ReadVector(Tokens(s, 2), nf))
                  && (levcfg > 1 ==> Ok(r.value.force.value) == ReadVector(Tokens(s, 3), nf)))
  {
    ReadRecordOk(s, levcfg, table, nf);
    NumericLinesOk(s, levcfg, nf);
    if ReadRecord(s, levcfg, table, nf).Ok? {
      ReadRecordFields(s, levcfg, table, nf);
    }
  }

  lemma ReadRecordOk(s: seq<string>, levcfg: int, table: set<string>, nf: NumberFormat)
    requires |s| > 0
    ensures ReadRecord(s, levcfg, table, nf).Ok? <==>
              && |Split(s[0])| > 0
              && ReadVector(Tokens(s, 1), nf).Ok?
              && (levcfg > 0 ==> ReadVector(Tokens(s, 2), nf).Ok?)
              && (levcfg > 1 ==> ReadVector(Tokens(s, 3), nf).Ok?)
  {
  }

  lemma NumericLinesOk(s: seq<string>, levcfg: int, nf: NumberFormat)
    ensures (forall i :: 1 <= i < RecordLength(levcfg) ==> ReadVector(Tokens(s, i), nf).Ok?) <==>
              && ReadVector(Tokens(s, 1), nf).Ok?
              && (levcfg > 0 ==> ReadVector(Tokens(s, 2), nf).Ok?)
              && (levcfg > 1 ==> ReadVector(Tokens(s, 3), nf).Ok?)
  {
  }

  lemma ReadRecordFields(s: seq<string>, levcfg: int, table: set<string>, nf: NumberFormat)
    requires |s| > 0 && ReadRecord(s, levcfg, table, nf).Ok?
    ensures var r := ReadRecord(s, levcfg, table, nf).value;
            && r.symbol == Resolve(Split(s[0])[0], table)
            && Ok(r.position) == ReadVector(Tokens(s, 1), nf)
            && (levcfg > 0 ==> Ok(r.velocity.value) == ReadVector(Tokens(s, 2), nf))
            && (levcfg > 1 ==> Ok(r.force.value) == ReadVector(Tokens(s, 3), nf))
  {
  }

  /**
   Atom records until end of stream. Every record resolves its symbol to a
   table member or "X" and carries the optional lines the header asks for.
   */
  function ReadRecords(s: seq<string>, levcfg: int, table: set<string>, nf: NumberFormat): (r: Result<seq<AtomRecord>, Error>)
    ensures r.Ok? ==> |s| == |r.value| * RecordLength(levcfg)
    ensures r.Ok? ==>
              forall k :: 0 <= k < |r.value| ==>
                && (r.value[k].symbol == Unknown || r.value[k].symbol in table)
                && (r.value[k].velocity.Some? <==> levcfg > 0)
                && (r.value[k].force.Some? <==> levcfg > 1)
    ensures r.Err? ==> IsRecordError(r.error)
    decreases |s|
  {
    if |s| == 0 then Ok([])
    else
      var record :- ReadRecord(s, levcfg, table, nf);
      var tail :- ReadRecords(s[RecordLength(levcfg)..], levcfg, table, nf);
      MultiplyStep(|tail| + 1, RecordLength(levcfg));
      Ok([record] + tail)
  }

  /** The loop step: a record followed by records reads as the list of both. */
  lemma ReadRecordsStep(s: seq<string>, levcfg: int, table: set<string>, nf: NumberFormat, first: AtomRecord, others: seq<AtomRecord>)
    requires |s| > 0
    requires ReadRecord(s, levcfg, table, nf) == Ok(first)
    requires ReadRecords(s[RecordLength(levcfg)..], levcfg, table, nf) == Ok(others)
    ensures ReadRecords(s, levcfg, table, nf) == Ok([first] + others)
  {
  }

  /** Reading past a prefix of the stream leaves what follows it. */
  lemma DropAppend(x: seq<string>, y: seq<string>)
    ensures (x + y)[|x|..] == y
  {
  }

  lemma DropDrop(s: seq<string>, a: nat, b: nat)
    requires a + b <= |s|
    ensures s[a..][b..] == s[a + b..]
  {
  }

  /** A successful read of the records reads the first record and then the rest. */
  lemma ReadRecordsUncons(s: seq<string>, levcfg: int, table: set<string>, nf: NumberFormat)
    requires |s| > 0 && ReadRecords(s, levcfg, table, nf).Ok?
    ensures var rs := ReadRecords(s, levcfg, table, nf).value;
            && |rs| > 0
            && ReadRecord(s, levcfg, table, nf) == Ok(rs[0])
            && ReadRecords(s[RecordLength(levcfg)..], levcfg, table, nf) == Ok(rs[1..])
  {
  }

  /**
   A successful read of the records tiles the stream: record `k` is the one
   read from line `k * RecordLength(levcfg)`, and the loop stops only at end of
   stream on a record boundary.
   */
  lemma {:induction false} ReadRecordsTiles(s: seq<string>, levcfg: int, table: set<string>, nf: NumberFormat, k: nat)
    requires ReadRecords(s, levcfg, table, nf).Ok?
    requires k < |ReadRecords(s, levcfg, table, nf).value|
    ensures k * RecordLength(levcfg) < |s|
    ensures ReadRecord(s[k * RecordLength(levcfg)..], levcfg, table, nf) == Ok(ReadRecords(s, levcfg, table, nf).value[k])
    decreases |s|
  {
    var L := RecordLength(levcfg);
    assert |s| > 0;
    ReadRecordsUncons(s, levcfg, table, nf);
    if k > 0 {
      ReadRecordsTiles(s[L..], levcfg, table, nf, k - 1);
      MultiplyStep(k, L);
      var before: nat := (k - 1) * L;
      DropDrop(s, L, before);
    }
  }

  /** Record `k` of `s` starts inside the stream and reads. */
  predicate RecordOkAt(s: seq<string>, levcfg: int, table: set<string>, nf: NumberFormat, k: nat) {
    k * RecordLength(levcfg) < |s| && ReadRecord(s[k * RecordLength(levcfg)..], levcfg, table, nf).Ok?
  }

  /** Record `k` after the first record is record `k + 1`. */
  lemma RecordAtShift(s: seq<string>, levcfg: int, table: set<string>, nf: NumberFormat, k: nat)
    requires RecordLength(levcfg) <= |s|
    ensures var L := RecordLength(levcfg);
            && (k * L < |s[L..]| <==> (k + 1) * L < |s|)
            && ((k + 1) * L < |s| ==> s[L..][k * L..] == s[(k + 1) * L..])
            && (RecordOkAt(s[L..], levcfg, table, nf, k) <==> RecordOkAt(s, levcfg, table, nf, k + 1))
  {
    var L := RecordLength(levcfg);
    MultiplyStep(k + 1, L);
    if (k + 1) * L < |s| {
      DropDrop(s, L, k * L);
    }
  }

  /** Records of the rest of the stream are the records after record 0. */
  lemma RecordsOkShift(s: seq<string>, levcfg: int, table: set<string>, nf: NumberFormat, n: nat)
    requires n > 0 && RecordOkAt(s, levcfg, table, nf, 0)
    ensures (forall k :: 0 <= k < n - 1 ==> RecordOkAt(s[RecordLength(levcfg)..], levcfg, table, nf, k))
            <==> (forall k :: 0 <= k < n ==> RecordOkAt(s, levcfg, table, nf, k))
  {
    var L := RecordLength(levcfg);
    assert s[0 * L..] == s;
    forall k | 0 <= k < n - 1
      ensures RecordOkAt(s[L..], levcfg, table, nf, k) == RecordOkAt(s, levcfg, table, nf, k + 1)
    {
      RecordAtShift(s, levcfg, table, nf, k);
    }
    if forall k :: 0 <= k < n - 1 ==> RecordOkAt(s[L..], levcfg, table, nf, k) {
      forall k | 0 <= k < n
        ensures RecordOkAt(s, levcfg, table, nf, k)
      {
        if k > 0 {
          assert RecordOkAt(s[L..], levcfg, table, nf, k - 1);
        }
      }
    }
  }

  /**
   A stream of `n` records' worth of lines reads exactly when every one of its
   `n` records reads.
   */
  lemma {:induction false} ReadRecordsOk(s: seq<string>, levcfg: int, table: set<string>, nf: NumberFormat, n: nat)
    requires |s| == n * RecordLength(levcfg)
    ensures ReadRecords(s, levcfg, table, nf).Ok? <==> forall k :: 0 <= k < n ==> RecordOkAt(s, levcfg, table, nf, k)
    decreases n
  {
    var L := RecordLength(levcfg);
    if n > 0 {
      MultiplyStep(n, L);
      assert s[0 * L..] == s;
      if RecordOkAt(s, levcfg, table, nf, 0) {
        assert |s[L..]| == (n - 1) * L;
        ReadRecordsOk(s[L..], levcfg, table, nf, n - 1);
        RecordsOkShift(s, levcfg, table, nf, n);
      }
    }
  }

  /** A record that fails after records that all read is the error of the whole section. */
  lemma {:induction false} ReadRecordsFailsAt(s: seq<string>, levcfg: int, table: set<string>, nf: NumberFormat, k: nat)
    requires k * RecordLength(levcfg) < |s|
    requires forall i :: 0 <= i < k ==> RecordOkAt(s, levcfg, table, nf, i)
    requires ReadRecord(s[k * RecordLength(levcfg)..], levcfg, table, nf).Err?
    ensures ReadRecords(s, levcfg, table, nf) == Err(ReadRecord(s[k * RecordLength(levcfg)..], levcfg, table, nf).error)
    decreases k
  {
    var L := RecordLength(levcfg);
    assert s[0 * L..] == s;
    if k > 0 {
      assert RecordOkAt(s, levcfg, table, nf, 0);
      RecordAtShift(s, levcfg, table, nf, k - 1);
      forall i | 0 <= i < k - 1
        ensures RecordOkAt(s[L..], levcfg, table, nf, i)
      {
        RecordAtShift(s, levcfg, table, nf, i);
      }
      ReadRecordsFailsAt(s[L..], levcfg, table, nf, k - 1);
    }
  }

  /** A failed read of the records carries the error of the first record that fails. */
  lemma {:induction false} ReadRecordsFirstError(s: seq<string>, levcfg: int, table: set<string>, nf: NumberFormat)
    requires ReadRecords(s, levcfg, table, nf).Err?
    ensures exists k: nat :: && k * RecordLength(levcfg) < |s|
                             && (forall i :: 0 <= i < k ==> RecordOkAt(s, levcfg, table, nf, i))
                             && ReadRecord(s[k * RecordLength(levcfg)..], levcfg, table, nf) == Err(ReadRecords(s, levcfg, table, nf).error)
    decreases |s|
  {
    var L := RecordLength(levcfg);
    var e := ReadRecords(s, levcfg, table, nf).error;
    assert s[0 * L..] == s;
    if ReadRecord(s, levcfg, table, nf).Ok? {
      assert ReadRecords(s[L..], levcfg, table, nf) == Err(e);
      ReadRecordsFirstError(s[L..], levcfg, table, nf);
      var k: nat :| && k * L < |s[L..]|
                    && (forall i :: 0 <= i < k ==> RecordOkAt(s[L..], levcfg, table, nf, i))
                    && ReadRecord(s[L..][k * L..], levcfg, table, nf) == Err(e);
      RecordAtShift(s, levcfg, table, nf, k);
      assert RecordOkAt(s, levcfg, table, nf, 0);
      forall i | 0 <= i < k + 1
        ensures RecordOkAt(s, levcfg, table, nf, i)
      {
        if i > 0 {
          RecordAtShift(s, levcfg, table, nf, i - 1);
        }
      }
      assert ReadRecord(s[(k + 1) * L..], levcfg, table, nf) == Err(e);
    } else {
      assert ReadRecord(s[0 * L..], levcfg, table, nf) == Err(e);
    }
  }

  /** The per-atom columns of a list of records. */
  function SymbolsOf(rs: seq<AtomRecord>): seq<string> {
    seq(|rs|, k requires 0 <= k < |rs| => rs[k].symbol)
  }

  function PositionsOf(rs: seq<AtomRecord>): seq<Vec3> {
    seq(|rs|, k requires 0 <= k < |rs| => rs[k].position)
  }

  function VelocitiesOf(rs: seq<AtomRecord>): seq<Vec3> {
    seq(|rs|, k requires 0 <= k < |rs| => rs[k].velocity.GetOr(Zero))
  }

  function ForcesOf(rs: seq<AtomRecord>): seq<Vec3> {
    seq(|rs|, k requires 0 <= k < |rs| => rs[k].force.GetOr(Zero))
  }

  /** A read whose header, cell block and atom records each succeed assembles them. */
  lemma ReadParts(lines: seq<string>, table: set<string>, nf: NumberFormat, h: Header, cell: seq<Vec3>, records: seq<AtomRecord>)
    requires |lines| >= 2
    requires ReadHeader(Tokens(lines, 1)) == Ok(h)
    requires h.imcon > 0 ==> ReadRows(lines[2..], 3, nf) == Ok(cell)
    requires h.imcon <= 0 ==> cell == ZeroCell
    requires ReadRecords(lines[2..][CellLength(h.imcon)..], h.levcfg, table, nf) == Ok(records)
    ensures Read(lines, table, nf) == Ok(Atoms(
              SymbolsOf(records),
              PositionsOf(records),
              cell,
              (h.imcon > 0, h.imcon > 0, h.imcon > 0),
              if h.levcfg > 0 then Some(VelocitiesOf(records)) else None,
              if h.levcfg > 1 then Some(ForcesOf(records)) else None))
  {
  }

  /** The header a successful read must have parsed: line 1, after the title. */
  function HeaderOf(lines: seq<string>): (r: Result<Header, Error>)
    ensures r.Ok? ==> |lines| >= 2
  {
    ReadHeader(Tokens(lines, 1))
  }

  /** The cell: three rows after the header when `imcon > 0`, the zero matrix otherwise. */
  function CellOf(lines: seq<string>, h: Header, nf: NumberFormat): Result<seq<Vec3>, Error>
    requires |lines| >= 2
  {
    if h.imcon > 0 then ReadRows(lines[2..], 3, nf) else Ok(ZeroCell)
  }

  /** The lines after the header and the cell block: the atom records. */
  function AtomSection(lines: seq<string>, h: Header): seq<string>
    requires |lines| >= 2
  {
    var body := lines[2..];
    if CellLength(h.imcon) <= |body| then body[CellLength(h.imcon)..] else []
  }

  /**
   Read a CONFIG file. The title line is read and discarded; the cell is the
   zero matrix unless `imcon > 0`; velocities are attached only when
   `levcfg > 0` and forces only when `levcfg > 1`. A successful read consumes
   every line: the header, the cell block, and whole atom records up to end of
   stream. The final read the source makes after its loop happens at end of
   stream and so consumes nothing. The first part that fails (header, cell,
   records) is the error of the whole read.
   */
  function Read(lines: seq<string>, table: set<string>, nf: NumberFormat): (r: Result<Atoms, Error>)
    ensures HeaderOf(lines).Err? ==> r == Err(HeaderOf(lines).error)
    ensures HeaderOf(lines).Ok? && CellOf(lines, HeaderOf(lines).value, nf).Err? ==>
              r == Err(CellOf(lines, HeaderOf(lines).value, nf).error)
    ensures HeaderOf(lines).Ok? && CellOf(lines, HeaderOf(lines).value, nf).Ok? ==>
              var h := HeaderOf(lines).value;
              var records := ReadRecords(AtomSection(lines, h), h.levcfg, table, nf);
              records.Err? ==> r == Err(records.error)
    ensures r.Ok? ==>
              && HeaderOf(lines).Ok?
              && var h := HeaderOf(lines).value;
              && var records := ReadRecords(AtomSection(lines, h), h.levcfg, table, nf);
              && CellOf(lines, h, nf) == Ok(r.value.cell)
              && records.Ok?
              && r.value.symbols == SymbolsOf(records.value)
              && r.value.positions == PositionsOf(records.value)
              && r.value.velocities == (if h.levcfg > 0 then Some(VelocitiesOf(records.value)) else None)
              && r.value.forces == (if h.levcfg > 1 then Some(ForcesOf(records.value)) else None)
    ensures r.Ok? ==> WellFormed(r.value)
    ensures r.Ok? ==>
              var h := HeaderOf(lines).value;
              && r.value.pbc == (h.imcon > 0, h.imcon > 0, h.imcon > 0)
              && (h.imcon <= 0 ==> r.value.cell == ZeroCell)
              && |lines| == 2 + CellLength(h.imcon) + |r.value.symbols| * RecordLength(h.levcfg)
    ensures r.Ok? ==>
              forall k :: 0 <= k < |r.value.symbols| ==> r.value.symbols[k] == Unknown || r.value.symbols[k] in table
    ensures r == Err(CellNotNumeric) ==> HeaderOf(lines).Ok? && HeaderOf(lines).value.imcon > 0
  {
    var header :- HeaderOf(lines);
    var cell :- CellOf(lines, header, nf);
    var records :- ReadRecords(AtomSection(lines, header), header.levcfg, table, nf);
    var periodic := header.imcon > 0;
    Ok(Atoms(
      SymbolsOf(records),
      PositionsOf(records),
      cell,
      (periodic, periodic, periodic),
      if header.levcfg > 0 then Some(VelocitiesOf(records)) else None,
      if header.levcfg > 1 then Some(ForcesOf(records)) else None))
  }

  /**
   A cell entry that is not a number fails the whole read with "error reading
   cell", provided the rows before it and the entries before it in its row are
   numbers: `j` is the row, `i` the entry.
   */
  lemma NonNumericCellFailsRead(lines: seq<string>, table: set<string>, nf: NumberFormat, j: nat, i: nat)
    requires HeaderOf(lines).Ok? && HeaderOf(lines).value.imcon > 0
    requires j < 3 && forall r :: 0 <= r < j ==> RowOk(lines[2..], r, nf)
    requires var toks := Tokens(lines[2..], j);
             && i < 3 && i < |toks| && nf.parse(toks[i]).None?
             && forall m :: 0 <= m < i ==> nf.parse(toks[m]).Some?
    ensures Read(lines, table, nf) == Err(CellNotNumeric)
  {
    var toks := Tokens(lines[2..], j);
    CellRowError(toks, nf);
    ReadRowsFailsAt(lines[2..], 3, nf, j);
  }

  /**
   Once the header and the cell read, the first atom record that fails is the
   error of the whole read.
   */
  lemma RecordErrorFailsRead(lines: seq<string>, table: set<string>, nf: NumberFormat, k: nat)
    requires HeaderOf(lines).Ok? && CellOf(lines, HeaderOf(lines).value, nf).Ok?
    requires var h := HeaderOf(lines).value;
             var s := AtomSection(lines, h);
             && k * RecordLength(h.levcfg) < |s|
             && (forall i :: 0 <= i < k ==> RecordOkAt(s, h.levcfg, table, nf, i))
             && ReadRecord(s[k * RecordLength(h.levcfg)..], h.levcfg, table, nf).Err?
    ensures var h := HeaderOf(lines).value;
            var s := AtomSection(lines, h);
            Read(lines, table, nf) == Err(ReadRecord(s[k * RecordLength(h.levcfg)..], h.levcfg, table, nf).error)
  {
    var h := HeaderOf(lines).value;
    ReadRecordsFailsAt(AtomSection(lines, h), h.levcfg, table, nf, k);
  }
}
