/**
 Concrete files run through the reader model, and the one way a written line
 stops reading back. Number parsing stays abstract: each scenario states only
 what `float()` does on the tokens it uses. Each file is given as the list
 of its lines.
 */
module Scenarios {
  import opened Wrappers
  import opened Text
  import opened Integers
  import opened Symbols
  import opened Structure
  import opened Reader
  import opened Writer

  /** A token, a blank, then the rest: the token comes first. */
  lemma TokenThen(a: string, m: string)
    requires IsToken(a)
    ensures Split(a + " " + m) == [a] + Split(m)
  {
    var rest := " " + m;
    assert a + " " + m == a + rest;
    SplitAppend(a, rest);
    SplitToken(a);
    assert rest[1..] == m;
  }

  lemma TokensOfTwo(a: string, b: string)
    requires IsToken(a) && IsToken(b)
    ensures Split(a + " " + b) == [a, b]
  {
    TokenThen(a, b);
    SplitToken(b);
  }

  /** A line of two tokens separated by the blank at `at`. */
  lemma SplitTwo(line: string, at: nat)
    requires 0 < at < |line| - 1 && line[at] == ' '
    requires IsToken(line[..at]) && IsToken(line[at + 1..])
    ensures Split(line) == [line[..at], line[at + 1..]]
  {
    assert line == line[..at] + " " + line[at + 1..];
    TokensOfTwo(line[..at], line[at + 1..]);
  }

  lemma TokensOfThree(a: string, b: string, c: string)
    requires IsToken(a) && IsToken(b) && IsToken(c)
    ensures Split(a + " " + (b + " " + c)) == [a, b, c]
  {
    TokenThen(a, b + " " + c);
    TokensOfTwo(b, c);
    assert [a] + [b, c] == [a, b, c];
  }

  lemma ParseDigit(s: string)
    requires |s| == 1 && IsDigit(s[0])
    ensures ParseInt(s) == Some(DigitValue(s[0]))
  {
    assert AllDigits(s);
    assert DigitsValue(s[..0]) == 0;
    assert DigitsValue(s) == DigitValue(s[0]);
  }

  lemma HeaderZeroZero(line: string)
    requires line == "0 0"
    ensures ReadHeader(Split(line)) == Ok(Header(0, 0))
  {
    SplitTwo(line, 1);
    ParseDigit(line[..1]);
    ParseDigit(line[2..]);
  }

  lemma HeaderZeroThree(line: string)
    requires line == "0 3"
    ensures ReadHeader(Split(line)) == Ok(Header(0, 3))
  {
    SplitTwo(line, 1);
    ParseDigit(line[..1]);
    ParseDigit(line[2..]);
  }

  lemma ThirdEntryMissing(line: string, nf: NumberFormat)
    requires line == "1.0 1.0" && nf.parse("1.0").Some?
    ensures ReadCellRow(Split(line), nf) == Err(CellRowTooShort)
  {
    SplitTwo(line, 3);
    assert line[..3] == "1.0" && line[4..] == "1.0";
  }

  lemma SecondEntryNotNumeric(line: string, nf: NumberFormat)
    requires line == "1.0 abc 1.0"
    requires nf.parse("1.0").Some? && nf.parse("abc").None?
    ensures ReadCellRow(Split(line), nf) == Err(CellNotNumeric)
  {
    var one, word := line[..3], line[4..7];
    assert one == "1.0" && word == "abc";
    assert line == one + " " + (word + " " + one);
    TokensOfThree(one, word, one);
  }

  lemma OnesVector(line: string, nf: NumberFormat)
    requires line == "1.0 1.0 1.0" && nf.parse("1.0") == Some(1.0)
    ensures ReadVector(Split(line), nf) == Ok(Vec3(1.0, 1.0, 1.0))
  {
    var one := line[..3];
    assert one == "1.0";
    assert line == one + " " + (one + " " + one);
    TokensOfThree(one, one, one);
  }

  lemma SodiumLabel(line: string)
    requires line == "Na1 1"
    ensures |Split(line)| > 0 && Resolve(Split(line)[0], SampleTable) == "N"
  {
    SplitTwo(line, 3);
    assert line[..3] == "Na1";
    SampleResolutions();
  }

  /** A failing cell row is the whole read's error. */
  lemma CellErrorIsReadError(lines: seq<string>, table: set<string>, nf: NumberFormat, h: Header, e: Error)
    requires |lines| >= 3 && ReadHeader(Split(lines[1])) == Ok(h) && h.imcon > 0
    requires ReadCellRow(Split(lines[2]), nf) == Err(e)
    ensures Read(lines, table, nf) == Err(e)
  {
    assert Tokens(lines[2..], 0) == Split(lines[2]);
  }

  /** A header and nothing else is a file with no atoms. */
  lemma HeaderOnlyFile(lines: seq<string>, table: set<string>, nf: NumberFormat)
    requires lines == ["CONFIG", "0 0"]
    ensures Read(lines, table, nf) == Ok(Atoms([], [], ZeroCell, (false, false, false), None, None))
  {
    HeaderZeroZero(lines[1]);
    assert lines[2..][0..] == [];
    ReadParts(lines, table, nf, Header(0, 0), ZeroCell, []);
  }

  /**
   A blank line after the last record is not end of stream: it is read as a
   label line and has no label token.
   */
  lemma TrailingBlankLineFails(lines: seq<string>, table: set<string>, nf: NumberFormat)
    requires lines == ["CONFIG", "0 0", ""]
    ensures Read(lines, table, nf) == Err(LabelLineBlank)
  {
    HeaderZeroZero(lines[1]);
    var body := lines[2..][0..];
    assert |body| == 1 && body[0] == "";
    assert ReadRecord(body, 0, table, nf) == Err(LabelLineBlank);
  }

  /** A cell row with two numbers is an index error, not "error reading cell". */
  lemma ShortCellRowFails(lines: seq<string>, table: set<string>, nf: NumberFormat)
    requires lines == ["CONFIG", "0 3", "1.0 1.0"]
    requires nf.parse("1.0").Some?
    ensures Read(lines, table, nf) == Err(CellRowTooShort)
  {
    HeaderZeroThree(lines[1]);
    ThirdEntryMissing(lines[2], nf);
    CellErrorIsReadError(lines, table, nf, Header(0, 3), CellRowTooShort);
  }

  /** A cell entry that is not a number is "error reading cell". */
  lemma NonNumericCellFails(lines: seq<string>, table: set<string>, nf: NumberFormat)
    requires lines == ["CONFIG", "0 3", "1.0 abc 1.0"]
    requires nf.parse("1.0").Some? && nf.parse("abc").None?
    ensures Read(lines, table, nf) == Err(CellNotNumeric)
  {
    HeaderZeroThree(lines[1]);
    SecondEntryNotNumeric(lines[2], nf);
    CellErrorIsReadError(lines, table, nf, Header(0, 3), CellNotNumeric);
  }

  /** A label line whose record is cut short by end of stream fails on the missing position. */
  lemma TruncatedRecordFails(lines: seq<string>, nf: NumberFormat)
    requires lines == ["CONFIG", "0 0", "Na1 1"]
    ensures Read(lines, SampleTable, nf) == Err(TooFewValues)
  {
    HeaderZeroZero(lines[1]);
    var body := lines[2..][0..];
    assert |body| == 1 && body[0] == "Na1 1";
    SodiumLabel(body[0]);
    assert Tokens(body, 1) == [];
    assert ReadRecord(body, 0, SampleTable, nf) == Err(TooFewValues);
  }

  /** One position-only atom labelled "Na1" reads as nitrogen: the 1-character prefix wins. */
  lemma OneAtomFile(lines: seq<string>, nf: NumberFormat)
    requires lines == ["CONFIG", "0 0", "Na1 1", "1.0 1.0 1.0"]
    requires nf.parse("1.0") == Some(1.0)
    ensures Read(lines, SampleTable, nf)
            == Ok(Atoms(["N"], [Vec3(1.0, 1.0, 1.0)], ZeroCell, (false, false, false), None, None))
  {
    HeaderZeroZero(lines[1]);
    var body := lines[2..][0..];
    assert |body| == 2 && body[0] == "Na1 1" && body[1] == "1.0 1.0 1.0";
    var atom := AtomRecord("N", Vec3(1.0, 1.0, 1.0), None, None);
    SingleSodiumRecord(body, nf);
    ReadParts(lines, SampleTable, nf, Header(0, 0), ZeroCell, [atom]);
    OneRecordColumns(atom);
  }

  lemma OneRecordColumns(atom: AtomRecord)
    ensures SymbolsOf([atom]) == [atom.symbol] && PositionsOf([atom]) == [atom.position]
  {
  }

  lemma SingleSodiumRecord(s: seq<string>, nf: NumberFormat)
    requires |s| == 2 && s[0] == "Na1 1" && s[1] == "1.0 1.0 1.0"
    requires nf.parse("1.0") == Some(1.0)
    ensures ReadRecords(s, 0, SampleTable, nf) == Ok([AtomRecord("N", Vec3(1.0, 1.0, 1.0), None, None)])
  {
    var atom := AtomRecord("N", Vec3(1.0, 1.0, 1.0), None, None);
    SodiumLabel(s[0]);
    OnesVector(s[1], nf);
    assert ReadRecord(s, 0, SampleTable, nf) == Ok(atom);
    assert s[RecordLength(0)..] == [];
    ReadRecordsStep(s, 0, SampleTable, nf, atom, []);
    assert [atom] + [] == [atom];
  }

  /**
   Fields are only separated by their padding: when the second rendering
   fills its 20 columns it runs into the first, the line holds two tokens and
   the read fails. This is why the round trip asks every value to fit.
   */
  lemma WideFieldJoinsNeighbour(v: Vec3, nf: NumberFormat)
    requires IsToken(nf.render(v.x)) && IsToken(nf.render(v.y)) && IsToken(nf.render(v.z))
    requires |nf.render(v.y)| >= FloatWidth && |nf.render(v.z)| < FloatWidth
    ensures Split(VectorLine(v, nf)) == [nf.render(v.x) + nf.render(v.y), nf.render(v.z)]
    ensures ReadVector(Split(VectorLine(v, nf)), nf) == Err(TooFewValues)
  {
    var rx, ry, rz := nf.render(v.x), nf.render(v.y), nf.render(v.z);
    var joined := rx + ry;
    assert IsToken(joined) by {
      assert forall i :: 0 <= i < |joined| ==> joined[i] == if i < |rx| then rx[i] else ry[i - |rx|];
    }
    PadLeftStartsBlank(rz, FloatWidth);
    assert VectorLine(v, nf) == PadLeft(rx, FloatWidth) + ry + FloatField(v.z, nf);
    SplitAppend(PadLeft(rx, FloatWidth) + ry, FloatField(v.z, nf));
    SplitPadLeft(rz, FloatWidth);
    if |rx| < FloatWidth {
      assert PadLeft(rx, FloatWidth) + ry == Spaces(FloatWidth - |rx|) + joined;
      SplitAfterSpaces(FloatWidth - |rx|, joined);
    } else {
      assert PadLeft(rx, FloatWidth) + ry == joined;
    }
    SplitToken(joined);
  }
}
