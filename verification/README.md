# DL_POLY_4 CONFIG reader and writer

This project models the CONFIG reader and writer in ASE's `ase/io/dlp4.py`:
`read_dlp4` (lines 9-75) and `write_dlp4` (lines 77-118). It also proves what
the two functions promise, both separately and composed.

A CONFIG file is a title line and a header line. The header holds the level of
detail `levcfg` and the periodicity indicator `imcon`, followed by the atom
count when written. When `imcon > 0`, three cell rows follow. Then comes one
record per atom:

- a label line with the site name and its index;
- a position line;
- a velocity line when `levcfg > 0`;
- a force line when `levcfg > 1`.

The reader:

- splits every line on whitespace;
- parses the header integers;
- reads the cell, or uses the zero matrix;
- resolves each site label to an element symbol by trying the whole label,
  then its first character, then its first two characters, falling back to
  "X";
- reads records until end of stream.

The writer pads every field to a fixed width: the title to 72 columns, the
integers to 10, the site name to 8 and every number to 20.

How the model is built:

- **File.** A file is a `seq<string>` of its lines, with the terminators
  stripped. End of stream means the sequence is exhausted.
- **Splitting.** Python's `str.split()` is modelled exactly (`Text.Split`),
  deciding whitespace by code point.
- **Integers.** `'%d'` is modelled exactly (`Integers.FormatInt`). `int()` is
  modelled on ASCII digits with an optional sign (`Integers.ParseInt`); see
  "## Left out" for what it does not accept.
- **Floats.** Floating point is kept abstract as a `NumberFormat`: a `render`
  function (`%.10f` before padding) and a `parse` function (`float()`).
  Padding to 20 columns is concrete.
- **Element table.** ASE's `chemical_symbols` is a parameter `table`.
- **Errors.** Every exception the reader can raise is a constructor of
  `Structure.Error`. A read returns `Result<Atoms, Error>`.

Modules:

- `Wrappers`: `Option`, `Result`.
- `Text`: `Split`, padding.
- `Integers`: `%d` and `int()`.
- `Symbols`: label resolution.
- `Structure`: the atoms record, the float codec, the record layout and the errors.
- `Reader`: `read_dlp4`.
- `Writer`: `write_dlp4`.
- `RoundTrip`: write-then-read.
- `Scenarios`: concrete files.

Where the code's behaviour differs from how the format is usually described,
the model follows the code:

- Label "Na1" resolves to "N", not "Na", when both are known elements, because
  the one-character prefix is tried first (lines 42-48).
- A cell row with fewer than three tokens, all of them numbers, raises an
  uncaught `IndexError`. A non-numeric entry among the first three becomes
  "error reading cell" (lines 28-31), even in a short row such as `1.0 abc`.
  Neither error carries the row index.
- A blank line after the last record is not end of stream. It is read as a
  label line and fails at line 38. The `readline` at line 70 happens at end of
  stream and consumes nothing.
- The title is padded to 72 columns but never truncated (line 85).
- Header errors: a missing first token is an `IndexError`. A first token that
  is not an integer is a `ValueError` before the second token is looked at
  (lines 17-19).

## Model

| member | source | states |
|---|---|---|
| Text.Split | ase/io/dlp4.py:17 | every piece `str.split()` returns is a non-empty run of non-whitespace characters |
| Text.SplitAppend | ase/io/dlp4.py:17 | splitting a line cut just before whitespace gives the pieces of the two halves, in order |
| Text.SplitPadLeft | ase/io/dlp4.py:90 | a token right-justified in a field of any width splits back to that one token |
| Text.SplitPadRight | ase/io/dlp4.py:103 | a token left-justified in a field (the `{0:8s}` label) splits back to that one token |
| Text.SplitThreeFields | ase/io/dlp4.py:94-95 | three right-justified fields on one line split back to their three tokens when the 2nd and 3rd leave a blank in front |
| Integers.ParseInt | ase/io/dlp4.py:18-19 | on ASCII text, `int()` accepts exactly an optional sign followed by one or more decimal digits |
| Integers.FormatInt | ase/io/dlp4.py:90 | `%d` text is a single token |
| Integers.ParseFormatInt | ase/io/dlp4.py:18-19 | `int()` of the `%d` text of any integer, negative included, gives that integer back |
| Integers.FormatIntFitsField | ase/io/dlp4.py:90 | below 10^9 the `%d` text is shorter than the 10-column field, so the padding leaves a separating blank |
| Symbols.Resolve | ase/io/dlp4.py:38-50 | the result is the highest-priority candidate (label, 1-char prefix, 2-char prefix) in the table with no earlier candidate in it, or "X" when none is |
| Symbols.ResolveIsFirstMatch | ase/io/dlp4.py:39-50 | resolution equals the short-circuit walk down the candidate list, an independent reference definition |
| Symbols.ResolveIsPrefixOrUnknown | ase/io/dlp4.py:39-50 | the result is "X" or a non-empty table symbol that prefixes the label |
| Symbols.OneCharacterBeatsTwo | ase/io/dlp4.py:42-48 | when the label is unknown and both its 1- and 2-character prefixes are known, the 1-character one wins |
| Symbols.ResolveIdempotent | ase/io/dlp4.py:38-50 | resolving an already resolved symbol gives it back when "X" is in the table |
| Symbols.SampleResolutions | ase/io/dlp4.py:38-50 | concrete labels: "Na" stays "Na", "Na1" becomes "N" (or "Na" if "N" is unknown), "Cl7" becomes "C", "H2" becomes "H", "Zzz" becomes "X" |
| Structure.RecordLength | ase/io/dlp4.py:51-58 | an atom record has 2 lines, 3 when `levcfg > 0`, 4 exactly when `levcfg > 1` |
| Reader.ReadHeader | ase/io/dlp4.py:17-19 | the header reads exactly when its first two tokens are integers, giving `(levcfg, imcon)`; a missing token is the index error only when no earlier token failed `int()` |
| Reader.ReadCellRow | ase/io/dlp4.py:26-31 | a cell row reads exactly when it has three tokens that all parse, giving those three values; any failure is the short-row or "error reading cell" error |
| Reader.CellRowError | ase/io/dlp4.py:28-31 | "error reading cell" exactly when one of the first three tokens is present and not a number, and all tokens before it are numbers |
| Reader.ReadRows | ase/io/dlp4.py:24-31 | a successful cell read consumed `k` lines and row `j` is the value of line `j` |
| Reader.ReadRowsOk | ase/io/dlp4.py:24-31 | the cell block reads exactly when every one of its `k` lines reads as a row |
| Reader.ReadRowsFirstError | ase/io/dlp4.py:24-31 | a failing cell block fails with the error of its first failing line: every line before it reads |
| Reader.ReadRowsFailsAt | ase/io/dlp4.py:24-31 | conversely, a line that fails after lines that all read is the error of the whole block |
| Reader.ReadVector | ase/io/dlp4.py:51-52 | a numeric line reads exactly when it has at least three tokens that parse, giving the first three; too few tokens is the unpacking error, exactly |
| Reader.ReadRecord | ase/io/dlp4.py:38-58 | a read record spans `RecordLength(levcfg)` lines, its symbol is in the table or "X", and it has a velocity exactly when `levcfg > 0` and a force exactly when `levcfg > 1` |
| Reader.ReadRecordSpec | ase/io/dlp4.py:38-58 | a record reads exactly when its label line has a token and each numeric line reads; then its symbol is the resolved first label token and its vectors are those lines' values |
| Reader.ReadRecords | ase/io/dlp4.py:36-59 | a successful read of the atom section is whole records up to end of stream, each with the optional parts the header asks for |
| Reader.ReadRecordsTiles | ase/io/dlp4.py:36-59 | the k-th record read is the record at line `k * RecordLength(levcfg)` |
| Reader.ReadRecordsOk | ase/io/dlp4.py:36-59 | an atom section of `n` records' worth of lines reads exactly when each of its `n` records, read from line `k * RecordLength(levcfg)`, reads |
| Reader.ReadRecordsFailsAt | ase/io/dlp4.py:36-59 | a record that fails after records that all read is the error of the whole section |
| Reader.ReadRecordsFirstError | ase/io/dlp4.py:36-59 | a failing atom section fails with the error of its first failing record, which starts inside the stream (a record cut short by end of stream fails itself) |
| Reader.Read | ase/io/dlp4.py:9-75 | the first of header, cell block and atom section that fails is the error of the read; a successful read has the cell of the cell block (zero without one), the symbols, positions, velocities and forces of the records read from the atom section, all-axes periodicity exactly when `imcon > 0`, uses every line, and knows every symbol or gives "X" |
| Reader.NonNumericCellFailsRead | ase/io/dlp4.py:24-31 | a cell entry that is not a number, after numeric rows and numeric entries, fails the read with "error reading cell" |
| Reader.RecordErrorFailsRead | ase/io/dlp4.py:36-58 | after a good header and cell, the first atom record that fails is the error of the read |
| Writer.Imcon | ase/io/dlp4.py:87-89 | the periodicity written is 3 when all three axes are periodic and 0 otherwise |
| Writer.AtomLines | ase/io/dlp4.py:102-118 | an atom is written on as many lines as the reader's record length for the same `levcfg` |
| Writer.AtomBlock | ase/io/dlp4.py:102-118 | the atom section has `RecordLength(levcfg)` lines per atom |
| Writer.WriteLayout | ase/io/dlp4.py:85-118 | the file has `2 + cell lines + natoms * record length` lines, and its first line is the whole title padded to at least 72 columns |
| RoundTrip.VectorLineTokens | ase/io/dlp4.py:94-95 | a written numeric line whose values fit their fields splits into the three renderings |
| RoundTrip.ReadVectorLine | ase/io/dlp4.py:51-52 | a written numeric line reads back, as a position and as a cell row, as the reread vector |
| RoundTrip.HeaderLineTokens | ase/io/dlp4.py:90 | the written header splits into the `%d` texts of `levcfg`, `imcon` and `natoms` for fewer than 10^9 atoms |
| RoundTrip.ReadHeaderLine | ase/io/dlp4.py:17-19 | the written header reads back as the written `levcfg` and `imcon` |
| RoundTrip.LabelLineTokens | ase/io/dlp4.py:103-104 | a written label line splits into the symbol and its `%d` index |
| RoundTrip.ReadAtomLines | ase/io/dlp4.py:102-118 | each written atom record reads back as its symbol and reread vectors, whatever follows it |
| RoundTrip.ReadAtomBlock | ase/io/dlp4.py:102-118 | the written atom section reads back as one recovered record per atom, in order |
| RoundTrip.ReadCellLines | ase/io/dlp4.py:91-95 | the written cell block reads back as the reread cell, whatever follows it |
| RoundTrip.RecoveredColumns | ase/io/dlp4.py:61-74 | the recovered records' columns are the written symbols and the reread positions, velocities and forces |
| RoundTrip.WrittenHeader | ase/io/dlp4.py:85-90 | the second written line reads as `(levcfg, Imcon(pbc))` |
| RoundTrip.WriteThenRead | ase/io/dlp4.py:77-118 | reading a written structure whose symbols are one-token table entries and whose numbers fit their fields gives back its symbols, reread positions, cell (or zero cell), all-or-nothing periodicity, and the velocities and forces `levcfg` selects |
| Scenarios.HeaderOnlyFile | ase/io/dlp4.py:36-37 | a title and a `0 0` header read as an empty, non-periodic structure |
| Scenarios.TrailingBlankLineFails | ase/io/dlp4.py:37-38 | a blank line after the header is read as a label line and fails |
| Scenarios.ShortCellRowFails | ase/io/dlp4.py:26-29 | a cell row of two numbers is the short-row error, not "error reading cell" |
| Scenarios.NonNumericCellFails | ase/io/dlp4.py:28-31 | a cell row with a non-number in it is "error reading cell" |
| Scenarios.TruncatedRecordFails | ase/io/dlp4.py:51 | a label line at end of stream fails on the missing position line |
| Scenarios.OneAtomFile | ase/io/dlp4.py:38-52 | a single "Na1" record reads as one nitrogen atom at its position |
| Scenarios.WideFieldJoinsNeighbour | ase/io/dlp4.py:103-104 | a rendering that fills its 20 columns runs into the field before it, so the line holds two tokens and reads back as the unpacking error |

## Left out

- `float()` and `%20.10f` are kept abstract as `NumberFormat.parse` and `NumberFormat.render`. The model does not fix their text or their rounding. The round trip gives back `parse(render(v))`, not `v`.
- Integers.ParseInt: does not accept the `_` digit separators, non-ASCII digits or surrounding whitespace that `int()` takes. Tokens from `split()` never carry surrounding whitespace.
- Integers.ParseFormatInt: holds for every integer, while Python 3.11 and later refuse `%d` and `int()` on numbers of more than 4300 digits by default; that limit is not modelled.
- The `names` array (lines 66-69) is left out: it copies the symbols.
- The construction details of ASE's `Atoms` and `SinglePointCalculator` (lines 61-64, 71-74) are modelled as plain fields of `Structure.Atoms`.
- `get_velocities()` returning `None` is modelled as absent velocities written as zeros (lines 105-108). The same goes for forces (lines 113-115). An exception from `get_forces()` on a structure without a calculator is not modelled.
- File objects and `readline`/`write` are modelled as a sequence of lines. A title containing a line break is not modelled.
- RoundTrip.WriteThenRead: holds only under its preconditions:
  - every number's rendering is one token shorter than 20 columns that parses back;
  - there are fewer than 10^9 atoms;
  - every symbol is a one-token table entry.

  Outside them the fixed-width fields can run together. `Scenarios.WideFieldJoinsNeighbour` shows this.
- Writer.Write: carries no contract of its own. Its layout is stated by `Writer.WriteLayout`, and its meaning by `RoundTrip.WriteThenRead`.
