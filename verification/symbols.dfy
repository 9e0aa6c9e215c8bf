/**
 Element-symbol resolution of the CONFIG reader: an atom label (a site name
 such as "Na1" or "OW") is mapped to a chemical symbol by trying, in order, the
 label itself, its first character and its first two characters against the
 element table, and falling back to the unknown-element symbol "X".
 */
module Symbols {

  /** The symbol every unresolvable label becomes. */
  const Unknown: string := "X"

  /** Python's `site[0:n]`: the first `n` characters, or all of them when fewer. */
  function Prefix(site: string, n: nat): (p: string)
    ensures p <= site
    ensures |p| == if n < |site| then n else |site|
  {
    if n < |site| then site[..n] else site
  }

  /** The strategies, highest priority first: whole site, 1-character prefix, 2-character prefix. */
  function Candidates(site: string): seq<string> {
    [site, Prefix(site, 1), Prefix(site, 2)]
  }

  /** The first candidate the table knows, or `Unknown`. */
  function FirstMatch(candidates: seq<string>, table: set<string>): string {
    if |candidates| == 0 then Unknown
    else if candidates[0] in table then candidates[0]
    else FirstMatch(candidates[1..], table)
  }

  /**
   The symbol a label resolves to: the highest-priority candidate that is in
   the table, or `Unknown` when no candidate is.
   */
  function Resolve(site: string, table: set<string>): (r: string)
    requires |site| > 0
    ensures || (exists k :: 0 <= k < 3 && Candidates(site)[k] == r && r in table
                            && forall j :: 0 <= j < k ==> Candidates(site)[j] !in table)
            || (r == Unknown && forall k :: 0 <= k < 3 ==> Candidates(site)[k] !in table)
  {
    var c := Candidates(site);
    assert c[0] == site && c[1] == site[..1] && c[2] == Prefix(site, 2);
    if site in table then site
    else if site[..1] in table then site[..1]
    else if Prefix(site, 2) in table then Prefix(site, 2)
    else Unknown
  }

  /** Resolution never fails: it yields a table symbol that prefixes the site, or "X". */
  lemma ResolveIsPrefixOrUnknown(site: string, table: set<string>)
    requires |site| > 0
    ensures var r := Resolve(site, table);
            r == Unknown || (r in table && r <= site && 0 < |r|)
  {
    var r := Resolve(site, table);
    if r != Unknown {
      var k :| 0 <= k < 3 && Candidates(site)[k] == r && r in table;
    }
  }

  /** Resolution is the short-circuit walk down the prioritised strategy list. */
  lemma ResolveIsFirstMatch(site: string, table: set<string>)
    requires |site| > 0
    ensures Resolve(site, table) == FirstMatch(Candidates(site), table)
  {
    var c := Candidates(site);
    assert c[1] == site[..1];
    assert FirstMatch(c[1..][1..][1..], table) == Unknown;
    assert FirstMatch(c[1..][1..], table) == if c[2] in table then c[2] else Unknown;
    assert FirstMatch(c[1..], table) == if c[1] in table then c[1] else FirstMatch(c[1..][1..], table);
  }

  /** The 1-character prefix is tried before the 2-character one, so it wins when both are known. */
  lemma OneCharacterBeatsTwo(site: string, table: set<string>)
    requires |site| >= 2
    requires site !in table && site[..1] in table && site[..2] in table
    ensures Resolve(site, table) == site[..1]
  {
  }

  /** A label the table knows resolves to itself, so resolution is idempotent. */
  lemma ResolveIdempotent(site: string, table: set<string>)
    requires |site| > 0
    requires Unknown in table
    ensures Resolve(Resolve(site, table), table) == Resolve(site, table)
  {
    ResolveIsPrefixOrUnknown(site, table);
  }

  /** A small element table used to exhibit resolution on concrete labels. */
  const SampleTable: set<string> := {"X", "H", "He", "C", "Cl", "N", "Na", "O"}

  /** Concrete resolutions: "N" shadows "Na" for "Na1"; "H2" drops to "H"; "Zzz" is unknown. */
  lemma SampleResolutions()
    ensures Resolve("Na", SampleTable) == "Na"
    ensures Resolve("Na1", SampleTable) == "N"
    ensures Resolve("Na1", {"Na"}) == "Na"
    ensures Resolve("Cl7", SampleTable) == "C"
    ensures Resolve("H2", SampleTable) == "H"
    ensures Resolve("Zzz", SampleTable) == "X"
  {
    assert "Na1"[..1] == "N";
    assert "Na1"[..2] == "Na";
    assert "Cl7"[..1] == "C";
    assert "H2"[..1] == "H";
    assert "Zzz"[..1] == "Z";
    assert "Zzz"[..2] == "Zz";
  }
}
