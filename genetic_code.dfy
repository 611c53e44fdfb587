/** The genetic-code argument of every analysis: a fixed table of 19
    codon translation tables, and the block of the base constructor that
    checks the argument against the table and escapes the spaces of the
    name for the shell. */
module GeneticCode {
  import opened Outcomes
  import opened Text

  /** The table's names; key k (1 to 19) names Names[k - 1]. */
  const Names: seq<string> := [
    "Universal",
    "Vertebrate mtDNA",
    "Yeast mtDNA",
    "Mold/Protozoan mtDNA",
    "Invertebrate mtDNA",
    "Ciliate Nuclear",
    "Echinoderm mtDNA",
    "Euplotid Nuclear",
    "Alt. Yeast Nuclear",
    "Ascidian mtDNA",
    "Flatworm mtDNA",
    "Blepharisma Nuclear",
    "Chlorophycean mtDNA",
    "Trematode mtDNA",
    "Scenedesmus obliquus mtDNA",
    "Thraustochytrium mtDNA",
    "Pterobranchia mtDNA",
    "SR1 and Gracilibacteria",
    "Pachysolen Nuclear"
  ]

  const DefaultName := "Universal"

  /** A key of the table. */
  predicate IsKey(n: int) {
    1 <= n <= |Names|
  }

  /** The genetic code as the caller passes it: a table name or a number. */
  datatype GeneticCodeArg = ByName(name: string) | ByNumber(number: int)

  /** Python's `==` between a table name and the argument: a string never
      equals a number. */
  predicate SameValue(name: string, g: GeneticCodeArg) {
    g.ByName? && g.name == name
  }

  /** What the base constructor leaves in its genetic-code field: a listed
      name, escaped; a listed number fails because it is never turned into
      text before the escaping. */
  function ResolveGeneticCode(g: GeneticCodeArg): (r: Result<string>)
    ensures r.Ok? <==> g.ByName? && g.name in Names
    ensures r.Ok? ==> UnescapeSpaces(r.value) == g.name
    ensures r.Ok? ==> forall i :: 0 <= i < |r.value| && r.value[i] == ' ' ==> 0 < i && r.value[i - 1] == '\\'
    ensures g.ByName? && g.name !in Names ==> r == Err(InvalidGeneticCode)
    ensures g.ByNumber? ==> r == Err(if IsKey(g.number) then GeneticCodeNotText else InvalidGeneticCode)
  {
    match g
    case ByName(name) =>
      if name in Names then UnescapeEscape(name); Ok(EscapeSpaces(name)) else Err(InvalidGeneticCode)
    case ByNumber(n) =>
      if IsKey(n) then Err(GeneticCodeNotText) else Err(InvalidGeneticCode)
  }

  /** The genetic-code block of the base constructor, step by step: the
      membership assertion, the loop that looks for a table entry whose
      NAME equals the (numeric) argument, and the space escaping. */
  method NormalizeGeneticCode(g: GeneticCodeArg) returns (r: Result<string>)
    ensures r == ResolveGeneticCode(g)
  {
    if !((g.ByName? && g.name in Names) || (g.ByNumber? && IsKey(g.number))) {
      return Err(InvalidGeneticCode);
    }
    var code := g;
    if code.ByNumber? && IsKey(code.number) {
      var k: nat := 1;
      while k <= |Names|
        invariant 1 <= k <= |Names| + 1
        invariant code == g
      {
        if SameValue(Names[k - 1], code) {
          code := ByName(NatToDecimal(k));
          break;
        }
        k := k + 1;
      }
    }
    match code
    case ByName(name) =>
      r := Ok(EscapeSpaces(name));
    case ByNumber(_) =>
      r := Err(GeneticCodeNotText);
  }

  /** No two table names collide once escaped, so the escaped argument still
      identifies one table. */
  lemma EscapedNamesDistinct(a: string, b: string)
    requires a in Names && b in Names
    requires EscapeSpaces(a) == EscapeSpaces(b)
    ensures a == b
  {
    UnescapeEscape(a);
    UnescapeEscape(b);
  }

  /** Without a genetic-code argument the base constructor resolves "Universal". */
  lemma DefaultGeneticCode()
    ensures ResolveGeneticCode(ByName(DefaultName)) == Ok("Universal")
  {
    assert Names[0] == DefaultName;
    EscapeWithoutSpaces(DefaultName);
  }

  lemma FirstNamesWithoutBackslash(i: nat)
    requires i < 10
    ensures '\\' !in Names[i]
  {
  }

  lemma LastNamesWithoutBackslash(i: nat)
    requires 10 <= i < |Names|
    ensures '\\' !in Names[i]
  {
  }

  /** The table names hold no backslash, so escaping their spaces is all
      the shell needs. */
  lemma NamesWithoutBackslash(name: string)
    requires name in Names
    ensures '\\' !in name
  {
    var i :| 0 <= i < |Names| && Names[i] == name;
    if i < 10 {
      FirstNamesWithoutBackslash(i);
    } else {
      LastNamesWithoutBackslash(i);
    }
  }
}
