/** The command each analysis hands to HyPhy: the batch file, then the
    positional arguments that batch file reads, in the order it reads them,
    joined with single spaces and read back by the shell. `ReadArguments`
    is that order seen from the batch file's side. The runner escapes only
    the genetic code, so a value holding a space reaches the batch file as
    several words; `ShellCommand` escapes every value, and the shell then
    hands each non-empty value on as one word. */
module Commands {
  import opened Outcomes
  import opened Text
  import opened GeneticCode
  import opened Labels
  import opened Parameters
  import opened Configuration

  function BatchfileWithPath(c: Config): string {
    c.analysisPath + c.batchfile
  }

  /** The token list each analysis's command builder joins. */
  function CommandTokens(c: Config): (r: seq<string>)
    ensures 4 <= |r| <= 7 && r[0] == BatchfileWithPath(c)
  {
    var b := BatchfileWithPath(c);
    match c.params
    case FELParams(branches, srv) =>
      [b, c.geneticCode, c.alignment, c.treeArg, branches, srv, c.alpha]
    case MEMEParams(branches) =>
      [b, c.geneticCode, c.alignment, c.treeArg, branches, c.alpha]
    case SLACParams(branches, samples) =>
      [b, c.geneticCode, c.alignment, c.treeArg, branches, samples, c.alpha]
    case ABSRELParams(branches) =>
      [b, c.geneticCode, c.alignment, c.treeArg, branches]
    case BUSTEDParams(branches) =>
      [b, c.geneticCode, c.alignment, c.treeArg, branches]
    case RELAXParams(test, reference, kind) =>
      if reference.None? then
        [b, c.geneticCode, c.alignment, c.treeArg, test, kind]
      else
        [b, c.geneticCode, c.alignment, c.treeArg, test, reference.value, kind]
    case ProteinRatesParams(model, plusF) =>
      [b, c.alignment, c.treeArg, model, plusF]
    case NucleotideRatesParams(model) =>
      [b, c.alignment, c.treeArg, model]
  }

  /** The analysis command: the tokens joined with single spaces. */
  function AnalysisCommand(c: Config): string {
    Join(CommandTokens(c))
  }

  /** What a batch file takes from its positional arguments. */
  datatype Invocation = Invocation(
    batchfile: string,
    geneticCode: Option<string>,
    alignment: string,
    treeArg: string,
    alpha: Option<string>,
    params: Params)

  /** The argument order of each batch file, read by position: codon
      analyses take the genetic code second, the relative-rate analyses take
      none; FEL, MEME and SLAC end with the threshold; RELAX takes the
      reference label, when there is one, between the test label and the
      analysis type. Any other number of arguments is not a call it accepts. */
  function ReadArguments(m: Method, t: seq<string>): Option<Invocation> {
    match m
    case FEL =>
      if |t| == 7 then Some(Invocation(t[0], Some(t[1]), t[2], t[3], Some(t[6]), FELParams(t[4], t[5]))) else None
    case MEME =>
      if |t| == 6 then Some(Invocation(t[0], Some(t[1]), t[2], t[3], Some(t[5]), MEMEParams(t[4]))) else None
    case SLAC =>
      if |t| == 7 then Some(Invocation(t[0], Some(t[1]), t[2], t[3], Some(t[6]), SLACParams(t[4], t[5]))) else None
    case ABSREL =>
      if |t| == 5 then Some(Invocation(t[0], Some(t[1]), t[2], t[3], None, ABSRELParams(t[4]))) else None
    case BUSTED =>
      if |t| == 5 then Some(Invocation(t[0], Some(t[1]), t[2], t[3], None, BUSTEDParams(t[4]))) else None
    case RELAX =>
      if |t| == 6 then Some(Invocation(t[0], Some(t[1]), t[2], t[3], None, RELAXParams(t[4], None, t[5])))
      else if |t| == 7 then Some(Invocation(t[0], Some(t[1]), t[2], t[3], None, RELAXParams(t[4], Some(t[5]), t[6])))
      else None
    case RelativeProteinRates =>
      if |t| == 5 then Some(Invocation(t[0], None, t[1], t[2], None, ProteinRatesParams(t[3], t[4]))) else None
    case RelativeNucleotideRates =>
      if |t| == 4 then Some(Invocation(t[0], None, t[1], t[2], None, NucleotideRatesParams(t[3]))) else None
  }

  /** What a configured analysis must convey to its batch file. */
  function Intended(c: Config): Invocation {
    var m := c.params.Method();
    Invocation(
      BatchfileWithPath(c),
      if m.TakesGeneticCode() then Some(c.geneticCode) else None,
      c.alignment,
      c.treeArg,
      if m == FEL || m == MEME || m == SLAC then Some(c.alpha) else None,
      c.params)
  }

  /** Read by position, the built tokens are exactly what the analysis is
      configured with. */
  lemma {:induction false} TokensRoundTrip(c: Config)
    ensures ReadArguments(c.params.Method(), CommandTokens(c)) == Some(Intended(c))
  {
    match c.params
    case RELAXParams(_, reference, _) =>
      if reference.None? {
        assert |CommandTokens(c)| == 6;
      } else {
        assert |CommandTokens(c)| == 7;
      }
    case _ =>
  }

  // ---------------------------------------------------------------------
  // The command as the shell reads it
  // ---------------------------------------------------------------------

  /** The values the arguments are meant to carry: the tokens, with the
      genetic code as its table name instead of its escaped form. */
  function CommandValues(c: Config): seq<string> {
    CommandTokens(c.(geneticCode := UnescapeSpaces(c.geneticCode)))
  }

  /** The analysis command with every value escaped for the shell, not only
      the genetic code. */
  function ShellCommand(c: Config): string {
    Join(EscapeEach(CommandValues(c)))
  }

  /** Read by the shell, the escaped command gives each batch file exactly
      what the analysis is configured with, the genetic code as its table
      name, as long as no value is empty. */
  lemma CommandRoundTrip(c: Config)
    requires forall i :: 0 <= i < |CommandValues(c)| ==> CommandValues(c)[i] != ""
    ensures ReadArguments(c.params.Method(), ShellWords(ShellCommand(c))) ==
      Some(Intended(c.(geneticCode := UnescapeSpaces(c.geneticCode))))
  {
    ShellWordsOfEscapedJoin(CommandValues(c));
    NonEmptyKeepsAll(CommandValues(c));
    TokensRoundTrip(c.(geneticCode := UnescapeSpaces(c.geneticCode)));
  }

  /** Where the tree argument sits: after the genetic code and the
      alignment, or after the alignment alone. */
  function TreePosition(m: Method): nat {
    if m.TakesGeneticCode() then 3 else 2
  }

  /** A NEXUS input passes the empty tree argument. The shell drops it, so
      the batch file, which then asks for no tree, gets every other value
      in order. */
  lemma EmptyTreeArgumentDropped(c: Config)
    requires c.treeArg == ""
    requires forall i :: 0 <= i < |CommandValues(c)| && i != TreePosition(c.params.Method()) ==>
      CommandValues(c)[i] != ""
    ensures var v := CommandValues(c);
      var k := TreePosition(c.params.Method());
      k < |v| && ShellWords(ShellCommand(c)) == v[..k] + v[k + 1..]
  {
    var v := CommandValues(c);
    var k := TreePosition(c.params.Method());
    assert k < |v| && v[k] == "";
    assert v == v[..k] + [v[k]] + v[k + 1..];
    ShellWordsOfEscapedJoin(v);
    NonEmptyAppend(v[..k] + [v[k]], v[k + 1..]);
    NonEmptyAppend(v[..k], [v[k]]);
    assert NonEmpty([v[k]]) == [];
    NonEmptyKeepsAll(v[..k]);
    NonEmptyKeepsAll(v[k + 1..]);
  }

  /** As the runner builds it, the RELAX command of a tree with two or more
      labels and no reference given carries the default reference
      "Unlabeled branches" unescaped. The shell splits it in two, so the
      batch file gets eight words, which is no argument list it reads. */
  lemma DefaultReferenceSplitByShell(c: Config)
    requires c.params.RELAXParams? && c.params.referenceLabel == Some(UnlabeledBranches)
    requires forall i :: 0 <= i < |CommandTokens(c)| && i != 5 ==>
      Plain(CommandTokens(c)[i]) && CommandTokens(c)[i] != ""
    ensures var t := CommandTokens(c);
      ShellWords(AnalysisCommand(c)) == t[..5] + ["Unlabeled", "branches"] + t[6..]
    ensures ReadArguments(RELAX, ShellWords(AnalysisCommand(c))).None?
  {
    var t := CommandTokens(c);
    assert |t| == 7 && t[5] == "Unlabeled" + " " + "branches";
    var split := t[..5] + ["Unlabeled", "branches"] + t[6..];
    assert t == t[..5] + ["Unlabeled" + " " + "branches"] + t[6..];
    JoinSpacedToken(t[..5], "Unlabeled", "branches", t[6..]);
    forall i | 0 <= i < |t|
      ensures '\\' !in t[i]
    {
      if i == 5 {
        assert forall j :: 0 <= j < |t[5]| ==> t[5][j] != '\\';
      }
    }
    JoinWithout(t, '\\');
    ShellWordsWithoutBackslash(AnalysisCommand(c));
    forall i | 0 <= i < |split|
      ensures ' ' !in split[i] && split[i] != ""
    {
      if i < 5 {
        assert split[i] == t[i];
      } else if i > 6 {
        assert split[i] == t[i - 1];
      }
    }
    SplitJoin(split);
    NonEmptyKeepsAll(split);
  }

  /** The tokens of the source and the corrected values differ only in the
      genetic code, which the codon analyses pass second. */
  lemma ValuesAgreeBesidesCode(c: Config)
    ensures |CommandValues(c)| == |CommandTokens(c)|
    ensures forall i :: 0 <= i < |CommandTokens(c)| ==>
      if i == CodePosition(c.params.Method())
      then CommandValues(c)[i] == UnescapeSpaces(c.geneticCode) && CommandTokens(c)[i] == c.geneticCode
      else CommandValues(c)[i] == CommandTokens(c)[i]
  {
  }

  /** Where the genetic code sits: second for the codon analyses, nowhere
      for the relative-rate analyses. */
  function CodePosition(m: Method): int {
    if m.TakesGeneticCode() then 1 else -1
  }

  /** Values that are the tokens, except one that is the table name of the
      escaped token at `k`, escape to exactly the tokens when the others
      are plain. */
  lemma EscapedValuesAreTokens(v: seq<string>, t: seq<string>, k: int, name: string)
    requires |v| == |t|
    requires '\\' !in name
    requires forall i :: 0 <= i < |t| ==>
      if i == k then v[i] == UnescapeSpaces(t[i]) && t[i] == EscapeSpaces(name) else v[i] == t[i]
    requires forall i :: 0 <= i < |t| && i != k ==> Plain(t[i])
    ensures EscapeEach(v) == t
  {
    UnescapeEscape(name);
    ShellEscapeWithoutBackslash(name);
    forall i | 0 <= i < |t|
      ensures EscapeEach(v)[i] == t[i]
    {
      if i != k {
        ShellEscapePlain(t[i]);
      }
    }
  }

  /** Where the runner's own escaping suffices, the corrected command is
      the runner's command: the genetic code is an escaped table name and
      no other token holds a space or a backslash. */
  lemma ShellCommandMatchesSource(c: Config, name: string)
    requires name in Names && c.geneticCode == EscapeSpaces(name)
    requires forall i :: 0 <= i < |CommandTokens(c)| && i != CodePosition(c.params.Method()) ==>
      Plain(CommandTokens(c)[i])
    ensures ShellCommand(c) == AnalysisCommand(c)
  {
    ValuesAgreeBesidesCode(c);
    NamesWithoutBackslash(name);
    EscapedValuesAreTokens(CommandValues(c), CommandTokens(c), CodePosition(c.params.Method()), name);
  }

  /** A RELAX reference label goes between the test label and the analysis
      type, and nowhere else changes. */
  lemma RelaxReferencePlacement(c: Config, reference: string)
    requires c.params.RELAXParams? && c.params.referenceLabel.None?
    ensures var t := CommandTokens(c);
      CommandTokens(c.(params := c.params.(referenceLabel := Some(reference)))) == t[..5] + [reference] + t[5..]
  {
  }

  /** The relative-rate commands leave the genetic code out. */
  lemma RateCommandsOmitGeneticCode(c: Config, code: string)
    requires c.params.Method().RelativeRate()
    ensures CommandTokens(c.(geneticCode := code)) == CommandTokens(c)
  {
  }

  /** The genetic code a codon analysis passes is a listed name, escaped. */
  lemma CommandGeneticCodeListed(c: Config)
    requires c.params.Method().TakesGeneticCode()
    requires UnescapeSpaces(c.geneticCode) in Names
    ensures UnescapeSpaces(CommandTokens(c)[1]) in Names
  {
  }

  /** Every command built from validated parameters and a resolved genetic
      code carries only checked values: a listed genetic code (escaped), a
      branch selection that is a keyword or a label of the tree, a RELAX test
      label of the tree, a bootstrap count in range and a listed substitution
      model. `SetupParts` shows that `Setup` builds such configurations. */
  lemma CommandCarriesValidatedValues(c: Config, args: MethodArgs)
    requires ValidateParams(args, c.treeString).Ok?
    requires c.params == ValidateParams(args, c.treeString).value
    requires UnescapeSpaces(c.geneticCode) in Names
    ensures var t := CommandTokens(c);
      var tree := c.treeString;
      && (args.Method().TakesGeneticCode() ==> UnescapeSpaces(t[1]) in Names)
      && ((args.FELArgs? || args.MEMEArgs? || args.SLACArgs? || args.ABSRELArgs? || args.BUSTEDArgs?) ==>
            t[4] in SharedBranchChoices || t[4] in Closed(tree))
      && (args.RELAXArgs? ==> t[4] in Closed(tree))
      && (args.SLACArgs? ==> 0 <= DecimalValue(t[5]) <= 100000)
      && (args.ProteinRatesArgs? ==> t[3] in ProteinModels)
      && (args.NucleotideRatesArgs? ==> t[3] in NucleotideModels)
  {
    var tree := c.treeString;
    if args.Method().TakesGeneticCode() {
      CommandGeneticCodeListed(c);
    }
    LabelsAreClosedTexts(tree);
    match args
    case SLACArgs(branches, samples) =>
      SLACAccepts(branches, samples, tree);
    case RELAXArgs(_, _, _) =>
      assert c.params.testLabel in AllLabels(tree);
    case _ =>
  }

  /** With the defaults, FEL's command is the batch file, "Universal", the
      alignment, the tree argument, "All", "Yes" and "0.1", in that order. */
  lemma FELDefaults(libpath: string, inputs: Inputs)
    ensures Setup(BaseArgs(libpath, inputs, None, None, None), FELArgs(None, None)).Ok?
    ensures CommandTokens(Setup(BaseArgs(libpath, inputs, None, None, None), FELArgs(None, None)).value) ==
      [libpath + "TemplateBatchFiles/SelectionAnalyses/" + "FEL.bf", "Universal",
       inputs.alignment, inputs.treeArg, "All", "Yes", "0.1"]
  {
    FELDefaultConfig(libpath, inputs);
  }
}
