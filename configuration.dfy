/** What a successfully constructed analysis holds: the resolved inputs, the
    escaped genetic code, the batch file and where it lives, the default
    path of the JSON result, the scanned labels and the method-specific
    parameters. `Setup` is the whole constructor chain (base constructor,
    then the analysis's own) as one function of its arguments. */
module Configuration {
  import opened Outcomes
  import opened Text
  import opened GeneticCode
  import opened Labels
  import opened Parameters

  /** What the file handling hands on, taken as given: the absolute
      alignment path, the tree argument of the command line (the tree file's
      path, "" for a NEXUS file or "Y" for a combined file whose tree was
      found by pattern) and the tree string the scanner reads. */
  datatype Inputs = Inputs(alignment: string, treeArg: string, treeString: string)

  /** The base constructor's arguments. `alpha` is the text `str` gives of
      the threshold; `libpath` is the HyPhy library directory. */
  datatype BaseArgs = BaseArgs(libpath: string, inputs: Inputs, alpha: Option<string>,
                               output: Option<string>, geneticCode: Option<GeneticCodeArg>)

  /** `str(0.1)`, the default significance threshold. */
  const DefaultAlpha := "0.1"

  datatype Config = Config(
    alignment: string,
    treeArg: string,
    treeString: string,
    alpha: string,
    output: Option<string>,
    geneticCode: string,
    analysisPath: string,
    batchfile: string,
    defaultJsonPath: string,
    labels: seq<string>,
    params: Params)

  /** The directory of the method's batch file under the library path. */
  function AnalysisPath(libpath: string, m: Method): string {
    match m
    case RelativeProteinRates => libpath + "TemplateBatchFiles/ProteinAnalyses/"
    case RelativeNucleotideRates => libpath + "TemplateBatchFiles/"
    case _ => libpath + "TemplateBatchFiles/SelectionAnalyses/"
  }

  function Batchfile(m: Method): string {
    match m
    case FEL => "FEL.bf"
    case MEME => "MEME.bf"
    case SLAC => "SLAC.bf"
    case ABSREL => "aBSREL.bf"
    case BUSTED => "BUSTED.bf"
    case RELAX => "RELAX.bf"
    case RelativeProteinRates => "relative_prot_rates.bf"
    case RelativeNucleotideRates => "relative_nucleotide_rates.bf"
  }

  /** What HyPhy appends to the alignment path to name its JSON result. */
  function JsonSuffix(m: Method): string {
    match m
    case FEL => ".FEL.json"
    case MEME => ".MEME.json"
    case SLAC => ".SLAC.json"
    case ABSREL => ".json"
    case BUSTED => ".BUSTED.json"
    case RELAX => ".RELAX.json"
    case RelativeProteinRates => ".site-rates.json"
    case RelativeNucleotideRates => ".site-rates.json"
  }

  function DefaultJsonPath(alignment: string, m: Method): string {
    alignment + JsonSuffix(m)
  }

  lemma SuffixEndsInJson(stem: string, suffix: string)
    requires suffix == stem + ".json"
    ensures |suffix| >= 5 && suffix[|suffix| - 5..] == ".json"
  {
  }

  lemma JsonSuffixShape(m: Method)
    ensures |JsonSuffix(m)| >= 5 && JsonSuffix(m)[|JsonSuffix(m)| - 5..] == ".json"
  {
    match m
    case FEL => SuffixEndsInJson(".FEL", JsonSuffix(m));
    case MEME => SuffixEndsInJson(".MEME", JsonSuffix(m));
    case SLAC => SuffixEndsInJson(".SLAC", JsonSuffix(m));
    case ABSREL => SuffixEndsInJson("", JsonSuffix(m));
    case BUSTED => SuffixEndsInJson(".BUSTED", JsonSuffix(m));
    case RELAX => SuffixEndsInJson(".RELAX", JsonSuffix(m));
    case RelativeProteinRates => SuffixEndsInJson(".site-rates", JsonSuffix(m));
    case RelativeNucleotideRates => SuffixEndsInJson(".site-rates", JsonSuffix(m));
  }

  /** The default result path is the alignment path followed by a suffix
      that ends in ".json"; cutting the suffix off gives the alignment back. */
  lemma DefaultJsonPathShape(alignment: string, m: Method)
    ensures var p := DefaultJsonPath(alignment, m);
      |p| > |alignment| + 4 && p[..|alignment|] == alignment && p[|p| - 5..] == ".json"
  {
    var s := JsonSuffix(m);
    JsonSuffixShape(m);
    var p := alignment + s;
    assert p[|p| - 5..] == s[|s| - 5..];
  }

  /** Two analyses of one alignment default to the same result path exactly
      when they are the same analysis or the two relative-rate analyses,
      which share ".site-rates.json". */
  lemma DefaultJsonPathsCollide(alignment: string, m1: Method, m2: Method)
    ensures DefaultJsonPath(alignment, m1) == DefaultJsonPath(alignment, m2) <==>
      m1 == m2 || (m1.RelativeRate() && m2.RelativeRate())
  {
    assert DefaultJsonPath(alignment, m1)[|alignment|..] == JsonSuffix(m1);
    assert DefaultJsonPath(alignment, m2)[|alignment|..] == JsonSuffix(m2);
    if m1 != m2 && (!m1.RelativeRate() || !m2.RelativeRate()) {
      assert JsonSuffix(m1) != JsonSuffix(m2) by {
        if |JsonSuffix(m1)| == |JsonSuffix(m2)| {
          assert JsonSuffix(m1)[1] != JsonSuffix(m2)[1];
        }
      }
    }
  }

  /** The fields an analysis holds once its genetic code is resolved to
      `code` and its own arguments are validated to `params`. Only the
      analyses that scan the tree keep its labels. */
  function Assemble(base: BaseArgs, args: MethodArgs, code: string, params: Params): Config {
    var m := args.Method();
    Config(
      base.inputs.alignment, base.inputs.treeArg, base.inputs.treeString,
      base.alpha.GetOr(DefaultAlpha), base.output, code,
      AnalysisPath(base.libpath, m), Batchfile(m), DefaultJsonPath(base.inputs.alignment, m),
      if m.ScansLabels() then AllLabels(base.inputs.treeString) else [],
      params)
  }

  /** The base constructor followed by the analysis's own constructor: the
      genetic code is resolved first, then the method-specific checks run;
      the first failing check is the error. */
  function Setup(base: BaseArgs, args: MethodArgs): (r: Result<Config>)
    ensures var code := ResolveGeneticCode(base.geneticCode.GetOr(ByName(DefaultName)));
      && (r.Ok? <==> code.Ok? && ValidateParams(args, base.inputs.treeString).Ok?)
      && (code.Err? ==> r == Err(code.error))
      && (code.Ok? && ValidateParams(args, base.inputs.treeString).Err? ==>
            r == Err(ValidateParams(args, base.inputs.treeString).error))
    ensures r.Ok? ==>
      && r.value.params.Method() == args.Method()
      && r.value.alignment == base.inputs.alignment
      && r.value.treeArg == base.inputs.treeArg
      && r.value.treeString == base.inputs.treeString
      && r.value.defaultJsonPath == DefaultJsonPath(base.inputs.alignment, args.Method())
      && UnescapeSpaces(r.value.geneticCode) in Names
    ensures r.Ok? ==>
      && r.value.geneticCode == ResolveGeneticCode(base.geneticCode.GetOr(ByName(DefaultName))).value
      && r.value.params == ValidateParams(args, base.inputs.treeString).value
      && r.value.labels == (if args.Method().ScansLabels() then AllLabels(base.inputs.treeString) else [])
      && r.value.batchfile == Batchfile(args.Method())
      && r.value.analysisPath == AnalysisPath(base.libpath, args.Method())
      && r.value.alpha == base.alpha.GetOr(DefaultAlpha)
      && r.value.output == base.output
  {
    var code :- ResolveGeneticCode(base.geneticCode.GetOr(ByName(DefaultName)));
    var params :- ValidateParams(args, base.inputs.treeString);
    Ok(Assemble(base, args, code, params))
  }

  /** When both parts succeed, `Setup` is their assembly. */
  lemma SetupParts(base: BaseArgs, args: MethodArgs)
    requires ResolveGeneticCode(base.geneticCode.GetOr(ByName(DefaultName))).Ok?
    requires ValidateParams(args, base.inputs.treeString).Ok?
    ensures Setup(base, args) == Ok(Assemble(base, args,
      ResolveGeneticCode(base.geneticCode.GetOr(ByName(DefaultName))).value,
      ValidateParams(args, base.inputs.treeString).value))
  {
  }

  /** A protein or nucleotide analysis still fails on a bad genetic code,
      although its command never uses one. */
  lemma RateAnalysesStillCheckGeneticCode(base: BaseArgs, args: MethodArgs, name: string)
    requires args.ProteinRatesArgs? || args.NucleotideRatesArgs?
    requires base.geneticCode == Some(ByName(name)) && name !in Names
    ensures Setup(base, args) == Err(InvalidGeneticCode)
  {
  }

  /** A numeric genetic code never gets through: a listed number fails when
      its spaces are escaped, any other number fails the table check. */
  lemma NumericGeneticCodesRejected(base: BaseArgs, args: MethodArgs, n: int)
    requires base.geneticCode == Some(ByNumber(n))
    ensures Setup(base, args).Err?
    ensures 1 <= n <= 19 ==> Setup(base, args) == Err(GeneticCodeNotText)
  {
  }

  /** FEL with every default: the "Universal" code, threshold "0.1", every
      branch and a varying synonymous rate, with the batch file under
      SelectionAnalyses and the result beside the alignment. */
  lemma FELDefaultConfig(libpath: string, inputs: Inputs)
    ensures Setup(BaseArgs(libpath, inputs, None, None, None), FELArgs(None, None)) ==
      Ok(Config(inputs.alignment, inputs.treeArg, inputs.treeString, "0.1", None, "Universal",
        libpath + "TemplateBatchFiles/SelectionAnalyses/", "FEL.bf", inputs.alignment + ".FEL.json",
        AllLabels(inputs.treeString), FELParams("All", "Yes")))
  {
    var base := BaseArgs(libpath, inputs, None, None, None);
    DefaultGeneticCode();
    FELDefaultParams(inputs.treeString);
    SetupParts(base, FELArgs(None, None));
  }
}
