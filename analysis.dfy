/** The analysis objects themselves: the base constructor's fields, the
    label scanner that fills `allLabels`, each analysis constructor's checks
    applied one after the other to the object, and the command builder.
    `Snapshot` reads the fields as a `Config`, so that every method here is
    proved against the functions of the other modules. */
module Analyses {
  import opened Outcomes
  import opened Text
  import opened GeneticCode
  import opened Labels
  import opened Parameters
  import opened Configuration
  import opened Commands

  class Analysis {
    var libpath: string
    var hyphyAlignment: string
    var hyphyTree: string
    var treeString: string
    var alpha: string
    var userJsonPath: Option<string>
    var geneticCode: string
    var analysisPath: string
    var batchfile: string
    var defaultJsonPath: string
    var allLabels: seq<string>
    /** The analysis's own arguments once its constructor has checked them. */
    var params: Option<Params>
    var batchfileWithPath: string
    var analysisCommand: string

    /** The configured state as a value. */
    function Snapshot(): Config
      reads this
      requires params.Some?
    {
      Config(hyphyAlignment, hyphyTree, treeString, alpha, userJsonPath, geneticCode,
             analysisPath, batchfile, defaultJsonPath, allLabels, params.value)
    }

    /** The base constructor once the genetic code is resolved: the inputs,
        the threshold (default "0.1"), the output path and the batch-file
        directory shared by the selection analyses. */
    constructor Base(libpath: string, inputs: Inputs, alpha: Option<string>,
                     output: Option<string>, code: string)
      ensures this.libpath == libpath
      ensures hyphyAlignment == inputs.alignment && hyphyTree == inputs.treeArg
      ensures treeString == inputs.treeString
      ensures this.alpha == alpha.GetOr(DefaultAlpha) && userJsonPath == output
      ensures geneticCode == code
      ensures analysisPath == libpath + "TemplateBatchFiles/SelectionAnalyses/"
      ensures allLabels == [] && params.None?
    {
      this.libpath := libpath;
      hyphyAlignment := inputs.alignment;
      hyphyTree := inputs.treeArg;
      treeString := inputs.treeString;
      this.alpha := alpha.GetOr(DefaultAlpha);
      userJsonPath := output;
      geneticCode := code;
      analysisPath := libpath + "TemplateBatchFiles/SelectionAnalyses/";
      batchfile := "";
      defaultJsonPath := "";
      allLabels := [];
      params := None;
      batchfileWithPath := "";
      analysisCommand := "";
    }

    /** The scanning loop: one pass over the tree string with the brace
        flag and the label accumulator as locals; the labels go into the
        field. */
    method FindAllLabels()
      modifies this`allLabels
      ensures allLabels == AllLabels(treeString)
    {
      allLabels := [];
      var pending := "";
      var curly := false;
      var i := 0;
      while i < |treeString|
        invariant 0 <= i <= |treeString|
        invariant ScanState(curly, pending, allLabels) == Scan(treeString[..i])
      {
        assert treeString[..i + 1][..i] == treeString[..i];
        var c := treeString[i];
        if c == '{' {
          curly := true;
        } else {
          if c == '}' {
            curly := false;
            if pending !in allLabels {
              allLabels := allLabels + [pending];
            }
            pending := "";
          }
          if curly {
            pending := pending + [c];
          }
        }
        i := i + 1;
      }
      assert treeString[..i] == treeString;
    }

    /** Scans the labels, then passes exactly when the branch selection is
        a shared keyword or one of them. */
    method SanityBranchSelection(branches: string) returns (o: Outcome)
      modifies this`allLabels
      ensures allLabels == AllLabels(treeString)
      ensures o == Pass <==> branches in SharedBranchChoices || branches in allLabels
      ensures o.Fail? ==> o.error == BadBranchSelection
    {
      FindAllLabels();
      var allowed := SharedBranchChoices + allLabels;
      if branches in allowed {
        o := Pass;
      } else {
        o := Fail(BadBranchSelection);
      }
    }

    /** The RELAX constructor's checks on the object, in their order. */
    method ConfigureRelax(test: Option<string>, reference: Option<string>, kind: Option<string>)
      returns (o: Outcome)
      modifies this`allLabels, this`params
      ensures allLabels == AllLabels(treeString)
      ensures var v := ValidateRelax(AllLabels(treeString), test, reference, kind);
        && (o.Pass? <==> v.Ok?)
        && (o.Fail? ==> v == Err(o.error))
        && (o.Pass? ==> params == Some(v.value))
    {
      FindAllLabels();
      if |allLabels| == 0 {
        return Fail(NoTreeLabels);
      }
      if test.None? || test.value !in allLabels {
        return Fail(BadTestLabel);
      }
      var referenceLabel := reference;
      if |allLabels| > 1 {
        if referenceLabel.None? {
          referenceLabel := Some(SharedBranchChoices[|SharedBranchChoices| - 1]);
        } else if referenceLabel.value !in allLabels {
          return Fail(BadReferenceLabel);
        }
      }
      var analysisType := Capitalize(kind.GetOr(AnalysisTypes[0]));
      if analysisType !in AnalysisTypes {
        return Fail(BadAnalysisType);
      }
      params := Some(RELAXParams(test.value, referenceLabel, analysisType));
      o := Pass;
    }

    /** FEL's own checks: the yes/no flag, then the branch selection. */
    method ConfigureFEL(twoRate: Option<YesNoArg>, branches: Option<string>) returns (o: Outcome)
      modifies this`allLabels, this`params
      ensures var v := ValidateFEL(twoRate, branches, AllLabels(treeString));
        && (o.Pass? <==> v.Ok?)
        && (o.Fail? ==> v == Err(o.error))
        && (o.Pass? ==> params == Some(v.value) && allLabels == AllLabels(treeString))
    {
      var srv := FormatYesNo(twoRate.GetOr(YesNoText("Yes")));
      if srv.Err? {
        return Fail(srv.error);
      }
      var b := branches.GetOr("All");
      o := SanityBranchSelection(b);
      if o.Pass? {
        params := Some(FELParams(b, srv.value));
      }
    }

    /** The constructors of MEME, aBSREL and BUSTED: the branch selection
        only. */
    method ConfigureSelection(m: Method, branches: Option<string>) returns (o: Outcome)
      requires m == MEME || m == ABSREL || m == BUSTED
      modifies this`allLabels, this`params
      ensures var v := ValidateSelection(m, branches, AllLabels(treeString));
        && (o.Pass? <==> v.Ok?)
        && (o.Fail? ==> v == Err(o.error))
        && (o.Pass? ==> params == Some(v.value) && allLabels == AllLabels(treeString))
    {
      var b := branches.GetOr("All");
      o := SanityBranchSelection(b);
      if o.Pass? {
        params := Some(match m
          case MEME => MEMEParams(b)
          case ABSREL => ABSRELParams(b)
          case _ => BUSTEDParams(b));
      }
    }

    /** SLAC's own checks: the branch selection, then the bootstrap range;
        the count is kept as its decimal text. */
    method ConfigureSLAC(branches: Option<string>, samples: Option<int>) returns (o: Outcome)
      modifies this`allLabels, this`params
      ensures var v := ValidateSLAC(branches, samples, AllLabels(treeString));
        && (o.Pass? <==> v.Ok?)
        && (o.Fail? ==> v == Err(o.error))
        && (o.Pass? ==> params == Some(v.value) && allLabels == AllLabels(treeString))
    {
      var b := branches.GetOr("All");
      o := SanityBranchSelection(b);
      ghost var labels := allLabels;
      assert CheckBranchSelection(b, labels).Ok? <==> o.Pass?;
      if o.Fail? {
        return;
      }
      var n := CheckBootstrap(samples.GetOr(100));
      if n.Err? {
        return Fail(n.error);
      }
      params := Some(SLACParams(b, n.value));
    }

    /** The protein relative-rate constructor's checks: the model, then the
        +F flag. */
    method ConfigureProteinRates(model: Option<string>, plusF: Option<YesNoArg>) returns (o: Outcome)
      modifies this`params
      ensures var v := ValidateProteinRates(model, plusF);
        && (o.Pass? <==> v.Ok?)
        && (o.Fail? ==> v == Err(o.error))
        && (o.Pass? ==> params == Some(v.value))
    {
      var mdl := CheckProteinModel(model.GetOr("JC69"));
      if mdl.Err? {
        return Fail(mdl.error);
      }
      var f := FormatYesNo(plusF.GetOr(YesNoText("True")));
      if f.Err? {
        return Fail(f.error);
      }
      params := Some(ProteinRatesParams(mdl.value, f.value));
      o := Pass;
    }

    /** The nucleotide relative-rate constructor's check of the model. */
    method ConfigureNucleotideRates(model: Option<string>) returns (o: Outcome)
      modifies this`params
      ensures var v := ValidateNucleotideRates(model);
        && (o.Pass? <==> v.Ok?)
        && (o.Fail? ==> v == Err(o.error))
        && (o.Pass? ==> params == Some(v.value))
    {
      var mdl := CheckNucleotideModel(model.GetOr("GTR"));
      if mdl.Err? {
        return Fail(mdl.error);
      }
      params := Some(NucleotideRatesParams(mdl.value));
      o := Pass;
    }

    /** Where the analysis's batch file and result live: the batch file,
        the default result path, and the batch-file directory of the two
        relative-rate analyses. */
    method Locate(m: Method)
      requires analysisPath == libpath + "TemplateBatchFiles/SelectionAnalyses/"
      modifies this`analysisPath, this`batchfile, this`defaultJsonPath
      ensures analysisPath == AnalysisPath(libpath, m)
      ensures batchfile == Batchfile(m)
      ensures defaultJsonPath == DefaultJsonPath(hyphyAlignment, m)
    {
      if m == RelativeProteinRates {
        analysisPath := libpath + "TemplateBatchFiles/ProteinAnalyses/";
      } else if m == RelativeNucleotideRates {
        analysisPath := libpath + "TemplateBatchFiles/";
      }
      batchfile := Batchfile(m);
      defaultJsonPath := hyphyAlignment + JsonSuffix(m);
    }

    /** The checks of the analysis's own arguments, stopping at the first
        that fails. */
    method CheckArguments(args: MethodArgs) returns (o: Outcome)
      requires allLabels == []
      modifies this`allLabels, this`params
      ensures var v := ValidateParams(args, treeString);
        && (o.Pass? <==> v.Ok?)
        && (o.Fail? ==> v == Err(o.error))
      ensures o.Pass? ==>
        && params == Some(ValidateParams(args, treeString).value)
        && allLabels == (if args.Method().ScansLabels() then AllLabels(treeString) else [])
    {
      match args {
        case FELArgs(twoRate, branches) =>
          o := ConfigureFEL(twoRate, branches);
        case MEMEArgs(branches) =>
          o := ConfigureSelection(MEME, branches);
        case SLACArgs(branches, samples) =>
          o := ConfigureSLAC(branches, samples);
        case ABSRELArgs(branches) =>
          o := ConfigureSelection(ABSREL, branches);
        case BUSTEDArgs(branches) =>
          o := ConfigureSelection(BUSTED, branches);
        case RELAXArgs(test, reference, kind) =>
          o := ConfigureRelax(test, reference, kind);
        case ProteinRatesArgs(model, plusF) =>
          o := ConfigureProteinRates(model, plusF);
        case NucleotideRatesArgs(model) =>
          o := ConfigureNucleotideRates(model);
      }
    }

    /** Each analysis's own constructor after the base one: where its batch
        file and result live, then the checks of its arguments. */
    method Configure(args: MethodArgs) returns (o: Outcome)
      requires analysisPath == libpath + "TemplateBatchFiles/SelectionAnalyses/"
      requires allLabels == []
      modifies this`analysisPath, this`batchfile, this`defaultJsonPath, this`allLabels, this`params
      ensures var v := ValidateParams(args, treeString);
        && (o.Pass? <==> v.Ok?)
        && (o.Fail? ==> v == Err(o.error))
      ensures analysisPath == AnalysisPath(libpath, args.Method())
      ensures batchfile == Batchfile(args.Method())
      ensures defaultJsonPath == DefaultJsonPath(hyphyAlignment, args.Method())
      ensures o.Pass? ==>
        && params == Some(ValidateParams(args, treeString).value)
        && allLabels == (if args.Method().ScansLabels() then AllLabels(treeString) else [])
    {
      Locate(args.Method());
      o := CheckArguments(args);
    }

    /** The command builder of the configured analysis: the batch file's
        full path, then the analysis's arguments, joined with single
        spaces. */
    method BuildAnalysisCommand()
      requires params.Some?
      modifies this`batchfileWithPath, this`analysisCommand
      ensures batchfileWithPath == BatchfileWithPath(Snapshot())
      ensures analysisCommand == AnalysisCommand(Snapshot())
    {
      batchfileWithPath := analysisPath + batchfile;
      analysisCommand := AnalysisCommand(Snapshot());
    }
  }

  /** The base constructor with an already resolved genetic code, then the
      analysis's own constructor. */
  method ConstructWithCode(base: BaseArgs, args: MethodArgs, code: string) returns (r: Result<Analysis>)
    ensures var v := ValidateParams(args, base.inputs.treeString);
      && (r.Ok? <==> v.Ok?)
      && (r.Err? ==> v == Err(r.error))
      && (r.Ok? ==> fresh(r.value) && r.value.params.Some? &&
                    r.value.Snapshot() == Assemble(base, args, code, v.value))
  {
    var a := new Analysis.Base(base.libpath, base.inputs, base.alpha, base.output, code);
    var o := a.Configure(args);
    if o.Fail? {
      return Err(o.error);
    }
    r := Ok(a);
  }

  /** Constructing an analysis: the base constructor's genetic-code block,
      then the analysis's own constructor. It fails exactly when `Setup`
      fails, with the same error, and otherwise holds `Setup`'s
      configuration. */
  method NewAnalysis(base: BaseArgs, args: MethodArgs) returns (r: Result<Analysis>)
    ensures r.Ok? <==> Setup(base, args).Ok?
    ensures r.Err? ==> Setup(base, args) == Err(r.error)
    ensures r.Ok? ==>
      fresh(r.value) && r.value.params.Some? && r.value.Snapshot() == Setup(base, args).value
  {
    var code := NormalizeGeneticCode(base.geneticCode.GetOr(ByName(DefaultName)));
    if code.Err? {
      return Err(code.error);
    }
    r := ConstructWithCode(base, args, code.value);
    if r.Ok? {
      SetupParts(base, args);
    }
  }
}
