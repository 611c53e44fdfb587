/** The method-specific checks the analysis constructors run on their
    keyword arguments: branch selection, yes/no flags, the SLAC bootstrap
    range, the substitution-model lists and the RELAX label rules. Each check
    fails fast with the `Error` of the assertion the runner raises. */
module Parameters {
  import opened Outcomes
  import opened Text
  import opened Labels

  /** Branch selections every tree supports, besides its own labels. */
  const SharedBranchChoices: seq<string> := ["All", "Internal", "Leaves", "Unlabeled branches"]
  const UnlabeledBranches := "Unlabeled branches"

  const ProteinModels: seq<string> := ["JC69", "WAG", "LG", "JTT"]
  const NucleotideModels: seq<string> := ["GTR", "HKY85", "JC69"]

  const MinBootstrapSamples := 0
  const MaxBootstrapSamples := 100000

  const AnalysisTypes: seq<string> := ["All", "Minimal"]

  /** The analyses the runner supports. */
  datatype Method =
    | FEL | MEME | SLAC | ABSREL | BUSTED | RELAX
    | RelativeProteinRates | RelativeNucleotideRates
  {
    /** The two analyses of relative site rates, which live outside the
        selection analyses. */
    predicate RelativeRate() {
      RelativeProteinRates? || RelativeNucleotideRates?
    }

    /** The analyses that scan the tree for labels. */
    predicate ScansLabels() {
      !RelativeRate()
    }

    /** The codon analyses, whose batch files take a genetic code. */
    predicate TakesGeneticCode() {
      !RelativeRate()
    }
  }

  /** A yes/no keyword argument as the caller may pass it. */
  datatype YesNoArg = YesNoText(text: string) | YesNoBool(flag: bool) | YesNoOther

  /** The keyword arguments of each analysis's constructor; `None` is an
      argument not given. */
  datatype MethodArgs =
    | FELArgs(twoRate: Option<YesNoArg>, branches: Option<string>)
    | MEMEArgs(branches: Option<string>)
    | SLACArgs(branches: Option<string>, bootstrapSamples: Option<int>)
    | ABSRELArgs(branches: Option<string>)
    | BUSTEDArgs(branches: Option<string>)
    | RELAXArgs(testLabel: Option<string>, referenceLabel: Option<string>, analysisType: Option<string>)
    | ProteinRatesArgs(model: Option<string>, plusF: Option<YesNoArg>)
    | NucleotideRatesArgs(model: Option<string>)
  {
    function Method(): Method {
      match this
      case FELArgs(_, _) => FEL
      case MEMEArgs(_) => MEME
      case SLACArgs(_, _) => SLAC
      case ABSRELArgs(_) => ABSREL
      case BUSTEDArgs(_) => BUSTED
      case RELAXArgs(_, _, _) => RELAX
      case ProteinRatesArgs(_, _) => RelativeProteinRates
      case NucleotideRatesArgs(_) => RelativeNucleotideRates
    }
  }

  /** The validated, method-specific fields of a constructed analysis. */
  datatype Params =
    | FELParams(branches: string, srv: string)
    | MEMEParams(branches: string)
    | SLACParams(branches: string, bootstrapSamples: string)
    | ABSRELParams(branches: string)
    | BUSTEDParams(branches: string)
    | RELAXParams(testLabel: string, referenceLabel: Option<string>, analysisType: string)
    | ProteinRatesParams(model: string, plusF: string)
    | NucleotideRatesParams(model: string)
  {
    function Method(): Method {
      match this
      case FELParams(_, _) => FEL
      case MEMEParams(_) => MEME
      case SLACParams(_, _) => SLAC
      case ABSRELParams(_) => ABSREL
      case BUSTEDParams(_) => BUSTED
      case RELAXParams(_, _, _) => RELAX
      case ProteinRatesParams(_, _) => RelativeProteinRates
      case NucleotideRatesParams(_) => RelativeNucleotideRates
    }
  }

  // ---------------------------------------------------------------------
  // The individual checks
  // ---------------------------------------------------------------------

  /** The branch-selection sanity check against the scanned labels. */
  function CheckBranchSelection(branches: string, labels: seq<string>): (r: Result<string>)
    ensures r.Ok? <==> branches in SharedBranchChoices || branches in labels
    ensures r.Ok? ==> r.value == branches
    ensures r.Err? ==> r.error == BadBranchSelection
  {
    if branches in SharedBranchChoices + labels then Ok(branches) else Err(BadBranchSelection)
  }

  /** The yes/no formatter: booleans become "Yes"/"No"; a string is returned
      as given, since the capitalised copy is discarded; anything else is a
      type error. */
  function FormatYesNo(arg: YesNoArg): (r: Result<string>)
    ensures r.Ok? <==> !arg.YesNoOther?
    ensures arg.YesNoBool? ==> r.Ok? && (r.value == "Yes" <==> arg.flag) && (r.value == "No" <==> !arg.flag)
    ensures arg.YesNoText? ==> r == Ok(arg.text)
    ensures r.Err? ==> r.error == YesNoTypeError
  {
    match arg
    case YesNoText(s) => Ok(s)
    case YesNoBool(b) => Ok(if b then "Yes" else "No")
    case YesNoOther => Err(YesNoTypeError)
  }

  /** The SLAC range check, then the count rendered as the decimal text that
      goes on the command line. */
  function CheckBootstrap(n: int): (r: Result<string>)
    ensures r.Ok? <==> 0 <= n <= 100000
    ensures r.Ok? ==> DecimalValue(r.value) == n && forall i :: 0 <= i < |r.value| ==> '0' <= r.value[i] <= '9'
    ensures r.Err? ==> r.error == BootstrapOutOfRange
  {
    if MinBootstrapSamples <= n <= MaxBootstrapSamples then
      DecimalRoundTrip(n);
      Ok(NatToDecimal(n))
    else
      Err(BootstrapOutOfRange)
  }

  function CheckProteinModel(model: string): (r: Result<string>)
    ensures r.Ok? <==> model == "JC69" || model == "WAG" || model == "LG" || model == "JTT"
    ensures r.Ok? ==> r.value == model
    ensures r.Err? ==> r.error == UnavailableProteinModel
  {
    if model in ProteinModels then Ok(model) else Err(UnavailableProteinModel)
  }

  function CheckNucleotideModel(model: string): (r: Result<string>)
    ensures r.Ok? <==> model == "GTR" || model == "HKY85" || model == "JC69"
    ensures r.Ok? ==> r.value == model
    ensures r.Err? ==> r.error == UnavailableNucleotideModel
  {
    if model in NucleotideModels then Ok(model) else Err(UnavailableNucleotideModel)
  }

  /** The RELAX constructor's checks, in the order it makes them: at least
      one label; a test label among them; with two or more labels, a missing
      reference becomes "Unlabeled branches" and a given one must be a label
      (with exactly one label the reference is kept unchecked); and the
      capitalised analysis type must be "All" or "Minimal". */
  function ValidateRelax(labels: seq<string>, testLabel: Option<string>,
                         referenceLabel: Option<string>, analysisType: Option<string>): (r: Result<Params>)
    ensures r.Ok? <==>
      && |labels| > 0
      && testLabel.Some? && testLabel.value in labels
      && (|labels| > 1 && referenceLabel.Some? ==> referenceLabel.value in labels)
      && Capitalize(analysisType.GetOr("All")) in AnalysisTypes
    ensures labels == [] ==> r == Err(NoTreeLabels)
    ensures labels != [] && (testLabel.None? || testLabel.value !in labels) ==> r == Err(BadTestLabel)
    ensures (&& testLabel.Some? && testLabel.value in labels && |labels| > 1
             && referenceLabel.Some? && referenceLabel.value !in labels) ==>
      r == Err(BadReferenceLabel)
    ensures (&& labels != [] && testLabel.Some? && testLabel.value in labels
             && (|labels| > 1 && referenceLabel.Some? ==> referenceLabel.value in labels)
             && Capitalize(analysisType.GetOr("All")) !in AnalysisTypes) ==>
      r == Err(BadAnalysisType)
    ensures r.Ok? ==> r.value.RELAXParams? && Some(r.value.testLabel) == testLabel
    ensures r.Ok? && |labels| > 1 ==>
      r.value.referenceLabel == Some(referenceLabel.GetOr(UnlabeledBranches))
    ensures r.Ok? && |labels| == 1 ==> r.value.referenceLabel == referenceLabel
    ensures r.Ok? ==> r.value.analysisType == Capitalize(analysisType.GetOr("All"))
    ensures r.Ok? ==> r.value.analysisType == "All" || r.value.analysisType == "Minimal"
  {
    if |labels| == 0 then Err(NoTreeLabels)
    else if testLabel.None? || testLabel.value !in labels then Err(BadTestLabel)
    else
      var reference :=
        if |labels| > 1 && referenceLabel.None? then Some(UnlabeledBranches) else referenceLabel;
      if |labels| > 1 && referenceLabel.Some? && referenceLabel.value !in labels then Err(BadReferenceLabel)
      else
        var kind := Capitalize(analysisType.GetOr(AnalysisTypes[0]));
        if kind !in AnalysisTypes then Err(BadAnalysisType)
        else Ok(RELAXParams(testLabel.value, reference, kind))
  }

  // ---------------------------------------------------------------------
  // Each constructor's method-specific part
  // ---------------------------------------------------------------------

  /** FEL: the yes/no synonymous-rate flag (keyword `two_rate`, default
      "Yes") is formatted first, then the branch selection (default "All")
      is checked. */
  function ValidateFEL(twoRate: Option<YesNoArg>, branches: Option<string>, labels: seq<string>): (r: Result<Params>)
    ensures r.Ok? <==>
      !twoRate.GetOr(YesNoText("Yes")).YesNoOther?
      && (branches.GetOr("All") in SharedBranchChoices || branches.GetOr("All") in labels)
    ensures twoRate.GetOr(YesNoText("Yes")).YesNoOther? ==> r == Err(YesNoTypeError)
    ensures (&& !twoRate.GetOr(YesNoText("Yes")).YesNoOther?
             && branches.GetOr("All") !in SharedBranchChoices && branches.GetOr("All") !in labels) ==>
      r == Err(BadBranchSelection)
    ensures r.Ok? ==> r.value.FELParams? && r.value.branches == branches.GetOr("All")
    ensures r.Ok? && twoRate.None? ==> r.value.srv == "Yes"
    ensures r.Ok? && twoRate.Some? && twoRate.value.YesNoBool? ==>
      r.value.srv == if twoRate.value.flag then "Yes" else "No"
    ensures r.Ok? && twoRate.Some? && twoRate.value.YesNoText? ==> r.value.srv == twoRate.value.text
  {
    var srv :- FormatYesNo(twoRate.GetOr(YesNoText("Yes")));
    var b :- CheckBranchSelection(branches.GetOr("All"), labels);
    Ok(FELParams(b, srv))
  }

  /** MEME, aBSREL and BUSTED: only the branch selection (default "All"). */
  function ValidateSelection(m: Method, branches: Option<string>, labels: seq<string>): (r: Result<Params>)
    requires m == MEME || m == ABSREL || m == BUSTED
    ensures r.Ok? <==> branches.GetOr("All") in SharedBranchChoices || branches.GetOr("All") in labels
    ensures r.Err? ==> r.error == BadBranchSelection
    ensures r.Ok? ==> r.value.Method() == m && r.value.branches == branches.GetOr("All")
  {
    var b :- CheckBranchSelection(branches.GetOr("All"), labels);
    Ok(match m
       case MEME => MEMEParams(b)
       case ABSREL => ABSRELParams(b)
       case _ => BUSTEDParams(b))
  }

  /** SLAC: the branch selection, then the bootstrap count (default 100). */
  function ValidateSLAC(branches: Option<string>, samples: Option<int>, labels: seq<string>): (r: Result<Params>)
    ensures r.Ok? <==>
      (branches.GetOr("All") in SharedBranchChoices || branches.GetOr("All") in labels)
      && 0 <= samples.GetOr(100) <= 100000
    ensures r.Err? && branches.GetOr("All") !in SharedBranchChoices && branches.GetOr("All") !in labels ==>
      r.error == BadBranchSelection
    ensures ((branches.GetOr("All") in SharedBranchChoices || branches.GetOr("All") in labels)
             && !(0 <= samples.GetOr(100) <= 100000)) ==>
      r == Err(BootstrapOutOfRange)
    ensures r.Ok? ==> r.value.SLACParams? && r.value.branches == branches.GetOr("All")
    ensures r.Ok? ==> DecimalValue(r.value.bootstrapSamples) == samples.GetOr(100)
  {
    var b :- CheckBranchSelection(branches.GetOr("All"), labels);
    var n :- CheckBootstrap(samples.GetOr(100));
    Ok(SLACParams(b, n))
  }

  /** The protein relative-rate analysis: the model (default "JC69") must be
      listed, then the +F flag is formatted; its default is the string
      "True", which the formatter passes through unchanged. */
  function ValidateProteinRates(model: Option<string>, plusF: Option<YesNoArg>): (r: Result<Params>)
    ensures r.Ok? <==> model.GetOr("JC69") in ProteinModels && !plusF.GetOr(YesNoText("True")).YesNoOther?
    ensures model.GetOr("JC69") !in ProteinModels ==> r == Err(UnavailableProteinModel)
    ensures model.GetOr("JC69") in ProteinModels && plusF.GetOr(YesNoText("True")).YesNoOther? ==>
      r == Err(YesNoTypeError)
    ensures r.Ok? ==> r.value.ProteinRatesParams? && r.value.model == model.GetOr("JC69")
    ensures r.Ok? && plusF.None? ==> r.value.plusF == "True"
    ensures r.Ok? && plusF.Some? && plusF.value.YesNoBool? ==>
      r.value.plusF == if plusF.value.flag then "Yes" else "No"
    ensures r.Ok? && plusF.Some? && plusF.value.YesNoText? ==> r.value.plusF == plusF.value.text
  {
    var m :- CheckProteinModel(model.GetOr("JC69"));
    var f :- FormatYesNo(plusF.GetOr(YesNoText("True")));
    Ok(ProteinRatesParams(m, f))
  }

  /** The nucleotide relative-rate analysis: the model (default "GTR") must
      be listed. */
  function ValidateNucleotideRates(model: Option<string>): (r: Result<Params>)
    ensures r.Ok? <==> model.GetOr("GTR") in NucleotideModels
    ensures r.Err? ==> r.error == UnavailableNucleotideModel
    ensures r.Ok? ==> r == Ok(NucleotideRatesParams(model.GetOr("GTR")))
  {
    var m :- CheckNucleotideModel(model.GetOr("GTR"));
    Ok(NucleotideRatesParams(m))
  }

  /** The method-specific part of each analysis constructor; the analyses
      that work with branch sets check against the labels scanned from
      `tree`. */
  function ValidateParams(args: MethodArgs, tree: string): (r: Result<Params>)
    ensures r.Ok? ==> r.value.Method() == args.Method()
  {
    match args
    case FELArgs(twoRate, branches) => ValidateFEL(twoRate, branches, AllLabels(tree))
    case MEMEArgs(branches) => ValidateSelection(MEME, branches, AllLabels(tree))
    case SLACArgs(branches, samples) => ValidateSLAC(branches, samples, AllLabels(tree))
    case ABSRELArgs(branches) => ValidateSelection(ABSREL, branches, AllLabels(tree))
    case BUSTEDArgs(branches) => ValidateSelection(BUSTED, branches, AllLabels(tree))
    case RELAXArgs(test, reference, kind) => ValidateRelax(AllLabels(tree), test, reference, kind)
    case ProteinRatesArgs(model, plusF) => ValidateProteinRates(model, plusF)
    case NucleotideRatesArgs(model) => ValidateNucleotideRates(model)
  }

  // ---------------------------------------------------------------------
  // What the checks promise, stated against the tree itself
  // ---------------------------------------------------------------------

  /** A branch selection passes iff it is a shared keyword or the text that
      some `}` of the tree closes. */
  lemma BranchSelectionAgainstTree(branches: string, tree: string)
    ensures CheckBranchSelection(branches, AllLabels(tree)).Ok? <==>
      branches in SharedBranchChoices || branches in Closed(tree)
  {
    LabelsAreClosedTexts(tree);
  }

  /** The selection analyses (FEL, MEME, ABSREL, BUSTED) accept exactly the
      branch selections the sanity check accepts, and keep them as given. */
  lemma SelectionAnalysesAccept(args: MethodArgs, tree: string)
    requires args.MEMEArgs? || args.ABSRELArgs? || args.BUSTEDArgs?
             || (args.FELArgs? && !args.twoRate.GetOr(YesNoText("Yes")).YesNoOther?)
    ensures ValidateParams(args, tree).Ok? <==>
      args.branches.GetOr("All") in SharedBranchChoices || args.branches.GetOr("All") in Closed(tree)
    ensures ValidateParams(args, tree).Ok? ==>
      ValidateParams(args, tree).value.branches == args.branches.GetOr("All")
  {
    BranchSelectionAgainstTree(args.branches.GetOr("All"), tree);
  }

  /** SLAC accepts iff the branch selection passes and the bootstrap count
      lies in [0, 100000], both ends included; the count's text denotes it. */
  lemma SLACAccepts(branches: Option<string>, samples: Option<int>, tree: string)
    ensures ValidateParams(SLACArgs(branches, samples), tree).Ok? <==>
      (branches.GetOr("All") in SharedBranchChoices || branches.GetOr("All") in Closed(tree))
      && 0 <= samples.GetOr(100) <= 100000
    ensures ValidateParams(SLACArgs(branches, samples), tree).Ok? ==>
      DecimalValue(ValidateParams(SLACArgs(branches, samples), tree).value.bootstrapSamples) == samples.GetOr(100)
  {
    BranchSelectionAgainstTree(branches.GetOr("All"), tree);
  }

  /** The capitalisation makes the analysis type case-insensitive. */
  lemma AnalysisTypeIgnoresCase(kind: string)
    ensures Capitalize(kind) in AnalysisTypes <==> Lowered(kind) == "all" || Lowered(kind) == "minimal"
  {
    assert Capitalize("All") == "All" by {
      assert Lowered("ll") == "ll";
    }
    assert Capitalize("Minimal") == "Minimal" by {
      assert Lowered("inimal") == "inimal";
    }
    assert Lowered("All") == "all";
    assert Lowered("Minimal") == "minimal";
    CapitalizeMatchesIgnoringCase(kind, "All");
    CapitalizeMatchesIgnoringCase(kind, "Minimal");
  }

  /** RELAX accepts iff the tree has a label, the test label is one, a
      reference given with two or more labels is one, and the analysis type
      is "all" or "minimal" in any case; a reference is always a tree label
      or "Unlabeled branches" when the tree has two or more labels. */
  lemma RELAXAccepts(test: Option<string>, reference: Option<string>, kind: Option<string>, tree: string)
    ensures ValidateParams(RELAXArgs(test, reference, kind), tree).Ok? <==>
      && Closed(tree) != []
      && test.Some? && test.value in Closed(tree)
      && (|AllLabels(tree)| > 1 && reference.Some? ==> reference.value in Closed(tree))
      && (Lowered(kind.GetOr("All")) == "all" || Lowered(kind.GetOr("All")) == "minimal")
    ensures ValidateParams(RELAXArgs(test, reference, kind), tree).Ok? && |AllLabels(tree)| > 1 ==>
      var p := ValidateParams(RELAXArgs(test, reference, kind), tree).value;
      p.referenceLabel.Some? &&
      (p.referenceLabel.value in Closed(tree) || p.referenceLabel.value == UnlabeledBranches)
  {
    LabelsAreClosedTexts(tree);
    AnalysisTypeIgnoresCase(kind.GetOr("All"));
    if Closed(tree) != [] {
      assert Closed(tree)[0] in AllLabels(tree);
    }
  }

  /** With exactly one label in the tree, any reference label is accepted
      and kept, even one that is not in the tree. */
  lemma RELAXSingleLabelReferenceUnchecked()
    ensures ValidateParams(RELAXArgs(Some("Fg"), Some("Bg"), None), "(a{Fg},b);")
         == Ok(RELAXParams("Fg", Some("Bg"), "All"))
  {
    SingleLabelTree();
    assert Capitalize("All") == "All" by {
      assert Lowered("ll") == "ll";
    }
  }

  /** The tree of the example above has the one label `Fg`. */
  lemma SingleLabelTree()
    ensures AllLabels("(a{Fg},b);") == ["Fg"]
  {
    var t := "(a{Fg},b);";
    assert t[..1][..0] == t[..0];
    assert Scan(t[..1]) == ScanState(false, "", []);
    assert t[..2][..1] == t[..1];
    assert Scan(t[..2]) == ScanState(false, "", []);
    assert t[..3][..2] == t[..2];
    assert Scan(t[..3]) == ScanState(true, "", []);
    assert t[..4][..3] == t[..3];
    assert Scan(t[..4]) == ScanState(true, "F", []);
    assert t[..5][..4] == t[..4];
    assert Scan(t[..5]) == ScanState(true, "Fg", []);
    assert t[..6][..5] == t[..5];
    assert Scan(t[..6]) == ScanState(false, "", ["Fg"]);
    assert '}' !in t[6..];
    assert t == t[..6] + t[6..];
    UnclosedTailAddsNothing(t[..6], t[6..]);
  }

  /** A protein analysis accepts iff the model is one of the four listed and
      the +F flag is a string or a boolean; left at its default the flag is
      the string "True", not "Yes". */
  lemma ProteinRatesAccepts(model: Option<string>, plusF: Option<YesNoArg>, tree: string)
    ensures ValidateParams(ProteinRatesArgs(model, plusF), tree).Ok? <==>
      model.GetOr("JC69") in ProteinModels && !plusF.GetOr(YesNoText("True")).YesNoOther?
    ensures plusF.None? && model.GetOr("JC69") in ProteinModels ==>
      ValidateParams(ProteinRatesArgs(model, plusF), tree).value.plusF == "True"
  {
  }

  /** FEL's defaults: every branch, and a synonymous rate that varies. */
  lemma FELDefaultParams(tree: string)
    ensures ValidateParams(FELArgs(None, None), tree) == Ok(FELParams("All", "Yes"))
  {
    assert "All" in SharedBranchChoices;
  }
}
