# phyphy runner: argument checking and command assembly

This project models the part of the phyphy runner (`src/phyphy_runner.py`) that
prepares a HyPhy analysis. It covers eight analyses: FEL, MEME, SLAC, aBSREL,
BUSTED, RELAX and the two relative-rate analyses. For each one it models:

- how the base `Analysis` constructor resolves the genetic code and escapes its
  spaces;
- how `_find_all_labels` scans the tree string for `{label}` branch sets;
- how the constructors check their keyword arguments: branch selection, yes/no
  flags, the SLAC bootstrap range, the substitution models and the RELAX label
  rules;
- how `_build_analysis_command` lays out the positional arguments of the batch
  file;
- where the JSON result is written by default.

Modules:

- `Outcomes`: `Option`, `Result` and the `Error` each failing assertion
  becomes.
- `Text`: `" ".join` and its inverse, space escaping, `capitalize`, `str` of a
  count, and how a POSIX shell cuts a command line into words (`ShellWords`:
  unescaped spaces separate words, a backslash makes the next character part
  of the word, empty words are dropped).
- `GeneticCode`: the 19-entry table, `ResolveGeneticCode` (what the constructor
  produces) and `NormalizeGeneticCode` (the constructor's own steps, including
  the lookup loop).
- `Labels`: the scanner as a fold over prefixes (`Scan`). It is proved equal to
  an independent description of the labels: the text closed by each `}`, with
  repeats removed.
- `Parameters`: each analysis constructor's checks as a function that returns
  the validated arguments or the error of the first check that fails.
- `Configuration`: batch files, directories and default result paths.
  `Setup` runs the whole constructor chain as one function.
- `Commands`: each analysis's token list, and the command as the shell hands
  it to HyPhy. A positional reader (`ReadArguments`) shows that the tokens
  hold every configured value at its position. The runner escapes only the
  genetic code, so a value with a space reaches HyPhy as several words (see
  "## Findings"). `ShellCommand` escapes every value, and the shell then gives
  the batch file every configured value back.
- `Analyses`: the class `Analysis`, whose fields mirror the runner's `self.*`.
  The scanner loop fills `allLabels`, the constructors update the fields one
  step at a time, and the command builder sets `analysisCommand` to the
  runner's own join of the tokens. Each method is proved against the functions
  above.

Behaviour kept as the code has it:

- A numeric genetic code never works. A key 1-19 passes the table check, but
  the lookup loop compares table names with the number. It finds nothing, so
  the value is still a number when `.replace` is applied. That is the error
  `GeneticCodeNotText`.
- With exactly one label in the tree, RELAX passes a supplied reference label
  through unchecked.
- `_format_yesno` returns string arguments unchanged, because the
  `capitalize()` result is discarded. So does the protein analysis's default
  `"True"`.
- FEL reads its flag from the keyword `two_rate`.
- A `}` outside braces records the empty label.
- A second `{` does not reset the label being read.
- A NEXUS input passes the empty tree argument. The shell drops it, and the
  batch file, which asks for no tree then, reads the remaining values.
- `_find_all_labels` is the only place labels come from. The relative-rate
  analyses never run it, so their labels are modelled as the empty list.

## Model

| member | source | states |
|---|---|---|
| `GeneticCode.ResolveGeneticCode` | src/phyphy_runner.py:144-151 | Succeeds iff the argument is one of the 19 table names. The result reads back as the name once `\ ` is read as a space, and every space in it has a backslash before it. An unlisted name fails the table check. A listed number fails at the escaping, any other number fails the table check. |
| `GeneticCode.NormalizeGeneticCode` | src/phyphy_runner.py:144-151 | The constructor's steps: the table check, the lookup loop that compares names with a numeric argument, then the escaping. Proved to give exactly `ResolveGeneticCode`. |
| `GeneticCode.EscapedNamesDistinct` | src/phyphy_runner.py:14-34 | Two table names that escape to the same text are the same name. |
| `GeneticCode.DefaultGeneticCode` | src/phyphy_runner.py:144 | Without an argument, the code is `Universal`, which has no spaces to escape. |
| `Text.UnescapeEscape` | src/phyphy_runner.py:151 | Reading `\ ` back as a space undoes the escaping for every string. |
| `Text.EscapeWithoutSpaces` | src/phyphy_runner.py:151 | A string without spaces is unchanged by the escaping. |
| `Text.SplitJoin` | src/phyphy_runner.py:315-321 | For tokens without spaces, splitting the single-space join at spaces gives the tokens back. |
| `Text.CapitalizeMatchesIgnoringCase` | src/phyphy_runner.py:530 | A string capitalises to an already capitalised word iff the two agree once lower-cased. |
| `Text.NatToDecimal` | src/phyphy_runner.py:396 | `str` of a count has at least one character, only decimal digits, and no leading zero. |
| `Text.DecimalRoundTrip` | src/phyphy_runner.py:396 | The digits `str` gives for a count denote that count. |
| `Labels.ScanCharacterised` | src/phyphy_runner.py:230-248 | After any prefix, the scanner's state is three things. The flag is whether the text after the last `}` holds a `{`. The accumulator is that text's label. The list is the label closed by every `}`, in order, with repeats removed. |
| `Labels.LabelsDistinct` | src/phyphy_runner.py:242-243 | No label is reported twice. |
| `Labels.LabelsAreClosedTexts` | src/phyphy_runner.py:240-244 | A text is reported iff some `}` of the tree closes it. |
| `Labels.LabelsInFirstAppearanceOrder` | src/phyphy_runner.py:235-248 | Each reported label is the first occurrence of its text among the closed texts. Earlier reports come from earlier closings. |
| `Labels.LabelsHaveNoBraces` | src/phyphy_runner.py:237-246 | No reported label contains `{` or `}`. |
| `Labels.UnclosedTailAddsNothing` | src/phyphy_runner.py:240-246 | Text with no `}`, appended to the tree, reports no further label. |
| `Labels.RepeatedLabelReportedOnce` | src/phyphy_runner.py:235-248 | Scanning `{A}x{B}y{A}` reports exactly `A`, then `B`. |
| `Labels.DedupFirstAppearance` | src/phyphy_runner.py:242-243 | Removing repeats keeps exactly the first occurrence of each text, in order. |
| `Analyses.Analysis.FindAllLabels` | src/phyphy_runner.py:230-248 | The scanning loop leaves in `allLabels` exactly the labels `AllLabels` describes, and changes no other field. |
| `Parameters.CheckBranchSelection` | src/phyphy_runner.py:219-226 | Passes iff the selection is a shared keyword or a scanned label. It keeps the selection, and fails with the branch-selection error otherwise. |
| `Parameters.BranchSelectionAgainstTree` | src/phyphy_runner.py:223-226 | With the tree's own labels, a selection passes iff it is one of "All", "Internal", "Leaves", "Unlabeled branches" or the text some `}` of the tree closes. |
| `Analyses.Analysis.SanityBranchSelection` | src/phyphy_runner.py:219-226 | Scans the labels into the field, then passes exactly when the selection is a shared keyword or one of them. |
| `Parameters.FormatYesNo` | src/phyphy_runner.py:166-177 | True gives "Yes" and False gives "No". A string comes back unchanged. Anything else is a type error. |
| `Parameters.CheckBootstrap` | src/phyphy_runner.py:393-396 | Passes iff 0 <= n <= 100000, both ends included. The kept text is all digits and denotes n. |
| `Parameters.CheckProteinModel` | src/phyphy_runner.py:577-578 | Passes iff the model is JC69, WAG, LG or JTT, and keeps it. |
| `Parameters.CheckNucleotideModel` | src/phyphy_runner.py:616-617 | Passes iff the model is GTR, HKY85 or JC69, and keeps it. |
| `Parameters.ValidateRelax` | src/phyphy_runner.py:514-531 | Passes iff all of these hold: there is a label, the test label is one of them, with more than one label a given reference is one of them, and the capitalised analysis type is All or Minimal. No labels gives the no-label error first, and a bad test label comes next. With more than one label, a missing reference becomes "Unlabeled branches". With exactly one label, the reference is kept as given. With a good test label, a bad reference gives the reference error, and after that a bad analysis type gives the analysis-type error. The kept analysis type is the capitalised argument (default "All"). |
| `Parameters.ValidateFEL` | src/phyphy_runner.py:301-305 | Formats the `two_rate` flag (default "Yes") first, then checks the branch selection (default "All"). Passes iff both pass. A type error in the flag wins, and with a flag that formats, a bad selection gives the branch-selection error. The kept flag is "Yes" or "No" for a boolean, the string itself for a string, and "Yes" by default. |
| `Parameters.ValidateSelection` | src/phyphy_runner.py:351-352 | For MEME, aBSREL and BUSTED, passes iff the branch selection (default "All") is a keyword or a label, and keeps the analysis and the selection. |
| `Parameters.ValidateSLAC` | src/phyphy_runner.py:390-396 | Passes iff the branch selection passes and the bootstrap count (default 100) is in range. A bad selection gives the branch-selection error, and with a good selection an out-of-range count gives the range error. The kept text denotes the count. |
| `Parameters.ValidateProteinRates` | src/phyphy_runner.py:577-581 | Passes iff the model (default JC69) is listed and the +F flag is a string or a boolean. An unlisted model gives the model error, and with a listed model a flag of another type gives the type error. The kept flag is "Yes" or "No" for a boolean, the string itself for a string, and the string "True" by default. |
| `Parameters.ValidateNucleotideRates` | src/phyphy_runner.py:616-617 | Passes iff the model (default GTR) is listed, and keeps it. |
| `Parameters.ValidateParams` | src/phyphy_runner.py:296-617 | Validated arguments belong to the analysis they were given for. |
| `Parameters.SelectionAnalysesAccept` | src/phyphy_runner.py:223-226 | MEME, aBSREL, BUSTED and FEL (when its flag formats) accept a selection iff it is a keyword or a closed text of the tree, and keep it as given. |
| `Parameters.SLACAccepts` | src/phyphy_runner.py:390-396 | SLAC accepts iff the selection is a keyword or a closed text of the tree and the count is in range. The count's text then denotes the count. |
| `Parameters.AnalysisTypeIgnoresCase` | src/phyphy_runner.py:529-531 | The analysis type passes iff, lower-cased, it is "all" or "minimal". |
| `Parameters.RELAXAccepts` | src/phyphy_runner.py:514-531 | RELAX's acceptance rule stated against the tree string, with the default reference for trees with several labels. |
| `Parameters.RELAXSingleLabelReferenceUnchecked` | src/phyphy_runner.py:521-527 | On a tree whose only label is `Fg`, the reference `Bg` is accepted and passed on although the tree has no such label. |
| `Parameters.ProteinRatesAccepts` | src/phyphy_runner.py:577-581 | The protein analysis accepts iff the model is listed and the flag is a string or a boolean. By default it keeps the flag "True". |
| `Parameters.FELDefaultParams` | src/phyphy_runner.py:301-305 | FEL with no arguments selects all branches and lets the synonymous rate vary ("Yes"). |
| `Configuration.DefaultJsonPathShape` | src/phyphy_runner.py:299 | The default result path is the alignment path followed by a suffix ending in ".json". |
| `Configuration.DefaultJsonPathsCollide` | src/phyphy_runner.py:575-614 | Two analyses of one alignment share a default result path iff they are the same analysis or the two relative-rate analyses. |
| `Configuration.Setup` | src/phyphy_runner.py:139-161 | The constructor chain succeeds iff the genetic code resolves and the analysis's arguments validate. A genetic-code error comes before any other error. On success, the configuration holds the given inputs, the resolved (escaped, listed) genetic code, the validated arguments, the scanned labels for the analyses that scan, the analysis's batch file, its directory, the threshold (default "0.1"), the output path and the default result path. |
| `Configuration.RateAnalysesStillCheckGeneticCode` | src/phyphy_runner.py:144-145 | The relative-rate analyses still fail on an unlisted genetic code, although their commands never pass one. |
| `Configuration.NumericGeneticCodesRejected` | src/phyphy_runner.py:145-151 | Every numeric genetic code makes construction fail. A key 1-19 fails at the escaping. |
| `Configuration.FELDefaultConfig` | src/phyphy_runner.py:296-305 | FEL with every default has these fields: the "Universal" code, threshold "0.1", all branches, "Yes", the `SelectionAnalyses` directory and the `.FEL.json` result. |
| `Commands.CommandTokens` | src/phyphy_runner.py:309-321 | Every command has four to seven tokens and starts with the batch file's full path. |
| `Commands.TokensRoundTrip` | src/phyphy_runner.py:309-630 | Read by each batch file's argument order, the tokens give back exactly what the analysis is configured with. The codon analyses pass the genetic code and the relative-rate analyses do not. FEL, MEME and SLAC pass alpha and the others do not. |
| `Commands.CommandRoundTrip` | src/phyphy_runner.py:257-264 | When no value is empty, the words the shell makes of the corrected command, read in the batch file's argument order, are exactly what the analysis is configured with, with the genetic code as its table name. |
| `Commands.EmptyTreeArgumentDropped` | src/phyphy_runner.py:201 | With a NEXUS input's empty tree argument, the shell hands on every other value in order and drops only the tree's position. |
| `Commands.DefaultReferenceSplitByShell` | src/phyphy_runner.py:522-525 | As the runner writes it, a RELAX command with the default reference "Unlabeled branches" becomes eight shell words, "Unlabeled" and "branches" apart, which is no argument list RELAX reads. |
| `Commands.ShellCommandMatchesSource` | src/phyphy_runner.py:151 | When the genetic code is an escaped table name and no other token holds a space or a backslash, the corrected command is exactly the runner's command. |
| `Text.ShellWordsOfEscapedJoin` | src/phyphy_runner.py:257-264 | Escaping every value's spaces and backslashes and joining with single spaces hands the shell's reader exactly the values back, the empty ones dropped. |
| `Text.ShellWordsWithoutBackslash` | src/phyphy_runner.py:257-264 | Text without backslashes reads in the shell as its pieces between spaces, the empty ones dropped: every space in it separates words. |
| `Text.ShellEscapeWithoutBackslash` | src/phyphy_runner.py:151 | For text without backslashes, escaping its spaces as line 151 does is all the escaping the shell needs. |
| `Commands.RelaxReferencePlacement` | src/phyphy_runner.py:534-556 | Adding a RELAX reference label inserts it between the test label and the analysis type. Nothing else changes. |
| `Commands.RateCommandsOmitGeneticCode` | src/phyphy_runner.py:584-630 | The relative-rate commands do not depend on the genetic code. |
| `Commands.CommandGeneticCodeListed` | src/phyphy_runner.py:315-317 | A codon analysis passes a listed genetic code, escaped. |
| `Commands.CommandCarriesValidatedValues` | src/phyphy_runner.py:309-630 | A command built from validated arguments carries only checked values: a listed genetic code, a branch selection that is a keyword or a label of the tree, a RELAX test label of the tree, an in-range bootstrap count and a listed model. |
| `Commands.FELDefaults` | src/phyphy_runner.py:309-321 | With every default, FEL's tokens are the batch file, "Universal", the alignment, the tree argument, "All", "Yes" and "0.1", in that order. |
| `Analyses.Analysis.Base` | src/phyphy_runner.py:134-161 | The base constructor stores the inputs, the threshold (default "0.1"), the output path, the resolved code and the `SelectionAnalyses` directory. It holds no labels and no arguments yet. |
| `Analyses.Analysis.ConfigureFEL` | src/phyphy_runner.py:301-305 | FEL's steps on the object end as `ValidateFEL` does, with its error or its arguments. |
| `Analyses.Analysis.ConfigureSelection` | src/phyphy_runner.py:351-352 | The steps of MEME, aBSREL and BUSTED end as `ValidateSelection` does. |
| `Analyses.Analysis.ConfigureSLAC` | src/phyphy_runner.py:390-396 | SLAC's steps end as `ValidateSLAC` does. |
| `Analyses.Analysis.ConfigureRelax` | src/phyphy_runner.py:514-531 | RELAX's steps (scan, label count, test label, reference, analysis type) end as `ValidateRelax` does. |
| `Analyses.Analysis.ConfigureProteinRates` | src/phyphy_runner.py:577-581 | The protein analysis's steps end as `ValidateProteinRates` does. |
| `Analyses.Analysis.ConfigureNucleotideRates` | src/phyphy_runner.py:616-617 | The nucleotide analysis's steps end as `ValidateNucleotideRates` does. |
| `Analyses.Analysis.Locate` | src/phyphy_runner.py:296-299 | Sets the batch-file directory (moved only for the two relative-rate analyses), the batch file and the default result path of the analysis. |
| `Analyses.Analysis.CheckArguments` | src/phyphy_runner.py:301-617 | Runs the analysis's own checks. It passes or fails exactly as `ValidateParams`, with the same error, and keeps the validated arguments and labels. |
| `Analyses.Analysis.Configure` | src/phyphy_runner.py:296-617 | Each analysis's own constructor sets its directory, batch file and default result path. It passes or fails exactly as `ValidateParams`, with the same error, and keeps the validated arguments and labels. |
| `Analyses.Analysis.BuildAnalysisCommand` | src/phyphy_runner.py:309-630 | Stores the batch file's full path and the runner's command, the single-space join of the analysis's token list. |
| `Analyses.ConstructWithCode` | src/phyphy_runner.py:134-161 | With a resolved code, constructing fails exactly when the arguments fail validation, with the same error. Otherwise its fields are the assembled configuration. |
| `Analyses.NewAnalysis` | src/phyphy_runner.py:114-161 | Constructing an analysis fails exactly when `Setup` fails, with the same error. Otherwise the new object's fields are `Setup`'s configuration. |

## Findings

| source | as written | input that shows it | evidently intended | confidence | as-written member | corrected member |
|---|---|---|---|---|---|---|
| src/phyphy_runner.py:257-264 | The command runs through the shell, but only the genetic code has its spaces escaped (line 151). Branch selections, labels, the default RELAX reference "Unlabeled branches" (line 525) and the file paths go in as they are. | RELAX on a tree labelled `Fg` and `Bg`, with test label `Fg` and no reference: the shell reads "Unlabeled" and "branches" as two words, and RELAX.bf gets eight arguments where it reads six or seven. | Every value reaches the batch file as one argument, as the escaping at line 151 does for the genetic code. | not executed; high | `Commands.DefaultReferenceSplitByShell` | `Commands.ShellCommand` with `Commands.CommandRoundTrip` |

## Left out

- The `HyPhy` class (executable lookup, library paths, CPU suffix). Its library path is a plain string argument, because it only checks the file system and runs `which`.
- `_check_files`. The absolute alignment path, the tree argument ("", "Y" or the tree file) and the tree string are inputs, because they come from file reads, BioPython's NEXUS parser and a regular-expression search.
- The shell reads only spaces and backslashes in this model. Quotes, `$`, tabs, globbing and `;` are not modelled, and neither is the HyPhy executable placed before the command.
- `run_analysis`: running HyPhy through the shell, checking the exit code and moving the JSON result. These are process and file-system effects.
- `alpha` is taken as the text `str` gives, because float formatting is not modelled.
- The printed warning for a defaulted RELAX reference and the `quiet` handling, because they are console output only.
- `Text.Capitalize` covers ASCII letters only, because Python's Unicode case mapping is not modelled.
- Keyword arguments of other Python types: branch selections, labels and models are strings, and the bootstrap count is an integer. A yes/no argument of any type other than string or boolean is the single case `YesNoOther`.
- Inheritance: the eight analysis classes are one class `Analysis`. The `params` field holds the subclass-specific fields.
