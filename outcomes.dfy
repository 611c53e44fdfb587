/** Failure-carrying values shared by the whole model. Every assertion or
    exception the runner raises while validating its arguments becomes an
    `Err` carrying one `Error` that names the failing check. */
module Outcomes {

  datatype Option<+T> = None | Some(value: T) {
    /** The value, or the keyword default used when the argument was not given. */
    function GetOr(default: T): T {
      match this
      case Some(v) => v
      case None => default
    }
  }

  /** Why an analysis could not be set up. */
  datatype Error =
    | InvalidGeneticCode        // the assertion on the genetic-code table fails
    | GeneticCodeNotText        // a numeric code reaches the space escaping and has no `replace`
    | BadBranchSelection        // branches is neither a shared keyword nor a tree label
    | YesNoTypeError            // a yes/no argument that is neither a string nor a boolean
    | BootstrapOutOfRange       // SLAC bootstrap count outside [0, 100000]
    | NoTreeLabels              // RELAX on a tree without any label
    | BadTestLabel              // RELAX test label missing or not a tree label
    | BadReferenceLabel         // RELAX reference label not a tree label
    | BadAnalysisType           // RELAX analysis type neither "All" nor "Minimal"
    | UnavailableProteinModel
    | UnavailableNucleotideModel

  datatype Result<+T> = Ok(value: T) | Err(error: Error) {
    predicate IsFailure() {
      Err?
    }

    function PropagateFailure<U>(): Result<U>
      requires Err?
    {
      Err(error)
    }

    function Extract(): T
      requires Ok?
    {
      value
    }
  }

  /** The result of a check that produces no value. */
  datatype Outcome = Pass | Fail(error: Error)
}
