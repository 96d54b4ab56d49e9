/** Failure-carrying result types used across the model. */
module Wrappers {

  datatype Option<+T> = None | Some(value: T)

  datatype Result<+R, +E> = Success(value: R) | Failure(error: E)

  /** A result that carries no value on success. */
  datatype Outcome<+E> = Pass | Fail(error: E)
}

/** The ways one run of the weight-conversion command can fail. */
module Errors {

  datatype Error =
    /** argparse: "the following arguments are required" */
    | MissingArgument(option: string)
    /** argparse: "invalid choice", reported with the accepted choices */
    | InvalidChoice(option: string, value: string, choices: set<string>)
    /** "Model source does not exist: <path>" (raised for --source and for each LoRA path) */
    | SourceNotFound(path: string)
    /** `mkdir(parents=True, exist_ok=True)` met a non-directory on the way */
    | PathCreationError(path: string)
    /** a failure reported by one of the external detectors */
    | DetectionFailed(message: string)
}
