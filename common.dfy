/**
  Values shared by every part of the prompt generator: optional cell values,
  the errors the generator raises, and results that carry either a value or
  one of those errors.
 */
module Common {

  datatype Option<+T> = None | Some(value: T)

  /** Every `ValueError` the two generators raise, one constructor per message. */
  datatype Error =
    | UnknownTemplate(name: string)            // the composed template name is not defined
    | MissingCandidate(dataset: string)        // a candidate-scoped dataset without a candidate
    | NoCandidateFiles(candidate: string, directory: string)
    | NoTrainOrTestFiles(directory: string, dataset: string)
    | UnsupportedFormat                        // extension is neither .csv nor .tsv
    | MissingColumns(path: string)             // a required column is absent from the header
    | InsufficientRows(path: string, count: int)
    | NegativeSampleSize                       // random.sample with a negative count
    | InvalidRow                               // a question row with a missing or empty tweet or target

  datatype Result<+T> = Ok(value: T) | Err(error: Error)

  /** Python truthiness of an optional string: neither None nor empty. */
  predicate Truthy(v: Option<string>) {
    v.Some? && v.value != ""
  }

  /** What an f-string prints for an optional string: `None` prints as "None". */
  function Show(v: Option<string>): string {
    if v.Some? then v.value else "None"
  }
}
