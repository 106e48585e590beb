/** Option and Result, the two failure-carrying wrappers used throughout the model. */
module Wrappers {

  /** A value that may be absent; a numeric field that parses to NaN is `None`. */
  datatype Option<+T> = None | Some(value: T)

  /** The outcome of a calculator: a decision, or the validation message it shows instead. */
  datatype Result<+T> = Ok(value: T) | Err(error: InputError)

  /** The validation failures of the calculators (each is an inline error message in the page). */
  datatype InputError =
    | InvalidAptt            // "Please enter a valid aPTT value."
    | InvalidBloodGlucose    // "Please enter a valid Blood Glucose (BG) value."
    | InvalidRateAndBg       // "Please enter valid values for Current Rate and Current BG."
    | InvalidWeight          // "Please enter a valid weight."
    | InvalidRateAndDrop     // "Please enter valid Current Rate and BG Drop."
    | InvalidWeightAndRate   // "Please enter valid weight and current rate."
    | InvalidPhase2Inputs    // "Please enter valid current rate and BG."
}
