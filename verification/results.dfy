/** Failure-compatible wrappers and the exception kinds the modelled code raises. */
module Results {

  datatype Option<+T> = None | Some(value: T)

  /** Why a ValueError was raised; the Python code distinguishes these only by message. */
  datatype Reason =
    | InvalidDate          // date()/time() reject the components
    | InvalidIsoFormat     // Timestamp.from_isoformat
    | InvalidTimestamp     // Transaction.from_dict wraps every timestamp failure
    | InvalidAmount        // Transaction.from_dict: Decimal(...) failed
    | InvalidTransactionId // Transaction.from_dict: int(...) failed
    | InvalidLimit         // Budget.from_dict: Decimal(str(...)) failed
    | InvalidMonth         // ReportGenerator.monthly_summary
    | NotFound             // Ledger.remove_transaction
    | InvalidFileName      // FileHandler.create_file
    | InvalidFileType      // FileHandler.create_file
    | InvalidChartFormat   // generate_chart

  datatype Error =
    | ValueError(reason: Reason)
    | KeyError(key: string)
    | IndexError
    | ZeroDivisionError
      // a record field that the model types as text held another kind of value
    | NonTextField(field: string)

  datatype Result<+T> = Ok(value: T) | Err(error: Error) {
    predicate IsFailure() { Err? }
    function PropagateFailure<U>(): Result<U> requires Err? { Err(error) }
    function Extract(): T requires Ok? { value }
  }

  /** A result that carries no value: a mutator either succeeds or raises. */
  datatype Outcome = Pass | Fail(error: Error)
}
