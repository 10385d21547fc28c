/** Optional values, and the results of operations that can throw.
    Every exception the helper raises is one constructor of Error. */
module Outcomes {

  datatype Option<+T> = None | Some(value: T)

  /** One constructor per `throw` of the helper trait. */
  datatype Error =
    | ValuesNotArray                          // addValue given something other than an array
    | UpdateTableError                        // buildUpdateStatement guard failed
    | InsertTableError                        // buildInsertStatement guard failed
    | NoSelectedTable                         // buildSelectStatement without a table
    | MissingJoinParameters                   // addJoin with a falsy table or condition
    | MissingFilterParameters                 // addFilter with a falsy field/clause or a null value
    | MissingCustomStatement                  // addCustomFilter with a falsy fragment
    | BetweenNeedsPair                        // 'is between' without a two-element array
    | InNeedsList                             // 'is in' without a non-empty array
    | UnknownCondition(condition: string)     // condition name outside the vocabulary
    | ArrayValue(condition: string)           // translated value is still an array
    | IncompatibleTimestampOperand(operand: string)
    | MissingTableDataFilterParameters        // addTableDataFilter with a null field or condition

  /** A computed value, or the exception that aborted the computation. */
  datatype Result<+T> = Ok(value: T) | Err(error: Error)

  /** The outcome of an operation that returns nothing but may throw. */
  datatype Outcome = Pass | Fail(error: Error)
}
