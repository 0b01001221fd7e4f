/** Failure-carrying results shared by every component of the pipeline, and the
    errors the pipeline can report. */
module Outcomes {

  datatype Option<+T> = None | Some(value: T) {
    function GetOr(default: T): T {
      match this
      case Some(v) => v
      case None => default
    }
  }

  datatype Result<+R> = Success(value: R) | Failure(error: Error) {
    predicate IsFailure() {
      Failure?
    }

    function PropagateFailure<U>(): Result<U>
      requires Failure?
    {
      Failure(error)
    }

    function Extract(): R
      requires Success?
    {
      value
    }
  }

  /** Every error the core reports. The store and the relational source are
      oracles, so they may answer with any of these. */
  datatype Error =
    | SourceFailed                          // the SELECT on the relational source failed
    | ColumnCount(columns: nat, dests: nat)  // rows.Scan: the destinations do not match the columns
    | BadColumn(index: nat)                 // rows.Scan: a column did not convert
    | Transport                             // a store round trip failed or was rejected
    | Undecodable                           // a store reply did not unmarshal
    | NotInDatabase(nodeId: int)            // GetUId: the lookup did not match exactly one node
}
