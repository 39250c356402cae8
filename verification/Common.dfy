/** Values shared by every component: optional values, results, and the enumerations of
    backend/app/models/base.py that more than one component reads. */
module Common {
  datatype Option<+T> = None | Some(value: T)

  datatype Result<+T, +E> = Ok(value: T) | Err(error: E)

  datatype CallStatus =
    | Scheduled | Dialing | Answered | AnsweredMachine
    | NoAnswer | Busy | Failed | Blocked | Cancelled | Unknown

  /** `CallStatus.is_terminal`: everything past dialling, ANSWERED included. */
  predicate PastDialling(s: CallStatus) {
    s != Scheduled && s != Dialing
  }

  datatype Level = L1 | L2 | L3

  datatype AttemptClass = Counts | CarrierFault | TerminalBadNumber

  datatype InvoiceStatus = Open | PartPaid | Paid | InvoiceCancelled | InvoiceWrittenOff

  datatype AccountStatus = Current | Overdue | InDispute | Settled | AccountWrittenOff

  function Min(a: int, b: int): int { if a <= b then a else b }

  function Max(a: int, b: int): int { if a <= b then b else a }
}
