/** Values exchanged between the row loop, the batch writer and the run state. */
module Contracts {
  import opened TransactionTable
  import opened Quality

  datatype Option<+T> = None | Some(value: T)

  /** Processing status of a source file. */
  datatype Status = Pending | Processing | Completed | PartlyDone | Failed

  type RawRow = seq<string>

  /** Where a buffered row came from. */
  datatype RowContext = RowContext(rowNumber: int, raw: RawRow)

  /** Result of transforming one row. `row` is the container to persist when valid. */
  datatype RowOutcome = RowOutcome(outcome: Outcome, violations: seq<Violation>, row: Row)

  /** A violation report for something other than a row loop step. */
  datatype Evaluation = Evaluation(outcome: Outcome, violations: seq<Violation>, aboutRow: bool)

  datatype DuplicateDetail = DuplicateDetail(duplicate: Duplicate, context: Option<RowContext>)

  datatype BatchResult = BatchResult(
    inserted: nat, duplicates: nat, failed: nat, details: seq<DuplicateDetail>)
  {
    function Attempted(): (n: nat) { inserted + duplicates + failed }
  }

  datatype RunError = RunError(field: string, reason: string)

  function ViolationError(v: Violation): (e: RunError) { RunError(v.field, "violation") }
}
