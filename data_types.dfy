// Enumerations shared by the persistence layer and the LLM schemas.
module DataTypes {
  /** The status of a learning day. */
  datatype CompletionStatus = Pending | InProgress | Completed | Skipped | Failed

  function StatusName(s: CompletionStatus): string
  {
    match s
    case Pending => "PENDING"
    case InProgress => "IN_PROGRESS"
    case Completed => "COMPLETED"
    case Skipped => "SKIPPED"
    case Failed => "FAILED"
  }

  /** A JSON value that may be absent (`undefined`), `null`, or present. */
  datatype Nullable<T> = Undefined | Null | Present(value: T)
}
