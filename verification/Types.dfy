/** Values shared by every module: identifiers, optional columns and task states. */
module Types {

  /** A BIGSERIAL key. */
  type Id = nat

  /** A nullable column. */
  datatype Option<+T> = None | Some(value: T)

  /** The values `devrail_tasks.status` may hold. */
  datatype Status =
    | Draft
    | Queued
    | Running
    | AwaitingApproval
    | ContinuationPending
    | RepairPending
    | RepairRunning
    | RepairHandoff
    | Succeeded
    | Failed
    | Cancelled
    | Skipped
    | Archived
}
