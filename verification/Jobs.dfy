/** What a delivery job is known by, and where it stands
    (src/features/delivery/models.rs). */
module Jobs {
  type JobId = string

  datatype Status = Pending | Retrying | Success | Failed

  /** A worker may still deliver it. */
  predicate Deliverable(status: Status) {
    status == Pending || status == Retrying
  }
}
