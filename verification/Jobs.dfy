/** Jobs, and why one may be stopped. */
module Jobs {
  type JobId = nat

  datatype Cause = CardRemoved | UserCancelled | Shutdown
}
