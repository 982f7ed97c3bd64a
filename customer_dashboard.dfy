/** The order progress bar of CustomerDashboard.js. */
module Dashboard {
  import opened OrderModel
  import Lists

  /** The steps the bar shows, in order. */
  const StatusSteps: seq<string> := ["Ordered", "Preparing", "Out for Delivery", "Delivered"]

  /**
   * `statusSteps.indexOf(status) + 1`: the 1-based step of a status on the
   * bar, and 0 for any other value (Cancelled, or one the bar does not know).
   */
  function StatusProgress(status: string): (n: int)
    ensures 0 <= n <= |StatusSteps|
    ensures n == 0 <==> status !in StatusSteps
    ensures n > 0 ==> StatusSteps[n - 1] == status
  {
    Lists.FirstIndex(StatusSteps, s => s == status) + 1
  }

  /** Of the stored statuses only Cancelled is off the bar. */
  lemma ProgressOffOnlyWhenCancelled(s: Status)
    ensures StatusProgress(StatusName(s)) == 0 <==> s == Cancelled
  {
  }

  /** Moving along Ordered, Preparing, Out for Delivery, Delivered moves the bar forward. */
  lemma ProgressFollowsLifecycle()
    ensures StatusProgress(StatusName(Ordered)) == 1
    ensures StatusProgress(StatusName(Preparing)) == 2
    ensures StatusProgress(StatusName(OutForDelivery)) == 3
    ensures StatusProgress(StatusName(Delivered)) == 4
  {
  }
}
