/** The values exchanged with the SDK's poller (`retry.StateChangeConf`):
    what a refresh function reports on each poll, and the wait a handler
    requests. The polling loop itself belongs to the SDK. */
module Waiting {
  import opened Wrappers

  /** A refresh function's result: the snapshot and state string the poller
      compares with its target, or the error that aborts the wait. */
  datatype Refresh<T> = Refreshed(snapshot: Option<T>, state: string) | RefreshFailed(message: string)

  /** One requested wait: the state awaited, the states still tolerated,
      the attribute observed, and the poller's timing constants. */
  datatype WaitRequest = WaitRequest(
    attribute: string,
    target: string,
    pending: seq<string>,
    timeoutMinutes: nat,
    delaySeconds: nat,
    minTimeoutSeconds: nat,
    notFoundChecks: nat)
}
