/**
 * The vocabulary of the proximity transport (the Nearby Connections client) that the
 * dialog drives: the status codes it reports, the topology strategy it is configured
 * with, and the commands the dialog issues to it. The client itself is not modelled;
 * every call the dialog makes on it is recorded as a `Command`.
 */
module Nearby {

  /** ConnectionsStatusCodes values seen by onConnectionResult. */
  const STATUS_OK: int := 0
  const STATUS_ERROR: int := 13
  const STATUS_CONNECTION_REJECTED: int := 8004

  /** PayloadTransferUpdate.Status values. */
  const TRANSFER_SUCCESS: int := 1
  const TRANSFER_FAILURE: int := 2
  const TRANSFER_IN_PROGRESS: int := 3
  const TRANSFER_CANCELED: int := 4

  /** The connection topologies the transport offers. */
  datatype Strategy = P2pCluster | P2pStar | P2pPointToPoint

  /** A file payload: the file it was opened from and the descriptor the opening produced. */
  datatype Payload = FilePayload(path: string, descriptor: nat)

  /**
   * One call on the transport client. The lifecycle callback passed to startAdvertising and
   * requestConnection, and the payload callback passed to acceptConnection, are always the
   * dialog's own, so they are not recorded: every result they deliver reaches the same handlers.
   */
  datatype Command =
    | StartAdvertising(name: string, serviceId: string, strategy: Strategy)
    | StopAdvertising
    | StartDiscovery(serviceId: string, strategy: Strategy)
    | AcceptConnection(endpointId: string)
    | RequestConnection(name: string, endpointId: string)
    | SendPayload(endpointId: string, payload: Payload)
}
