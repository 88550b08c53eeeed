/**
 * The slice of the Compute Engine API both scripts use, as data: what a call
 * returns, the resources the scripts build, and the calls they issue.
 */
module Compute {
  import opened Prelude

  /** The outcome of one call into the API: a value, or a GoogleAPICallError, identified by an integer. */
  datatype Reply<+T> = Ok(value: T) | Failed(code: int)

  /**
   * An exception leaving the scripts' own code: a GoogleAPICallError, or the
   * IndexError of `result.error.errors[0]` on an error payload with no entries.
   * `ApiCallError` carries the integer that identifies the error: that of the
   * failed call, or the first entry of the operation's error list.
   */
  datatype Exception = ApiCallError(code: int) | IndexError

  /** `compute_v1.Operation.Status`. */
  datatype Status = Pending | Running | Done

  /**
   * A polled zone operation: its status and, when the `error` field is set, its
   * error entries, each identified by an integer. (In compute_v1 an entry's
   * `code` is a string, which the scripts pass on as the raised error's message.)
   */
  datatype Operation = Operation(status: Status, error: Option<seq<int>>)

  datatype AttachedDisk = AttachedDisk(sourceImage: string, diskSizeGb: int, autoDelete: bool, boot: bool)
  datatype AcceleratorConfig = AcceleratorConfig(acceleratorType: string, acceleratorCount: int)
  datatype NetworkInterface = NetworkInterface(network: string, subnetwork: string)
  datatype Scheduling = Scheduling(onHostMaintenance: string, automaticRestart: bool)

  /** The `compute_v1.Instance` resource handed to `insert`. */
  datatype Instance = Instance(
    name: string,
    disks: seq<AttachedDisk>,
    machineType: string,
    networkInterfaces: seq<NetworkInterface>,
    guestAccelerators: seq<AcceleratorConfig>,
    scheduling: Scheduling)

  /** One request the scripts send, with the zone it addresses. */
  datatype Call =
    | ListAcceleratorTypes(zone: string)
    | Insert(zone: string, instance: Instance)
    | GetOperation(zone: string)
    | GetInstance(zone: string, name: string)
    | Delete(zone: string, name: string)
    | ListInstances(zone: string)

  /** The `n` operation polls of one wait. */
  function Polls(zone: string, n: nat): (calls: seq<Call>)
    ensures |calls| == n
    ensures forall i :: 0 <= i < n ==> calls[i] == GetOperation(zone)
  {
    if n == 0 then [] else Polls(zone, n - 1) + [GetOperation(zone)]
  }
}
