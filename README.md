# gpu-chase in Dafny

A model of the two scripts of gpu-chase:

- `gpu_chase.py` walks the Compute Engine zones in order. In each zone it
  lists the accelerator types. At the first type whose name contains the
  wanted GPU type, it inserts one GPU instance named `mg7609-vm-<4 uuid
  characters>` and waits for the insert operation. It stops once it has
  created `max_vms` instances (the check at the top of the next pass), or
  when the zones run out.
- `gpu_chase_cleanup.py` goes through every zone, keeps the instance names
  that start with a prefix, and deletes each of them. A failed delete is
  reported and the pass goes on.

The provider is not called: it is data supplied by the caller. For each zone
the data says what the accelerator listing returns, which uuid is drawn, how
the insert turns out, and what each successive `get` poll of an operation
replies. For the cleanup it says what the instance listing returns and how
each delete turns out. A call into the API is a `Reply` (`Ok(value)` or
`Failed(code)`, a GoogleAPICallError). What a run does to the provider is the
sequence of `Call`s it sends.

Files:

- `compute.dfy`: the API's values (`Reply`, `Operation`, the `Instance`
  resource and its parts) and `Call`.
- `operations.dfy`: the polling loop shared by `wait_for_operation` and the
  inlined loop of the cleanup's `delete_instance`, and `DeleteSpec`, what
  one `delete_instance` amounts to.
- `text.dfy`: `startswith`, `in` on strings, `s[:n]`, and resource paths as
  `/`-joined segments.
- `provisioner.dfy`: the instance `create_vm_with_gpu` builds.
- `gpu_chase.dfy`: `check_and_create_vm_in_zone`, `instance_exists`,
  `delete_instance` and the zone loop of `find_and_create_vms`.
  - The loops are methods proved equal to specification functions:
    `ZoneAttempt` for one zone, `Chase` for the run.
  - The loop body past the `vm_counter >= max_vms` check is the method
    `TryZone`.
- `gpu_chase_properties.dfy`: what the run guarantees.
- `gpu_chase_cleanup.dfy`: `list_instances_by_prefix`, `delete_instance` and
  `delete_all_instances_with_prefix`.
  - The methods are proved equal to `FilterPrefix`, `DeleteSpec` and `Purge`.
  - The inner loop over the matched names is the method `DeleteMatched`.
- `gpu_chase_cleanup_properties.dfy`: what a cleanup pass guarantees.

Exceptions are kept distinct. The scripts catch only GoogleAPICallError.
An operation can come back DONE with an `error` field whose list is empty;
then `result.error.errors[0]` raises an IndexError, which no handler catches.
The model keeps that IndexError (`Exception.IndexError`), and it ends the run
or the pass.

The rollback in `find_and_create_vms` (lines 127-129) is modelled as written:
probe the instance with `get`, and delete it if it exists. That branch runs
only when a failed attempt names an instance. `check_and_create_vm_in_zone`
never returns one, so the branch is dead: `RollbackNeverRuns` proves that no
probe and no delete is ever sent.

## Model

| member | source | states |
|---|---|---|
| Text.StartsWith | gpu_chase_cleanup.py:11 | `name.startswith(prefix)`; its properties as a filter are stated by `FilterPrefixMembers` and `FilterPrefixCounts` |
| Text.Contains | gpu_chase.py:14 | `gpu_type in name`; `ContainsIffOccurs` proves it is the substring relation |
| Text.ContainsIffOccurs | gpu_chase.py:14 | `gpu_type in name` holds exactly when the GPU type occurs somewhere in the accelerator type name |
| Text.Take | gpu_chase.py:16 | `s[:n]` is a prefix of `s`, of length `n`, or all of `s` when `s` is shorter |
| Compute.Polls | gpu_chase.py:77-78 | a wait that polls `n` times sends `n` operation `get` calls, all for the zone |
| Operations.FirstTerminal | gpu_chase.py:77-83 | the wait is left at the first poll that raised or found DONE; every earlier poll found the operation not DONE |
| Operations.Settle | gpu_chase.py:78-82 | the terminal poll returns the operation exactly when DONE came without an error field. An error field whose list is empty raises IndexError. Otherwise the raised GoogleAPICallError carries the failed `get`'s code or the first listed error code |
| Operations.WaitOutcome | gpu_chase.py:73-83 | how a wait ends; `WaitPollsOn`, `FirstTerminalDecides` and `Settle` state when each outcome occurs, and `GpuChase.WaitForOperation` is proved equal to it |
| Operations.WaitPollsOn | gpu_chase.py:77-83 | the wait keeps polling exactly when no poll raises or finds DONE |
| Operations.FirstTerminalDecides | gpu_chase.py:77-82 | the first terminal poll decides the wait, and exactly the polls up to it are sent |
| Operations.DeleteSpec | gpu_chase_cleanup.py:16-34 | what one `delete_instance` (here, and in gpu_chase.py:93-100) amounts to; `DeleteOutcome`, `OneDeleteRequest` and `DeletedOnlyWhenDone` state its properties, and both `DeleteInstance` methods are proved equal to it |
| Operations.DeleteOutcome | gpu_chase_cleanup.py:16-34 | `delete_instance` catches every GoogleAPICallError and lets only IndexError escape: a refused request is reported with its code, an API error from the wait is reported as raised, and IndexError escapes exactly when the wait raises it. The delete ends deleted or reported exactly when the request is refused or the wait neither raises IndexError nor keeps polling. It deletes exactly when the request is accepted and its operation completes, and keeps waiting exactly when no poll ends the wait. Its first call is the delete request; every later call polls the zone's operations |
| Provisioner.Region | gpu_chase.py:51 | `zone[:-2]`; `RegionDropsLastTwo` and `RegionOfLetteredZone` state its properties |
| Provisioner.RegionDropsLastTwo | gpu_chase.py:51 | `zone[:-2]`: the region plus the zone's last two characters give back the zone; a zone of at most two characters gives `""` |
| Provisioner.RegionOfLetteredZone | gpu_chase.py:51 | a zone `<region>-<letter>` yields `<region>` |
| Provisioner.CreateVmWithGpu | gpu_chase.py:30-71 | the instance `create_vm_with_gpu` inserts; `InstanceSettings`, `InstancePathSegments` and the `…SpelledOut` lemmas state its fields |
| Provisioner.InstanceSettings | gpu_chase.py:30-71 | the inserted instance has the given name and one 100 GB boot disk that is deleted with it. It has one network interface and one accelerator, with count 1. Scheduling is TERMINATE on host maintenance, with automatic restart |
| Provisioner.SourceImage | gpu_chase.py:33 | the image path; `SourceImageSpelledOut` and `SourceImageSegments` state its text and segments |
| Provisioner.MachineTypePath | gpu_chase.py:34 | the machine type path; `MachineTypeSpelledOut` and `MachineTypeSegments` state its text and segments |
| Provisioner.AcceleratorTypePath | gpu_chase.py:46 | the accelerator type path; `AcceleratorTypeSpelledOut` and `AcceleratorTypeSegments` state its text and segments |
| Provisioner.NetworkPath | gpu_chase.py:50 | the network path; `NetworkSpelledOut` and `NetworkSegments` state its text and segments |
| Provisioner.SubnetworkPath | gpu_chase.py:52 | the subnetwork path; `SubnetworkSpelledOut` and `SubnetworkSegments` state its text and segments |
| Provisioner.SourceImageSpelledOut | gpu_chase.py:33 | the image path is `projects/<image_project>/global/images/<image_family>` |
| Provisioner.MachineTypeSpelledOut | gpu_chase.py:34 | the machine type path is `zones/<zone>/machineTypes/<machine_type>` |
| Provisioner.AcceleratorTypeSpelledOut | gpu_chase.py:46 | the accelerator path is `zones/<zone>/acceleratorTypes/<gpu_type>` |
| Provisioner.NetworkSpelledOut | gpu_chase.py:50 | the network path is `global/networks/<network>` |
| Provisioner.SubnetworkSpelledOut | gpu_chase.py:52 | the subnetwork path is `projects/<project>/regions/<region>/subnetworks/<subnetwork>` |
| Provisioner.SourceImageSegments | gpu_chase.py:33 | the image path splits at `/` back into its five segments |
| Provisioner.MachineTypeSegments | gpu_chase.py:34 | the machine type path splits back into its four segments |
| Provisioner.AcceleratorTypeSegments | gpu_chase.py:46 | the accelerator path splits back into its four segments |
| Provisioner.NetworkSegments | gpu_chase.py:50 | the network path splits back into its three segments |
| Provisioner.SubnetworkSegments | gpu_chase.py:52 | the subnetwork path splits back into its six segments |
| Provisioner.InstancePathSegments | gpu_chase.py:33-66 | every path in the inserted instance reads back as the caller's names in their places, with the region taken from the zone |
| Provisioner.SubnetworkInZoneRegion | gpu_chase.py:51-52 | for a zone `<region>-<letter>` the instance attaches to the subnetwork of `<region>` |
| GpuChase.InstanceName | gpu_chase.py:16 | the generated instance name; `InstanceNameShape` states its prefix, length and hex suffix |
| GpuChase.InstanceNameShape | gpu_chase.py:16 | the name starts with `<base>-`. For a uuid of four or more characters it has length `|base| + 5`, and its suffix is lower-case hex when the uuid's first four characters are |
| GpuChase.ZoneAttempt | gpu_chase.py:6-28 | an attempt first lists the zone's accelerator types. Only a success names an instance, the generated one. The only exception escaping it is IndexError |
| GpuChase.AttemptCallsStayInZone | gpu_chase.py:6-28 | every call of an attempt addresses its zone, and none is an instance `get` or a delete |
| GpuChase.AttemptInsertsOnce | gpu_chase.py:13-24 | an attempt sends at most one insert, right after the listing |
| GpuChase.WaitForOperation | gpu_chase.py:73-83 | the loop's outcome and calls are those of `WaitOutcome` and `Polls`; it returns only a DONE operation without error |
| GpuChase.CheckAndCreateVmInZone | gpu_chase.py:6-28 | the loop over the accelerator types gives exactly `ZoneAttempt` |
| GpuChase.InstanceExists | gpu_chase.py:85-91 | true exactly when the `get` does not raise |
| GpuChase.DeleteInstance | gpu_chase.py:93-100 | delete and wait give exactly `DeleteSpec` |
| GpuChase.Rollback | gpu_chase.py:127-129 | the probe-and-delete of a failed attempt, as written; `RollbackIsDead` and `RollbackNeverRuns` prove it never runs |
| GpuChase.Visit | gpu_chase.py:112-129 | one loop pass tries at most one zone |
| GpuChase.RunUpTo | gpu_chase.py:112-129 | after `k` zones, at most `k` were tried |
| GpuChase.SettledStaysSettled | gpu_chase.py:113-115 | once the loop is left, later zones change nothing |
| GpuChase.TryZone | gpu_chase.py:117-129 | the loop body past the target check is one `Visit` with the zone's attempt |
| GpuChase.Chase | gpu_chase.py:102-131 | the whole run; `CounterWithinTarget`, `NoZoneScannedPastTarget`, `LastScannedZoneMetTarget`, `RollbackNeverRuns` and `CreatesUpToTarget` state its properties |
| GpuChase.FindAndCreateVms | gpu_chase.py:102-131 | the loop over the zones gives exactly `Chase` |
| GpuChaseProperties.AttemptsWellFormed | gpu_chase.py:24-28 | every attempt's failure returns `(False, None)`, only IndexError escapes, and no attempt sends a probe or a delete |
| GpuChaseProperties.CallsUpToNoRollback | gpu_chase.py:127-129 | attempts of that shape send no probe and no delete |
| GpuChaseProperties.RollbackIsDead | gpu_chase.py:124-129 | with such attempts, the loop with its rollback branch equals the loop without it |
| GpuChaseProperties.RunScanned | gpu_chase.py:112 | while running, the loop has tried every zone so far |
| GpuChaseProperties.RunCalls | gpu_chase.py:112-122 | the calls sent are the attempts' calls of the zones tried, in order |
| GpuChaseProperties.RunCounts | gpu_chase.py:124-125 | `vm_counter` equals the number of zones where an instance was created |
| GpuChaseProperties.RunCreated | gpu_chase.py:124-125 | the instances were created in the tried zones whose attempt succeeded, in order |
| GpuChaseProperties.RunTriesBelowTarget | gpu_chase.py:113-115 | the last zone tried was reached with fewer than `max_vms` instances |
| GpuChaseProperties.RunStops | gpu_chase.py:112-129 | the loop stops at the target check with zones left, or at an escaping IndexError or an endless wait in the last zone tried |
| GpuChaseProperties.RunCounterBound | gpu_chase.py:109-125 | with `max_vms >= 0` the counter stays within `0..max_vms` |
| GpuChaseProperties.RunLastTriedMetTarget | gpu_chase.py:113-125 | when the target is met, the last zone tried created the `max_vms`-th instance |
| GpuChaseProperties.CounterWithinTarget | gpu_chase.py:109-125 | for the run itself, `vm_counter` counts the zones where an instance was created, in order, and stays within `0..max_vms` |
| GpuChaseProperties.NonPositiveTargetScansNothing | gpu_chase.py:113-115 | with `max_vms <= 0` no zone is tried and no call is sent |
| GpuChaseProperties.NoZoneScannedPastTarget | gpu_chase.py:112-122 | zones are tried in order, each with the counter below `max_vms`, and why the loop stops |
| GpuChaseProperties.LastScannedZoneMetTarget | gpu_chase.py:113-125 | when the target is met, no zone after the one that met it is looked at |
| GpuChaseProperties.RollbackNeverRuns | gpu_chase.py:127-129 | the run's calls are the attempts' calls, zone after zone; no probe or delete is ever sent |
| GpuChaseProperties.CreatesUpToTarget | gpu_chase.py:109-125 | when every zone the loop reaches below the target returns (no escaping IndexError, no endless wait), the run creates `min(max_vms, zones that can take one)` instances |
| GpuChaseProperties.AttemptApiErrorIsFailure | gpu_chase.py:11-28 | a failed listing, a zone without a match and a failed insert each give `(False, None)`. Past an accepted insert, the attempt gives `(False, None)` exactly when the wait raises a GoogleAPICallError, lets IndexError escape exactly when the error list is empty, and is stuck exactly when the wait never sees DONE |
| GpuChaseProperties.AttemptSucceedsIff | gpu_chase.py:11-24 | an attempt succeeds exactly when the listing succeeds and names a match, the insert is accepted, and its operation completes |
| GpuChaseProperties.AttemptInsertsOnlyOnMatch | gpu_chase.py:13-25 | a zone gets more than its listing call exactly when its listing names a match; otherwise the attempt returns `(False, None)` |
| GpuChaseProperties.AttemptInsertsTheInstance | gpu_chase.py:16-21 | the insert carries the instance `create_vm_with_gpu` builds for the zone, named from the uuid |
| GpuChaseProperties.FirstFreeZoneScenario | gpu_chase.py:112-125 | with `max_vms = 1` and zones A (no match), B (match), C: one instance, in B, and no call about C |
| GpuChaseCleanup.FilterPrefix | gpu_chase_cleanup.py:10-12 | the filter keeps at most the listed names |
| GpuChaseCleanup.ListInstancesByPrefix | gpu_chase_cleanup.py:5-14 | the loop returns exactly `FilterPrefix` of the listing; a failed listing raises |
| GpuChaseCleanup.DeleteInstance | gpu_chase_cleanup.py:16-34 | the delete with its inlined wait gives exactly `DeleteSpec` |
| GpuChaseCleanup.DeleteStep | gpu_chase_cleanup.py:51-53 | one pass of the inner loop; `DeleteStepRequests` states what it adds |
| GpuChaseCleanup.SweepZone | gpu_chase_cleanup.py:44-55 | one pass of the zone loop; `SweepZoneRequests`, `ZoneWithoutMatchesOnlyLists` and `ListingFailureStops` state what it adds |
| GpuChaseCleanup.Purge | gpu_chase_cleanup.py:36-55 | the whole pass; `OnlyPrefixedNamesDeleted`, `EveryMatchDeletedOnce`, `ListingFailureEndsPass` and `ReportedDeletesDoNotStop` state its properties |
| GpuChaseCleanup.DeletesSettled | gpu_chase_cleanup.py:51-53 | once an exception leaves a delete, the remaining names change nothing |
| GpuChaseCleanup.SweepSettled | gpu_chase_cleanup.py:44-48 | once an exception leaves the pass, the remaining zones change nothing |
| GpuChaseCleanup.DeleteMatched | gpu_chase_cleanup.py:50-53 | the inner loop gives exactly `DeleteUpTo` over every matched name |
| GpuChaseCleanup.DeleteAllInstancesWithPrefix | gpu_chase_cleanup.py:36-55 | the pass gives exactly `Purge`; a failed zone listing raises before any call |
| GpuChaseCleanupProperties.FilterPrefixMembers | gpu_chase_cleanup.py:10-12 | a name is kept exactly when it is listed and starts with the prefix |
| GpuChaseCleanupProperties.FilterPrefixAppend | gpu_chase_cleanup.py:10-12 | filtering keeps listing order: the filter of a concatenation is the concatenation of the filters |
| GpuChaseCleanupProperties.FilterPrefixCounts | gpu_chase_cleanup.py:10-12 | a prefixed name is kept as often as it is listed; any other name never |
| GpuChaseCleanupProperties.FilterPrefixIdempotent | gpu_chase_cleanup.py:5-14 | filtering the result again changes nothing |
| GpuChaseCleanupProperties.FilterPrefixNone | gpu_chase_cleanup.py:10-14 | with no prefixed name listed, nothing is kept |
| GpuChaseCleanupProperties.ZoneWithoutMatchesOnlyLists | gpu_chase_cleanup.py:48-55 | a zone without prefixed names gets its listing call and nothing else |
| GpuChaseCleanupProperties.DeletedOnlyWhenDone | gpu_chase_cleanup.py:24-29 | a delete counts as done only after a poll found it DONE without error, every earlier poll having found it not DONE |
| GpuChaseCleanupProperties.OneDeleteRequest | gpu_chase_cleanup.py:18-30 | `delete_instance` sends exactly one delete request, for its own zone and name |
| GpuChaseCleanupProperties.DeleteStepRequests | gpu_chase_cleanup.py:51-53 | one pass of the inner loop adds one record and one delete request, for its name |
| GpuChaseCleanupProperties.ReachedStep | gpu_chase_cleanup.py:51-53 | each pass of the inner loop keeps its requests the matched names reached so far |
| GpuChaseCleanupProperties.DeleteUpToRequests | gpu_chase_cleanup.py:50-53 | the inner loop sends one delete per matched name reached, in order, and reaches all of them unless an exception leaves it |
| GpuChaseCleanupProperties.ZoneTargetsMembers | gpu_chase_cleanup.py:48-53 | a zone is asked to delete only names its listing holds that start with the prefix |
| GpuChaseCleanupProperties.ZoneTargetsInOrder | gpu_chase_cleanup.py:50-53 | a zone's targets are one delete per matched name, the `i`-th for the `i`-th matched name |
| GpuChaseCleanupProperties.TargetsMembers | gpu_chase_cleanup.py:44-53 | every target deletes a prefixed name in the zone that listed it |
| GpuChaseCleanupProperties.SweepZoneRequests | gpu_chase_cleanup.py:44-53 | one zone's pass sends a prefix of that zone's targets, and all of them unless an exception leaves it |
| GpuChaseCleanupProperties.SweepUpToRequests | gpu_chase_cleanup.py:44-53 | the pass has sent a prefix of the targets of the zones so far, and all of them while it runs |
| GpuChaseCleanupProperties.OnlyPrefixedNamesDeleted | gpu_chase_cleanup.py:36-55 | whatever the provider does, a delete is sent only for a prefixed name, in a zone that listed it |
| GpuChaseCleanupProperties.EveryMatchDeletedOnce | gpu_chase_cleanup.py:36-55 | a pass that ends without an exception sends exactly one delete per matched name, zone by zone and in listing order |
| GpuChaseCleanupProperties.ListingFailureStops | gpu_chase_cleanup.py:48 | in a running pass, a failed instance listing ends the pass with the API error, right after the listing call |
| GpuChaseCleanupProperties.ListingFailureEndsPass | gpu_chase_cleanup.py:42-48 | a failed instance listing ends the pass in that zone, right after its listing call, with the API error |
| GpuChaseCleanupProperties.ReportedDeletesContinue | gpu_chase_cleanup.py:33-34 | reported delete failures do not stop the inner loop: it reaches every matched name |
| GpuChaseCleanupProperties.CooperativeSweeps | gpu_chase_cleanup.py:44-53 | with every listing succeeding and every delete done or reported, the pass runs through every zone |
| GpuChaseCleanupProperties.ReportedDeletesDoNotStop | gpu_chase_cleanup.py:33-53 | in that case the pass ends normally, having sent exactly one delete per matched name |

## Left out

- Client construction, authentication, `print` output and the `__main__` blocks are left out. The models start from the calls' parameters.
- `time.sleep(5)` is left out. The replies to successive polls are a finite sequence. When it runs out before DONE, the outcome is `Polling`/`StillPolling` (`Hanging`/`SweepStuck` for the run). The real loop would go on polling, possibly forever.
- `uuid.uuid4()` is a per-zone parameter. Nothing is claimed about the uniqueness of generated names.
- The zone listing call (`zones_client.list`) is not in the call log. `FindAndCreateVms` takes the zone listing as given. A failed listing in `find_and_create_vms` would raise before the loop and send nothing else. That case is modelled only for the cleanup (`Purge` on `Failed`).
- Listings are whole sequences (`Reply<seq<…>>`). An error raised by a pager in the middle of iteration is not modelled.
- Only GoogleAPICallError and the IndexError of an empty error list are modelled. Other exceptions the client library may raise are left out.
- GoogleAPICallErrors are identified by an integer. This covers both the failed call's error and the first entry of a DONE operation's error list. In compute_v1 that entry's `code` is a string, which the scripts pass on as the raised error's message. The model carries it as that integer. No contract depends on its value beyond passing it on. The other contents of the error field are not modelled.
