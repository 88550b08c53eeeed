/**
 * gpu_chase.py: scan the zones in order, try to create one GPU instance in
 * each zone that lists a matching accelerator type, and stop once `max_vms`
 * instances were created.
 *
 * The provider is data: for each zone, what listing its accelerator types
 * returns, the uuid drawn for the attempt, how the insert and its operation
 * turn out, and what the rollback probe and delete would get. The run's effect
 * on the provider is the sequence of calls it sends.
 */
module GpuChase {
  import opened Prelude
  import opened Text
  import opened Compute
  import opened Operations
  import opened Provisioner

  /** The base of every generated instance name, fixed in `find_and_create_vms`. */
  const InstanceNameBase := "mg7609-vm"

  /** The parameters of `find_and_create_vms`. */
  datatype Config = Config(
    project: string, network: string, subnetwork: string, machineType: string,
    imageFamily: string, imageProject: string, gpuType: string, maxVms: int)

  /** What the provider does for one zone. */
  datatype ZoneCloud = ZoneCloud(
    name: string,
    accelerators: Reply<seq<string>>,   // the accelerator type names the listing yields, or its error
    uuid: string,                        // `str(uuid.uuid4())` drawn for the attempt
    insert: Reply<()>,                   // the reply to `insert`
    insertPolls: seq<Reply<Operation>>,  // the polls of the insert operation
    lookup: Reply<()>,                   // the reply to `get` on the rollback path
    rollback: DeleteScript)              // the delete on the rollback path

  /** `f"{base}-{str(uuid.uuid4())[:4]}"`. */
  function InstanceName(base: string, uuid: string): string {
    base + "-" + Take(uuid, 4)
  }

  /**
   * The name is the base, a dash and a four-character suffix; when the uuid
   * is a uuid4 string, the suffix is four lower-case hexadecimal digits.
   */
  lemma InstanceNameShape(base: string, uuid: string)
    ensures var name := InstanceName(base, uuid);
      && StartsWith(name, base + "-")
      && (|uuid| >= 4 ==> |name| == |base| + 5)
      && (|uuid| >= 4 && (forall i :: 0 <= i < 4 ==> IsLowerHex(uuid[i])) ==>
            forall i :: |base| + 1 <= i < |name| ==> IsLowerHex(name[i]))
  {
    var name := InstanceName(base, uuid);
    assert name[..|base + "-"|] == base + "-";
  }

  /** `gpu_type in accelerator_type.name`. */
  predicate Offers(accelerator: string, gpuType: string) {
    Contains(accelerator, gpuType)
  }

  /** Some listed accelerator type offers the GPU: the loop over the listing reaches its `if` body. */
  predicate AnyOffers(accelerators: seq<string>, gpuType: string) {
    exists t <- accelerators :: Offers(t, gpuType)
  }

  /** How `check_and_create_vm_in_zone` ends. */
  datatype ZoneResult =
    | Returned(success: bool, instanceName: Option<string>)  // the returned pair
    | Escaped(e: Exception)                                   // an exception it does not catch
    | Stuck                                                   // its wait never saw DONE

  datatype Attempt = Attempt(result: ZoneResult, calls: seq<Call>)

  /**
   * `check_and_create_vm_in_zone`: list the zone's accelerator types; at the
   * first whose name contains the GPU type, insert an instance and wait for it.
   * Every GoogleAPICallError, from the listing, the insert or the wait, gives
   * `(False, None)`; so does a zone without a match.
   */
  function ZoneAttempt(cfg: Config, z: ZoneCloud, base: string): (a: Attempt)
    ensures |a.calls| >= 1 && a.calls[0] == ListAcceleratorTypes(z.name)
    ensures a.result.Returned? ==>
              a.result.instanceName == if a.result.success then Some(InstanceName(base, z.uuid)) else None
    ensures a.result.Escaped? ==> a.result.e == IndexError
  {
    var listed := [ListAcceleratorTypes(z.name)];
    match z.accelerators
    case Failed(_) => Attempt(Returned(false, None), listed)
    case Ok(accelerators) =>
      if !AnyOffers(accelerators, cfg.gpuType) then
        Attempt(Returned(false, None), listed)
      else
        var name := InstanceName(base, z.uuid);
        var instance := CreateVmWithGpu(cfg.project, z.name, name, cfg.network, cfg.subnetwork,
                                        cfg.machineType, cfg.imageProject, cfg.imageFamily, cfg.gpuType);
        var inserted := listed + [Insert(z.name, instance)];
        match z.insert
        case Failed(_) => Attempt(Returned(false, None), inserted)
        case Ok(_) =>
          var waited := inserted + Polls(z.name, PollsUsed(z.insertPolls));
          match WaitOutcome(z.insertPolls)
          case Completed(_) => Attempt(Returned(true, Some(name)), waited)
          case Raised(ApiCallError(_)) => Attempt(Returned(false, None), waited)
          case Raised(IndexError) => Attempt(Escaped(IndexError), waited)
          case Polling => Attempt(Stuck, waited)
  }

  /** Every call of an attempt is about its zone, and none is a `get` of an instance or a delete. */
  lemma AttemptCallsStayInZone(cfg: Config, z: ZoneCloud, base: string)
    ensures forall c <- ZoneAttempt(cfg, z, base).calls :: c.zone == z.name && !c.GetInstance? && !c.Delete?
  {
    var a := ZoneAttempt(cfg, z, base);
    if z.accelerators.Ok? && AnyOffers(z.accelerators.value, cfg.gpuType) && z.insert.Ok? {
      var polls := Polls(z.name, PollsUsed(z.insertPolls));
      assert a.calls == [ListAcceleratorTypes(z.name), a.calls[1]] + polls;
    }
  }

  /** An attempt sends at most one insert, right after the listing. */
  lemma AttemptInsertsOnce(cfg: Config, z: ZoneCloud, base: string)
    ensures var a := ZoneAttempt(cfg, z, base);
      forall i :: 0 <= i < |a.calls| && a.calls[i].Insert? ==> i == 1
  {
    var a := ZoneAttempt(cfg, z, base);
    if z.accelerators.Ok? && AnyOffers(z.accelerators.value, cfg.gpuType) && z.insert.Ok? {
      var polls := Polls(z.name, PollsUsed(z.insertPolls));
      assert a.calls == [ListAcceleratorTypes(z.name), a.calls[1]] + polls;
    }
  }

  /** `wait_for_operation`: poll until DONE; raise on an embedded error. */
  method WaitForOperation(zone: string, polls: seq<Reply<Operation>>) returns (w: Wait, calls: seq<Call>)
    ensures w == WaitOutcome(polls)
    ensures calls == Polls(zone, PollsUsed(polls))
    ensures w.Completed? ==> w.result.status == Done && w.result.error.None?
  {
    calls := [];
    var i := 0;
    while i < |polls|
      invariant 0 <= i <= |polls|
      invariant forall j :: 0 <= j < i ==> !Terminal(polls[j])
      invariant calls == Polls(zone, i)
    {
      var reply := polls[i];
      calls := calls + [GetOperation(zone)];
      if reply.Failed? {
        FirstTerminalDecides(polls, i);
        return Raised(ApiCallError(reply.code)), calls;
      }
      var result := reply.value;
      if result.status == Done {
        FirstTerminalDecides(polls, i);
        if result.error.Some? {
          var errors := result.error.value;
          if |errors| == 0 {
            // `errors[0]` on an empty list
            return Raised(IndexError), calls;
          }
          return Raised(ApiCallError(errors[0])), calls;
        }
        return Completed(result), calls;
      }
      i := i + 1;
    }
    w := Polling;
  }

  /** The method form of `check_and_create_vm_in_zone`, with its loop over the accelerator types. */
  method CheckAndCreateVmInZone(cfg: Config, z: ZoneCloud, base: string) returns (a: Attempt)
    ensures a == ZoneAttempt(cfg, z, base)
  {
    var calls := [ListAcceleratorTypes(z.name)];
    if z.accelerators.Failed? {
      return Attempt(Returned(false, None), calls);
    }
    var accelerators := z.accelerators.value;
    for i := 0 to |accelerators|
      invariant forall j :: 0 <= j < i ==> !Offers(accelerators[j], cfg.gpuType)
    {
      if Offers(accelerators[i], cfg.gpuType) {
        assert accelerators[i] in accelerators;
        var instanceName := InstanceName(base, z.uuid);
        var instance := CreateVmWithGpu(cfg.project, z.name, instanceName, cfg.network, cfg.subnetwork,
                                        cfg.machineType, cfg.imageProject, cfg.imageFamily, cfg.gpuType);
        calls := calls + [Insert(z.name, instance)];
        if z.insert.Failed? {
          return Attempt(Returned(false, None), calls);
        }
        var w, polls := WaitForOperation(z.name, z.insertPolls);
        calls := calls + polls;
        match w {
          case Completed(_) => a := Attempt(Returned(true, Some(instanceName)), calls);
          case Raised(ApiCallError(_)) => a := Attempt(Returned(false, None), calls);
          case Raised(IndexError) => a := Attempt(Escaped(IndexError), calls);
          case Polling => a := Attempt(Stuck, calls);
        }
        return;
      }
    }
    a := Attempt(Returned(false, None), calls);
  }

  /** `instance_exists`: true exactly when `get` does not raise. */
  function InstanceExists(lookup: Reply<()>): (found: bool)
    ensures found <==> lookup.Ok?
  {
    match lookup
    case Ok(_) => true
    case Failed(_) => false
  }

  /** gpu_chase.py `delete_instance`: delete, wait, and report any GoogleAPICallError. */
  method DeleteInstance(zone: string, name: string, script: DeleteScript) returns (d: DeleteRun)
    ensures d == DeleteSpec(zone, name, script)
  {
    var calls := [Delete(zone, name)];
    if script.request.Failed? {
      return DeleteRun(Reported(ApiCallError(script.request.code)), calls);
    }
    var w, polls := WaitForOperation(zone, script.polls);
    calls := calls + polls;
    match w {
      case Completed(_) => d := DeleteRun(Deleted, calls);
      case Raised(ApiCallError(code)) => d := DeleteRun(Reported(ApiCallError(code)), calls);
      case Raised(IndexError) => d := DeleteRun(Propagated(IndexError), calls);
      case Polling => d := DeleteRun(StillPolling, calls);
    }
  }

  /** Where a run of the zone loop is. */
  datatype Phase =
    | Scanning          // still in the loop, or through every zone
    | TargetReached     // left the loop at the `vm_counter >= max_vms` check
    | Aborted(e: Exception)
    | Hanging           // a wait never saw DONE

  /** The run so far: `vm_counter`, how many zones were tried, where instances were created, the calls sent. */
  datatype ChaseState = ChaseState(vmCounter: int, scanned: nat, createdIn: seq<string>, calls: seq<Call>, phase: Phase)

  /** The rollback of lines 127-129: probe for the instance and delete it if it exists. */
  function Rollback(st: ChaseState, z: ZoneCloud, name: string): ChaseState {
    var probed := st.(calls := st.calls + [GetInstance(z.name, name)]);
    if !InstanceExists(z.lookup) then probed
    else
      var d := DeleteSpec(z.name, name, z.rollback);
      var deleted := probed.(calls := probed.calls + d.calls);
      match d.outcome
      case Propagated(e) => deleted.(phase := Aborted(e))
      case StillPolling => deleted.(phase := Hanging)
      case _ => deleted
  }

  /** The attempt `check_and_create_vm_in_zone` makes in each zone, in order. */
  function Attempts(cfg: Config, zones: seq<ZoneCloud>): (attempts: seq<Attempt>)
    ensures |attempts| == |zones|
  {
    if |zones| == 0 then []
    else Attempts(cfg, zones[..|zones| - 1]) + [ZoneAttempt(cfg, zones[|zones| - 1], InstanceNameBase)]
  }

  /** The `i`-th of them is the attempt in the `i`-th zone. */
  lemma {:induction false} AttemptOf(cfg: Config, zones: seq<ZoneCloud>, i: nat)
    requires i < |zones|
    ensures Attempts(cfg, zones)[i] == ZoneAttempt(cfg, zones[i], InstanceNameBase)
  {
    var n := |zones| - 1;
    if i < n {
      AttemptOf(cfg, zones[..n], i);
    }
  }

  /** One pass through the body of `for zone in available_zones`, whose attempt in zone `z` is `a`. */
  function Visit(cfg: Config, st: ChaseState, z: ZoneCloud, a: Attempt): (next: ChaseState)
    ensures st.scanned <= next.scanned <= st.scanned + 1
  {
    if !st.phase.Scanning? then st
    else if st.vmCounter >= cfg.maxVms then st.(phase := TargetReached)
    else
      var visited := st.(scanned := st.scanned + 1, calls := st.calls + a.calls);
      match a.result
      case Escaped(e) => visited.(phase := Aborted(e))
      case Stuck => visited.(phase := Hanging)
      case Returned(success, name) =>
        if success then visited.(vmCounter := st.vmCounter + 1, createdIn := st.createdIn + [z.name])
        else if name.Some? && name.value != "" then Rollback(visited, z, name.value)
        else visited
  }

  /** The run after the loop has gone through the first `k` zones, whose attempts are `attempts`. */
  function RunUpTo(cfg: Config, zones: seq<ZoneCloud>, attempts: seq<Attempt>, k: nat): (st: ChaseState)
    requires k <= |zones| == |attempts|
    ensures st.scanned <= k
  {
    if k == 0 then ChaseState(0, 0, [], [], Scanning)
    else Visit(cfg, RunUpTo(cfg, zones, attempts, k - 1), zones[k - 1], attempts[k - 1])
  }

  /** The whole run of `find_and_create_vms`. */
  function Chase(cfg: Config, zones: seq<ZoneCloud>): ChaseState {
    RunUpTo(cfg, zones, Attempts(cfg, zones), |zones|)
  }

  /** Once the loop has left, the remaining zones change nothing. */
  lemma {:induction false} SettledStaysSettled(cfg: Config, zones: seq<ZoneCloud>, attempts: seq<Attempt>, k: nat, n: nat)
    requires k <= n <= |zones| == |attempts|
    requires !RunUpTo(cfg, zones, attempts, k).phase.Scanning?
    ensures RunUpTo(cfg, zones, attempts, n) == RunUpTo(cfg, zones, attempts, k)
    decreases n
  {
    if n > k {
      SettledStaysSettled(cfg, zones, attempts, k, n - 1);
    }
  }

  /**
   * The body of `for zone in available_zones` past the `vm_counter >= max_vms`
   * check: try the zone, count a created instance, and roll back a failed
   * attempt that left a name behind.
   */
  method TryZone(cfg: Config, zones: seq<ZoneCloud>, i: nat, st: ChaseState) returns (next: ChaseState)
    requires i < |zones| && st.phase.Scanning? && st.vmCounter < cfg.maxVms
    ensures next == Visit(cfg, st, zones[i], Attempts(cfg, zones)[i])
  {
    var zone := zones[i];
    AttemptOf(cfg, zones, i);
    var vmCounter, calls, phase := st.vmCounter, st.calls, st.phase;
    var createdIn := st.createdIn;
    var a := CheckAndCreateVmInZone(cfg, zone, InstanceNameBase);
    calls := calls + a.calls;
    match a.result {
      case Escaped(e) =>
        phase := Aborted(e);
      case Stuck =>
        phase := Hanging;
      case Returned(success, instanceName) =>
        if success {
          vmCounter := vmCounter + 1;
          createdIn := createdIn + [zone.name];
        } else {
          // a failed attempt never returns a name, so the rollback below never runs
          assert instanceName == None;
          match instanceName {
            case Some(name) =>
              if name != "" {
                calls := calls + [GetInstance(zone.name, name)];
                if InstanceExists(zone.lookup) {
                  var d := DeleteInstance(zone.name, name, zone.rollback);
                  calls := calls + d.calls;
                  match d.outcome {
                    case Propagated(e) => phase := Aborted(e);
                    case StillPolling => phase := Hanging;
                    case _ =>
                  }
                }
              }
            case None =>
          }
        }
    }
    next := ChaseState(vmCounter, st.scanned + 1, createdIn, calls, phase);
  }

  /** `find_and_create_vms`: the loop over the zones, left at the target or at an escaping exception. */
  method FindAndCreateVms(cfg: Config, zones: seq<ZoneCloud>) returns (run: ChaseState)
    ensures run == Chase(cfg, zones)
  {
    ghost var attempts := Attempts(cfg, zones);
    run := ChaseState(0, 0, [], [], Scanning);
    for i := 0 to |zones|
      invariant run.phase.Scanning?
      invariant RunUpTo(cfg, zones, attempts, i) == run
    {
      if run.vmCounter >= cfg.maxVms {
        run := run.(phase := TargetReached);
        SettledStaysSettled(cfg, zones, attempts, i + 1, |zones|);
        return;
      }
      run := TryZone(cfg, zones, i, run);
      if !run.phase.Scanning? {
        SettledStaysSettled(cfg, zones, attempts, i + 1, |zones|);
        return;
      }
    }
  }
}
