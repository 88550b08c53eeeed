/**
 * What gpu_chase.py's zone loop guarantees: the counter never passes
 * `max_vms`, no zone is tried once it is reached, every zone is tried at most
 * once and in order, and the rollback branch never runs.
 *
 * The loop lemmas are stated for any attempts of the shape
 * `check_and_create_vm_in_zone` can produce (`WellFormed`), and then applied
 * to the attempts it does produce.
 */
module GpuChaseProperties {
  import opened Prelude
  import opened Text
  import opened Compute
  import opened Operations
  import opened Provisioner
  import opened GpuChase

  /**
   * How an attempt can end: a failure names no instance, the only exception
   * that escapes is the IndexError, and no rollback call is among its calls.
   */
  predicate WellFormed(a: Attempt) {
    && (a.result.Returned? && !a.result.success ==> a.result.instanceName.None?)
    && (a.result.Escaped? ==> a.result.e == IndexError)
    && (forall c <- a.calls :: !c.GetInstance? && !c.Delete?)
  }

  predicate AllWellFormed(attempts: seq<Attempt>) {
    forall i :: 0 <= i < |attempts| ==> WellFormed(attempts[i])
  }

  /** Every attempt `check_and_create_vm_in_zone` makes has that shape. */
  lemma AttemptsWellFormed(cfg: Config, zones: seq<ZoneCloud>)
    ensures AllWellFormed(Attempts(cfg, zones))
  {
    var attempts := Attempts(cfg, zones);
    forall i | 0 <= i < |attempts|
      ensures WellFormed(attempts[i])
    {
      AttemptOf(cfg, zones, i);
      AttemptCallsStayInZone(cfg, zones[i], InstanceNameBase);
    }
  }

  /** The attempt created an instance. */
  predicate Succeeded(a: Attempt) {
    a.result.Returned? && a.result.success
  }

  /** The calls of the first `n` attempts, one attempt after another. */
  function CallsUpTo(attempts: seq<Attempt>, n: nat): seq<Call>
    requires n <= |attempts|
  {
    if n == 0 then [] else CallsUpTo(attempts, n - 1) + attempts[n - 1].calls
  }

  /** The names of the first `n` zones whose attempt created an instance, in order. */
  function CreatedUpTo(zones: seq<ZoneCloud>, attempts: seq<Attempt>, n: nat): (created: seq<string>)
    requires n <= |zones| == |attempts|
    ensures |created| <= n
  {
    if n == 0 then []
    else CreatedUpTo(zones, attempts, n - 1) + if Succeeded(attempts[n - 1]) then [zones[n - 1].name] else []
  }

  /** Calls of well-formed attempts hold no rollback probe and no delete. */
  lemma {:induction false} CallsUpToNoRollback(attempts: seq<Attempt>, n: nat)
    requires n <= |attempts| && AllWellFormed(attempts)
    ensures forall c <- CallsUpTo(attempts, n) :: !c.GetInstance? && !c.Delete?
  {
    if n > 0 {
      CallsUpToNoRollback(attempts, n - 1);
      assert WellFormed(attempts[n - 1]);
    }
  }

  /** More zones created at least as many instances. */
  lemma {:induction false} CreatedUpToGrows(zones: seq<ZoneCloud>, attempts: seq<Attempt>, i: nat, j: nat)
    requires i <= j <= |zones| == |attempts|
    ensures |CreatedUpTo(zones, attempts, i)| <= |CreatedUpTo(zones, attempts, j)|
    decreases j
  {
    if i < j {
      CreatedUpToGrows(zones, attempts, i, j - 1);
    }
  }

  /** The body of `for zone in available_zones` with its rollback branch taken out. */
  function PlainVisit(cfg: Config, st: ChaseState, z: ZoneCloud, a: Attempt): ChaseState {
    if !st.phase.Scanning? then st
    else if st.vmCounter >= cfg.maxVms then st.(phase := TargetReached)
    else
      var visited := st.(scanned := st.scanned + 1, calls := st.calls + a.calls);
      match a.result
      case Escaped(e) => visited.(phase := Aborted(e))
      case Stuck => visited.(phase := Hanging)
      case Returned(success, _) =>
        if success then visited.(vmCounter := st.vmCounter + 1, createdIn := st.createdIn + [z.name]) else visited
  }

  /** The zone loop without its rollback branch, after the first `k` zones. */
  function PlainRun(cfg: Config, zones: seq<ZoneCloud>, attempts: seq<Attempt>, k: nat): (st: ChaseState)
    requires k <= |zones| == |attempts|
    ensures st.scanned <= k
  {
    if k == 0 then ChaseState(0, 0, [], [], Scanning)
    else PlainVisit(cfg, PlainRun(cfg, zones, attempts, k - 1), zones[k - 1], attempts[k - 1])
  }

  /** With attempts of the shape `check_and_create_vm_in_zone` produces, the rollback branch changes nothing. */
  lemma {:induction false} RollbackIsDead(cfg: Config, zones: seq<ZoneCloud>, attempts: seq<Attempt>, k: nat)
    requires k <= |zones| == |attempts| && AllWellFormed(attempts)
    ensures RunUpTo(cfg, zones, attempts, k) == PlainRun(cfg, zones, attempts, k)
  {
    if k > 0 {
      RollbackIsDead(cfg, zones, attempts, k - 1);
      assert WellFormed(attempts[k - 1]);
    }
  }

  /** While the zone loop is running, it has tried every zone so far. */
  lemma {:induction false} RunScanned(cfg: Config, zones: seq<ZoneCloud>, attempts: seq<Attempt>, k: nat)
    requires k <= |zones| == |attempts|
    ensures var st := PlainRun(cfg, zones, attempts, k);
      st.phase.Scanning? ==> st.scanned == k
  {
    if k > 0 {
      RunScanned(cfg, zones, attempts, k - 1);
    }
  }

  /** The calls the zone loop has sent after the first `k` zones: those of the attempts of the zones it tried, in order. */
  lemma {:induction false} RunCalls(cfg: Config, zones: seq<ZoneCloud>, attempts: seq<Attempt>, k: nat)
    requires k <= |zones| == |attempts|
    ensures var st := PlainRun(cfg, zones, attempts, k);
      st.calls == CallsUpTo(attempts, st.scanned)
  {
    if k > 0 {
      RunCalls(cfg, zones, attempts, k - 1);
      RunScanned(cfg, zones, attempts, k - 1);
    }
  }

  /** `vm_counter` is the number of zones where the loop created an instance. */
  lemma {:induction false} RunCounts(cfg: Config, zones: seq<ZoneCloud>, attempts: seq<Attempt>, k: nat)
    requires k <= |zones| == |attempts|
    ensures var st := PlainRun(cfg, zones, attempts, k);
      st.vmCounter == |st.createdIn|
  {
    if k > 0 {
      RunCounts(cfg, zones, attempts, k - 1);
    }
  }

  /**
   * Where the zone loop has created instances after the first `k` zones: in
   * the zones it tried whose attempt succeeded, in order.
   */
  lemma {:induction false} RunCreated(cfg: Config, zones: seq<ZoneCloud>, attempts: seq<Attempt>, k: nat)
    requires k <= |zones| == |attempts|
    ensures var st := PlainRun(cfg, zones, attempts, k);
      st.createdIn == CreatedUpTo(zones, attempts, st.scanned)
  {
    if k > 0 {
      RunCreated(cfg, zones, attempts, k - 1);
      RunScanned(cfg, zones, attempts, k - 1);
    }
  }

  /** The last zone the loop tried was reached with the counter below the target. */
  lemma {:induction false} RunTriesBelowTarget(cfg: Config, zones: seq<ZoneCloud>, attempts: seq<Attempt>, k: nat)
    requires k <= |zones| == |attempts|
    ensures var st := PlainRun(cfg, zones, attempts, k);
      0 < st.scanned ==> |CreatedUpTo(zones, attempts, st.scanned - 1)| < cfg.maxVms
  {
    if k > 0 {
      RunTriesBelowTarget(cfg, zones, attempts, k - 1);
      var st := PlainRun(cfg, zones, attempts, k - 1);
      if st.phase.Scanning? && st.vmCounter < cfg.maxVms {
        RunCreated(cfg, zones, attempts, k - 1);
        RunCounts(cfg, zones, attempts, k - 1);
        RunScanned(cfg, zones, attempts, k - 1);
        assert PlainRun(cfg, zones, attempts, k).scanned == st.scanned + 1;
      } else {
        assert PlainRun(cfg, zones, attempts, k).scanned == st.scanned;
      }
    }
  }

  /**
   * Why the zone loop stops: it reached the target with zones left, or the
   * last zone it tried did not return (an IndexError escaped, or a wait never
   * saw DONE).
   */
  lemma {:induction false} RunStops(cfg: Config, zones: seq<ZoneCloud>, attempts: seq<Attempt>, k: nat)
    requires k <= |zones| == |attempts| && AllWellFormed(attempts)
    ensures var st := PlainRun(cfg, zones, attempts, k);
      && (st.phase.TargetReached? ==> st.vmCounter >= cfg.maxVms && st.scanned < k)
      && (st.phase.Aborted? || st.phase.Hanging? ==> 0 < st.scanned && !attempts[st.scanned - 1].result.Returned?)
      && (st.phase.Aborted? ==> st.phase.e == IndexError)
  {
    if k > 0 {
      RunStops(cfg, zones, attempts, k - 1);
      RunScanned(cfg, zones, attempts, k - 1);
      assert WellFormed(attempts[k - 1]);
    }
  }

  /** The counter stays within the target, for any attempts of the right shape. */
  lemma RunCounterBound(cfg: Config, zones: seq<ZoneCloud>, attempts: seq<Attempt>)
    requires |zones| == |attempts|
    ensures var run := PlainRun(cfg, zones, attempts, |zones|);
      cfg.maxVms >= 0 ==> 0 <= run.vmCounter <= cfg.maxVms
  {
    RunCreated(cfg, zones, attempts, |zones|);
    RunCounts(cfg, zones, attempts, |zones|);
    RunTriesBelowTarget(cfg, zones, attempts, |zones|);
  }

  /** When the target is met, the last zone tried created the last instance, for any attempts of the right shape. */
  lemma RunLastTriedMetTarget(cfg: Config, zones: seq<ZoneCloud>, attempts: seq<Attempt>)
    requires |zones| == |attempts|
    requires cfg.maxVms > 0
    requires PlainRun(cfg, zones, attempts, |zones|).vmCounter >= cfg.maxVms
    ensures var run := PlainRun(cfg, zones, attempts, |zones|);
      && run.vmCounter == cfg.maxVms
      && 0 < run.scanned
      && Succeeded(attempts[run.scanned - 1])
      && |CreatedUpTo(zones, attempts, run.scanned - 1)| == cfg.maxVms - 1
  {
    RunCreated(cfg, zones, attempts, |zones|);
    RunCounts(cfg, zones, attempts, |zones|);
    RunTriesBelowTarget(cfg, zones, attempts, |zones|);
  }

  /**
   * `vm_counter` counts exactly the zones where an instance was created, in
   * the order they were tried, and with `max_vms >= 0` stays within 0..max_vms.
   */
  lemma CounterWithinTarget(cfg: Config, zones: seq<ZoneCloud>)
    ensures var run := Chase(cfg, zones);
      var attempts := Attempts(cfg, zones);
      && run.createdIn == CreatedUpTo(zones, attempts, run.scanned)
      && run.vmCounter == |run.createdIn|
      && (cfg.maxVms >= 0 ==> 0 <= run.vmCounter <= cfg.maxVms)
  {
    var attempts := Attempts(cfg, zones);
    AttemptsWellFormed(cfg, zones);
    RollbackIsDead(cfg, zones, attempts, |zones|);
    RunCreated(cfg, zones, attempts, |zones|);
    RunCounts(cfg, zones, attempts, |zones|);
    RunCounterBound(cfg, zones, attempts);
  }

  /** With `max_vms <= 0` no zone is tried and no call is sent. */
  lemma NonPositiveTargetScansNothing(cfg: Config, zones: seq<ZoneCloud>)
    requires cfg.maxVms <= 0
    ensures var run := Chase(cfg, zones);
      && run.scanned == 0 && run.calls == [] && run.vmCounter == 0
      && (|zones| > 0 ==> run.phase == TargetReached)
  {
    var attempts := Attempts(cfg, zones);
    AttemptsWellFormed(cfg, zones);
    RollbackIsDead(cfg, zones, attempts, |zones|);
    RunCalls(cfg, zones, attempts, |zones|);
    RunCreated(cfg, zones, attempts, |zones|);
    RunCounts(cfg, zones, attempts, |zones|);
    RunTriesBelowTarget(cfg, zones, attempts, |zones|);
    RunStops(cfg, zones, attempts, |zones|);
  }

  /**
   * Zones are tried in order, from the first: every zone tried was reached with
   * the counter below `max_vms`, and the loop stops only at that check (with
   * zones left), at an escaping IndexError or a wait that never sees DONE in
   * the last zone tried, or after the last zone.
   */
  lemma NoZoneScannedPastTarget(cfg: Config, zones: seq<ZoneCloud>)
    ensures var run := Chase(cfg, zones);
      var attempts := Attempts(cfg, zones);
      && run.scanned <= |zones|
      && (forall j :: 0 <= j < run.scanned ==> |CreatedUpTo(zones, attempts, j)| < cfg.maxVms)
      && (run.phase.Scanning? ==> run.scanned == |zones|)
      && (run.phase.TargetReached? ==> run.vmCounter >= cfg.maxVms && run.scanned < |zones|)
      && (run.phase.Aborted? || run.phase.Hanging? ==>
            0 < run.scanned && !attempts[run.scanned - 1].result.Returned?)
      && (run.phase.Aborted? ==> run.phase.e == IndexError)
  {
    var attempts := Attempts(cfg, zones);
    var run := Chase(cfg, zones);
    AttemptsWellFormed(cfg, zones);
    RollbackIsDead(cfg, zones, attempts, |zones|);
    RunScanned(cfg, zones, attempts, |zones|);
    RunTriesBelowTarget(cfg, zones, attempts, |zones|);
    RunStops(cfg, zones, attempts, |zones|);
    forall j | 0 <= j < run.scanned
      ensures |CreatedUpTo(zones, attempts, j)| < cfg.maxVms
    {
      CreatedUpToGrows(zones, attempts, j, run.scanned - 1);
    }
  }

  /**
   * When the target is met, the last zone tried is the one where the
   * `max_vms`-th instance was created: no zone after it was looked at.
   */
  lemma LastScannedZoneMetTarget(cfg: Config, zones: seq<ZoneCloud>)
    requires cfg.maxVms > 0
    requires Chase(cfg, zones).vmCounter >= cfg.maxVms
    ensures var run := Chase(cfg, zones);
      var attempts := Attempts(cfg, zones);
      && run.vmCounter == cfg.maxVms
      && 0 < run.scanned
      && Succeeded(attempts[run.scanned - 1])
      && |CreatedUpTo(zones, attempts, run.scanned - 1)| == cfg.maxVms - 1
  {
    var attempts := Attempts(cfg, zones);
    AttemptsWellFormed(cfg, zones);
    RollbackIsDead(cfg, zones, attempts, |zones|);
    RunLastTriedMetTarget(cfg, zones, attempts);
  }

  /**
   * The calls of a run are those of the zone attempts, zone after zone; the
   * rollback probe and delete are never sent, because a failed attempt always
   * returns `(False, None)`.
   */
  lemma RollbackNeverRuns(cfg: Config, zones: seq<ZoneCloud>)
    ensures var run := Chase(cfg, zones);
      && run.calls == CallsUpTo(Attempts(cfg, zones), run.scanned)
      && forall c <- run.calls :: !c.GetInstance? && !c.Delete?
  {
    var attempts := Attempts(cfg, zones);
    var run := Chase(cfg, zones);
    AttemptsWellFormed(cfg, zones);
    RollbackIsDead(cfg, zones, attempts, |zones|);
    RunCalls(cfg, zones, attempts, |zones|);
    CallsUpToNoRollback(attempts, run.scanned);
  }

  /**
   * Unless an exception escapes or a wait never ends in a zone the loop
   * reaches below the target, a run creates
   * `max_vms` instances when that many zones can take one, and otherwise as
   * many as there are such zones.
   */
  lemma CreatesUpToTarget(cfg: Config, zones: seq<ZoneCloud>)
    requires cfg.maxVms >= 0
    requires forall i :: 0 <= i < |zones| && |CreatedUpTo(zones, Attempts(cfg, zones), i)| < cfg.maxVms ==>
               Attempts(cfg, zones)[i].result.Returned?
    ensures var created := |CreatedUpTo(zones, Attempts(cfg, zones), |zones|)|;
      Chase(cfg, zones).vmCounter == if created < cfg.maxVms then created else cfg.maxVms
  {
    var attempts := Attempts(cfg, zones);
    var run := Chase(cfg, zones);
    CounterWithinTarget(cfg, zones);
    NoZoneScannedPastTarget(cfg, zones);
    if run.phase.TargetReached? {
      CreatedUpToGrows(zones, attempts, run.scanned, |zones|);
    }
  }
  /**
   * A zone's attempt creates an instance exactly when its listing succeeds
   * and names a matching accelerator type, the insert is accepted, and the
   * insert's operation finishes without error.
   */
  lemma AttemptSucceedsIff(cfg: Config, z: ZoneCloud, base: string)
    ensures var r := ZoneAttempt(cfg, z, base).result;
      (r.Returned? && r.success) <==>
        && z.accelerators.Ok?
        && (exists t <- z.accelerators.value :: Offers(t, cfg.gpuType))
        && z.insert.Ok?
        && WaitOutcome(z.insertPolls).Completed?
  {
  }

  /**
   * Every GoogleAPICallError inside an attempt, from the listing, the insert or
   * the wait, is caught and gives `(False, None)`, as does a zone without a
   * match. Past an accepted insert, the wait alone decides: an API error gives
   * `(False, None)`, an empty error list lets the IndexError escape, and a wait
   * that never sees DONE leaves the attempt stuck.
   */
  lemma AttemptApiErrorIsFailure(cfg: Config, z: ZoneCloud, base: string)
    ensures var r := ZoneAttempt(cfg, z, base).result;
      && (z.accelerators.Failed? ==> r == Returned(false, None))
      && (z.accelerators.Ok? && !AnyOffers(z.accelerators.value, cfg.gpuType) ==> r == Returned(false, None))
      && (z.accelerators.Ok? && AnyOffers(z.accelerators.value, cfg.gpuType) && z.insert.Failed? ==>
            r == Returned(false, None))
      && (z.accelerators.Ok? && AnyOffers(z.accelerators.value, cfg.gpuType) && z.insert.Ok? ==>
            var w := WaitOutcome(z.insertPolls);
            && (r == Returned(false, None) <==> w.Raised? && w.e.ApiCallError?)
            && (r == Escaped(IndexError) <==> w == Raised(IndexError))
            && (r == Stuck <==> w == Polling))
  {
  }

  /**
   * A zone gets a call after its listing exactly when the listing succeeds and
   * names a matching accelerator type; a zone without one returns `(False, None)`.
   */
  lemma AttemptInsertsOnlyOnMatch(cfg: Config, z: ZoneCloud, base: string)
    ensures var a := ZoneAttempt(cfg, z, base);
      && (|a.calls| > 1 <==> z.accelerators.Ok? && exists t <- z.accelerators.value :: Offers(t, cfg.gpuType))
      && (|a.calls| == 1 ==> a.result == Returned(false, None))
  {
  }

  /**
   * That call is the attempt's only insert: the instance named
   * `<base>-<first four characters of the uuid>`, built by `create_vm_with_gpu`
   * for this zone and the configured GPU type.
   */
  lemma AttemptInsertsTheInstance(cfg: Config, z: ZoneCloud, base: string)
    ensures var a := ZoneAttempt(cfg, z, base);
      |a.calls| > 1 ==>
        a.calls[1] == Insert(z.name, CreateVmWithGpu(cfg.project, z.name, InstanceName(base, z.uuid),
                                                     cfg.network, cfg.subnetwork, cfg.machineType,
                                                     cfg.imageProject, cfg.imageFamily, cfg.gpuType))
  {
  }

  /**
   * The scenario of zones A, B, C with `max_vms = 1`: A lists no matching
   * accelerator type, B does and its instance is created; the run creates one
   * instance, in B, and sends no call about C.
   */
  lemma FirstFreeZoneScenario(cfg: Config, a: ZoneCloud, b: ZoneCloud, c: ZoneCloud)
    requires cfg.maxVms == 1
    requires a.accelerators.Ok? && forall t <- a.accelerators.value :: !Offers(t, cfg.gpuType)
    requires b.accelerators.Ok? && exists t <- b.accelerators.value :: Offers(t, cfg.gpuType)
    requires b.insert.Ok? && WaitOutcome(b.insertPolls).Completed?
    ensures var run := Chase(cfg, [a, b, c]);
      && run.vmCounter == 1
      && run.createdIn == [b.name]
      && run.scanned == 2
      && run.phase == TargetReached
      && run.calls == [ListAcceleratorTypes(a.name)] + ZoneAttempt(cfg, b, InstanceNameBase).calls
  {
    var zones := [a, b, c];
    var attempts := Attempts(cfg, zones);
    AttemptSucceedsIff(cfg, a, InstanceNameBase);
    AttemptSucceedsIff(cfg, b, InstanceNameBase);
    AttemptInsertsOnlyOnMatch(cfg, a, InstanceNameBase);
    AttemptOf(cfg, zones, 0);
    AttemptOf(cfg, zones, 1);
    assert RunUpTo(cfg, zones, attempts, 1) == ChaseState(0, 1, [], [ListAcceleratorTypes(a.name)], Scanning);
    assert RunUpTo(cfg, zones, attempts, 2).createdIn == [b.name];
  }
}
