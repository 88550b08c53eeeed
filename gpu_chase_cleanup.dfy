/**
 * gpu_chase_cleanup.py: in every zone, list the instances, keep those whose
 * name starts with a prefix, and delete them one by one, reporting failed
 * deletes and going on.
 *
 * As in gpu_chase.py, the provider is data: the zone listing, each zone's
 * instance listing, and for each instance name how its delete turns out. The
 * pass's effect on the provider is the sequence of calls it sends.
 */
module GpuChaseCleanup {
  import opened Text
  import opened Compute
  import opened Operations

  /** The names of `names` that start with `prefix`, in their order. */
  function FilterPrefix(names: seq<string>, prefix: string): (matched: seq<string>)
    ensures |matched| <= |names|
  {
    if |names| == 0 then []
    else
      var n := |names| - 1;
      FilterPrefix(names[..n], prefix) + if StartsWith(names[n], prefix) then [names[n]] else []
  }

  /**
   * `list_instances_by_prefix`: walk the listing and append each name that
   * starts with `prefix`. A failed listing raises out of the function.
   */
  method ListInstancesByPrefix(listing: Reply<seq<string>>, prefix: string) returns (matched: Reply<seq<string>>)
    ensures listing.Failed? ==> matched == listing
    ensures listing.Ok? ==> matched == Ok(FilterPrefix(listing.value, prefix))
  {
    if listing.Failed? {
      return listing;
    }
    var instances := listing.value;
    var matchedInstances: seq<string> := [];
    for i := 0 to |instances|
      invariant matchedInstances == FilterPrefix(instances[..i], prefix)
    {
      assert instances[..i + 1][..i] == instances[..i];
      if StartsWith(instances[i], prefix) {
        matchedInstances := matchedInstances + [instances[i]];
      }
    }
    assert instances[..|instances|] == instances;
    matched := Ok(matchedInstances);
  }

  /**
   * gpu_chase_cleanup.py `delete_instance`: send the delete, then poll its
   * operation until DONE, raising on an embedded error; every GoogleAPICallError
   * is caught and reported.
   */
  method DeleteInstance(zone: string, name: string, script: DeleteScript) returns (d: DeleteRun)
    ensures d == DeleteSpec(zone, name, script)
  {
    var calls := [Delete(zone, name)];
    if script.request.Failed? {
      return DeleteRun(Reported(ApiCallError(script.request.code)), calls);
    }
    var polls := script.polls;
    var i := 0;
    while i < |polls|
      invariant 0 <= i <= |polls|
      invariant forall j :: 0 <= j < i ==> !Terminal(polls[j])
      invariant calls == [Delete(zone, name)] + Polls(zone, i)
    {
      var reply := polls[i];
      calls := calls + [GetOperation(zone)];
      if reply.Failed? {
        FirstTerminalDecides(polls, i);
        return DeleteRun(Reported(ApiCallError(reply.code)), calls);
      }
      var result := reply.value;
      if result.status == Done {
        FirstTerminalDecides(polls, i);
        if result.error.Some? {
          var errors := result.error.value;
          if |errors| == 0 {
            // `result.error.errors[0]` on an empty list
            return DeleteRun(Propagated(IndexError), calls);
          }
          return DeleteRun(Reported(ApiCallError(errors[0])), calls);
        }
        break;
      }
      i := i + 1;
    }
    if i == |polls| {
      return DeleteRun(StillPolling, calls);
    }
    d := DeleteRun(Deleted, calls);
  }

  /** What the provider does for one zone: its instance listing, and how deleting each name turns out. */
  datatype ZoneInventory = ZoneInventory(
    name: string,
    listing: Reply<seq<string>>,
    deletion: string -> DeleteScript)

  /** One `delete_instance` call of the pass and how it ended. */
  datatype DeleteAttempt = DeleteAttempt(zone: string, instance: string, outcome: Deletion)

  /** Where a pass is. */
  datatype SweepPhase =
    | Sweeping                  // still in the loops, or through every zone
    | SweepAborted(e: Exception)
    | SweepStuck                // a delete's wait never saw DONE

  /** The pass so far: the calls sent and the deletes made. */
  datatype Sweep = Sweep(calls: seq<Call>, deletes: seq<DeleteAttempt>, phase: SweepPhase)

  /** One pass of `for instance_name in matched_instances`. */
  function DeleteStep(st: Sweep, zone: ZoneInventory, name: string): Sweep {
    if !st.phase.Sweeping? then st
    else
      var d := DeleteSpec(zone.name, name, zone.deletion(name));
      var next := st.(calls := st.calls + d.calls, deletes := st.deletes + [DeleteAttempt(zone.name, name, d.outcome)]);
      match d.outcome
      case Propagated(e) => next.(phase := SweepAborted(e))
      case StillPolling => next.(phase := SweepStuck)
      case _ => next
  }

  /** The pass after deleting the first `j` names of `matched` in `zone`. */
  function DeleteUpTo(start: Sweep, zone: ZoneInventory, matched: seq<string>, j: nat): Sweep
    requires j <= |matched|
  {
    if j == 0 then start else DeleteStep(DeleteUpTo(start, zone, matched, j - 1), zone, matched[j - 1])
  }

  /** One pass of `for zone in zones`: list, filter, and delete the matches if there are any. */
  function SweepZone(st: Sweep, zone: ZoneInventory, prefix: string): Sweep {
    if !st.phase.Sweeping? then st
    else
      var listed := st.(calls := st.calls + [ListInstances(zone.name)]);
      match zone.listing
      case Failed(code) => listed.(phase := SweepAborted(ApiCallError(code)))
      case Ok(names) =>
        var matched := FilterPrefix(names, prefix);
        if |matched| > 0 then DeleteUpTo(listed, zone, matched, |matched|) else listed
  }

  /** The pass after the first `k` zones. */
  function SweepUpTo(prefix: string, zones: seq<ZoneInventory>, k: nat): Sweep
    requires k <= |zones|
  {
    if k == 0 then Sweep([], [], Sweeping) else SweepZone(SweepUpTo(prefix, zones, k - 1), zones[k - 1], prefix)
  }

  /** The whole of `delete_all_instances_with_prefix`; a failed zone listing raises before any zone. */
  function Purge(prefix: string, zoneListing: Reply<seq<ZoneInventory>>): Sweep {
    match zoneListing
    case Failed(code) => Sweep([], [], SweepAborted(ApiCallError(code)))
    case Ok(zones) => SweepUpTo(prefix, zones, |zones|)
  }

  /** Once a delete has raised out of the pass, the remaining names change nothing. */
  lemma {:induction false} DeletesSettled(start: Sweep, zone: ZoneInventory, matched: seq<string>, j: nat, n: nat)
    requires j <= n <= |matched|
    requires !DeleteUpTo(start, zone, matched, j).phase.Sweeping?
    ensures DeleteUpTo(start, zone, matched, n) == DeleteUpTo(start, zone, matched, j)
    decreases n
  {
    if n > j {
      DeletesSettled(start, zone, matched, j, n - 1);
    }
  }

  /** Once an exception has left the pass, the remaining zones change nothing. */
  lemma {:induction false} SweepSettled(prefix: string, zones: seq<ZoneInventory>, k: nat, n: nat)
    requires k <= n <= |zones|
    requires !SweepUpTo(prefix, zones, k).phase.Sweeping?
    ensures SweepUpTo(prefix, zones, n) == SweepUpTo(prefix, zones, k)
    decreases n
  {
    if n > k {
      SweepSettled(prefix, zones, k, n - 1);
    }
  }

  /**
   * The inner loop of `delete_all_instances_with_prefix`: `delete_instance`
   * for each matched name in turn, from the pass `st`.
   */
  method DeleteMatched(st: Sweep, zone: ZoneInventory, matched: seq<string>) returns (next: Sweep)
    requires st.phase.Sweeping?
    ensures next == DeleteUpTo(st, zone, matched, |matched|)
  {
    var calls, deletes := st.calls, st.deletes;
    for j := 0 to |matched|
      invariant DeleteUpTo(st, zone, matched, j) == Sweep(calls, deletes, Sweeping)
    {
      var instanceName := matched[j];
      var d := DeleteInstance(zone.name, instanceName, zone.deletion(instanceName));
      calls := calls + d.calls;
      deletes := deletes + [DeleteAttempt(zone.name, instanceName, d.outcome)];
      if d.outcome.Propagated? || d.outcome.StillPolling? {
        next := Sweep(calls, deletes, if d.outcome.Propagated? then SweepAborted(d.outcome.e) else SweepStuck);
        DeletesSettled(st, zone, matched, j + 1, |matched|);
        return;
      }
    }
    next := Sweep(calls, deletes, Sweeping);
  }

  /** `delete_all_instances_with_prefix`: the loop over the zones. */
  method DeleteAllInstancesWithPrefix(prefix: string, zoneListing: Reply<seq<ZoneInventory>>) returns (sweep: Sweep)
    ensures sweep == Purge(prefix, zoneListing)
  {
    if zoneListing.Failed? {
      return Sweep([], [], SweepAborted(ApiCallError(zoneListing.code)));
    }
    var zones := zoneListing.value;
    sweep := Sweep([], [], Sweeping);
    for i := 0 to |zones|
      invariant sweep.phase.Sweeping?
      invariant SweepUpTo(prefix, zones, i) == sweep
    {
      var zone := zones[i];
      var listed := sweep.(calls := sweep.calls + [ListInstances(zone.name)]);
      var matchedInstances := ListInstancesByPrefix(zone.listing, prefix);
      if matchedInstances.Failed? {
        // the listing's error is not caught: it ends the pass
        sweep := listed.(phase := SweepAborted(ApiCallError(matchedInstances.code)));
        SweepSettled(prefix, zones, i + 1, |zones|);
        return;
      }
      var matched := matchedInstances.value;
      if |matched| > 0 {
        sweep := DeleteMatched(listed, zone, matched);
        if !sweep.phase.Sweeping? {
          SweepSettled(prefix, zones, i + 1, |zones|);
          return;
        }
      } else {
        sweep := listed;
      }
    }
  }
}
